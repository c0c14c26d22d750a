/** Context window and prompt builder (src/chat/context.rs): select a
    channel's in-window history, advance the window when the selection reaches
    the threshold, and render the history as the chat prompt and the judge
    prompt. */
module Context {
  import opened Results
  import opened Db
  import opened Store
  import opened Provider
  import opened AppConfig
  import Social

  datatype Contexts = Contexts(chat: seq<ChatMessage>, social: seq<ChatMessage>)

  /** The error of a `fetch_one` that finds no row. */
  const RowNotFound := "no rows returned by a query that expected to return at least one row"

  /** The judge's system prompt is the row with this id. */
  const JudgePromptId := 1

  /** The number of characters of a replied-to message shown in a preview. */
  const PreviewLength := 128

  // ---------------------------------------------------------------------------
  // Selection

  /** The WHERE clause of the context query. */
  predicate InWindow(m: Message, channel: Id, window: nat, mode: ChatMode) {
    && m.channel == channel
    && m.time > window
    && (m.mentionsSelf || mode != MentionsOnly)
  }

  /** The rows satisfying the WHERE clause, in table (that is, id) order. */
  function Filter(rows: seq<Message>, channel: Id, window: nat, mode: ChatMode): (r: seq<Message>)
    ensures forall m :: m in r <==> m in rows && InWindow(m, channel, window, mode)
    ensures SortedById(rows) ==> SortedById(r)
  {
    if rows == [] then []
    else
      var rest := Filter(rows[1..], channel, window, mode);
      assert forall m :: m in rows <==> m == rows[0] || m in rows[1..];
      if InWindow(rows[0], channel, window, mode) then
        assert SortedById(rows) ==> forall m :: m in rest ==> rows[0].id < m.id by {
          if SortedById(rows) {
            forall m | m in rest ensures rows[0].id < m.id {
              var k :| 0 <= k < |rows[1..]| && rows[1..][k] == m;
              assert rows[k + 1] == m;
            }
          }
        }
        [rows[0]] + rest
      else rest
  }

  /** A row with the two columns of `LEFT JOIN messages rm ON rm.id = m.reply`. */
  function Joined(rows: seq<Message>, m: Message): (r: Message)
    ensures r.(replySenderName := m.replySenderName, replyContents := m.replyContents) == m
    ensures r.replyContents.Some? <==> m.reply.Some? && Stored(rows, m.reply.value)
    ensures r.replySenderName.Some? <==> r.replyContents.Some?
    ensures r.replyContents.Some? ==>
      var target := Find(rows, m.reply.value).value;
      r.replySenderName == Some(target.senderName) && r.replyContents == Some(target.contents)
  {
    match m.reply
    case None => m.(replySenderName := None, replyContents := None)
    case Some(target) =>
      match Find(rows, target)
      case None => m.(replySenderName := None, replyContents := None)
      case Some(t) => m.(replySenderName := Some(t.senderName), replyContents := Some(t.contents))
  }

  /** A reply preview can only be rendered when the replied-to author is known. */
  predicate ReplyConsistent(m: Message) {
    m.replyContents.Some? ==> m.replySenderName.Some?
  }

  predicate AllReplyConsistent(sel: seq<Message>) {
    forall k :: 0 <= k < |sel| ==> ReplyConsistent(sel[k])
  }

  /** The context query: the channel's in-window rows with their reply columns,
      ordered by id. */
  function Selection(t: Tables, channel: Id, mode: ChatMode): (r: seq<Message>)
    ensures AllReplyConsistent(r)
  {
    if channel in t.channels then
      var sel := Filter(t.messages, channel, t.channels[channel].contextWindow, mode);
      seq(|sel|, k requires 0 <= k < |sel| => Joined(t.messages, sel[k]))
    else []
  }

  /** The selection holds exactly the channel's stored rows with `time` past
      the window (in `MentionsOnly` mode only those mentioning the bot), each
      with its reply columns, strictly ascending by id. */
  lemma SelectionIsWindow(t: Tables, channel: Id, mode: ChatMode)
    requires Consistent(t) && channel in t.channels
    ensures var sel := Selection(t, channel, mode);
      var w := t.channels[channel].contextWindow;
      && SortedById(sel)
      && (forall k :: 0 <= k < |sel| ==>
            && sel[k].channel == channel && sel[k].time > w
            && (mode == MentionsOnly ==> sel[k].mentionsSelf)
            && exists m :: m in t.messages && InWindow(m, channel, w, mode) && sel[k] == Joined(t.messages, m))
      && (forall m :: m in t.messages && InWindow(m, channel, w, mode) ==> Joined(t.messages, m) in sel)
  {
    var w := t.channels[channel].contextWindow;
    var rows := Filter(t.messages, channel, w, mode);
    var sel := Selection(t, channel, mode);
    SelectionSorted(t, channel, mode);
    SelectionSound(t, channel, mode, w, rows);
    SelectionComplete(t, channel, mode, w, rows);
    assert SortedById(sel);
    assert forall k :: 0 <= k < |sel| ==>
      && sel[k].channel == channel && sel[k].time > w
      && (mode == MentionsOnly ==> sel[k].mentionsSelf)
      && exists m :: m in t.messages && InWindow(m, channel, w, mode) && sel[k] == Joined(t.messages, m);
    assert forall m :: m in t.messages && InWindow(m, channel, w, mode) ==> Joined(t.messages, m) in sel;
  }

  lemma SelectionSorted(t: Tables, channel: Id, mode: ChatMode)
    requires Consistent(t) && channel in t.channels
    ensures SortedById(Selection(t, channel, mode))
  {
    var rows := Filter(t.messages, channel, t.channels[channel].contextWindow, mode);
    var sel := Selection(t, channel, mode);
    assert forall k :: 0 <= k < |rows| ==> sel[k].id == rows[k].id;
  }

  lemma SelectionSound(t: Tables, channel: Id, mode: ChatMode, w: nat, rows: seq<Message>)
    requires channel in t.channels && w == t.channels[channel].contextWindow
    requires rows == Filter(t.messages, channel, w, mode)
    ensures var sel := Selection(t, channel, mode);
      forall k :: 0 <= k < |sel| ==>
        && sel[k].channel == channel && sel[k].time > w
        && (mode == MentionsOnly ==> sel[k].mentionsSelf)
        && exists m :: m in t.messages && InWindow(m, channel, w, mode) && sel[k] == Joined(t.messages, m)
  {
    var sel := Selection(t, channel, mode);
    forall k | 0 <= k < |sel|
      ensures sel[k].channel == channel && sel[k].time > w && (mode == MentionsOnly ==> sel[k].mentionsSelf)
      ensures exists m :: m in t.messages && InWindow(m, channel, w, mode) && sel[k] == Joined(t.messages, m)
    {
      assert sel[k] == Joined(t.messages, rows[k]);
      assert rows[k] in rows;
    }
  }

  lemma SelectionComplete(t: Tables, channel: Id, mode: ChatMode, w: nat, rows: seq<Message>)
    requires channel in t.channels && w == t.channels[channel].contextWindow
    requires rows == Filter(t.messages, channel, w, mode)
    ensures forall m :: m in t.messages && InWindow(m, channel, w, mode) ==> Joined(t.messages, m) in Selection(t, channel, mode)
  {
    var sel := Selection(t, channel, mode);
    forall m | m in t.messages && InWindow(m, channel, w, mode) ensures Joined(t.messages, m) in sel {
      var k :| 0 <= k < |rows| && rows[k] == m;
      assert sel[k] == Joined(t.messages, m);
    }
  }

  // ---------------------------------------------------------------------------
  // Window advance

  /** Where the window moves to: the `time` of the middle message once the
      selection has reached the threshold, and never for an empty selection. */
  function AdvanceTo(sel: seq<Message>, threshold: nat): (r: Option<nat>)
    ensures r.Some? <==> |sel| >= threshold && |sel| > 0
    ensures r.Some? ==> r.value == sel[|sel| / 2].time
  {
    if |sel| >= threshold then
      var middle := |sel| / 2;
      if middle < |sel| then Some(sel[middle].time) else None
    else None
  }

  function Advanced(t: Tables, channel: Id, sel: seq<Message>, threshold: nat): Tables {
    match AdvanceTo(sel, threshold)
    case None => t
    case Some(w) => t.(channels := WithContextWindow(t.channels, channel, w))
  }

  /** One window update at most: only the channel's `context_window` changes,
      to the middle selected message's `time`, which lies strictly past the old
      window; below the threshold, or with nothing selected, nothing changes. */
  lemma WindowAdvance(t: Tables, channel: Id, mode: ChatMode, threshold: nat)
    requires Consistent(t) && channel in t.channels
    ensures var sel := Selection(t, channel, mode);
      var t' := Advanced(t, channel, sel, threshold);
      var old_ := t.channels[channel];
      && t'.messages == t.messages
      && t'.channels.Keys == t.channels.Keys
      && (forall c :: c in t.channels && c != channel ==> t'.channels[c] == t.channels[c])
      && (if |sel| >= threshold && |sel| > 0
          then t'.channels[channel] == old_.(contextWindow := sel[|sel| / 2].time)
               && t'.channels[channel].contextWindow > old_.contextWindow
          else t' == t)
  {
    SelectionIsWindow(t, channel, mode);
  }

  // ---------------------------------------------------------------------------
  // Rendering one message

  /** Newlines become spaces, everything else is kept. */
  function Flatten(s: string): (r: string)
    ensures |r| == |s|
    ensures forall k :: 0 <= k < |s| ==> r[k] == if s[k] == '\n' then ' ' else s[k]
  {
    if s == [] then []
    else [if s[0] == '\n' then ' ' else s[0]] + Flatten(s[1..])
  }

  /** `chars().take(128).map(|c| if c == '\n' { ' ' } else { c })` */
  function Preview(s: string): (r: string)
    ensures |r| == if |s| < PreviewLength then |s| else PreviewLength
    ensures '\n' !in r
    ensures forall k :: 0 <= k < |r| ==> r[k] == if s[k] == '\n' then ' ' else s[k]
  {
    Flatten(if |s| < PreviewLength then s else s[..PreviewLength])
  }

  const ReplyMarker := "Replying to:\n"

  function ReplyBlock(name: string, preview: string): string {
    ReplyMarker + "\tReferenced Author ID: " + name + "\n\tReferenced Truncated Contents: " + preview + "\n"
  }

  function AuthorBlock(m: Message): string {
    "Author Name: " + m.senderDisplayName + "\nAuthor ID: " + m.senderName + "\nContents:\n" + m.contents
  }

  /** `build_contents`: the user-turn text of a message.  `None` stands for the
      panic on reply contents without a reply author. */
  function BuildContents(m: Message): (r: Option<string>)
    ensures r.Some? <==> ReplyConsistent(m)
    ensures r.Some? ==>
      |r.value| >= |AuthorBlock(m)| && r.value[|r.value| - |AuthorBlock(m)|..] == AuthorBlock(m)
    ensures r.Some? ==>
      (m.replyContents.Some? <==> |r.value| >= |ReplyMarker| && r.value[..|ReplyMarker|] == ReplyMarker)
    ensures r.Some? && m.replyContents.None? ==> r.value == AuthorBlock(m)
    ensures r.Some? && m.replyContents.Some? ==>
      r.value == ReplyBlock(m.replySenderName.value, Preview(m.replyContents.value)) + AuthorBlock(m)
  {
    var author := AuthorBlock(m);
    assert author[0] == 'A';
    match m.replyContents
    case None => Some(author)
    case Some(contents) =>
      match m.replySenderName
      case None => None
      case Some(name) =>
        var preview := Preview(contents);
        var res := ReplyBlock(name, preview) + author;
        assert res[..|ReplyMarker|] == ReplyMarker;
        assert res[|res| - |author|..] == author;
        Some(res)
  }

  // ---------------------------------------------------------------------------
  // The two prompt sequences

  /** The chat-context turn of one message. */
  function ChatTurn(m: Message): ChatMessage
    requires ReplyConsistent(m)
  {
    if m.isSelf then ChatMessage(Assistant, m.contents) else ChatMessage(User, BuildContents(m).value)
  }

  /** The two judge-context turns of one message: whether the bot wrote it, as
      a serialized judgment, then its rendering. */
  function JudgeTurns(m: Message): seq<ChatMessage>
    requires ReplyConsistent(m)
  {
    [ChatMessage(Assistant, Social.Serialize(Social.Judgment(m.isSelf))), ChatMessage(User, BuildContents(m).value)]
  }

  /** The system prompt, then one turn per selected message, in order. */
  function ChatContext(prompt: string, sel: seq<Message>): seq<ChatMessage>
    requires AllReplyConsistent(sel)
  {
    [ChatMessage(System, prompt)] + seq(|sel|, k requires 0 <= k < |sel| => ChatTurn(sel[k]))
  }

  function SocialContext(prompt: string, sel: seq<Message>): seq<ChatMessage>
    requires AllReplyConsistent(sel)
  {
    if sel == [] then [ChatMessage(System, prompt)]
    else SocialContext(prompt, sel[..|sel| - 1]) + JudgeTurns(sel[|sel| - 1])
  }

  /** The chat context is the system prompt followed by one turn per message:
      the bot's own messages verbatim as assistant turns, the others rendered
      as user turns. */
  lemma ChatContextShape(prompt: string, sel: seq<Message>)
    requires AllReplyConsistent(sel)
    ensures var c := ChatContext(prompt, sel);
      && |c| == 1 + |sel|
      && c[0] == ChatMessage(System, prompt)
      && forall k :: 0 <= k < |sel| ==>
           c[k + 1] == if sel[k].isSelf then ChatMessage(Assistant, sel[k].contents)
                       else ChatMessage(User, BuildContents(sel[k]).value)
  {
    var c := ChatContext(prompt, sel);
    forall k | 0 <= k < |sel| ensures c[k + 1] == ChatTurn(sel[k]) {
    }
  }

  /** Taking one more message appends exactly its turn. */
  lemma ChatContextSnoc(prompt: string, sel: seq<Message>, k: nat)
    requires AllReplyConsistent(sel) && k < |sel|
    ensures ChatContext(prompt, sel[..k + 1]) == ChatContext(prompt, sel[..k]) + [ChatTurn(sel[k])]
  {
    var a := ChatContext(prompt, sel[..k + 1]);
    var b := ChatContext(prompt, sel[..k]) + [ChatTurn(sel[k])];
    assert |a| == |b|;
    forall i | 0 <= i < |a| ensures a[i] == b[i] {
      if 0 < i <= k {
        assert sel[..k + 1][i - 1] == sel[..k][i - 1];
      }
    }
  }

  /** The judge context is the system prompt followed by two turns per message:
      an assistant `{"should_reply":…}` turn saying whether the bot wrote it,
      then the user turn with its rendering. */
  lemma {:induction false} SocialContextShape(prompt: string, sel: seq<Message>)
    requires AllReplyConsistent(sel)
    ensures var c := SocialContext(prompt, sel);
      && |c| == 1 + 2 * |sel|
      && c[0] == ChatMessage(System, prompt)
      && forall k :: 0 <= k < |sel| ==>
           && c[2 * k + 1] == ChatMessage(Assistant, Social.Serialize(Social.Judgment(sel[k].isSelf)))
           && c[2 * k + 2] == ChatMessage(User, BuildContents(sel[k]).value)
  {
    if sel != [] {
      var init := sel[..|sel| - 1];
      SocialContextShape(prompt, init);
      var before := SocialContext(prompt, init);
      var c := before + JudgeTurns(sel[|sel| - 1]);
      assert |c| == |before| + 2;
      forall k | 0 <= k < |sel|
        ensures c[2 * k + 1] == ChatMessage(Assistant, Social.Serialize(Social.Judgment(sel[k].isSelf)))
        ensures c[2 * k + 2] == ChatMessage(User, BuildContents(sel[k]).value)
      {
        if k < |init| {
          assert init[k] == sel[k];
          assert c[2 * k + 1] == before[2 * k + 1] && c[2 * k + 2] == before[2 * k + 2];
        } else {
          assert 2 * k + 1 == |before|;
        }
      }
    }
  }

  /** The loop of `build` that fills both prompt sequences. */
  method BuildPrompts(chatPrompt: string, judgePrompt: string, sel: seq<Message>) returns (c: Contexts)
    requires AllReplyConsistent(sel)
    ensures c.chat == ChatContext(chatPrompt, sel)
    ensures c.social == SocialContext(judgePrompt, sel)
  {
    var chat := [ChatMessage(System, chatPrompt)];
    var social := [ChatMessage(System, judgePrompt)];
    for k := 0 to |sel|
      invariant chat == ChatContext(chatPrompt, sel[..k])
      invariant social == SocialContext(judgePrompt, sel[..k])
    {
      var message := sel[k];
      ChatContextSnoc(chatPrompt, sel, k);
      chat := chat + [ChatTurn(message)];
      social := social + JudgeTurns(message);
      assert sel[..k + 1][..k] == sel[..k];
    }
    assert sel[..|sel|] == sel;
    c := Contexts(chat, social);
  }

  /** The chat prompt (the channel's system prompt) and the judge prompt
      (row 1), or the error of a lookup that found no row. */
  function PromptsFor(t: Tables, prompts: seq<SystemPrompt>, channel: Id): Result<(string, string)> {
    var chat := if channel in t.channels then PromptById(prompts, t.channels[channel].systemPrompt) else None;
    var judge := PromptById(prompts, JudgePromptId);
    if chat.None? || judge.None? then Err(RowNotFound)
    else Ok((chat.value.contents, judge.value.contents))
  }

  datatype Built = Built(contexts: Contexts, tables: Tables)

  /** `build` as one step: both prompts are looked up first; then the prompt
      sequences come from the selection taken before the window moves. */
  function BuildSpec(t: Tables, prompts: seq<SystemPrompt>, channel: Id, threshold: nat, mode: ChatMode): Result<Built> {
    match PromptsFor(t, prompts, channel)
    case Err(e) => Err(e)
    case Ok((chatPrompt, judgePrompt)) =>
      var sel := Selection(t, channel, mode);
      Ok(Built(Contexts(ChatContext(chatPrompt, sel), SocialContext(judgePrompt, sel)),
               Advanced(t, channel, sel, threshold)))
  }

  /** A failing lookup changes nothing; otherwise the contexts have lengths
      1 + N and 1 + 2N for the N selected messages, and the tables change only
      by the window advance. */
  lemma BuildSpecShape(t: Tables, prompts: seq<SystemPrompt>, channel: Id, threshold: nat, mode: ChatMode)
    requires Consistent(t)
    ensures var r := BuildSpec(t, prompts, channel, threshold, mode);
      && (r.Err? <==> channel !in t.channels
                      || PromptById(prompts, t.channels[channel].systemPrompt).None?
                      || PromptById(prompts, JudgePromptId).None?)
      && (r.Err? ==> r.error == RowNotFound)
      && (r.Ok? ==>
            var sel := Selection(t, channel, mode);
            && |r.value.contexts.chat| == 1 + |sel|
            && |r.value.contexts.social| == 1 + 2 * |sel|
            && r.value.contexts.chat[0] == ChatMessage(System, PromptById(prompts, t.channels[channel].systemPrompt).value.contents)
            && r.value.contexts.social[0] == ChatMessage(System, PromptById(prompts, JudgePromptId).value.contents)
            && r.value.tables == Advanced(t, channel, sel, threshold))
  {
    if channel in t.channels {
      var sel := Selection(t, channel, mode);
      ChatContextShape(PromptById(prompts, t.channels[channel].systemPrompt).GetOr(SystemPrompt(0, "", "")).contents, sel);
      SocialContextShape(PromptById(prompts, JudgePromptId).GetOr(SystemPrompt(0, "", "")).contents, sel);
    }
  }

  /** `build` */
  method Build(tx: Transaction, channel: Id, config: Config, mode: ChatMode) returns (r: Result<Contexts>)
    requires tx.Valid()
    modifies tx
    ensures tx.Valid() && tx.aborted == old(tx.aborted)
    ensures match BuildSpec(old(tx.View()), tx.db.prompts, channel, config.windowThreshold, mode)
            case Err(e) => r == Err(e) && tx.View() == old(tx.View())
            case Ok(b) => r == Ok(b.contexts) && tx.View() == b.tables
  {
    var chatPrompt := if channel in tx.channels then PromptById(tx.db.prompts, tx.channels[channel].systemPrompt) else None;
    if chatPrompt.None? {
      return Err(RowNotFound);
    }
    var judgePrompt := PromptById(tx.db.prompts, JudgePromptId);
    if judgePrompt.None? {
      return Err(RowNotFound);
    }
    var sel := Selection(tx.View(), channel, mode);
    if |sel| >= config.windowThreshold {
      var middle := |sel| / 2;
      if middle < |sel| {
        tx.UpdateContextWindow(channel, sel[middle].time);
      }
    }
    var contexts := BuildPrompts(chatPrompt.value.contents, judgePrompt.value.contents, sel);
    return Ok(contexts);
  }
}
