/** The event handler (src/handler.rs): what happens to one inbound message,
    how a slash command is routed, and which reactions delete a message. */
module Handler {
  import opened Results
  import opened Db
  import opened Store
  import opened Provider
  import opened Gateway
  import opened AppConfig
  import opened Context
  import opened Chatbot
  import Social
  import ChatModeCommand
  import SystemPromptCommand
  import ResetContextCommand

  /** A message with exactly this content resets the channel's context. */
  const ResetGifUrl := "https://tenor.com/view/no-witnesses-erase-memory-forget-gif-20806865"

  /** U+274C CROSS MARK */
  const CrossMark := "\U{274C}"

  const UnknownCommand := "Unknown command :("
  const Reloaded := "Reloaded config!"
  const KnownCommands := {"reload", "reset_context", "system_prompt", "chat_mode"}

  // ---------------------------------------------------------------------------
  // One inbound message

  /** `is_private || mentions_me().unwrap_or(false)`, where a message is
      private when it has no guild; a failed mention query counts as no
      mention. */
  function MentionsMe(msg: Inbound): (r: bool)
    ensures msg.guild.None? ==> r
    ensures msg.guild.Some? ==> (r <==> msg.mentionsQuery == Some(true))
  {
    msg.guild.None? || msg.mentionsQuery.GetOr(false)
  }

  /** The chat mode of the channel's row, `MentionsOnlyAllContext` without one. */
  function ModeOf(channels: map<Id, Channel>, channel: Id): (r: ChatMode)
    ensures channel !in channels ==> r == MentionsOnlyAllContext
    ensures channel in channels ==> r == channels[channel].chatMode
  {
    if channel in channels then channels[channel].chatMode else MentionsOnlyAllContext
  }

  /** The row stored for an inbound message.  Its `reply` is the referenced id
      only when a row with that id is already stored (the subquery
      `SELECT id FROM messages WHERE id = $9`). */
  function InboundRow(rows: seq<Message>, msg: Inbound, mentionsMe: bool, now: nat): (r: Message)
    ensures r.id == msg.id && !r.isSelf && r.mentionsSelf == mentionsMe
    ensures r.sender == msg.author.id && r.senderName == msg.author.name && r.senderDisplayName == msg.author.displayName
    ensures r.channel == msg.channel && r.guild == msg.guild && r.contents == msg.contentSafe && r.time == now
    ensures r.reply.Some? <==> msg.referenced.Some? && Stored(rows, msg.referenced.value)
    ensures r.reply.Some? ==> r.reply == msg.referenced
    ensures r.replySenderName.None? && r.replyContents.None?
  {
    var reply := match msg.referenced
      case Some(target) => if Stored(rows, target) then Some(target) else None
      case None => None;
    Message(msg.id, false, mentionsMe, msg.author.id, msg.author.name, msg.author.displayName,
            msg.guild, msg.channel, msg.contentSafe, reply, now, None, None)
  }

  /** Generation runs for a mention, and for every message in `FreeResponse` mode. */
  predicate Generates(mentionsMe: bool, mode: ChatMode) {
    mentionsMe || mode == FreeResponse
  }

  const ReportOpen := "Encountered an error:\n```\n"
  const ReportClose := "\n```"

  /** The error text inside a code block; the text can be read back out. */
  function ErrorReport(e: string): (r: string)
    ensures |r| == |ReportOpen| + |e| + |ReportClose|
    ensures r[..|ReportOpen|] == ReportOpen && r[|r| - |ReportClose|..] == ReportClose
    ensures r[|ReportOpen|..|r| - |ReportClose|] == e
  {
    var r := ReportOpen + e + ReportClose;
    assert r[..|ReportOpen|] == ReportOpen;
    assert r[|ReportOpen|..|r| - |ReportClose|] == e;
    r
  }

  /** The public reply to the reset GIF. */
  function ResetReply(msg: Inbound): Outbound {
    Outbound(msg.channel, ResetContextCommand.Done, Some(msg.id), false)
  }

  /** The messages posted after a generation: its reply, if one was attempted,
      then the error report, if it failed. */
  function Posts(g: Generated, msg: Inbound): (r: seq<Outbound>)
    ensures |r| == (if g.outbox.Some? then 1 else 0) + (if g.result.Err? then 1 else 0)
    ensures g.outbox.Some? ==> r[0] == g.outbox.value
    ensures g.result.Err? ==> r[|r| - 1] == Outbound(msg.channel, ErrorReport(g.result.error), None, true)
  {
    (if g.outbox.Some? then [g.outbox.value] else [])
    + (if g.result.Err? then [Outbound(msg.channel, ErrorReport(g.result.error), None, true)] else [])
  }

  /** The transaction after the channel upsert and the inbound insert, or
      `None` when the insert hits a stored id. */
  function Recorded(t: Tables, d: Defaults, msg: Inbound, mentionsMe: bool, now: nat): (r: Option<Tables>)
    requires Consistent(t)
    ensures r.None? <==> Stored(t.messages, msg.id)
    ensures r.Some? ==>
      && Consistent(r.value)
      && r.value.channels == EnsuredChannel(t.channels, msg.channel, d)
      && |r.value.messages| == |t.messages| + 1
      && forall m :: m in r.value.messages <==> m in t.messages || m == InboundRow(t.messages, msg, mentionsMe, now)
  {
    var t1 := t.(channels := EnsuredChannel(t.channels, msg.channel, d));
    match InsertRow(t1.messages, InboundRow(t1.messages, msg, mentionsMe, now))
    case None => None
    case Some(rows) => Some(t1.(messages := rows))
  }

  /** How the handling of one message ended: ignored (a bot wrote it), a
      context reset, a panic on the inbound insert (the transaction is dropped),
      or processed, with or without generation, and rolled back at commit when
      a statement aborted the transaction. */
  datatype Disposition = Ignored | ContextReset | Crashed | Processed(generated: bool, rolledBack: bool)

  datatype Handled = Handled(
    disposition: Disposition,
    tables: Tables,
    posts: seq<Outbound>,
    judgeRequests: seq<seq<ChatMessage>>,
    chatRequest: Option<seq<ChatMessage>>)

  /** The handling of message `msg` on the committed tables `t`. */
  function HandleSpec(t: Tables, prompts: seq<SystemPrompt>, d: Defaults, config: Config, msg: Inbound,
                      env: Environment): Handled
    requires Consistent(t)
  {
    if msg.author.bot then Handled(Ignored, t, [], [], None)
    else if msg.content == ResetGifUrl then
      Handled(ContextReset, t.(channels := ResetContextCommand.Reset(t.channels, msg.channel, env.now)),
              [ResetReply(msg)], [], None)
    else
      var me := MentionsMe(msg);
      var mode := ModeOf(t.channels, msg.channel);
      match Recorded(t, d, msg, me, env.now)
      case None => Handled(Crashed, t, [], [], None)
      case Some(t2) =>
        if Generates(me, mode) then
          var g := GenerateSpec(t2, false, prompts, config, msg.channel, msg, me, mode, env);
          Handled(Processed(true, g.aborted), if g.aborted then t else g.tables, Posts(g, msg),
                  g.judgeRequests, g.chatRequest)
        else Handled(Processed(false, false), t2, [], [], None)
  }

  // ---------------------------------------------------------------------------
  // Properties of one message

  /** A message that is neither from a bot nor the reset GIF. */
  predicate Ordinary(msg: Inbound) {
    !msg.author.bot && msg.content != ResetGifUrl
  }

  /** A bot's message changes nothing and posts nothing. */
  lemma BotMessagesChangeNothing(t: Tables, prompts: seq<SystemPrompt>, d: Defaults, config: Config,
                                 msg: Inbound, env: Environment)
    requires Consistent(t) && msg.author.bot
    ensures HandleSpec(t, prompts, d, config, msg, env) == Handled(Ignored, t, [], [], None)
  {
  }

  /** The reset GIF moves the channel's window to now, answers with a reply,
      and is itself never stored. */
  lemma ResetGifSkipsRecording(t: Tables, prompts: seq<SystemPrompt>, d: Defaults, config: Config,
                               msg: Inbound, env: Environment)
    requires Consistent(t) && !msg.author.bot && msg.content == ResetGifUrl
    ensures var h := HandleSpec(t, prompts, d, config, msg, env);
      && h.disposition == ContextReset
      && h.tables.messages == t.messages
      && h.tables.channels.Keys == t.channels.Keys
      && (msg.channel in t.channels ==>
            h.tables.channels[msg.channel] == t.channels[msg.channel].(contextWindow := env.now))
      && (forall c :: c in t.channels && c != msg.channel ==> h.tables.channels[c] == t.channels[c])
      && h.posts == [ResetReply(msg)] && h.judgeRequests == [] && h.chatRequest == None
  {
  }

  /** An inbound id that is already stored makes the insert panic: the
      transaction is dropped and nothing changes. */
  lemma DuplicateInboundCrashes(t: Tables, prompts: seq<SystemPrompt>, d: Defaults, config: Config,
                                msg: Inbound, env: Environment)
    requires Consistent(t) && Ordinary(msg) && Stored(t.messages, msg.id)
    ensures HandleSpec(t, prompts, d, config, msg, env) == Handled(Crashed, t, [], [], None)
  {
  }

  /** Generation runs exactly for a mention or in `FreeResponse` mode (the
      mode of the channel's row before this message, `MentionsOnlyAllContext`
      without one).  Otherwise the message is stored, the channel row
      ensured, and nothing is asked or posted. */
  lemma GenerationRunsIff(t: Tables, prompts: seq<SystemPrompt>, d: Defaults, config: Config,
                          msg: Inbound, env: Environment)
    requires Consistent(t) && Ordinary(msg) && !Stored(t.messages, msg.id)
    ensures var h := HandleSpec(t, prompts, d, config, msg, env);
      var me := MentionsMe(msg);
      var mode := ModeOf(t.channels, msg.channel);
      && h.disposition.Processed?
      && (h.disposition.generated <==> Generates(me, mode))
      && (!Generates(me, mode) ==>
            && h.tables == Recorded(t, d, msg, me, env.now).value
            && h.posts == [] && h.judgeRequests == [] && h.chatRequest == None)
  {
  }

  /** Unless the transaction was aborted, the inbound row is committed
      whatever generation did, failures included, next to every row stored
      before, with the channel row in place.  The transaction is aborted exactly
      when a delivered reply's id is already taken, and then the whole message,
      inbound row included, is rolled back. */
  lemma InboundSurvivesGeneration(t: Tables, prompts: seq<SystemPrompt>, d: Defaults, config: Config,
                                  msg: Inbound, env: Environment)
    requires Consistent(t) && Ordinary(msg) && !Stored(t.messages, msg.id)
    ensures var h := HandleSpec(t, prompts, d, config, msg, env);
      var row := InboundRow(t.messages, msg, MentionsMe(msg), env.now);
      && h.disposition.Processed?
      && (!h.disposition.rolledBack ==>
            && row in h.tables.messages
            && (forall m :: m in t.messages ==> m in h.tables.messages)
            && msg.channel in h.tables.channels)
      && (h.disposition.rolledBack ==>
            && h.tables == t
            && env.send.Delivered?
            && (env.send.reply.id == msg.id || Stored(t.messages, env.send.reply.id)))
  {
    var me := MentionsMe(msg);
    var mode := ModeOf(t.channels, msg.channel);
    var t2 := Recorded(t, d, msg, me, env.now).value;
    if Generates(me, mode) {
      StoresOnlyDeliveredReplies(t2, false, prompts, config, msg.channel, msg, me, mode, env);
      FailsExactlyWhen(t2, false, prompts, config, msg.channel, msg, me, mode, env);
      if env.send.Delivered? {
        StoredIff(t2.messages, env.send.reply.id);
        StoredIff(t.messages, env.send.reply.id);
      }
      var b := BuildSpec(t2, prompts, msg.channel, config.windowThreshold, mode);
      if b.Ok? {
        BuildSpecShape(t2, prompts, msg.channel, config.windowThreshold, mode);
        WindowAdvance(t2, msg.channel, mode, config.windowThreshold);
      }
    }
  }

  /** A reply that cannot be posted is not stored, while the inbound row is. */
  lemma SendFailureKeepsInbound(t: Tables, prompts: seq<SystemPrompt>, d: Defaults, config: Config,
                                msg: Inbound, env: Environment)
    requires Consistent(t) && Ordinary(msg) && !Stored(t.messages, msg.id)
    requires env.send == SendFailed
    ensures var h := HandleSpec(t, prompts, d, config, msg, env);
      var t2 := Recorded(t, d, msg, MentionsMe(msg), env.now).value;
      && !h.disposition.rolledBack
      && h.tables.messages == t2.messages
      && |h.tables.messages| == |t.messages| + 1
  {
    var me := MentionsMe(msg);
    var mode := ModeOf(t.channels, msg.channel);
    var t2 := Recorded(t, d, msg, me, env.now).value;
    if Generates(me, mode) {
      StoresOnlyDeliveredReplies(t2, false, prompts, config, msg.channel, msg, me, mode, env);
      FailsExactlyWhen(t2, false, prompts, config, msg.channel, msg, me, mode, env);
    }
  }

  /** Free response, no mention, the judge's first answer a well-formed yes,
      a non-empty completion, a delivered reply with a new id: exactly one
      judge request, one post referencing the inbound message, and both the
      inbound row and the reply row committed. */
  lemma FreeResponseScenario(t: Tables, prompts: seq<SystemPrompt>, d: Defaults, config: Config,
                             msg: Inbound, env: Environment)
    requires Consistent(t) && Ordinary(msg) && !MentionsMe(msg) && !Stored(t.messages, msg.id)
    requires msg.channel in t.channels && t.channels[msg.channel].chatMode == FreeResponse
    requires PromptById(prompts, t.channels[msg.channel].systemPrompt).Some?
    requires PromptById(prompts, JudgePromptId).Some?
    requires Social.Classify(env.judge(0), env.parse) == Social.WellFormed(true)
    requires env.chat.Answer? && env.chat.content.Some? && env.chat.content.value != ""
    requires env.send.Delivered? && env.send.reply.id != msg.id && !Stored(t.messages, env.send.reply.id)
    ensures var h := HandleSpec(t, prompts, d, config, msg, env);
      && h.disposition == Processed(true, false)
      && |h.judgeRequests| == 1
      && h.posts == [Outbound(msg.channel, env.chat.content.value, Some(msg.id), true)]
      && InboundRow(t.messages, msg, false, env.now) in h.tables.messages
      && ReplyRow(msg.channel, msg, env.send.reply, env.now) in h.tables.messages
      && |h.tables.messages| == |t.messages| + 2
  {
    var t2 := Recorded(t, d, msg, false, env.now).value;
    var mode := FreeResponse;
    BuildSpecShape(t2, prompts, msg.channel, config.windowThreshold, mode);
    var b := BuildSpec(t2, prompts, msg.channel, config.windowThreshold, mode).value;
    Social.FirstWellFormedDecides(b.contexts.social, config.maxAttempts, env.judge, env.parse, 0, true);
    StoredIff(t2.messages, env.send.reply.id);
    StoredIff(t.messages, env.send.reply.id);
    PostsExactlyOnNonEmptyYes(t2, false, prompts, config, msg.channel, msg, false, mode, env);
    StoresOnlyDeliveredReplies(t2, false, prompts, config, msg.channel, msg, false, mode, env);
    FailsExactlyWhen(t2, false, prompts, config, msg.channel, msg, false, mode, env);
  }

  /** `MentionsOnly`, no mention: no judge request, no post, the inbound row
      stored. */
  lemma MentionsOnlyScenario(t: Tables, prompts: seq<SystemPrompt>, d: Defaults, config: Config,
                             msg: Inbound, env: Environment)
    requires Consistent(t) && Ordinary(msg) && !MentionsMe(msg) && !Stored(t.messages, msg.id)
    requires msg.channel in t.channels && t.channels[msg.channel].chatMode == MentionsOnly
    ensures var h := HandleSpec(t, prompts, d, config, msg, env);
      && h.disposition == Processed(false, false)
      && h.judgeRequests == [] && h.chatRequest == None && h.posts == []
      && InboundRow(t.messages, msg, false, env.now) in h.tables.messages
      && |h.tables.messages| == |t.messages| + 1
  {
  }

  /** A mention answered with empty content: the judge is not asked, nothing
      is posted, and only the inbound row is added. */
  lemma EmptyReplyScenario(t: Tables, prompts: seq<SystemPrompt>, d: Defaults, config: Config,
                           msg: Inbound, env: Environment)
    requires Consistent(t) && Ordinary(msg) && MentionsMe(msg) && !Stored(t.messages, msg.id)
    requires msg.channel in t.channels
    requires PromptById(prompts, t.channels[msg.channel].systemPrompt).Some?
    requires PromptById(prompts, JudgePromptId).Some?
    requires env.chat == Answer(Some(""))
    ensures var h := HandleSpec(t, prompts, d, config, msg, env);
      && h.disposition == Processed(true, false)
      && h.judgeRequests == [] && h.posts == []
      && InboundRow(t.messages, msg, true, env.now) in h.tables.messages
      && |h.tables.messages| == |t.messages| + 1
  {
    var t2 := Recorded(t, d, msg, true, env.now).value;
    var mode := ModeOf(t.channels, msg.channel);
    BuildSpecShape(t2, prompts, msg.channel, config.windowThreshold, mode);
    MentionSkipsJudge(t2, false, prompts, config, msg.channel, msg, mode, env);
    PostsExactlyOnNonEmptyYes(t2, false, prompts, config, msg.channel, msg, true, mode, env);
    StoresOnlyDeliveredReplies(t2, false, prompts, config, msg.channel, msg, true, mode, env);
    FailsExactlyWhen(t2, false, prompts, config, msg.channel, msg, true, mode, env);
  }

  // ---------------------------------------------------------------------------
  // Slash commands

  /** An interaction; only command interactions are handled.  `option` is the
      command's first option when it is a string. */
  datatype Interaction = CommandInteraction(name: string, channel: Id, option: Option<string>) | OtherInteraction

  datatype Dispatched = Dispatched(responses: seq<Response>, tables: Tables, config: Config)

  function CommandError(e: string): string {
    "Encountered an error while executing command:\n```\n" + e + "\n```"
  }

  /** A command that failed gets the error text, shown only to its caller. */
  function Answered(r: Result<Response>): seq<Response> {
    match r
    case Ok(response) => [response]
    case Err(e) => [Response(CommandError(e), true)]
  }

  /** The routing of `interaction_create`.  `reloaded` is the configuration
      read from disk by `reload`. */
  function DispatchSpec(t: Tables, prompts: seq<SystemPrompt>, d: Defaults, config: Config, i: Interaction,
                        reloaded: Config, now: nat): Dispatched
  {
    match i
    case OtherInteraction => Dispatched([], t, config)
    case CommandInteraction(name, channel, option) =>
      if name == "reload" then
        Dispatched(Answered(Ok(Response(Reloaded, true))), t, reloaded)
      else if name == "reset_context" then
        Dispatched(Answered(Ok(Response(ResetContextCommand.Done, false))),
                   t.(channels := ResetContextCommand.Reset(t.channels, channel, now)), config)
      else if name == "system_prompt" then
        Dispatched(Answered(SystemPromptCommand.Reply(t.channels, prompts, channel, option)),
                   t.(channels := SystemPromptCommand.After(t.channels, prompts, channel, option)), config)
      else if name == "chat_mode" then
        Dispatched(Answered(ChatModeCommand.Reply(t.channels, channel, option)),
                   t.(channels := ChatModeCommand.After(t.channels, d, channel, option)), config)
      else Dispatched(Answered(Ok(Response(UnknownCommand, false))), t, config)
  }

  /** Every command gets exactly one response; other interactions get none.
      Unknown names change nothing, only `reload` replaces the configuration,
      no command touches the messages table, and a response is shown only to
      its caller exactly when it is an error or the reload confirmation, in
      which case no table changed. */
  lemma DispatchAnswersOnce(t: Tables, prompts: seq<SystemPrompt>, d: Defaults, config: Config, i: Interaction,
                            reloaded: Config, now: nat)
    ensures var r := DispatchSpec(t, prompts, d, config, i, reloaded, now);
      && (i.OtherInteraction? ==> r == Dispatched([], t, config))
      && (i.CommandInteraction? ==> |r.responses| == 1)
      && r.tables.messages == t.messages
      && r.config == (if i.CommandInteraction? && i.name == "reload" then reloaded else config)
      && (i.CommandInteraction? && i.name !in KnownCommands ==>
            r == Dispatched([Response(UnknownCommand, false)], t, config))
      && (i.CommandInteraction? && r.responses[0].ephemeral ==> r.tables == t)
  {
    if i.CommandInteraction? && i.name == "system_prompt" && i.option.Some? {
      var found := PromptByName(prompts, i.option.value);
      assert found.None? ==> forall p :: p in prompts ==> p.name != i.option.value;
    }
  }

  // ---------------------------------------------------------------------------
  // Reactions

  datatype Reaction = Reaction(messageAuthor: Option<Id>, emoji: Emoji)

  /** `reaction_add` deletes the reacted-to message exactly when the bot wrote
      it and the emoji is the cross mark; a custom emoji never matches. */
  function ReactionDeletes(reaction: Reaction, me: Id): (r: bool)
    ensures r <==> reaction.messageAuthor == Some(me) && reaction.emoji == Unicode(CrossMark)
    ensures reaction.emoji.Custom? ==> !r
  {
    match reaction.emoji
    case Custom(_) => false
    case Unicode(text) => reaction.messageAuthor == Some(me) && text == CrossMark
  }

  // ---------------------------------------------------------------------------
  // The handler object

  class Handler {
    var config: Config
    const db: Database

    constructor (config: Config, db: Database)
      ensures this.config == config && this.db == db
    {
      this.config := config;
      this.db := db;
    }

    /** `message` */
    method HandleMessage(msg: Inbound, env: Environment)
      returns (disposition: Disposition, posts: seq<Outbound>, judgeRequests: seq<seq<ChatMessage>>,
               chatRequest: Option<seq<ChatMessage>>)
      requires db.Valid()
      modifies db
      ensures db.Valid()
      ensures Handled(disposition, db.View(), posts, judgeRequests, chatRequest)
           == HandleSpec(old(db.View()), db.prompts, db.defaults, config, msg, env)
    {
      posts, judgeRequests, chatRequest := [], [], None;
      if msg.author.bot {
        disposition := Ignored;
        return;
      }
      if msg.content == ResetGifUrl {
        ResetContextCommand.ResetContext(db, msg.channel, env.now);
        disposition, posts := ContextReset, [ResetReply(msg)];
        return;
      }
      var me := MentionsMe(msg);
      var mode := ModeOf(db.channels, msg.channel);
      var tx := new Transaction.Begin(db);
      tx.EnsureChannel(msg.channel);
      var inserted := tx.Insert(InboundRow(tx.messages, msg, me, env.now));
      if inserted.Err? {
        disposition := Crashed;
        return;
      }
      var generated := false;
      if Generates(me, mode) {
        var r, outbox;
        r, judgeRequests, chatRequest, outbox := Generate(tx, config, msg.channel, msg, me, mode, env);
        posts := Posts(Generated(r, tx.View(), tx.aborted, judgeRequests, chatRequest, outbox), msg);
        generated := true;
      }
      disposition := Processed(generated, tx.aborted);
      tx.Commit();
    }

    /** `interaction_create` */
    method InteractionCreate(i: Interaction, reloaded: Config, now: nat) returns (responses: seq<Response>)
      requires db.Valid()
      modifies this, db
      ensures db.Valid()
      ensures Dispatched(responses, db.View(), config)
           == DispatchSpec(old(db.View()), db.prompts, db.defaults, old(config), i, reloaded, now)
    {
      if i.OtherInteraction? {
        return [];
      }
      var result: Result<Response>;
      if i.name == "reload" {
        config := reloaded;
        result := Ok(Response(Reloaded, true));
      } else if i.name == "reset_context" {
        result := ResetContextCommand.Run(db, i.channel, now);
      } else if i.name == "system_prompt" {
        result := SystemPromptCommand.Run(db, i.channel, i.option);
      } else if i.name == "chat_mode" {
        result := ChatModeCommand.Run(db, i.channel, i.option);
      } else {
        result := Ok(Response(UnknownCommand, false));
      }
      responses := Answered(result);
    }
  }
}
