/** The record shapes of the three tables and the `ChatMode` enum (src/db.rs). */
module Db {
  import opened Results

  /** Platform snowflake ids; `u64` in the source, unbounded here. */
  type Id = nat

  /** The closed set of per-channel reply policies. */
  datatype ChatMode = FreeResponse | MentionsOnly | MentionsOnlyAllContext

  const AllModes: set<ChatMode> := {FreeResponse, MentionsOnly, MentionsOnlyAllContext}

  /** The human-readable label (`impl ToString for ChatMode`). */
  function ToString(m: ChatMode): string {
    match m
    case FreeResponse => "Free Response"
    case MentionsOnly => "Mentions Only"
    case MentionsOnlyAllContext => "Mentions Only All Context"
  }

  /** The key of a mode: the snake_case name under which sqlx stores it and
      under which `from_str` accepts it. */
  function Key(m: ChatMode): string {
    match m
    case FreeResponse => "free_response"
    case MentionsOnly => "mentions_only"
    case MentionsOnlyAllContext => "mentions_only_all_context"
  }

  const InvalidChatMode := "Invalid chat mode string"

  /** `impl FromStr for ChatMode`: accepts exactly the three keys. */
  function FromStr(s: string): (r: Result<ChatMode>)
    ensures r.Ok? <==> exists m: ChatMode :: Key(m) == s
    ensures r.Ok? ==> Key(r.value) == s
    ensures r.Err? ==> r.error == InvalidChatMode
  {
    if s == "free_response" then assert Key(FreeResponse) == s; Ok(FreeResponse)
    else if s == "mentions_only" then assert Key(MentionsOnly) == s; Ok(MentionsOnly)
    else if s == "mentions_only_all_context" then
      assert Key(MentionsOnlyAllContext) == s;
      Ok(MentionsOnlyAllContext)
    else
      assert forall m: ChatMode :: Key(m) != s;
      Err(InvalidChatMode)
  }

  /** Parsing a key gives back its mode. */
  lemma FromStrKey(m: ChatMode)
    ensures FromStr(Key(m)) == Ok(m)
  {
  }

  /** Distinct modes have distinct labels. */
  lemma ToStringInjective(a: ChatMode, b: ChatMode)
    ensures ToString(a) == ToString(b) ==> a == b
  {
  }

  /** Labels are not keys: `from_str(to_string(m))` fails for every mode. */
  lemma FromStrRejectsLabels(m: ChatMode)
    ensures FromStr(ToString(m)) == Err(InvalidChatMode)
  {
  }

  /** There are exactly three modes. */
  lemma AllModesExactlyThree()
    ensures |AllModes| == 3
    ensures forall m: ChatMode :: m in AllModes
  {
    forall m: ChatMode ensures m in AllModes {
      match m
      case FreeResponse =>
      case MentionsOnly =>
      case MentionsOnlyAllContext =>
    }
  }

  /** A `system_prompts` row. */
  datatype SystemPrompt = SystemPrompt(id: int, name: string, contents: string)

  /** A `channels` row. */
  datatype Channel = Channel(id: Id, chatMode: ChatMode, contextWindow: nat, systemPrompt: int)

  /** A `messages` row as the context query returns it: the stored columns plus
      the two columns of the LEFT JOIN on the replied-to message.  Stored rows
      carry `None` in the two join columns. */
  datatype Message = Message(
    id: Id,
    isSelf: bool,
    mentionsSelf: bool,
    sender: Id,
    senderName: string,
    senderDisplayName: string,
    guild: Option<Id>,
    channel: Id,
    contents: string,
    reply: Option<Id>,
    time: nat,
    replySenderName: Option<string>,
    replyContents: Option<string>)
}
