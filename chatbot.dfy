/** Reply generation (src/chat/chatbot.rs): build both contexts, let the judge
    decide unless the bot was mentioned, ask for a completion, post it as a
    reply and store the posted reply. */
module Chatbot {
  import opened Results
  import opened Db
  import opened Store
  import opened Provider
  import opened Gateway
  import opened AppConfig
  import opened Context
  import Social

  /** Everything `generate` learns from outside: the judge's completion for
      each attempt, the JSON parser, the chat completion, the outcome of
      posting, and the insertion time stamped by the database. */
  datatype Environment = Environment(
    judge: nat -> Completion,
    parse: Social.Parser,
    chat: Completion,
    send: SendOutcome,
    now: nat)

  /** What follows the judgment: stay silent, fail, or post `content`. */
  datatype Step = Silent | Abort(error: string) | Speak(content: string)

  /** The decision on the value of `mentions_me || should_reply(..)?` and the
      chat completion (consulted only when that value is `Ok(true)`). */
  function Plan(verdict: Result<bool>, chat: Completion): (r: Step)
    ensures r.Speak? <==> verdict == Ok(true) && chat.Answer? && chat.content.Some? && chat.content.value != ""
    ensures r.Speak? ==> r.content == chat.content.value
    ensures r.Abort? <==> verdict.Err? || (verdict == Ok(true) && chat.ProviderError?)
    ensures r.Abort? && verdict.Err? ==> r.error == verdict.error
    ensures r.Abort? && verdict.Ok? ==> r.error == chat.error
  {
    match verdict
    case Err(e) => Abort(e)
    case Ok(false) => Silent
    case Ok(true) =>
      match chat
      case ProviderError(e) => Abort(e)
      case Answer(None) => Silent
      case Answer(Some(content)) => if content == "" then Silent else Speak(content)
  }

  /** The row stored for a posted reply: flagged as the bot's own message and
      as mentioning the bot, in the channel the generation ran for, in the
      inbound message's guild. */
  function ReplyRow(channel: Id, msg: Inbound, reply: SentReply, now: nat): Message {
    Message(reply.id, true, true, reply.author.id, reply.author.name, reply.author.displayName,
            msg.guild, channel, reply.contentSafe, reply.referenced, now, None, None)
  }

  /** The message posted in reply to `msg`: a reference to it, with every
      mention suppressed. */
  function ReplyTo(msg: Inbound, content: string): Outbound {
    Outbound(msg.channel, content, Some(msg.id), true)
  }

  /** Everything one run of `generate` produces: its result, the tables and
      abort flag of the transaction, the judge requests, the chat request and
      the posted message. */
  datatype Generated = Generated(
    result: Result<()>,
    tables: Tables,
    aborted: bool,
    judgeRequests: seq<seq<ChatMessage>>,
    chatRequest: Option<seq<ChatMessage>>,
    outbox: Option<Outbound>)

  /** The judgment: the bot replies when mentioned, without asking the judge. */
  function Verdict(social: seq<ChatMessage>, mentionsMe: bool, config: Config, env: Environment): Social.JudgeRun {
    if mentionsMe then Social.JudgeRun(Ok(true), [])
    else Social.Judge(social, config.maxAttempts, env.judge, env.parse)
  }

  /** Posting `content` and storing the posted reply: a failed post ends the
      run quietly; a stored reply whose id is taken fails and aborts. */
  function Deliver(t: Tables, aborted: bool, channel: Id, msg: Inbound, content: string, env: Environment,
                   sent: seq<seq<ChatMessage>>, asked: Option<seq<ChatMessage>>): Generated
    requires Consistent(t)
  {
    var out := Some(ReplyTo(msg, content));
    match env.send
    case SendFailed => Generated(Ok(()), t, aborted, sent, asked, out)
    case Delivered(reply) =>
      match InsertRow(t.messages, ReplyRow(channel, msg, reply, env.now))
      case None => Generated(Err(DuplicateKey), t, true, sent, asked, out)
      case Some(rows) => Generated(Ok(()), t.(messages := rows), aborted, sent, asked, out)
  }

  /** The part of `generate` after the contexts are built on tables `t`. */
  function Respond(t: Tables, aborted: bool, config: Config, channel: Id, msg: Inbound, mentionsMe: bool,
                   contexts: Contexts, env: Environment): Generated
    requires Consistent(t)
  {
    var judged := Verdict(contexts.social, mentionsMe, config, env);
    var asked := if judged.result == Ok(true) then Some(contexts.chat) else None;
    match Plan(judged.result, env.chat)
    case Silent => Generated(Ok(()), t, aborted, judged.sent, asked, None)
    case Abort(e) => Generated(Err(e), t, aborted, judged.sent, asked, None)
    case Speak(content) => Deliver(t, aborted, channel, msg, content, env, judged.sent, asked)
  }

  function GenerateSpec(t: Tables, aborted: bool, prompts: seq<SystemPrompt>, config: Config, channel: Id,
                        msg: Inbound, mentionsMe: bool, mode: ChatMode, env: Environment): Generated
    requires Consistent(t)
  {
    match BuildSpec(t, prompts, channel, config.windowThreshold, mode)
    case Err(e) => Generated(Err(e), t, aborted, [], None, None)
    case Ok(b) =>
      assert b.tables.messages == t.messages;
      Respond(b.tables, aborted, config, channel, msg, mentionsMe, b.contexts, env)
  }

  /** `generate` */
  method Generate(tx: Transaction, config: Config, channel: Id, msg: Inbound, mentionsMe: bool,
                  mode: ChatMode, env: Environment)
    returns (r: Result<()>, judgeRequests: seq<seq<ChatMessage>>, chatRequest: Option<seq<ChatMessage>>,
             outbox: Option<Outbound>)
    requires tx.Valid()
    modifies tx
    ensures tx.Valid()
    ensures Generated(r, tx.View(), tx.aborted, judgeRequests, chatRequest, outbox)
         == GenerateSpec(old(tx.View()), old(tx.aborted), tx.db.prompts, config, channel, msg, mentionsMe, mode, env)
  {
    var contexts := Build(tx, channel, config, mode);
    if contexts.Err? {
      r, judgeRequests, chatRequest, outbox := Err(contexts.error), [], None, None;
      return;
    }
    r, judgeRequests, chatRequest, outbox := PostAndStore(tx, config, channel, msg, mentionsMe, contexts.value, env);
  }

  /** The judgment, the completion and the post, on an open transaction. */
  method PostAndStore(tx: Transaction, config: Config, channel: Id, msg: Inbound, mentionsMe: bool,
                      contexts: Contexts, env: Environment)
    returns (r: Result<()>, judgeRequests: seq<seq<ChatMessage>>, chatRequest: Option<seq<ChatMessage>>,
             outbox: Option<Outbound>)
    requires tx.Valid()
    modifies tx
    ensures tx.Valid()
    ensures Generated(r, tx.View(), tx.aborted, judgeRequests, chatRequest, outbox)
         == Respond(old(tx.View()), old(tx.aborted), config, channel, msg, mentionsMe, contexts, env)
  {
    judgeRequests, chatRequest, outbox := [], None, None;
    var shouldReply := true;
    if !mentionsMe {
      var verdict;
      verdict, judgeRequests := Social.ShouldReply(contexts.social, config.maxAttempts, env.judge, env.parse);
      if verdict.Err? {
        r := Err(verdict.error);
        return;
      }
      shouldReply := verdict.value;
    }
    if !shouldReply {
      r := Ok(());
      return;
    }
    chatRequest := Some(contexts.chat);
    if env.chat.ProviderError? {
      r := Err(env.chat.error);
      return;
    }
    if env.chat.content.None? || env.chat.content.value == "" {
      r := Ok(());
      return;
    }
    outbox := Some(ReplyTo(msg, env.chat.content.value));
    if env.send.SendFailed? {
      r := Ok(());
      return;
    }
    r := tx.Insert(ReplyRow(channel, msg, env.send.reply, env.now));
  }

  // ---------------------------------------------------------------------------
  // Properties of one run

  /** The yes of `mentions_me || should_reply(..)?`: a mention, or the judge
      answering yes. */
  predicate SaysYes(social: seq<ChatMessage>, mentionsMe: bool, config: Config, env: Environment) {
    mentionsMe || Social.Judge(social, config.maxAttempts, env.judge, env.parse).result == Ok(true)
  }

  /** A context that cannot be built ends the run with that error before the
      judge or the provider is asked, and changes nothing. */
  lemma BuildFailureStopsEarly(t: Tables, aborted: bool, prompts: seq<SystemPrompt>, config: Config, channel: Id,
                               msg: Inbound, mentionsMe: bool, mode: ChatMode, env: Environment)
    requires Consistent(t)
    requires BuildSpec(t, prompts, channel, config.windowThreshold, mode).Err?
    ensures var g := GenerateSpec(t, aborted, prompts, config, channel, msg, mentionsMe, mode, env);
      && g.result == Err(BuildSpec(t, prompts, channel, config.windowThreshold, mode).error)
      && g.tables == t && g.aborted == aborted
      && g.judgeRequests == [] && g.chatRequest == None && g.outbox == None
  {
  }

  /** Past a successful build, `generate` is the response on the built
      tables, whose messages are those it started with. */
  lemma GenerateSpecOk(t: Tables, aborted: bool, prompts: seq<SystemPrompt>, config: Config, channel: Id,
                       msg: Inbound, mentionsMe: bool, mode: ChatMode, env: Environment)
    requires Consistent(t)
    requires BuildSpec(t, prompts, channel, config.windowThreshold, mode).Ok?
    ensures var b := BuildSpec(t, prompts, channel, config.windowThreshold, mode).value;
      && Consistent(b.tables) && b.tables.messages == t.messages
      && GenerateSpec(t, aborted, prompts, config, channel, msg, mentionsMe, mode, env)
         == Respond(b.tables, aborted, config, channel, msg, mentionsMe, b.contexts, env)
  {
    var b := BuildSpec(t, prompts, channel, config.windowThreshold, mode).value;
    assert b.tables.messages == t.messages;
  }

  /** When the bot is mentioned the judge is never asked and the chat
      completion is requested with the chat context. */
  lemma MentionSkipsJudge(t: Tables, aborted: bool, prompts: seq<SystemPrompt>, config: Config, channel: Id,
                          msg: Inbound, mode: ChatMode, env: Environment)
    requires Consistent(t)
    requires BuildSpec(t, prompts, channel, config.windowThreshold, mode).Ok?
    ensures var g := GenerateSpec(t, aborted, prompts, config, channel, msg, true, mode, env);
      var b := BuildSpec(t, prompts, channel, config.windowThreshold, mode).value;
      && g.judgeRequests == []
      && g.chatRequest == Some(b.contexts.chat)
  {
    GenerateSpecOk(t, aborted, prompts, config, channel, msg, true, mode, env);
  }

  /** Without a mention the judge's requests are those of `should_reply` on
      the judge context, and the chat completion is requested exactly when the
      judge says yes. */
  lemma UnmentionedAsksJudge(t: Tables, aborted: bool, prompts: seq<SystemPrompt>, config: Config, channel: Id,
                             msg: Inbound, mode: ChatMode, env: Environment)
    requires Consistent(t)
    requires BuildSpec(t, prompts, channel, config.windowThreshold, mode).Ok?
    ensures var g := GenerateSpec(t, aborted, prompts, config, channel, msg, false, mode, env);
      var b := BuildSpec(t, prompts, channel, config.windowThreshold, mode).value;
      var judged := Social.Judge(b.contexts.social, config.maxAttempts, env.judge, env.parse);
      && g.judgeRequests == judged.sent
      && (g.chatRequest.Some? <==> judged.result == Ok(true))
      && (judged.result.Err? ==> g.result == Err(judged.result.error) && g.outbox == None)
  {
    GenerateSpecOk(t, aborted, prompts, config, channel, msg, false, mode, env);
    var b := BuildSpec(t, prompts, channel, config.windowThreshold, mode).value;
    RespondUnmentioned(b.tables, aborted, config, channel, msg, b.contexts, env);
  }

  /** The unmentioned judgment on any contexts. */
  lemma RespondUnmentioned(t: Tables, aborted: bool, config: Config, channel: Id, msg: Inbound,
                           contexts: Contexts, env: Environment)
    requires Consistent(t)
    ensures var g := Respond(t, aborted, config, channel, msg, false, contexts, env);
      var judged := Social.Judge(contexts.social, config.maxAttempts, env.judge, env.parse);
      && g.judgeRequests == judged.sent
      && (g.chatRequest.Some? <==> judged.result == Ok(true))
      && (judged.result.Err? ==> g.result == Err(judged.result.error) && g.outbox == None)
  {
  }

  /** A reply is posted exactly when the contexts are built, the answer is
      yes, and the completion has non-empty content; it is that content, sent
      as a reference to the inbound message with mentions suppressed. */
  lemma PostsExactlyOnNonEmptyYes(t: Tables, aborted: bool, prompts: seq<SystemPrompt>, config: Config, channel: Id,
                                  msg: Inbound, mentionsMe: bool, mode: ChatMode, env: Environment)
    requires Consistent(t)
    ensures var g := GenerateSpec(t, aborted, prompts, config, channel, msg, mentionsMe, mode, env);
      var b := BuildSpec(t, prompts, channel, config.windowThreshold, mode);
      && (g.outbox.Some? <==>
            && b.Ok? && SaysYes(b.value.contexts.social, mentionsMe, config, env)
            && env.chat.Answer? && env.chat.content.Some? && env.chat.content.value != "")
      && (g.outbox.Some? ==>
            g.outbox.value == Outbound(msg.channel, env.chat.content.value, Some(msg.id), true))
  {
    var b := BuildSpec(t, prompts, channel, config.windowThreshold, mode);
    if b.Ok? {
      GenerateSpecOk(t, aborted, prompts, config, channel, msg, mentionsMe, mode, env);
      RespondPosts(b.value.tables, aborted, config, channel, msg, mentionsMe, b.value.contexts, env);
    }
  }

  /** The post on any contexts. */
  lemma RespondPosts(t: Tables, aborted: bool, config: Config, channel: Id, msg: Inbound, mentionsMe: bool,
                     contexts: Contexts, env: Environment)
    requires Consistent(t)
    ensures var g := Respond(t, aborted, config, channel, msg, mentionsMe, contexts, env);
      && (g.outbox.Some? <==>
            && SaysYes(contexts.social, mentionsMe, config, env)
            && env.chat.Answer? && env.chat.content.Some? && env.chat.content.value != "")
      && (g.outbox.Some? ==>
            g.outbox.value == Outbound(msg.channel, env.chat.content.value, Some(msg.id), true))
  {
  }

  /** The reply row is stored exactly when the post is delivered and its id is
      new: the stored rows become the built tables' rows plus that row, flagged
      as the bot's own and as mentioning the bot; in every other case the
      messages table is unchanged, and the channels are those after the window
      advance. */
  lemma StoresOnlyDeliveredReplies(t: Tables, aborted: bool, prompts: seq<SystemPrompt>, config: Config, channel: Id,
                                   msg: Inbound, mentionsMe: bool, mode: ChatMode, env: Environment)
    requires Consistent(t)
    ensures var g := GenerateSpec(t, aborted, prompts, config, channel, msg, mentionsMe, mode, env);
      var b := BuildSpec(t, prompts, channel, config.windowThreshold, mode);
      var stored := g.outbox.Some? && env.send.Delivered? && !Stored(t.messages, env.send.reply.id);
      && Consistent(g.tables)
      && g.tables.channels == (if b.Ok? then b.value.tables.channels else t.channels)
      && (stored ==>
            var row := ReplyRow(channel, msg, env.send.reply, env.now);
            && g.result == Ok(())
            && |g.tables.messages| == |t.messages| + 1
            && (forall m :: m in g.tables.messages <==> m in t.messages || m == row)
            && row.isSelf && row.mentionsSelf && row.channel == channel && row.id == env.send.reply.id
            && row.reply == env.send.reply.referenced)
      && (!stored ==> g.tables.messages == t.messages)
  {
    var b := BuildSpec(t, prompts, channel, config.windowThreshold, mode);
    if b.Ok? {
      GenerateSpecOk(t, aborted, prompts, config, channel, msg, mentionsMe, mode, env);
      RespondStores(b.value.tables, aborted, config, channel, msg, mentionsMe, b.value.contexts, env);
    }
  }

  /** The stored reply on any contexts. */
  lemma RespondStores(t: Tables, aborted: bool, config: Config, channel: Id, msg: Inbound, mentionsMe: bool,
                      contexts: Contexts, env: Environment)
    requires Consistent(t)
    ensures var g := Respond(t, aborted, config, channel, msg, mentionsMe, contexts, env);
      var stored := g.outbox.Some? && env.send.Delivered? && !Stored(t.messages, env.send.reply.id);
      && Consistent(g.tables) && g.tables.channels == t.channels
      && (stored ==>
            var row := ReplyRow(channel, msg, env.send.reply, env.now);
            && g.result == Ok(())
            && |g.tables.messages| == |t.messages| + 1
            && (forall m :: m in g.tables.messages <==> m in t.messages || m == row))
      && (!stored ==> g.tables.messages == t.messages)
  {
    var g := Respond(t, aborted, config, channel, msg, mentionsMe, contexts, env);
    var judged := Verdict(contexts.social, mentionsMe, config, env);
    var asked := if judged.result == Ok(true) then Some(contexts.chat) else None;
    var step := Plan(judged.result, env.chat);
    if step.Speak? {
      assert g == Deliver(t, aborted, channel, msg, step.content, env, judged.sent, asked);
      DeliverStores(t, aborted, channel, msg, step.content, env, judged.sent, asked);
    } else {
      assert g.tables == t && g.outbox == None;
    }
  }

  /** Storing a post touches only the messages table, and only for a
      delivered post with a new id. */
  lemma DeliverStores(t: Tables, aborted: bool, channel: Id, msg: Inbound, content: string, env: Environment,
                      sent: seq<seq<ChatMessage>>, asked: Option<seq<ChatMessage>>)
    requires Consistent(t)
    ensures var g := Deliver(t, aborted, channel, msg, content, env, sent, asked);
      var stored := env.send.Delivered? && !Stored(t.messages, env.send.reply.id);
      && g.outbox.Some?
      && Consistent(g.tables) && g.tables.channels == t.channels
      && (stored ==>
            var row := ReplyRow(channel, msg, env.send.reply, env.now);
            && g.result == Ok(())
            && |g.tables.messages| == |t.messages| + 1
            && (forall m :: m in g.tables.messages <==> m in t.messages || m == row))
      && (!stored ==> g.tables.messages == t.messages)
  {
  }

  /** The run fails exactly when a context lookup fails, the unmentioned
      judge fails, the provider fails after a yes, or the delivered reply's id
      is already stored; only the last aborts the transaction. */
  lemma FailsExactlyWhen(t: Tables, aborted: bool, prompts: seq<SystemPrompt>, config: Config, channel: Id,
                         msg: Inbound, mentionsMe: bool, mode: ChatMode, env: Environment)
    requires Consistent(t)
    ensures var g := GenerateSpec(t, aborted, prompts, config, channel, msg, mentionsMe, mode, env);
      var b := BuildSpec(t, prompts, channel, config.windowThreshold, mode);
      var duplicate := g.outbox.Some? && env.send.Delivered? && Stored(t.messages, env.send.reply.id);
      && (g.result.Err? <==>
            || b.Err?
            || (!mentionsMe && Social.Judge(b.value.contexts.social, config.maxAttempts, env.judge, env.parse).result.Err?)
            || (SaysYes(b.value.contexts.social, mentionsMe, config, env) && env.chat.ProviderError?)
            || duplicate)
      && (duplicate ==> g.result == Err(DuplicateKey))
      && g.aborted == (aborted || duplicate)
  {
    var b := BuildSpec(t, prompts, channel, config.windowThreshold, mode);
    if b.Ok? {
      GenerateSpecOk(t, aborted, prompts, config, channel, msg, mentionsMe, mode, env);
      RespondFails(b.value.tables, aborted, config, channel, msg, mentionsMe, b.value.contexts, env);
    }
  }

  /** The failures on any contexts. */
  lemma RespondFails(t: Tables, aborted: bool, config: Config, channel: Id, msg: Inbound, mentionsMe: bool,
                     contexts: Contexts, env: Environment)
    requires Consistent(t)
    ensures var g := Respond(t, aborted, config, channel, msg, mentionsMe, contexts, env);
      var duplicate := g.outbox.Some? && env.send.Delivered? && Stored(t.messages, env.send.reply.id);
      && (g.result.Err? <==>
            || (!mentionsMe && Social.Judge(contexts.social, config.maxAttempts, env.judge, env.parse).result.Err?)
            || (SaysYes(contexts.social, mentionsMe, config, env) && env.chat.ProviderError?)
            || duplicate)
      && (duplicate ==> g.result == Err(DuplicateKey))
      && g.aborted == (aborted || duplicate)
  {
  }
}
