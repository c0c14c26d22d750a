# Lumi, modelled in Dafny

Lumi is a chat bot for Discord. Every message whose author is not a bot,
other than the reset GIF, is stored in a Postgres `messages` table. A message
whose id is already stored makes the handler panic instead, and a failed
reply insert rolls the stored message back. The message is stored inside one transaction per
event, after the channel's row in `channels` is ensured. Lumi generates a
reply if it is mentioned, or if the channel's chat mode is `FreeResponse`.
A reply is generated in four steps:

- Build two prompt sequences from the channel's context window. The window
  moves forward once enough messages accumulate.
- Unless Lumi was mentioned, ask a judge model whether to reply. Malformed
  JSON answers are retried up to a budget.
- Ask the chat model for a completion.
- Post the completion as a reply and store the posted reply in the same
  transaction.

Three slash commands manage the same tables. `chat_mode` sets or shows a
channel's mode. `system_prompt` sets or shows a channel's system prompt.
`reset_context` moves a channel's window to now, and so does posting the
"no witnesses" GIF.

The model has the following modules:

- `Results`: `Option` and `Result`.
- `Db` (`src/db.rs`): the chat modes, their keys and labels, and the three
  record shapes.
- `Store`: the database as the core uses it.
  - The tables are values: a `messages` sequence kept sorted by id, with the
    id as primary key, and a `channels` map keyed by id. The `system_prompts`
    rows are a constant.
  - `Database` is the connection pool's committed state.
  - `Transaction` is a private working copy that a failed statement marks as
    aborted. Committing an aborted transaction rolls it back, as Postgres
    does.
- `Provider` (role-tagged chat messages and completions), `Gateway` (the
  platform values: inbound messages, send outcomes, posts, responses,
  emoji) and `AppConfig` (`window_threshold`, `max_attempts`).
- `Context` (`src/chat/context.rs`): the selection query, the window
  advance, `build_contents`, the two prompt sequences, and `build`.
- `Social` (`src/chat/social.rs`): the judge loop. The reference function
  `JudgeFrom` is recursive; `ShouldReply` is the `while` loop, proved equal
  to it.
- `Chatbot` (`src/chat/chatbot.rs`): `generate` on a transaction. It is
  proved equal to the function `GenerateSpec`.
- `ChatModeCommand`, `SystemPromptCommand` and `ResetContextCommand`: the
  command `run`s on the pool, each with the function giving its response and
  the function giving its new table.
- `Handler` (`src/handler.rs`): the `Handler` class. `HandleMessage` is
  proved equal to `HandleSpec` and `InteractionCreate` to `DispatchSpec`.
  The module also holds the `reaction_add` predicate.

Everything the core obtains from outside is a parameter. For one message
event that is a Chatbot `Environment`:

- the judge's completion for each attempt number, and the JSON parser;
- the chat completion;
- the outcome of posting the reply;
- the database's `now()`.

A command also receives the configuration that `reload` reads from disk.
Three behaviours of the code worth noting:

- The error report after a failed generation is posted without a reference
  to the inbound message (`src/handler.rs:172-179`).
- `system_prompt` on a channel without a row reports success but writes
  nothing (`SystemPromptCommand.SetOnMissingChannelIsLost`).
- A reply whose insert fails aborts the transaction, and committing then
  rolls back the inbound row too (`Handler.InboundSurvivesGeneration`).

## Model

| member | source | states |
|---|---|---|
| Db.FromStr | src/db.rs:117-130 | exactly the three snake_case keys parse, each to its mode; every other string gives the error "Invalid chat mode string" |
| Db.FromStrKey | src/db.rs:121-124 | parsing a mode's key gives back that mode |
| Db.ToStringInjective | src/db.rs:106-115 | two modes with the same label are the same mode |
| Db.FromStrRejectsLabels | src/db.rs:106-130 | no display label parses: `from_str(to_string(m))` fails for every mode |
| Db.AllModesExactlyThree | src/db.rs:100-104 | the mode type has exactly the three variants |
| Store.StoredIff | src/handler.rs:143 | a lookup by id finds a row exactly when a row with that id is stored |
| Store.InsertRow | src/handler.rs:140-157 | an insert fails exactly on an id that is already stored; otherwise the rows gain exactly the new row and stay sorted by id |
| Store.EnsuredChannel | src/handler.rs:128-133 | `INSERT ... ON CONFLICT DO NOTHING`: an existing row is untouched; a missing row is created with the column defaults |
| Store.WithChatMode | src/commands/chat_mode.rs:19-29 | the upsert sets only the chat mode of the one row; a missing row is created with the defaults for the other columns; other rows are unchanged |
| Store.WithSystemPrompt | src/commands/system_prompt.rs:28-36 | update-only: the keys are unchanged; the row, if present, changes only `system_prompt`; others are unchanged |
| Store.WithContextWindow | src/chat/context.rs:59-67 | update-only: the keys are unchanged; the row, if present, changes only `context_window`; others are unchanged |
| Store.PromptById | src/chat/context.rs:20-36 | the prompt found has the requested id; no prompt found means no row has it |
| Store.PromptByName | src/commands/system_prompt.rs:17-24 | the prompt found has the requested name; no prompt found means no row has it |
| Store.Database.UpsertChatMode | src/commands/chat_mode.rs:19-29 | the pool's channels become `WithChatMode` of the old ones; messages are unchanged |
| Store.Database.UpdateSystemPrompt | src/commands/system_prompt.rs:28-36 | the pool's channels become `WithSystemPrompt` of the old ones; messages are unchanged |
| Store.Database.UpdateContextWindow | src/commands/reset_context.rs:30-37 | the pool's channels become `WithContextWindow` of the old ones; messages are unchanged |
| Store.Transaction.Insert | src/handler.rs:140-157 | on a duplicate id: the error, rows unchanged, transaction aborted; otherwise the rows become `InsertRow`'s |
| Store.Transaction.EnsureChannel | src/handler.rs:128-133 | the working copy's channels become `EnsuredChannel` of the old ones |
| Store.Transaction.UpdateContextWindow | src/chat/context.rs:59-67 | the working copy's channels become `WithContextWindow` of the old ones |
| Store.Transaction.Commit | src/handler.rs:187-190 | the pool takes the working copy, or keeps its old state if the transaction was aborted |
| Social.Classify | src/chat/social.rs:24-29 | a provider error is a provider failure; an answer is well-formed exactly when its content, with a missing one read as "", parses. A well-formed answer carries the parsed `should_reply`, a malformed one the parse error, and a provider failure the provider's error |
| Social.JudgeFromShape | src/chat/social.rs:17-45 | a run makes between 1 and `max(i,1)` requests; every request but the last was malformed; the last one decides the result (its verdict, its provider error, or its parse error once the budget is spent) |
| Social.JudgeFromSent | src/chat/social.rs:31-41 | request j carries the original context plus one correction system message per earlier failure, holding that failure's error |
| Social.AllMalformedFails | src/chat/social.rs:22-33 | with every answer malformed, exactly `max(K,1)` requests are made and the run fails |
| Social.NonPositiveBudgetAsksOnce | src/chat/social.rs:22-33 | with `max_attempts <= 0` exactly one request is made |
| Social.FirstWellFormedDecides | src/chat/social.rs:24-29 | if answer J is the first well-formed one and J is within the budget, the result is its verdict after exactly J+1 requests (J counted from 0) |
| Social.ProviderErrorPropagates | src/chat/social.rs:24 | a provider error on attempt J ends the run with that error after J+1 requests, whatever budget is left |
| Social.SentContextsGrowByOne | src/chat/social.rs:31-41 | request j has the original length plus j; it extends the original context; every added message is a system message |
| Social.MissingContentIsNotANo | src/chat/social.rs:27 | missing content is classified like "", which does not parse, so it is a malformed answer and never a "no" |
| Social.ShouldReply | src/chat/social.rs:17-45 | the loop's result and the contexts it sent equal the reference run `Judge` |
| Context.Filter | src/chat/context.rs:45-48 | the kept rows are exactly the rows satisfying the WHERE clause; id order is preserved |
| Context.Joined | src/chat/context.rs:39-44 | the LEFT JOIN: the message is unchanged apart from the two reply columns; these are both set, from the stored target, exactly when the message replies to a stored message |
| Context.Selection | src/chat/context.rs:38-53 | every selected row can be rendered: reply contents come with a reply author |
| Context.SelectionIsWindow | src/chat/context.rs:38-53 | the selection is exactly the channel's stored messages with `time` past the window, with only those mentioning the bot in `MentionsOnly` mode, strictly ascending by id |
| Context.AdvanceTo | src/chat/context.rs:55-58 | the window moves exactly when the selection is non-empty and reaches the threshold, to the `time` of element `len/2` |
| Context.WindowAdvance | src/chat/context.rs:55-69 | at most the channel's `context_window` changes; on an advance it becomes the middle message's time and strictly increases; otherwise, including an empty selection at threshold 0, nothing changes |
| Context.Flatten | src/chat/context.rs:142 | same length; newlines become spaces and every other character is kept |
| Context.Preview | src/chat/context.rs:139-143 | the preview is `min(128, len)` characters long, has no newline, and is the flattened prefix |
| Context.BuildContents | src/chat/context.rs:132-154 | fails exactly on reply contents without a reply author; the text always ends with the author block; it starts with "Replying to:" exactly when there are reply contents, and then the reply block carries the reply author and `Preview` of the reply contents: its first 128 characters, newlines turned into spaces |
| Context.ChatContextShape | src/chat/context.rs:74-103 | the chat context has 1+N turns: the system prompt, then per message its raw contents as an assistant turn if the bot wrote it, else its rendering as a user turn |
| Context.SocialContextShape | src/chat/context.rs:82-124 | the judge context has 1+2N turns: the judge prompt, then per message an assistant `{"should_reply":is_self}` turn and a user turn with its rendering |
| Context.ChatContextSnoc | src/chat/context.rs:74-103 | each further message appends exactly one turn, its own, to the chat context |
| Context.BuildPrompts | src/chat/context.rs:71-124 | the loop builds exactly the chat context and the judge context of the selection |
| Context.BuildSpecShape | src/chat/context.rs:20-53 | `build` fails with the no-row error exactly when the channel row, its prompt or prompt 1 is missing. Otherwise the lengths are 1+N and 1+2N with the right system prompts, and the tables change only by the window advance computed on the pre-advance selection |
| Context.Build | src/chat/context.rs:14-130 | on the transaction, `build` returns and writes exactly what `BuildSpec` says |
| Chatbot.Plan | src/chat/chatbot.rs:24-38 | a post happens exactly when the answer is yes and the completion has non-empty content. An error comes exactly from a failed judgment, or from a provider error after a yes |
| Chatbot.Generate | src/chat/chatbot.rs:13-73 | the result, transaction state, requests and post equal `GenerateSpec` |
| Chatbot.PostAndStore | src/chat/chatbot.rs:24-72 | the steps after `build` equal `Respond` |
| Chatbot.BuildFailureStopsEarly | src/chat/chatbot.rs:23 | a build error is returned before any request or post, and nothing changes |
| Chatbot.GenerateSpecOk | src/chat/chatbot.rs:23-24 | after a successful build, `generate` is the response on the built tables, whose messages are unchanged and still consistent |
| Chatbot.MentionSkipsJudge | src/chat/chatbot.rs:24-25 | when mentioned, no judge request is made and the chat completion is asked with the chat context |
| Chatbot.UnmentionedAsksJudge | src/chat/chatbot.rs:24-28 | when not mentioned, the judge requests are `should_reply`'s; the completion is asked exactly on a yes; a judge error is returned with no post |
| Chatbot.RespondUnmentioned | src/chat/chatbot.rs:24-28 | on any built contexts, with no mention: the judge requests are `should_reply`'s, the completion is asked exactly on a yes, and a judge error is returned with no post |
| Chatbot.PostsExactlyOnNonEmptyYes | src/chat/chatbot.rs:26-50 | a post happens exactly after a successful build, a yes and non-empty content. It carries that content, references the inbound message, and suppresses mentions |
| Chatbot.RespondPosts | src/chat/chatbot.rs:24-50 | on any built contexts: a post happens exactly on a yes with non-empty content, and it is that content sent as a reference to the inbound message with mentions suppressed |
| Chatbot.StoresOnlyDeliveredReplies | src/chat/chatbot.rs:40-69 | a row is stored only for a delivered post with a new id. That row is flagged `is_self` and `mentions_self`, in the channel, with the reply's id and reference. Otherwise the messages are unchanged; the channels are the post-advance ones |
| Chatbot.RespondStores | src/chat/chatbot.rs:24-69 | on any built contexts: the channels are unchanged, and the messages gain the reply row exactly for a delivered post with a new id |
| Chatbot.DeliverStores | src/chat/chatbot.rs:40-69 | posting changes only the messages table, and only by the reply row of a delivered post with a new id |
| Chatbot.FailsExactlyWhen | src/chat/chatbot.rs:23-70 | `generate` fails exactly on a build error, an unmentioned judge error, a provider error after a yes, or a taken reply id. Only the last aborts the transaction |
| Chatbot.RespondFails | src/chat/chatbot.rs:24-70 | on any built contexts: the response fails exactly on an unmentioned judge error, a provider error after a yes, or a taken reply id, and only the last aborts |
| ChatModeCommand.Reply | src/commands/chat_mode.rs:13-48 | fails exactly on an option that does not parse, with the parse error; responses are public; a valid mode is answered "Updated Lumi's chat mode to" its label; a query reports the stored mode's label, or "does not have a chat mode set" for a channel without a row |
| ChatModeCommand.ChoicesRoundTrip | src/commands/chat_mode.rs:71-73 | every registered choice parses to the mode shown under its label, and every mode is offered |
| ChatModeCommand.SetThenShow | src/commands/chat_mode.rs:19-47 | setting mode m answers "Updated ... m" and a query then reports m. An existing row changes only its mode; a missing one is created; no other channel changes |
| ChatModeCommand.OnlyValidModesWrite | src/commands/chat_mode.rs:18-31 | a query or an invalid mode leaves the table unchanged; a non-key string is answered with the parse error |
| ChatModeCommand.Run | src/commands/chat_mode.rs:8-60 | on the pool, `run` answers `Reply` and writes `After` |
| SystemPromptCommand.CurrentPrompt | src/commands/system_prompt.rs:39-47 | the join finds a prompt exactly when the channel has a row whose prompt id exists, and it is that prompt |
| SystemPromptCommand.Reply | src/commands/system_prompt.rs:12-56 | fails exactly on a name no prompt has, with "Could not find a system prompt". A set names the prompt; a query reports the name of the prompt the channel row joins to, or "no prompt set" when the join finds none |
| SystemPromptCommand.QueryReportsCurrentPrompt | src/commands/system_prompt.rs:39-55 | with unique prompt ids, a query reports the name of the prompt the channel row points at, and "no prompt set" exactly when there is no row or it points at no prompt |
| SystemPromptCommand.SetThenShow | src/commands/system_prompt.rs:28-55 | with unique prompt ids and a channel row, after setting name n a query reports n |
| SystemPromptCommand.KnownNameSetsOnlyThisChannel | src/commands/system_prompt.rs:17-37 | a known name sets only this channel's `system_prompt` to the first prompt of that name and answers with the name |
| SystemPromptCommand.UnknownNameChangesNothing | src/commands/system_prompt.rs:17-27 | an unknown name is an error and writes nothing |
| SystemPromptCommand.SetOnMissingChannelIsLost | src/commands/system_prompt.rs:28-37 | without a channel row the set is answered as done, writes nothing, and a query still reports no prompt |
| SystemPromptCommand.Run | src/commands/system_prompt.rs:7-68 | on the pool, `run` answers `Reply` and writes `After` |
| ResetContextCommand.ResetForgetsHistory | src/commands/reset_context.rs:29-38 | a reset at `now` changes only the channel's window (and nothing for a missing row, messages included); afterwards every selected message has `time > now`, so none stored by then is selected |
| ResetContextCommand.FirstSelectedIsStored | src/chat/context.rs:38-53 | a non-empty selection starts with a stored message's time |
| ResetContextCommand.ResetContext | src/commands/reset_context.rs:29-39 | on the pool, the channels become `Reset` of the old ones |
| ResetContextCommand.Run | src/commands/reset_context.rs:7-23 | resets, then answers "Reset context!" publicly |
| Handler.MentionsMe | src/handler.rs:106-108 | a private message (one without a guild, as `is_private` decides) always counts as mentioning the bot; otherwise only a successful mention query that says yes does |
| Handler.ModeOf | src/handler.rs:109-119 | the chat mode of the channel's row, `MentionsOnlyAllContext` without one |
| Handler.InboundRow | src/handler.rs:140-154 | the inbound row: not the bot's own, `mentions_self` from the mention check, the author's id, name and display name, the message's channel, guild, safe content and time. `reply` is set exactly when the referenced id is stored |
| Handler.Recorded | src/handler.rs:121-157 | the insert fails exactly on a stored id; otherwise the channel row is ensured and the rows gain exactly the inbound row |
| Handler.BotMessagesChangeNothing | src/handler.rs:83-85 | a bot's message changes nothing and posts nothing |
| Handler.ResetGifSkipsRecording | src/handler.rs:87-104 | the reset GIF moves only this channel's window to now, posts "Reset context!" in reply, and is not stored |
| Handler.DuplicateInboundCrashes | src/handler.rs:155-157 | an inbound id already stored panics: nothing changes |
| Handler.GenerationRunsIff | src/handler.rs:159 | generation runs exactly for a mention or in `FreeResponse` mode; otherwise only the inbound row and the channel row are written |
| Handler.InboundSurvivesGeneration | src/handler.rs:159-190 | unless aborted, the inbound row and every earlier row are committed, whatever generation did. Abort happens only when a delivered reply's id is taken, and then everything is rolled back |
| Handler.SendFailureKeepsInbound | src/handler.rs:159-190 | a failed post stores no reply row, while the inbound row is committed |
| Handler.FreeResponseScenario | src/handler.rs:159-190 | free response, no mention, a first-attempt yes, non-empty text, delivered: one judge request, one post referencing the message, and both rows committed |
| Handler.MentionsOnlyScenario | src/handler.rs:159 | `MentionsOnly` without a mention: no judge request, no post, the inbound row stored |
| Handler.EmptyReplyScenario | src/handler.rs:159-190 | a mention answered with empty content: no judge request, no post, only the inbound row added |
| Handler.DispatchAnswersOnce | src/handler.rs:49-80 | one response per command and none for other interactions. Unknown names get "Unknown command :(" and change nothing; only `reload` changes the configuration; an ephemeral response (an error or the reload) comes with unchanged tables |
| Handler.ReactionDeletes | src/handler.rs:17-20 | a reaction deletes exactly when the bot wrote the message and the emoji is the Unicode cross mark; a custom emoji never does |
| Handler.ErrorReport | src/handler.rs:177 | the report is the error text inside a code block after "Encountered an error:", and the error text can be read back out of it |
| Handler.Posts | src/handler.rs:172-179 | after a generation: the reply first, if one was attempted, then, if generation failed, the error report in the channel with no reference and mentions suppressed |
| Handler.Handler.HandleMessage | src/handler.rs:82-191 | the disposition, committed tables, posts and requests of `message` equal `HandleSpec`. The posts are `ResetReply` (handler.rs:91-98, "Reset context!" referencing the GIF) or `Posts`, and generation runs exactly when `Generates` holds |
| Handler.Handler.InteractionCreate | src/handler.rs:49-80 | the responses, tables and configuration after `interaction_create` equal `DispatchSpec`, which routes each command name to its command and answers an error with its ephemeral text |

## Left out

- Platform I/O is not modelled as I/O:
  - Sending, command responses, the typing indicator, message fetch and delete, `content_safe` and the command `register()` builders.
  - A post's outcome and the mention query's answer are inputs.
  - Command responses are assumed to be delivered. A failed `create_response` is only printed by the source.
  - The "Unknown command :(" response could fail and then be reported as a command error; the model leaves that path out.
- Completion calls are not modelled: the request bodies, the model names and the floating-point sampling parameters. A completion is an input, indexed by attempt for the judge.
  - Chatbot.Generate: the panic of `choices.first().unwrap()` on an empty choice list is not modelled; a completion is its first choice.
  - Social.ShouldReply: the same panic is left out of the judge loop.
- JSON parsing is not modelled. The parser is an input function from text to a verdict or an error message. `Serialize` gives the two strings serde writes for the fixed struct.
- Error texts are not formatted from eyre reports. An error is carried as the text that `{err:?}` or `to_string()` would give; debug formatting, chains and backtraces are left out.
- Postgres is not modelled as a server. SQL text, row locking (`FOR UPDATE`), concurrency among channels, connectivity and decoding errors, and the panics they cause are left out: beginning a transaction, reading the chat mode, resetting, and committing.
  - ResetContextCommand.Run: a reset cannot fail in the model, so the propagation of a reset error before the response is vacuous.
- The schema's column defaults are a `Defaults` value of the database, because the schema file is not part of this model. A row's `time` default is the event's `now`.
- Identifiers and times are unbounded naturals, and prompt ids are integers. The `as i64` casts of 64-bit identifiers and the `u64` decoding are left out; they are identities for every id the platform issues.
- Social.JudgeFrom: the attempt counter is an unbounded integer, not an `isize`. From a positive `max_attempts` the counter stops at 0 and never underflows; the one underflow is `max_attempts == isize::MIN`, where the first malformed answer's `i -= 1` panics (with overflow checks) or wraps to `isize::MAX` and retries about 2^63 times. The model instead fails after that one request, as it does for every `max_attempts <= 0`.
- `reload` reading and parsing `config.toml`, and its panics, are not modelled; the new configuration is an input. `ready` and command-registration errors are out of scope.
- Idempotence of the window filter (a second selection after an advance) is not stated as a lemma. A second selection sees the advanced window, which the model computes (`Context.WindowAdvance`) but does not compare with the first.
