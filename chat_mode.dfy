/** The `chat_mode` slash command (src/commands/chat_mode.rs): with a `mode`
    option it stores the parsed mode for the channel, creating the channel row
    if needed; without one it reports the stored mode. */
module ChatModeCommand {
  import opened Results
  import opened Db
  import opened Store
  import opened Gateway

  /** The choices registered for the `mode` option: the label shown, and the
      value the command receives. */
  const Choices: seq<(string, string)> := [
    ("Free Response", "free_response"),
    ("Mentions Only", "mentions_only"),
    ("Mentions Only All Context", "mentions_only_all_context")
  ]

  const NoModeSet := "Lumi does not have a chat mode set for this channel"

  function Updated(m: ChatMode): string {
    "Updated Lumi's chat mode to " + ToString(m)
  }

  function Current(m: ChatMode): string {
    "Lumi's current chat mode is " + ToString(m)
  }

  /** The command's response, or the error it stops with (nothing is sent
      then).  `mode` is the first option when it is a string. */
  function Reply(channels: map<Id, Channel>, channel: Id, mode: Option<string>): (r: Result<Response>)
    ensures r.Err? <==> mode.Some? && FromStr(mode.value).Err?
    ensures r.Err? ==> r.error == InvalidChatMode
    ensures r.Ok? ==> !r.value.ephemeral
    ensures mode.None? && channel !in channels ==> r == Ok(Response(NoModeSet, false))
    ensures mode.None? && channel in channels ==> r == Ok(Response(Current(channels[channel].chatMode), false))
    ensures mode.Some? && FromStr(mode.value).Ok? ==> r == Ok(Response(Updated(FromStr(mode.value).value), false))
  {
    match mode
    case Some(s) =>
      (match FromStr(s)
       case Err(e) => Err(e)
       case Ok(m) => Ok(Response(Updated(m), false)))
    case None =>
      if channel in channels then Ok(Response(Current(channels[channel].chatMode), false))
      else Ok(Response(NoModeSet, false))
  }

  /** The channels table after the command. */
  function After(channels: map<Id, Channel>, d: Defaults, channel: Id, mode: Option<string>): map<Id, Channel> {
    if mode.Some? && FromStr(mode.value).Ok? then WithChatMode(channels, channel, FromStr(mode.value).value, d)
    else channels
  }

  /** Every registered choice is accepted, and reports back the label it is
      shown under; every mode is offered. */
  lemma ChoicesRoundTrip()
    ensures forall k :: 0 <= k < |Choices| ==>
      FromStr(Choices[k].1).Ok? && ToString(FromStr(Choices[k].1).value) == Choices[k].0
    ensures forall m: ChatMode :: exists k :: 0 <= k < |Choices| && Choices[k] == (ToString(m), Key(m))
  {
    assert FromStr(Choices[0].1) == Ok(FreeResponse);
    assert FromStr(Choices[1].1) == Ok(MentionsOnly);
    assert FromStr(Choices[2].1) == Ok(MentionsOnlyAllContext);
    forall m: ChatMode ensures exists k :: 0 <= k < |Choices| && Choices[k] == (ToString(m), Key(m)) {
      match m
      case FreeResponse => assert Choices[0] == (ToString(m), Key(m));
      case MentionsOnly => assert Choices[1] == (ToString(m), Key(m));
      case MentionsOnlyAllContext => assert Choices[2] == (ToString(m), Key(m));
    }
  }

  /** Setting mode `m` answers with its label and a later query reports it.
      An existing row changes only its chat mode, a missing one is created
      with the column defaults and mode `m`, and no other channel changes. */
  lemma SetThenShow(channels: map<Id, Channel>, d: Defaults, channel: Id, m: ChatMode)
    ensures Reply(channels, channel, Some(Key(m))) == Ok(Response(Updated(m), false))
    ensures var after := After(channels, d, channel, Some(Key(m)));
      && Reply(after, channel, None) == Ok(Response(Current(m), false))
      && after.Keys == channels.Keys + {channel}
      && (channel in channels ==> after[channel] == channels[channel].(chatMode := m))
      && (channel !in channels ==> after[channel] == NewChannel(channel, d).(chatMode := m))
      && forall c :: c in channels && c != channel ==> after[c] == channels[c]
  {
    FromStrKey(m);
  }

  /** Something other than a mode key stops the command with the parse error
      and leaves the table as it was; so does a query. */
  lemma OnlyValidModesWrite(channels: map<Id, Channel>, d: Defaults, channel: Id, mode: Option<string>)
    ensures mode.None? || FromStr(mode.value).Err? ==> After(channels, d, channel, mode) == channels
    ensures mode.Some? && !(exists m: ChatMode :: Key(m) == mode.value) ==>
      Reply(channels, channel, mode) == Err(InvalidChatMode)
  {
  }

  /** `run` on the connection pool. */
  method Run(db: Database, channel: Id, mode: Option<string>) returns (r: Result<Response>)
    requires db.Valid()
    modifies db
    ensures db.Valid()
    ensures r == Reply(old(db.channels), channel, mode)
    ensures db.View() == old(db.View()).(channels := After(old(db.channels), db.defaults, channel, mode))
  {
    if mode.Some? {
      var parsed := FromStr(mode.value);
      if parsed.Err? {
        return Err(parsed.error);
      }
      db.UpsertChatMode(channel, parsed.value);
      return Ok(Response(Updated(parsed.value), false));
    }
    if channel in db.channels {
      return Ok(Response(Current(db.channels[channel].chatMode), false));
    }
    return Ok(Response(NoModeSet, false));
  }
}
