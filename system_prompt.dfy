/** The `system_prompt` slash command (src/commands/system_prompt.rs): with a
    `prompt` option it points the channel at the prompt of that name; without
    one it reports the name of the channel's prompt. */
module SystemPromptCommand {
  import opened Results
  import opened Db
  import opened Store
  import opened Gateway

  const NotFound := "Could not find a system prompt for the given name"
  const NoPromptSet := "Lumi does not have a system prompt set for this channel"

  function SetTo(name: string): string {
    "Set Lumi's system prompt to '`" + name + "`'"
  }

  function CurrentIs(name: string): string {
    "Lumi's current system prompt is '`" + name + "`'"
  }

  /** Prompt ids are a primary key. */
  predicate UniqueIds(prompts: seq<SystemPrompt>) {
    forall i, j :: 0 <= i < j < |prompts| ==> prompts[i].id != prompts[j].id
  }

  /** The channel's prompt: the join of its row with the prompts table. */
  function CurrentPrompt(channels: map<Id, Channel>, prompts: seq<SystemPrompt>, channel: Id): (r: Option<SystemPrompt>)
    ensures r.Some? <==> channel in channels && exists p :: p in prompts && p.id == channels[channel].systemPrompt
    ensures r.Some? ==> r.value in prompts && r.value.id == channels[channel].systemPrompt
  {
    if channel in channels then
      var found := PromptById(prompts, channels[channel].systemPrompt);
      assert found.None? ==> forall p :: p in prompts ==> p.id != channels[channel].systemPrompt;
      found
    else None
  }

  /** The command's response, or the error it stops with (nothing is sent
      then).  `name` is the first option when it is a string. */
  function Reply(channels: map<Id, Channel>, prompts: seq<SystemPrompt>, channel: Id, name: Option<string>): (r: Result<Response>)
    ensures r.Err? <==> name.Some? && forall p :: p in prompts ==> p.name != name.value
    ensures r.Err? ==> r.error == NotFound
    ensures r.Ok? ==> !r.value.ephemeral
    ensures name.Some? && r.Ok? ==> r.value.content == SetTo(name.value)
    ensures name.None? ==>
      var current := CurrentPrompt(channels, prompts, channel);
      r == Ok(Response(if current.Some? then CurrentIs(current.value.name) else NoPromptSet, false))
  {
    match name
    case Some(n) =>
      (match PromptByName(prompts, n)
       case None => Err(NotFound)
       case Some(p) => Ok(Response(SetTo(p.name), false)))
    case None =>
      match CurrentPrompt(channels, prompts, channel)
      case None => Ok(Response(NoPromptSet, false))
      case Some(p) => Ok(Response(CurrentIs(p.name), false))
  }

  /** The channels table after the command: an update of an existing row only. */
  function After(channels: map<Id, Channel>, prompts: seq<SystemPrompt>, channel: Id, name: Option<string>): map<Id, Channel> {
    if name.Some? && PromptByName(prompts, name.value).Some? then
      WithSystemPrompt(channels, channel, PromptByName(prompts, name.value).value.id)
    else channels
  }

  /** Once a channel is pointed at prompt `n`, a query reports `n` (prompt ids
      are unique, so the join finds that very prompt). */
  lemma SetThenShow(channels: map<Id, Channel>, prompts: seq<SystemPrompt>, channel: Id, n: string)
    requires UniqueIds(prompts)
    requires channel in channels
    requires exists p :: p in prompts && p.name == n
    ensures Reply(After(channels, prompts, channel, Some(n)), prompts, channel, None) == Ok(Response(CurrentIs(n), false))
  {
    var p := PromptByName(prompts, n).value;
    var after := After(channels, prompts, channel, Some(n));
    var q := CurrentPrompt(after, prompts, channel).value;
    var i :| 0 <= i < |prompts| && prompts[i] == p;
    var j :| 0 <= j < |prompts| && prompts[j] == q;
    assert i == j;
  }

  /** A query reports the name of the prompt the channel's row points at,
      and "no prompt set" exactly when the channel has no row or its row
      points at no prompt. */
  lemma QueryReportsCurrentPrompt(channels: map<Id, Channel>, prompts: seq<SystemPrompt>, channel: Id)
    requires UniqueIds(prompts)
    ensures (forall p :: p in prompts && channel in channels && p.id == channels[channel].systemPrompt ==>
               Reply(channels, prompts, channel, None) == Ok(Response(CurrentIs(p.name), false)))
    ensures Reply(channels, prompts, channel, None) == Ok(Response(NoPromptSet, false)) <==>
      (channel !in channels || forall p :: p in prompts ==> p.id != channels[channel].systemPrompt)
  {
    forall p | p in prompts && channel in channels && p.id == channels[channel].systemPrompt
      ensures Reply(channels, prompts, channel, None) == Ok(Response(CurrentIs(p.name), false))
    {
      var q := CurrentPrompt(channels, prompts, channel).value;
      var i :| 0 <= i < |prompts| && prompts[i] == p;
      var j :| 0 <= j < |prompts| && prompts[j] == q;
      assert i == j;
    }
    var current := CurrentPrompt(channels, prompts, channel);
    if current.Some? {
      var c := CurrentIs(current.value.name);
      assert c[|c| - 1] != NoPromptSet[|NoPromptSet| - 1];
    }
  }

  /** A known name points only this channel (when it has a row) at the first
      prompt of that name, and the response names it. */
  lemma KnownNameSetsOnlyThisChannel(channels: map<Id, Channel>, prompts: seq<SystemPrompt>, channel: Id, n: string)
    requires exists p :: p in prompts && p.name == n
    ensures var after := After(channels, prompts, channel, Some(n));
      var p := PromptByName(prompts, n);
      && p.Some? && p.value.name == n && p.value in prompts
      && Reply(channels, prompts, channel, Some(n)) == Ok(Response(SetTo(n), false))
      && after.Keys == channels.Keys
      && (channel in channels ==> after[channel] == channels[channel].(systemPrompt := p.value.id))
      && forall c :: c in channels && c != channel ==> after[c] == channels[c]
  {
    var q :| q in prompts && q.name == n;
    assert PromptByName(prompts, n).Some?;
  }

  /** An unknown name stops the command with an error and writes nothing. */
  lemma UnknownNameChangesNothing(channels: map<Id, Channel>, prompts: seq<SystemPrompt>, channel: Id, n: string)
    requires forall p :: p in prompts ==> p.name != n
    ensures Reply(channels, prompts, channel, Some(n)) == Err(NotFound)
    ensures After(channels, prompts, channel, Some(n)) == channels
  {
  }

  /** A channel without a row is told its prompt was set, yet no row is
      written, so a later query still finds none. */
  lemma SetOnMissingChannelIsLost(channels: map<Id, Channel>, prompts: seq<SystemPrompt>, channel: Id, n: string)
    requires channel !in channels
    requires exists p :: p in prompts && p.name == n
    ensures Reply(channels, prompts, channel, Some(n)) == Ok(Response(SetTo(n), false))
    ensures After(channels, prompts, channel, Some(n)) == channels
    ensures Reply(channels, prompts, channel, None) == Ok(Response(NoPromptSet, false))
  {
    var p :| p in prompts && p.name == n;
    assert PromptByName(prompts, n).Some?;
  }

  /** `run` on the connection pool. */
  method Run(db: Database, channel: Id, name: Option<string>) returns (r: Result<Response>)
    requires db.Valid()
    modifies db
    ensures db.Valid()
    ensures r == Reply(old(db.channels), db.prompts, channel, name)
    ensures db.View() == old(db.View()).(channels := After(old(db.channels), db.prompts, channel, name))
  {
    if name.Some? {
      var found := PromptByName(db.prompts, name.value);
      if found.None? {
        return Err(NotFound);
      }
      db.UpdateSystemPrompt(channel, found.value.id);
      return Ok(Response(SetTo(found.value.name), false));
    }
    var current := CurrentPrompt(db.channels, db.prompts, channel);
    if current.None? {
      return Ok(Response(NoPromptSet, false));
    }
    return Ok(Response(CurrentIs(current.value.name), false));
  }
}
