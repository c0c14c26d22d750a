/** The `reset_context` slash command and the `reset_context` operation it
    shares with the reset GIF (src/commands/reset_context.rs): the channel's
    window moves to the current time, so everything stored so far falls out
    of the context. */
module ResetContextCommand {
  import opened Results
  import opened Db
  import opened Store
  import opened Gateway
  import opened Context

  const Done := "Reset context!"

  /** `UPDATE channels SET context_window = now WHERE id = channel` */
  function Reset(channels: map<Id, Channel>, channel: Id, now: nat): map<Id, Channel> {
    WithContextWindow(channels, channel, now)
  }

  /** A reset at time `now` changes only the channel's window, and only when
      the channel has a row.  Afterwards the channel's selection holds only
      messages stored after `now`, so none of those already stored at that
      time, in every chat mode. */
  lemma ResetForgetsHistory(t: Tables, channel: Id, mode: ChatMode, now: nat)
    requires Consistent(t)
    ensures var t' := t.(channels := Reset(t.channels, channel, now));
      var sel := Selection(t', channel, mode);
      && Consistent(t') && t'.messages == t.messages
      && t'.channels.Keys == t.channels.Keys
      && (channel in t.channels ==> t'.channels[channel] == t.channels[channel].(contextWindow := now))
      && (forall c :: c in t.channels && c != channel ==> t'.channels[c] == t.channels[c])
      && (forall k :: 0 <= k < |sel| ==> sel[k].time > now)
      && ((forall m :: m in t.messages ==> m.time <= now) ==> sel == [])
      && (channel !in t.channels ==> t' == t)
  {
    var t' := t.(channels := Reset(t.channels, channel, now));
    var sel := Selection(t', channel, mode);
    if channel in t.channels {
      SelectionIsWindow(t', channel, mode);
      assert t'.messages == t.messages && t'.channels[channel].contextWindow == now;
      FirstSelectedIsStored(t', channel, mode);
    }
  }

  /** A non-empty selection starts with (the join of) a stored message. */
  lemma FirstSelectedIsStored(t: Tables, channel: Id, mode: ChatMode)
    requires Consistent(t) && channel in t.channels
    ensures var sel := Selection(t, channel, mode);
      sel != [] ==> exists m :: m in t.messages && m.time == sel[0].time
  {
    var sel := Selection(t, channel, mode);
    SelectionIsWindow(t, channel, mode);
    if sel != [] {
      assert sel[0].channel == channel;
      var m :| m in t.messages && InWindow(m, channel, t.channels[channel].contextWindow, mode)
               && sel[0] == Joined(t.messages, m);
      assert m.time == sel[0].time;
    }
  }

  /** `reset_context` on the connection pool. */
  method ResetContext(db: Database, channel: Id, now: nat)
    requires db.Valid()
    modifies db
    ensures db.Valid()
    ensures db.View() == old(db.View()).(channels := Reset(old(db.channels), channel, now))
  {
    db.UpdateContextWindow(channel, now);
  }

  /** `run`: reset, then answer publicly. */
  method Run(db: Database, channel: Id, now: nat) returns (r: Result<Response>)
    requires db.Valid()
    modifies db
    ensures db.Valid()
    ensures r == Ok(Response(Done, false))
    ensures db.View() == old(db.View()).(channels := Reset(old(db.channels), channel, now))
  {
    ResetContext(db, channel, now);
    r := Ok(Response(Done, false));
  }
}
