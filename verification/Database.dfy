/**
 The store as an object: every method is one transaction on the rows, updated in place, and
 does to them what its call does to a `Db`. A refused call changes nothing.
*/
module Database {
  import opened Options
  import opened Store
  import ApplyTimeout

  class Rows {
    var rows: seq<Deployment>
    var events: seq<Event>
    var runs: map<RunKey, HookRun>
    var lifts: map<Key, Lift>

    constructor ()
      ensures Value() == EMPTY
    {
      rows, events, runs, lifts := [], [], map[], map[];
    }

    function Value(): Db
      reads this
    {
      Db(rows, events, runs, lifts)
    }

    // -- reads -------------------------------------------------------------------------------

    method ActiveDeployment(k: Key) returns (id: Option<Id>)
      ensures id == ActiveOf(rows, k)
    {
      var i := |rows|;
      assert rows[..i] == rows;
      while i > 0
        invariant i <= |rows| && ActiveOf(rows[..i], k) == ActiveOf(rows, k)
      {
        i := i - 1;
        assert rows[..i + 1][..i] == rows[..i];
        if rows[i].key == k && IsActive(rows[i].state) {
          return Some(i);
        }
      }
      return None;
    }

    method LatestDeployment(k: Key) returns (id: Option<Id>)
      ensures id == LatestOf(rows, k)
    {
      var i := |rows|;
      assert rows[..i] == rows;
      while i > 0
        invariant i <= |rows| && LatestOf(rows[..i], k) == LatestOf(rows, k)
      {
        i := i - 1;
        assert rows[..i + 1][..i] == rows[..i];
        if rows[i].key == k {
          return Some(i);
        }
      }
      return None;
    }

    // -- writes ------------------------------------------------------------------------------

    method CreateDeployment(d: Deployment) returns (error: Option<Error>)
      modifies this
      ensures error == ErrorOf(old(Value()), Create(d)) && Value() == Exec(old(Value()), Create(d))
    {
      if d.state !in {Detected, PendingApproval, Failed} || (d.state == Failed) != (d.error != "") {
        return Some(Refused);
      }
      var active := ActiveDeployment(d.key);
      if IsActive(d.state) && active.Some? {
        // The unique index of the active rows.
        return Some(ActiveExists);
      }
      var id := |rows|;
      ghost var logged := events;
      rows := rows + [d.(applied := None, version := None, decidedBy := None, retriedBy := None, waiting := false, promoted := false)];
      events := events + [Event(id, None, Detected, Nops)];
      if d.liftedBy.Some? {
        lifts := Without(lifts, d.key);
        events := events + [Event(id, Some(Detected), Detected, d.liftedBy.value)];
      }
      if d.state != Detected {
        events := events + [Event(id, Some(Detected), d.state, Nops)];
      }
      assert events == logged + BirthEvents(id, d);
      return None;
    }

    method Transition(id: Id, from: State, to: State, actor: Actor, text: string, decided: bool) returns (error: Option<Error>)
      modifies this
      ensures var c := Store.Transition(id, from, to, actor, text, decided);
        error == ErrorOf(old(Value()), c) && Value() == Exec(old(Value()), c)
    {
      if to !in Allowed(from) {
        return Some(InvalidTransition);
      }
      if id >= |rows| {
        return Some(NotFound);
      }
      if rows[id].state != from {
        return Some(StateConflict);
      }
      var d := rows[id].(state := to);
      if text != "" {
        d := d.(error := text);
      }
      if decided {
        d := d.(decidedBy := Some(actor));
      }
      rows := rows[id := d];
      events := events + [Event(id, Some(from), to, actor)];
      return None;
    }

    method SetApplied(id: Id, index: nat, version: nat) returns (error: Option<Error>)
      modifies this`rows
      ensures var c := Store.SetApplied(id, index, version);
        error == ErrorOf(old(Value()), c) && Value() == Exec(old(Value()), c)
    {
      if index == 0 {
        return Some(Refused);
      }
      if id >= |rows| {
        return Some(NotFound);
      }
      if rows[id].state != Applying {
        return Some(StateConflict);
      }
      rows := rows[id := rows[id].(applied := Some(index), version := Some(version))];
      return None;
    }

    method MoveCASIndex(id: Id, state: State, from: nat, to: nat) returns (error: Option<Error>)
      modifies this
      ensures var c := MoveCas(id, state, from, to);
        error == ErrorOf(old(Value()), c) && Value() == Exec(old(Value()), c)
    {
      if state !in {Detected, PendingApproval, Applying} {
        return Some(Refused);
      }
      if id >= |rows| {
        return Some(NotFound);
      }
      if rows[id].state != state || rows[id].cas != from || rows[id].applied.Some? {
        return Some(StateConflict);
      }
      rows := rows[id := rows[id].(cas := to)];
      events := events + [Event(id, Some(state), state, Nops)];
      return None;
    }

    method MoveAppliedIndex(id: Id, from: nat, to: nat) returns (error: Option<Error>)
      modifies this
      ensures var c := MoveApplied(id, from, to);
        error == ErrorOf(old(Value()), c) && Value() == Exec(old(Value()), c)
    {
      if id >= |rows| {
        return Some(NotFound);
      }
      if rows[id].state != Applying || rows[id].applied != Some(from) {
        return Some(StateConflict);
      }
      rows := rows[id := rows[id].(applied := Some(to))];
      events := events + [Event(id, Some(Applying), Applying, Nops)];
      return None;
    }

    method MarkRetried(id: Id, actor: Actor) returns (error: Option<Error>)
      modifies this
      ensures var c := Store.MarkRetried(id, actor);
        error == ErrorOf(old(Value()), c) && Value() == Exec(old(Value()), c)
    {
      if id >= |rows| {
        return Some(NotFound);
      }
      var st := rows[id].state;
      if st in {Failed, Rejected} && rows[id].retriedBy.None? {
        rows := rows[id := rows[id].(retriedBy := Some(actor))];
        events := events + [Event(id, Some(st), st, actor)];
        return None;
      }
      return Some(if rows[id].retriedBy.Some? then AlreadyRetried else StateConflict);
    }

    method MarkAwaitingPromotion(id: Id) returns (wrote: bool, error: Option<Error>)
      modifies this
      ensures wrote <==> id < |old(rows)| && old(rows)[id].state == Applying && !old(rows)[id].waiting
      ensures error == ErrorOf(old(Value()), MarkWaiting(id)) && Value() == Exec(old(Value()), MarkWaiting(id))
    {
      if id >= |rows| {
        return false, Some(NotFound);
      }
      if rows[id].state != Applying {
        return false, Some(StateConflict);
      }
      if !rows[id].waiting {
        rows := rows[id := rows[id].(waiting := true)];
        events := events + [Event(id, Some(Applying), Applying, Nops)];
        return true, None;
      }
      return false, None;
    }

    method MarkPromoted(id: Id) returns (wrote: bool, error: Option<Error>)
      modifies this
      ensures wrote <==> id < |old(rows)| && old(rows)[id].state == Applying && old(rows)[id].waiting && !old(rows)[id].promoted
      ensures error == ErrorOf(old(Value()), Store.MarkPromoted(id)) && Value() == Exec(old(Value()), Store.MarkPromoted(id))
    {
      if id >= |rows| {
        return false, Some(NotFound);
      }
      if rows[id].state != Applying {
        return false, Some(StateConflict);
      }
      if rows[id].waiting && !rows[id].promoted {
        rows := rows[id := rows[id].(promoted := true)];
        events := events + [Event(id, Some(Applying), Applying, Nops)];
        return true, None;
      }
      return false, None;
    }

    method MarkPromotionRequested(id: Id, actor: Actor) returns (error: Option<Error>)
      modifies this`events
      ensures var c := RequestPromotion(id, actor);
        error == ErrorOf(old(Value()), c) && Value() == Exec(old(Value()), c)
    {
      if id >= |rows| {
        return Some(NotFound);
      }
      if rows[id].state != Applying {
        return Some(StateConflict);
      }
      events := events + [Event(id, Some(Applying), Applying, actor)];
      return None;
    }

    /** The place of the event a deployment entered applying with: the apply timeout counts from it. */
    method AppliedSince(id: Id) returns (at: Option<nat>)
      ensures at == ApplyTimeout.AppliedSince(events, id)
    {
      var i := |events|;
      assert events[..i] == events;
      while i > 0
        invariant i <= |events| && ApplyTimeout.AppliedSince(events[..i], id) == ApplyTimeout.AppliedSince(events, id)
      {
        i := i - 1;
        assert events[..i + 1][..i] == events[..i];
        if events[i].dep == id && events[i].to == Applying && events[i].from != Some(Applying) {
          return Some(i);
        }
      }
      return None;
    }

    // -- hook runs ------------------------------------------------------------------------------

    method EnsureHookRun(run: RunKey) returns (stored: HookRun, created: bool)
      modifies this`runs
      ensures Value() == Exec(old(Value()), EnsureRun(run))
      ensures run in runs && stored == runs[run]
      ensures created <==> run !in old(runs)
    {
      created := run !in runs;
      if created {
        runs := runs[run := HookRun(Dispatching, None)];
      }
      stored := runs[run];
    }

    method UpdateHookRun(run: RunKey, state: RunState, child: Option<string>) returns (error: Option<Error>)
      modifies this`runs
      ensures var c := UpdateRun(run, state, child);
        error == ErrorOf(old(Value()), c) && Value() == Exec(old(Value()), c)
    {
      if run !in runs {
        return Some(NotFound);
      }
      runs := runs[run := HookRun(state, if child.Some? then child else runs[run].child)];
      return None;
    }

    // -- window lifts -------------------------------------------------------------------------------

    method RequestWindowLift(k: Key, hash: SpecHash, actor: Actor)
      modifies this`lifts
      ensures Value() == Exec(old(Value()), RequestLift(k, hash, actor))
    {
      lifts := lifts[k := Lift(hash, actor)];
    }

    method DropWindowLift(k: Key) returns (dropped: bool)
      modifies this`lifts
      ensures Value() == Exec(old(Value()), DropLift(k))
      ensures dropped <==> k in old(lifts)
    {
      dropped := k in lifts;
      lifts := Without(lifts, k);
    }
  }
}
