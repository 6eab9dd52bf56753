/** The apply timeout counts from the event that entered applying, whatever else the log says of applying later. */
module ApplyTimeout {
  import opened Options
  import opened Store

  /** The last event that moved the deployment to applying from another state. */
  function AppliedSince(events: seq<Event>, id: Id): (at: Option<nat>)
    ensures at.Some? ==> at.value < |events|
  {
    if events == [] then None
    else
      var n := |events| - 1;
      if events[n].dep == id && events[n].to == Applying && events[n].from != Some(Applying) then Some(n)
      else AppliedSince(events[..n], id)
  }

  lemma {:induction false} SinceIsAnEntry(events: seq<Event>, id: Id)
    ensures AppliedSince(events, id).Some? <==> Entries(events, id, Applying) > 0
  {
    if events != [] { SinceIsAnEntry(events[..|events| - 1], id); }
  }

  /** In a log of legal moves the event, once there, is the last of its kind for good. */
  lemma {:induction false} SinceIsFixed(events: seq<Event>, more: seq<Event>, id: Id)
    requires Chained(events + more, id) && AppliedSince(events, id).Some?
    ensures AppliedSince(events + more, id) == AppliedSince(events, id)
  {
    if more == [] {
      assert events + more == events;
    } else {
      var n := |more| - 1;
      var before := events + more[..n];
      assert events + more == before + [more[n]];
      AppendChained(before, more[n], id);
      SinceIsFixed(events, more[..n], id);
      SinceIsAnEntry(before, id);
      EntersOnce(before + [more[n]], id, Applying);
      hide Chained, Folded, Entries;
      assert (before + [more[n]])[..|before|] == before;
    }
  }

  /** No store call, so no restart and no later event, moves the start of the timeout. */
  lemma NoCallExtendsTheTimeout(db: Db, c: Call, id: Id)
    requires LogIsState(db) && AppliedSince(db.events, id).Some?
    ensures AppliedSince(Exec(db, c).events, id) == AppliedSince(db.events, id)
  {
    ExecGrows(db, c);
    ExecKeepsLog(db, c);
    assert Chained(Exec(db, c).events, id);
    hide Exec, LogIsState;
    var more := Exec(db, c).events[|db.events|..];
    assert Exec(db, c).events == db.events + more;
    SinceIsFixed(db.events, more, id);
  }

  /** And a deployment that is applying has one. */
  lemma {:induction false} SinceWhenApplying(events: seq<Event>, id: Id)
    requires Chained(events, id) && Folded(events, id) == Some(Applying)
    ensures AppliedSince(events, id).Some?
  {
    if events != [] {
      var n := |events| - 1;
      if !(events[n].dep == id && events[n].from != Some(Applying)) { SinceWhenApplying(events[..n], id); }
    }
  }
}
