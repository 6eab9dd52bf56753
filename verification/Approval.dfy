/**
 Approval safety: a deployment under approval starts by one decision of a person, made
 for its own spec, and nothing of it is registered or dispatched before.
*/
module ApprovalSafety {
  import opened Options
  import opened Store
  import opened Decisions
  import opened Machine
  import opened Base
  import opened Births

  predicate Started(st: State) {
    st in {PreHook, Applying, PostHook}
  }

  /** The event of a deployment starting: out of the states it waits in. */
  predicate Starts(e: Event) {
    e.from in {Some(Detected), Some(PendingApproval)} && e.to in {PreHook, Applying}
  }

  /** How many times a deployment started. */
  function Starting(events: seq<Event>, id: Id): nat {
    if events == [] then 0
    else
      var n := |events| - 1;
      Starting(events[..n], id) + if events[n].dep == id && Starts(events[n]) then 1 else 0
  }

  /** The deployment was once in that state. */
  ghost predicate Entered(events: seq<Event>, id: Id, st: State) {
    exists i :: 0 <= i < |events| && events[i].dep == id && events[i].to == st
  }

  lemma AppendStarting(events: seq<Event>, e: Event, id: Id)
    ensures Starting(events + [e], id) == Starting(events, id) + if e.dep == id && Starts(e) then 1 else 0
  {
    assert (events + [e])[..|events|] == events;
  }

  lemma {:induction false} StartingGrows(events: seq<Event>, id: Id, n: nat)
    requires n <= |events|
    ensures Starting(events[..n], id) <= Starting(events, id)
  {
    if n < |events| {
      var most := events[..|events| - 1];
      assert most[..n] == events[..n];
      StartingGrows(most, id, n);
    } else {
      assert events[..n] == events;
    }
  }

  /** A chain of legal moves starts once at most, and has started once it is in a started state. */
  lemma {:induction false} StartsOnce(events: seq<Event>, id: Id)
    requires Chained(events, id)
    ensures Starting(events, id) <= 1
    ensures Folded(events, id).Some? ==>
              var st := Folded(events, id).value;
              && (st in {Detected, PendingApproval} ==> Starting(events, id) == 0)
              && (Started(st) ==> Starting(events, id) == 1)
    ensures Folded(events, id).None? ==> Starting(events, id) == 0
  {
    if events != [] {
      StartsOnce(events[..|events| - 1], id);
    }
  }

  lemma {:induction false} ChainedPrefix(events: seq<Event>, id: Id, n: nat)
    requires Chained(events, id) && n <= |events|
    ensures Chained(events[..n], id)
  {
    if n < |events| {
      var most := events[..|events| - 1];
      assert most[..n] == events[..n];
      ChainedPrefix(most, id, n);
    } else {
      assert events[..n] == events;
    }
  }

  /** Once in a started state, started exactly once. */
  lemma EnteredStarted(events: seq<Event>, id: Id, st: State)
    requires Chained(events, id) && Entered(events, id, st) && Started(st)
    ensures Starting(events, id) == 1
  {
    var i :| 0 <= i < |events| && events[i].dep == id && events[i].to == st;
    ChainedPrefix(events, id, i + 1);
    StartsOnce(events[..i + 1], id);
    StartingGrows(events, id, i + 1);
    StartsOnce(events, id);
  }

  // -- what every run keeps --------------------------------------------------------------------

  /** A step decides only for a deployment that started, or that may start by itself. */
  predicate MayDecide(w: Worker) {
    w.pc.Deciding? ==> Started(w.d.state) || (w.d.state == Detected && w.d.policy == DeployPolicy.Auto)
  }

  ghost predicate Honest(s: Sys) {
    && (forall id, d :: (id, d) in s.copies ==> Entered(s.db.events, id, d.state))
    && (forall id :: id in s.workers ==> Entered(s.db.events, id, s.workers[id].d.state) && MayDecide(s.workers[id]))
  }

  lemma EnteredStays(db: Db, c: Store.Call, id: Id, st: State)
    requires Entered(db.events, id, st)
    ensures Entered(Exec(db, c).events, id, st)
  {
    hide Exec;
    var i :| 0 <= i < |db.events| && db.events[i].dep == id && db.events[i].to == st;
    ExecGrows(db, c);
    assert Exec(db, c).events[i] == db.events[i];
  }

  lemma StateEntered(db: Db, id: Id)
    requires LogIsState(db) && id < |db.rows|
    ensures Entered(db.events, id, db.rows[id].state)
  {
    FoldedEntered(db.events, id);
  }

  lemma {:induction false} FoldedEntered(events: seq<Event>, id: Id)
    requires Folded(events, id).Some?
    ensures Entered(events, id, Folded(events, id).value)
  {
    var n := |events| - 1;
    if events[n].dep != id {
      FoldedEntered(events[..n], id);
      var i :| 0 <= i < n && events[..n][i].dep == id && events[..n][i].to == Folded(events[..n], id).value;
      assert events[i].dep == id;
    }
  }

  lemma WorkedDecides(p: Nomad.Plan, s: Sys, id: Id, w: Worker, work: Work)
    requires hide *; MayDecide(w)
    ensures var e := Worked(p, s, id, w, work); e.next.Some? ==> MayDecide(e.next.value) && e.next.value.d.state == w.d.state
  {
    hide RegisterStep, HealthStep, HookStep;
  }

  lemma NextHonest(p: Nomad.Plan, s: Sys, a: Action)
    requires Sound(s.db) && Honest(s)
    ensures Honest(Next(p, s, a))
  {
    hide *;
    NextParts(p, s, a);
    HonestIs(s);
    HonestIs(Next(p, s, a));
    SoundLog(s.db);
    forall id, d | (id, d) in CopiesAfter(s, a)
      ensures Entered(Exec(s.db, CallOf(s, a)).events, id, d.state)
    {
      CopyFrom(s, a, id, d);
      if (id, d) !in s.copies { StateEntered(s.db, id); }
      EnteredStays(s.db, CallOf(s, a), id, d.state);
    }
    forall id | id in WorkersAfter(p, s, a)
      ensures var w := WorkersAfter(p, s, a)[id]; Entered(Exec(s.db, CallOf(s, a)).events, id, w.d.state) && MayDecide(w)
    {
      var w := WorkersAfter(p, s, a)[id];
      WorkerOrigin(p, s, a, id);
      ReadyDecides(w.d);
      if a.Step? && a.id == id && id in s.workers { WorkedDecides(p, s, id, s.workers[id], a.work); }
      EnteredStays(s.db, CallOf(s, a), id, w.d.state);
    }
  }

  lemma HonestIs(s: Sys)
    ensures Honest(s) <==>
      && (forall id, d :: (id, d) in s.copies ==> Entered(s.db.events, id, d.state))
      && (forall id :: id in s.workers ==> Entered(s.db.events, id, s.workers[id].d.state) && MayDecide(s.workers[id]))
  {
    hide Entered, MayDecide;
  }

  lemma SoundLog(db: Db)
    requires Sound(db)
    ensures LogIsState(db)
  {
    hide LogIsState;
  }

  lemma CopyFrom(s: Sys, a: Action, id: Id, d: Deployment)
    requires (id, d) in CopiesAfter(s, a)
    ensures (id, d) in s.copies || (id < |s.db.rows| && d == s.db.rows[id])
  {
  }

  lemma ReadyDecides(d: Deployment)
    ensures MayDecide(Worker(d, Ready))
  {
  }

  lemma {:induction false} RunHonest(p: Nomad.Plan, s: Sys, acts: seq<Action>)
    requires Initial(s)
    ensures Honest(Run(p, s, acts))
  {
    hide *;
    if acts == [] {
      RunStart(p, s);
      InitialHonest(s);
    } else {
      var most := acts[..|acts| - 1];
      RunHonest(p, s, most);
      RunBasic(p, s, most);
      BasicParts(Run(p, s, most));
      RunLast(p, s, acts);
      NextHonest(p, Run(p, s, most), acts[|acts| - 1]);
    }
  }

  lemma InitialHonest(s: Sys)
    requires Initial(s)
    ensures Honest(s) && forall id :: Starting(s.db.events, id) == 0
  {
  }

  // -- who starts a deployment -------------------------------------------------------------------

  /** A call that moves a deployment out of a waiting state into a started one. */
  predicate StartingCall(db: Db, c: Store.Call, id: Id) {
    c.Transition? && c.id == id && Writes(db, c) && c.from in {Detected, PendingApproval} && c.to in {PreHook, Applying}
  }

  /** Nothing else a call logs is a start. */
  lemma StartingAfter(db: Db, c: Store.Call, id: Id)
    ensures Starting(Exec(db, c).events, id) == Starting(db.events, id) + if StartingCall(db, c, id) then 1 else 0
    ensures StartingCall(db, c, id) ==> Exec(db, c).events == db.events + [Event(id, Some(c.from), c.to, c.actor)]
  {
    if Writes(db, c) && c.Create? {
      BirthStarts(db, c.d, id);
      CreateLogs(db, c);
      hide Exec, Starting;
    } else if Writes(db, c) {
      LogsOne(db, c);
      var events := Exec(db, c).events;
      hide Exec, Starting, ErrorOf;
      if events != db.events { AppendStarting(db.events, events[|db.events|], id); }
    }
  }

  lemma CreateLogs(db: Db, c: Store.Call)
    requires Writes(db, c) && c.Create?
    ensures Exec(db, c).events == db.events + BirthEvents(|db.rows|, c.d)
  {
    hide BirthEvents;
  }

  /** A call but a create logs one event at most: its move, or a self-loop. */
  lemma LogsOne(db: Db, c: Store.Call)
    requires Writes(db, c) && !c.Create?
    ensures db.events <= Exec(db, c).events && |Exec(db, c).events| <= |db.events| + 1
    ensures Exec(db, c).events != db.events ==>
              var e := Exec(db, c).events[|db.events|];
              && Exec(db, c).events == db.events + [e]
              && (if c.Transition? then e == Event(c.id, Some(c.from), c.to, c.actor) else e.from == Some(e.to))
    ensures c.Transition? ==> Exec(db, c).events != db.events
  {
  }

  /** No deployment is born started. */
  lemma BirthStarts(db: Db, d: Deployment, id: Id)
    requires Writes(db, Create(d))
    ensures Starting(db.events + BirthEvents(|db.rows|, d), id) == Starting(db.events, id)
  {
    hide Starting;
    AppendNoStart(db.events, BirthEvents(|db.rows|, d), id);
  }

  lemma {:induction false} AppendNoStart(events: seq<Event>, more: seq<Event>, id: Id)
    requires forall i :: 0 <= i < |more| ==> !Starts(more[i])
    ensures Starting(events + more, id) == Starting(events, id)
  {
    if more == [] {
      assert events + more == events;
    } else {
      var n := |more| - 1;
      assert events + more == (events + more[..n]) + [more[n]];
      AppendNoStart(events, more[..n], id);
      AppendStarting(events + more[..n], more[n], id);
    }
  }

  /** The step is the approval of the deployment, by a person who saw its spec hash, and logs that decision. */
  ghost predicate Approves(p: Nomad.Plan, before: Sys, a: Action, id: Id) {
    hide *; var after := Next(p, before, a);
    && a.Approve? && a.id == id && id < |before.db.rows|
    && before.db.rows[id].state == PendingApproval && before.db.rows[id].specHash == a.hash
    && after.db.events == before.db.events + [Event(id, Some(PendingApproval), NextAfterDecision(before.db.rows[id]), Person(a.who))]
  }

  lemma StartedByApproval(p: Nomad.Plan, s: Sys, a: Action, id: Id)
    requires hide *; Basic(s) && Honest(s) && id < |s.db.rows| && s.db.rows[id].policy == DeployPolicy.Approval
    requires Starting(Next(p, s, a).db.events, id) != Starting(s.db.events, id)
    ensures Approves(p, s, a, id)
  {
    hide *;
    var c := CallOf(s, a);
    NextParts(p, s, a);
    StartingAfter(s.db, c, id);
    StartingCallIs(s.db, c, id);
    TransitionOrigin(s, a);
    if a.Step? {
      WorkerHonest(s, a.id);
      DecidesStarted(s.workers[id], s.db.rows[id], c.from);
    }
    ApprovesWhen(p, s, a, id);
  }

  lemma StartingCallIs(db: Db, c: Store.Call, id: Id)
    ensures StartingCall(db, c, id) <==> c.Transition? && c.id == id && Writes(db, c) && c.from in {Detected, PendingApproval} && c.to in {PreHook, Applying}
  {
  }

  lemma WorkerHonest(s: Sys, id: Id)
    requires Basic(s) && Honest(s) && id in s.workers
    ensures id < |s.db.rows| && RowGrows(s.workers[id].d, s.db.rows[id]) && MayDecide(s.workers[id])
  {
    hide RowGrows, MayDecide, Indexed, Sound, DetectionPast, Entered;
    assert PastOf(s.db.rows, id, s.workers[id].d);
  }

  lemma DecidesStarted(w: Worker, d: Deployment, from: State)
    requires RowGrows(w.d, d) && MayDecide(w) && w.pc.Deciding? && d.policy == DeployPolicy.Approval && w.d.state == from
    ensures from !in {Detected, PendingApproval}
  {
  }

  lemma ApprovesWhen(p: Nomad.Plan, s: Sys, a: Action, id: Id)
    requires hide *; a.Approve? && id < |s.db.rows| && Writes(s.db, CallOf(s, a))
    requires CallOf(s, a) == Transition(id, PendingApproval, NextAfterDecision(s.db.rows[id]), Person(a.who), "", true)
    ensures Approves(p, s, a, id)
  {
    hide NextAfterDecision;
  }

  // -- the theorems ------------------------------------------------------------------------------

  /** One step of the run is the approval of the deployment. */
  ghost predicate ApprovedIn(p: Nomad.Plan, s: Sys, acts: seq<Action>, id: Id) {
    hide *; exists j :: 0 <= j < |acts| && Approves(p, Run(p, s, acts[..j]), acts[j], id)
  }

  lemma {:induction false} StartedApproved(p: Nomad.Plan, s: Sys, acts: seq<Action>, id: Id)
    requires hide *; Initial(s) && id < |Run(p, s, acts).db.rows| && Run(p, s, acts).db.rows[id].policy == DeployPolicy.Approval
    requires Starting(Run(p, s, acts).db.events, id) > 0
    ensures ApprovedIn(p, s, acts, id)
  {
    hide *;
    if acts == [] {
      RunStart(p, s);
      InitialHonest(s);
    } else {
      var most := acts[..|acts| - 1];
      var before, last := Run(p, s, most), acts[|acts| - 1];
      RunLast(p, s, acts);
      RunBasic(p, s, most);
      BasicParts(before);
      RunHonest(p, s, most);
      NextGrows(p, before, last);
      if id < |before.db.rows| && Starting(before.db.events, id) > 0 {
        PolicyStays(before.db, Run(p, s, acts).db, id);
        StartedApproved(p, s, most, id);
        ApprovedStays(p, s, acts, id);
      } else {
        NewUnstarted(p, before, last, id);
        PolicyStays(before.db, Run(p, s, acts).db, id);
        StartedByApproval(p, before, last, id);
        ApprovedLast(p, s, acts, id);
      }
    }
  }

  lemma PolicyStays(db: Db, after: Db, id: Id)
    requires Grows(db, after)
    ensures id < |db.rows| ==> id < |after.rows| && after.rows[id].policy == db.rows[id].policy && after.rows[id].specHash == db.rows[id].specHash
  {
    assert id < |db.rows| ==> RowGrows(db.rows[id], after.rows[id]);
  }

  /** A deployment starts only once it is there: the call that creates it does not start it. */
  lemma NewUnstarted(p: Nomad.Plan, s: Sys, a: Action, id: Id)
    requires Sound(s.db) && Starting(Next(p, s, a).db.events, id) > 0 && id < |Next(p, s, a).db.rows|
    ensures id < |s.db.rows|
  {
    hide *;
    NextParts(p, s, a);
    StartingAfter(s.db, CallOf(s, a), id);
    StartingCallIs(s.db, CallOf(s, a), id);
    SoundLog(s.db);
    NoLog(s.db, id);
    MovesThere(s.db, CallOf(s, a));
  }

  /** Nothing is logged of a deployment that is not there, and it cannot be moved. */
  lemma NoLog(db: Db, id: Id)
    requires LogIsState(db)
    ensures id >= |db.rows| ==> Starting(db.events, id) == 0
  {
    StartsOnce(db.events, id);
    hide Starting;
  }

  lemma MovesThere(db: Db, c: Store.Call)
    ensures c.Transition? && Writes(db, c) ==> c.id < |db.rows|
  {
  }

  lemma ApprovedStays(p: Nomad.Plan, s: Sys, acts: seq<Action>, id: Id)
    requires hide *; acts != [] && ApprovedIn(p, s, acts[..|acts| - 1], id)
    ensures ApprovedIn(p, s, acts, id)
  {
    hide *;
    var most := acts[..|acts| - 1];
    ApprovedIs(p, s, most, id);
    ApprovedIs(p, s, acts, id);
    var j :| 0 <= j < |most| && Approves(p, Run(p, s, most[..j]), most[j], id);
    assert most[..j] == acts[..j] && most[j] == acts[j];
  }

  lemma ApprovedIs(p: Nomad.Plan, s: Sys, acts: seq<Action>, id: Id)
    ensures hide *; ApprovedIn(p, s, acts, id) <==> exists j :: 0 <= j < |acts| && Approves(p, Run(p, s, acts[..j]), acts[j], id)
  {
    hide Approves, Run;
  }

  lemma ApprovedLast(p: Nomad.Plan, s: Sys, acts: seq<Action>, id: Id)
    requires hide *; acts != [] && Approves(p, Run(p, s, acts[..|acts| - 1]), acts[|acts| - 1], id)
    ensures ApprovedIn(p, s, acts, id)
  {
    hide Approves, Run;
  }

  /**
   In every run, a deployment of a job that git does not leave to nops (its policy there is
   approval) that was ever running its hooks or applying has exactly one event of starting, and
   one step of the run is the approval that logged it: by a person, of that deployment, with its
   own spec hash.
  */
  lemma StartedByOneApproval(p: Nomad.Plan, s: Sys, acts: seq<Action>, id: Id, st: State)
    requires hide *; Initial(s) && id < |Run(p, s, acts).db.rows|
    requires Run(p, s, acts).db.rows[id].specHash.target.cfg.policy != Nomad.Auto
    requires st in {PreHook, Applying, PostHook} && Entered(Run(p, s, acts).db.events, id, st)
    ensures Starting(Run(p, s, acts).db.events, id) == 1
    ensures ApprovedIn(p, s, acts, id)
  {
    hide *;
    RunBasic(p, s, acts);
    BasicParts(Run(p, s, acts));
    ChainedLog(Run(p, s, acts).db, id);
    StartedIs(st);
    EnteredStarted(Run(p, s, acts).db.events, id, st);
    PolicyIsGits(p, s, acts, id);
    StartedApproved(p, s, acts, id);
  }

  lemma StartedIs(st: State)
    ensures Started(st) <==> st in {PreHook, Applying, PostHook}
  {
  }

  lemma ChainedLog(db: Db, id: Id)
    requires LogIsState(db)
    ensures Chained(db.events, id)
  {
    hide Chained, Folded;
  }

  /** The next step registers the deployment in Nomad, or dispatches a hook of it. */
  predicate TouchesNomad(p: Nomad.Plan, s: Sys, id: Id, work: Work) {
    var e := EffectOf(p, s, Step(id, work));
    e.register.Some? || e.dispatch.Some?
  }

  /** Every register and every hook dispatch of a deployment of such a job comes after its approval. */
  lemma NothingBeforeApproval(p: Nomad.Plan, s: Sys, acts: seq<Action>, id: Id, work: Work)
    requires hide *; Initial(s) && TouchesNomad(p, Run(p, s, acts), id, work)
    ensures id < |Run(p, s, acts).db.rows|
    ensures Run(p, s, acts).db.rows[id].specHash.target.cfg.policy != Nomad.Auto ==> ApprovedIn(p, s, acts, id)
  {
    hide *;
    var now := Run(p, s, acts);
    RunBasic(p, s, acts);
    RunHonest(p, s, acts);
    ActsStarted(p, now, id, work);
    WorkerHonest(now, id);
    HonestIs(now);
    if now.db.rows[id].specHash.target.cfg.policy != Nomad.Auto {
      StartedIs(now.workers[id].d.state);
      StartedByOneApproval(p, s, acts, id, now.workers[id].d.state);
    }
  }

  lemma ActsStarted(p: Nomad.Plan, s: Sys, id: Id, work: Work)
    requires hide *; TouchesNomad(p, s, id, work)
    ensures id in s.workers && Started(s.workers[id].d.state)
  {
    hide RegisterStep, HealthStep, HookStep;
  }
}
