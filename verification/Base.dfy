/**
 What every run keeps whatever it does: each step makes at most one store call, the
 store stays sound, and every copy of a row held in a local is a past version of it.
*/
module Base {
  import opened Options
  import opened Store
  import opened Decisions
  import opened Machine
  import N = Nomad

  // -- the cluster ---------------------------------------------------------------------

  /** The indexes of the live jobs are ones the cluster gave. */
  ghost predicate Indexed(n: Cluster) {
    forall k :: k in n.live ==> 0 < n.live[k].index <= n.raft
  }

  /** A live job a person, a scale or nops replaced is at a new index; any other is as it was. */
  ghost predicate Moves(n: Cluster, after: Cluster) {
    && n.raft <= after.raft
    && forall k :: LiveOf(after, k) == LiveOf(n, k) || (LiveOf(after, k).Some? && LiveOf(after, k).value.index > n.raft)
  }

  // -- copies ---------------------------------------------------------------------------

  /** d is a version the row had, or has. */
  ghost predicate PastOf(rows: seq<Deployment>, id: Id, d: Deployment) {
    id < |rows| && RowGrows(d, rows[id])
  }

  ghost predicate DetectionPast(rows: seq<Deployment>, det: Detection) {
    match det
    case Waiting(c, t, o, id, d) => PastOf(rows, id, d) && d.state in {Detected, PendingApproval} && d.key == t.key
    case Moved(c, t, o, id, d) => PastOf(rows, id, d) && d.state in {Detected, PendingApproval} && d.key == t.key
    case LatestRead(c, t, o, latestId, latest) =>
      (latestId.Some? <==> latest.Some?) && (latest.Some? ==> PastOf(rows, latestId.value, latest.value) && latest.value.key == t.key)
    case Sweeping(c, left) => forall id :: id in left ==> PastOf(rows, id, left[id])
    case _ => true
  }

  ghost predicate Copies(s: Sys) {
    && (forall id, d :: (id, d) in s.copies ==> PastOf(s.db.rows, id, d))
    && (forall id :: id in s.workers ==> PastOf(s.db.rows, id, s.workers[id].d))
    && DetectionPast(s.db.rows, s.det)
  }

  lemma StillPast(db: Db, after: Db, id: Id, d: Deployment)
    requires Grows(db, after) && PastOf(db.rows, id, d)
    ensures PastOf(after.rows, id, d)
  {
    assert RowGrows(db.rows[id], after.rows[id]);
  }

  lemma NextGrows(p: N.Plan, s: Sys, a: Action)
    ensures Grows(s.db, Next(p, s, a).db)
  {
    hide *;
    NextParts(p, s, a);
    ExecGrows(s.db, CallOf(s, a));
  }

  lemma NextSound(p: N.Plan, s: Sys, a: Action)
    requires Sound(s.db)
    ensures Sound(Next(p, s, a).db)
  {
    hide *;
    NextParts(p, s, a);
    ExecKeepsSound(s.db, CallOf(s, a));
  }

  lemma NextMoves(p: N.Plan, s: Sys, a: Action)
    requires Indexed(s.nomad)
    ensures Indexed(Next(p, s, a).nomad) && Moves(s.nomad, Next(p, s, a).nomad)
  {
    hide Change, Exec, CallOf, WorldAfter, DetectionAfter, CopiesAfter, WorkersAfter, SentAfter;
  }

  /** The copy a worker keeps after it moved the applied index is a past version too. */
  lemma AppliedMoved(db: Db, id: Id, d: Deployment, index: nat)
    requires PastOf(db.rows, id, d) && d.state == Applying
    requires ErrorOf(db, Store.MoveApplied(id, AppliedIndex(d), index)).None?
    ensures PastOf(Exec(db, Store.MoveApplied(id, AppliedIndex(d), index)).rows, id, d.(applied := Some(index)))
  {
  }

  /** A worker's copy after one of its steps. */
  lemma WorkedPast(p: N.Plan, s: Sys, id: Id, w: Worker, work: Work)
    requires hide *; PastOf(s.db.rows, id, w.d)
    ensures var e := Worked(p, s, id, w, work); e.next.Some? ==> PastOf(Exec(s.db, WorkCall(id, w.d, w.pc, work)).rows, id, e.next.value.d)
  {
    hide RegisterStep, HookStep, RegisterCall, HookCall, Exec, ErrorOf, RowGrows, Grows;
    ExecGrows(s.db, WorkCall(id, w.d, w.pc, work));
    StillPast(s.db, Exec(s.db, WorkCall(id, w.d, w.pc, work)), id, w.d);
    if work.MoveApplied? && w.pc.Following? && w.d.state == Applying && AppliedIndex(w.d) != 0
       && ErrorOf(s.db, Store.MoveApplied(id, AppliedIndex(w.d), w.pc.index)).None? {
      AppliedMoved(s.db, id, w.d, w.pc.index);
    }
  }

  /** A step of a worker is one of three, or goes to a decision, or nowhere. */
  lemma WorkedCases(p: N.Plan, s: Sys, id: Id, w: Worker, work: Work)
    ensures hide *; var e := Worked(p, s, id, w, work);
      || e == RegisterStep(p, LiveOf(s.nomad, w.d.key), w.d, w.pc, work)
      || e == HealthStep(p, LiveOf(s.nomad, w.d.key), s.db, id, w.d, w.pc, work)
      || e == HookStep(s.db.runs, id, w.d, w.pc, work)
      || e.next.None?
      || e.next.value.pc == w.pc
      || e.next.value.pc.Deciding?
  {
    hide RegisterStep, HealthStep, HookStep;
  }

  /** Where a worker after a step comes from. */
  lemma WorkerOrigin(p: N.Plan, s: Sys, a: Action, i: Id)
    requires hide *; i in WorkersAfter(p, s, a)
    ensures var w := WorkersAfter(p, s, a)[i];
      || (i in s.workers && w == s.workers[i] && !(a.Step? && a.id == i))
      || (a.Take? && a.id == i && (i, a.d) in s.copies && w == Worker(a.d, Ready))
      || (a.Step? && a.id == i && i in s.workers && Worked(p, s, i, s.workers[i], a.work).next == Some(w))
  {
    hide Worked;
  }

  lemma WorkerPast(p: N.Plan, s: Sys, a: Action, id: Id)
    requires hide *; Copies(s) && id in WorkersAfter(p, s, a)
    ensures PastOf(Exec(s.db, CallOf(s, a)).rows, id, WorkersAfter(p, s, a)[id].d)
  {
    var after := Exec(s.db, CallOf(s, a));
    ExecGrows(s.db, CallOf(s, a));
    hide Exec, Worked, WorkCall, RowGrows, Grows, HumanCall, DetectCall;
    if id in s.workers {
      StillPast(s.db, after, id, s.workers[id].d);
      if a.Step? && a.id == id {
        WorkedPast(p, s, id, s.workers[id], a.work);
      }
    }
    if a.Take? && a.id == id && (id, a.d) in s.copies {
      StillPast(s.db, after, id, a.d);
    }
  }

  /** The copies a cycle holds after a step. */
  lemma LookPast(p: N.Plan, s: Sys, a: Action)
    requires DetectionPast(s.db.rows, s.det)
    ensures DetectionPast(s.db.rows, Look(p, s, a))
  {
  }

  lemma DetectionStillPast(db: Db, after: Db, det: Detection)
    requires DetectionPast(db.rows, det) && Grows(db, after)
    ensures DetectionPast(after.rows, det)
  {
    match det
    case Waiting(c, t, o, id, d) => StillPast(db, after, id, d);
    case Moved(c, t, o, id, d) => StillPast(db, after, id, d);
    case LatestRead(c, t, o, latestId, latest) =>
      if latest.Some? { StillPast(db, after, latestId.value, latest.value); }
    case Sweeping(c, left) =>
      forall id | id in left { StillPast(db, after, id, left[id]); }
    case _ =>
  }

  lemma ActedPast(s: Sys, a: Action)
    requires DetectionPast(s.db.rows, s.det)
    ensures DetectionPast(s.db.rows, Acted(s, a))
  {
    hide NewDeployment, Review, Follows;
  }

  lemma ListedPast(s: Sys, a: Action, after: Db)
    requires Copies(s) && Grows(s.db, after)
    ensures forall id, d :: (id, d) in CopiesAfter(s, a) ==> PastOf(after.rows, id, d)
  {
    hide RowGrows, DetectionPast;
    forall id, d | (id, d) in CopiesAfter(s, a)
      ensures PastOf(after.rows, id, d)
    {
      Reflexive(s.db.rows, id);
      assert PastOf(s.db.rows, id, d);
      StillPast(s.db, after, id, d);
    }
  }

  lemma Reflexive(rows: seq<Deployment>, id: Id)
    ensures id < |rows| ==> PastOf(rows, id, rows[id])
  {
  }

  lemma DetectionAfterPast(p: N.Plan, s: Sys, a: Action, after: Db)
    requires Copies(s) && Grows(s.db, after)
    ensures DetectionPast(after.rows, DetectionAfter(p, s, a))
  {
    assert DetectionPast(s.db.rows, Idle);
    hide Acted, Look, DetectionPast, Grows;
    LookPast(p, s, a);
    ActedPast(s, a);
    DetectionStillPast(s.db, after, DetectionAfter(p, s, a));
  }

  lemma NextCopies(p: N.Plan, s: Sys, a: Action)
    requires Copies(s)
    ensures Copies(Next(p, s, a))
  {
    hide Exec, CallOf, DetectionAfter, CopiesAfter, WorkersAfter, DetectionPast, PastOf, Grows, Change, SentAfter, WorldAfter;
    ExecGrows(s.db, CallOf(s, a));
    ListedPast(s, a, Exec(s.db, CallOf(s, a)));
    DetectionAfterPast(p, s, a, Exec(s.db, CallOf(s, a)));
    forall id | id in WorkersAfter(p, s, a) { WorkerPast(p, s, a, id); }
  }

  lemma NextParts(p: N.Plan, s: Sys, a: Action)
    ensures var after := Next(p, s, a);
      && after.db == Exec(s.db, CallOf(s, a)) && after.nomad == ClusterAfter(p, s, a) && after.world == WorldAfter(s.world, a)
      && after.det == DetectionAfter(p, s, a) && after.copies == CopiesAfter(s, a) && after.workers == WorkersAfter(p, s, a)
      && after.sent == SentAfter(p, s, a)
  {
    hide Exec, CallOf, ClusterAfter, WorldAfter, DetectionAfter, CopiesAfter, WorkersAfter, SentAfter;
  }

  /** Where a cycle goes: over, on by a look or by an act, or nowhere. */
  lemma DetectionIs(p: N.Plan, s: Sys, a: Action)
    ensures var det := DetectionAfter(p, s, a);
      det == Idle || (if Acts(a) then det == Acted(s, a) else det == s.det || det == Look(p, s, a))
  {
    hide Look, Acted;
  }

  // -- who makes each store call ------------------------------------------------------------

  /** A cas index is moved by a cycle that saw the same diff, or by a step that did. */
  lemma MoveCasOrigin(s: Sys, a: Action)
    requires hide *; CallOf(s, a).MoveCas?
    ensures var c := CallOf(s, a);
      || (a.TryMove? && s.det.Waiting? && c == MoveCas(s.det.id, s.det.d.state, s.det.d.cas, s.det.o.index)
          && Follows(s.det.t.g.job.cfg, Decisions.HashOf(s.det.t.g), s.det.d, s.det.o.index, s.det.o.diff))
      || (a.Step? && a.id in s.workers && s.workers[a.id].d.state == Applying && s.workers[a.id].pc.ScaledTo?
          && c == MoveCas(a.id, Applying, s.workers[a.id].d.cas, s.workers[a.id].pc.index))
  {
    hide NewDeployment, Review, Follows, HookCall, HealthCall;
  }

  /** A deployment is moved on by a person, by a cycle, or by a step that decided to. */
  lemma TransitionOrigin(s: Sys, a: Action)
    requires hide *; CallOf(s, a).Transition?
    ensures var c := CallOf(s, a);
      || (a.Approve? && a.id < |s.db.rows| && s.db.rows[a.id].state == PendingApproval && s.db.rows[a.id].specHash == a.hash
          && c == Transition(a.id, PendingApproval, NextAfterDecision(s.db.rows[a.id]), Person(a.who), "", true))
      || (a.Reject? && c == Transition(a.id, PendingApproval, Rejected, Person(a.who), "", true))
      || ((a.Settle? || a.Sweep?) && c.actor == Nops && c.to in {Superseded, Completed, Failed, PendingApproval})
      || (a.Step? && a.id in s.workers && s.workers[a.id].pc.Deciding?
          && c == Transition(a.id, s.workers[a.id].d.state, s.workers[a.id].pc.to, Nops, ErrorText(s.workers[a.id].pc.to), false))
  {
    hide NewDeployment, Follows, HookCall, HealthCall, RegisterCall, HoldOn, Problem, Decisions.HashOf, NextAfterDecision;
  }

  /** Hook runs are written by the step of their own deployment, in a hook phase. */
  lemma RunCallOrigin(s: Sys, a: Action)
    requires hide *; CallOf(s, a).EnsureRun? || CallOf(s, a).UpdateRun?
    ensures a.Step? && a.id in s.workers && s.workers[a.id].d.state in {PreHook, PostHook} && !a.work.Move?
    ensures CallOf(s, a) == HookCall(a.id, s.workers[a.id].d, s.workers[a.id].pc, a.work)
  {
    hide NewDeployment, Follows, HookCall, HealthCall, RegisterCall, HoldOn, Problem, Decisions.HashOf, NextAfterDecision, Review;
  }

  /** What a cycle moves is a deployment that waits. */
  lemma CycleMovesWaiting(s: Sys, a: Action)
    requires hide *; DetectionPast(s.db.rows, s.det) && CallOf(s, a).Transition? && (a.Settle? || a.Sweep?)
    ensures CallOf(s, a).from in {Detected, PendingApproval}
  {
    hide NewDeployment, Review;
  }

  /** A deployment is created by a cycle that looked for one. */
  lemma CreateOrigin(s: Sys, a: Action)
    requires hide *; CallOf(s, a).Create?
    ensures a.CreateNow? && s.det.LatestRead? && (s.det.latestId.Some? <==> s.det.latest.Some?)
    ensures NewDeployment(s.det.t.key, s.det.t.g, s.det.t.hold, s.det.t.liftedBy, s.det.latestId, s.det.latest, s.det.o.index, s.det.o.job, s.det.o.diff)
         == Some(CallOf(s, a).d)
  {
    hide NewDeployment, Follows, HookCall, HealthCall, RegisterCall, HoldOn, Problem, Decisions.HashOf, NextAfterDecision, Review;
  }

  /** An applied index is recorded by the step that read the live job back. */
  lemma RecordOrigin(s: Sys, a: Action)
    requires hide *; CallOf(s, a).SetApplied?
    ensures a.Step? && a.id in s.workers && s.workers[a.id].pc.Reread? && CallOf(s, a).id == a.id
    ensures s.workers[a.id].d.state == Applying && a.work.Record?
  {
    hide NewDeployment, Review, Follows, HookCall, HealthCall;
  }

  /** The call's effect on one row. */
  lemma RowStep(db: Db, c: Store.Call, i: Id)
    requires i < |db.rows|
    ensures i < |Exec(db, c).rows|
    ensures var d, e := db.rows[i], Exec(db, c).rows[i];
      && ((c.Transition? && c.id == i && Writes(db, c)) || e.state == d.state)
      && (c.Transition? && c.id == i && Writes(db, c) ==> d.state == c.from && e.state == c.to && e.cas == d.cas && e.applied == d.applied)
      && (e.applied != d.applied ==> d.state == Applying)
      && (e.cas != d.cas ==> c.MoveCas? && c.id == i && Writes(db, c))
      && (c.MoveCas? && c.id == i && Writes(db, c) ==> d.state == c.state && d.cas == c.casFrom && e.cas == c.casTo)
  {
  }

  // -- runs -----------------------------------------------------------------------------

  ghost predicate Basic(s: Sys) {
    Indexed(s.nomad) && Sound(s.db) && Copies(s)
  }

  lemma NextBasic(p: N.Plan, s: Sys, a: Action)
    requires Basic(s)
    ensures Basic(Next(p, s, a))
  {
    hide Next, Indexed, Sound, Copies;
    NextMoves(p, s, a);
    NextSound(p, s, a);
    NextCopies(p, s, a);
  }

  lemma RunLast(p: N.Plan, s: Sys, acts: seq<Action>)
    requires hide *; acts != []
    ensures Run(p, s, acts) == Next(p, Run(p, s, acts[..|acts| - 1]), acts[|acts| - 1])
  {
    hide Next;
  }

  lemma {:induction false} RunBasic(p: N.Plan, s: Sys, acts: seq<Action>)
    requires Initial(s)
    ensures Basic(Run(p, s, acts))
  {
    hide *;
    if acts == [] {
      RunStart(p, s);
      InitialBasic(s);
    } else {
      RunBasic(p, s, acts[..|acts| - 1]);
      RunLast(p, s, acts);
      NextBasic(p, Run(p, s, acts[..|acts| - 1]), acts[|acts| - 1]);
    }
  }

  lemma RunStart(p: N.Plan, s: Sys)
    ensures hide *; Run(p, s, []) == s
  {
    hide Next;
  }

  lemma InitialBasic(s: Sys)
    requires Initial(s)
    ensures Basic(s)
  {
    EventLogIsState([]);
  }

  lemma BasicParts(s: Sys)
    requires Basic(s)
    ensures Indexed(s.nomad) && Sound(s.db) && Copies(s) && LogIsState(s.db) && OneActive(s.db)
  {
    hide Indexed, Copies, LogIsState, OneActive;
  }

  /** What a run does from one point on: the store only grows and the cluster only moves forward. */
  lemma {:induction false} RunGrows(p: N.Plan, s: Sys, acts: seq<Action>, i: nat)
    requires hide *; Initial(s) && i <= |acts|
    ensures Grows(Run(p, s, acts[..i]).db, Run(p, s, acts).db)
    ensures Run(p, s, acts[..i]).nomad.raft <= Run(p, s, acts).nomad.raft
  {
    hide *;
    if i == |acts| {
      assert acts[..i] == acts;
      GrowsReflexive(Run(p, s, acts).db);
    } else {
      var most := acts[..|acts| - 1];
      assert most[..i] == acts[..i];
      RunGrows(p, s, most, i);
      RunBasic(p, s, most);
      BasicParts(Run(p, s, most));
      RunLast(p, s, acts);
      NextGrows(p, Run(p, s, most), acts[|acts| - 1]);
      NextMoves(p, Run(p, s, most), acts[|acts| - 1]);
      RaftUp(Run(p, s, most).nomad, Run(p, s, acts).nomad);
      GrowsTransitive(Run(p, s, acts[..i]).db, Run(p, s, most).db, Run(p, s, acts).db);
    }
  }

  lemma RaftUp(n: Cluster, after: Cluster)
    requires Moves(n, after)
    ensures n.raft <= after.raft
  {
  }

  lemma GrowsReflexive(db: Db)
    ensures Grows(db, db)
  {
  }
}
