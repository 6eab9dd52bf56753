/**
 Retries and applied indexes over whole runs: a retry is of the job's previous deployment,
 a deployment is retried once, a terminal state is final and an applied index is not lost.
*/
module Lineage {
  import opened Options
  import opened Store
  import opened Decisions
  import opened Machine
  import opened Base
  import opened AppliedDiff
  import N = Nomad

  // -- retries -----------------------------------------------------------------------------

  /** A retry is of the job's deployment just before it. */
  ghost predicate Lineal(rows: seq<Deployment>) {
    forall i :: 0 <= i < |rows| && rows[i].retryOf.Some? ==>
      var x := rows[i].retryOf.value; NextOf(rows, x, i) && Retries(rows[x], rows[i])
  }

  /**
   What a retry is of: a deployment that failed or was rejected, at the same spec hash, asked
   to be retried. It follows the policy git has now, and without a diff it is a rerun of one
   that had registered.
  */
  predicate Retries(x: Deployment, d: Deployment) {
    && Ended(x.state) && x.retriedBy.Some? && x.specHash == d.specHash
    && d.policy == StorePolicy(d.specHash.target.cfg.policy)
    && (Rerun(d) <==> d.diffHash.None?) && (Rerun(d) ==> AppliedIndex(x) != 0)
  }

  predicate NextOf(rows: seq<Deployment>, x: Id, i: nat) {
    x < i < |rows| && rows[x].key == rows[i].key && forall j :: x < j < i ==> rows[j].key != rows[i].key
  }

  /** The latest deployment a cycle read is still the latest: only a cycle creates. */
  ghost predicate LatestHeld(rows: seq<Deployment>, det: Detection) {
    det.LatestRead? ==> det.latestId == LatestOf(rows, det.t.key) && (det.latestId.Some? <==> det.latest.Some?)
  }

  ghost predicate Lined(s: Sys) {
    Lineal(s.db.rows) && LatestHeld(s.db.rows, s.det)
  }

  lemma {:induction false} LatestIs(rows: seq<Deployment>, k: Key, i: nat)
    requires i < |rows| && rows[i].key == k && forall j :: i < j < |rows| ==> rows[j].key != k
    ensures LatestOf(rows, k) == Some(i)
  {
    if i < |rows| - 1 { LatestIs(rows[..|rows| - 1], k, i); }
  }

  /** The latest deployment of a job changes only when one is created. */
  lemma LatestStays(rows: seq<Deployment>, after: seq<Deployment>, k: Key)
    requires |after| == |rows| && forall i :: 0 <= i < |rows| ==> after[i].key == rows[i].key
    ensures LatestOf(after, k) == LatestOf(rows, k)
  {
    var r := LatestOf(rows, k);
    if r.Some? { LatestIs(after, k, r.value); }
  }

  lemma NoNewRow(db: Db, c: Store.Call)
    requires !c.Create?
    ensures |Exec(db, c).rows| == |db.rows| && forall i :: 0 <= i < |db.rows| ==> Exec(db, c).rows[i].key == db.rows[i].key
  {
  }

  lemma NextLatestHeld(p: N.Plan, s: Sys, a: Action)
    requires LatestHeld(s.db.rows, s.det)
    ensures LatestHeld(Exec(s.db, CallOf(s, a)).rows, DetectionAfter(p, s, a))
  {
    var det := DetectionAfter(p, s, a);
    if det.LatestRead? {
      LatestReadFrom(p, s, a);
      assert !CallOf(s, a).Create? by {
        if CallOf(s, a).Create? { CreateOrigin(s, a); }
      }
      NoNewRow(s.db, CallOf(s, a));
      hide CallOf, Exec, DetectionAfter;
      LatestStays(s.db.rows, Exec(s.db, CallOf(s, a)).rows, det.t.key);
    }
  }

  /** A cycle holds a latest deployment from the read on, to the create. */
  lemma LatestReadFrom(p: N.Plan, s: Sys, a: Action)
    requires hide *; DetectionAfter(p, s, a).LatestRead?
    ensures !a.CreateNow?
    ensures var det := DetectionAfter(p, s, a);
      det == s.det || (det.latestId == LatestOf(s.db.rows, det.t.key) && (det.latestId.Some? <==> det.latest.Some?))
  {
    hide *;
    DetectionIs(p, s, a);
    LooksAtLatest(p, s, a);
    ActsOnLatest(s, a);
    CreateActs(a);
  }

  lemma CreateActs(a: Action)
    ensures a.CreateNow? ==> Acts(a)
  {
  }

  lemma LooksAtLatest(p: N.Plan, s: Sys, a: Action)
    ensures hide *; var det := Look(p, s, a);
      !det.LatestRead? || det == s.det || (det.latestId == LatestOf(s.db.rows, det.t.key) && (det.latestId.Some? <==> det.latest.Some?))
  {
    hide HoldOf, ActiveOf, LatestOf;
  }

  lemma ActsOnLatest(s: Sys, a: Action)
    ensures Acted(s, a).LatestRead? ==> Acted(s, a) == s.det && !a.CreateNow?
  {
    hide Review, DetectCall;
  }

  /** What a cycle creates follows the latest deployment it read. */
  lemma CreatedLineal(s: Sys, a: Action)
    requires hide *; DetectionPast(s.db.rows, s.det) && LatestHeld(s.db.rows, s.det) && CallOf(s, a).Create? && CallOf(s, a).d.retryOf.Some?
    ensures var d := CallOf(s, a).d;
      var x := d.retryOf.value;
      && x < |s.db.rows| && s.db.rows[x].key == d.key && (forall j :: x < j < |s.db.rows| ==> s.db.rows[j].key != d.key)
      && Retries(s.db.rows[x], d)
  {
    CreateOrigin(s, a);
    assert RowGrows(s.det.latest.value, s.db.rows[s.det.latestId.value]);
    hide CallOf, Frozen, Problem, Decisions.HashOf;
  }

  /** The row a create appends. */
  lemma Created(db: Db, c: Store.Call)
    requires c.Create? && Writes(db, c)
    ensures var after := Exec(db, c).rows;
      && |after| == |db.rows| + 1 && after[..|db.rows|] == db.rows
      && (var d := after[|db.rows|];
          && d.key == c.d.key && d.retryOf == c.d.retryOf && d.specHash == c.d.specHash
          && d.policy == c.d.policy && d.hasPlan == c.d.hasPlan && d.diffHash == c.d.diffHash)
  {
  }

  lemma LinealStays(rows: seq<Deployment>, after: seq<Deployment>)
    requires Lineal(rows) && |rows| <= |after| && forall i :: 0 <= i < |rows| ==> RowGrows(rows[i], after[i])
    ensures forall i :: 0 <= i < |rows| && after[i].retryOf.Some? ==>
      var x := after[i].retryOf.value; NextOf(after, x, i) && Retries(after[x], after[i])
  {
    forall i | 0 <= i < |rows| && after[i].retryOf.Some?
      ensures var x := after[i].retryOf.value; NextOf(after, x, i) && Retries(after[x], after[i])
    {
      assert RowGrows(rows[i], after[i]);
      var x := rows[i].retryOf.value;
      assert NextOf(rows, x, i) && RowGrows(rows[x], after[x]);
      forall j | x < j < i
        ensures after[j].key != after[i].key
      {
        assert RowGrows(rows[j], after[j]);
      }
    }
  }

  lemma NextLineal(p: N.Plan, s: Sys, a: Action)
    requires Copies(s) && Lined(s)
    ensures Lineal(Exec(s.db, CallOf(s, a)).rows)
  {
    hide *;
    var c := CallOf(s, a);
    var after := Exec(s.db, c).rows;
    LinedParts(s);
    ExecGrows(s.db, c);
    GrowsRows(s.db, Exec(s.db, c));
    LinealStays(s.db.rows, after);
    if c.Create? && Writes(s.db, c) {
      Created(s.db, c);
      if c.d.retryOf.Some? { CreatedLineal(s, a); }
      LinealNew(s.db.rows, after, c.d);
    } else {
      SameRows(s.db, c);
      LinealIs(after);
    }
  }

  lemma LinedParts(s: Sys)
    requires Copies(s) && Lined(s)
    ensures DetectionPast(s.db.rows, s.det) && Lineal(s.db.rows) && LatestHeld(s.db.rows, s.det)
  {
    hide DetectionPast, Lineal, LatestHeld, PastOf;
  }

  lemma GrowsRows(db: Db, after: Db)
    requires Grows(db, after)
    ensures |db.rows| <= |after.rows| && forall i :: 0 <= i < |db.rows| ==> RowGrows(db.rows[i], after.rows[i])
  {
    hide RowGrows;
  }

  lemma LinealIs(rows: seq<Deployment>)
    ensures Lineal(rows) <==> forall i :: 0 <= i < |rows| && rows[i].retryOf.Some? ==>
      var x := rows[i].retryOf.value; NextOf(rows, x, i) && Retries(rows[x], rows[i])
  {
    hide NextOf, Retries;
  }

  /** One row more, that retries the latest of its job or none. */
  lemma LinealNew(rows: seq<Deployment>, after: seq<Deployment>, d: Deployment)
    requires |after| == |rows| + 1 && after[..|rows|] == rows
    requires forall i :: 0 <= i < |rows| && after[i].retryOf.Some? ==>
      var x := after[i].retryOf.value; NextOf(after, x, i) && Retries(after[x], after[i])
    requires var e := after[|rows|];
      e.key == d.key && e.retryOf == d.retryOf && e.specHash == d.specHash && e.policy == d.policy && e.hasPlan == d.hasPlan && e.diffHash == d.diffHash
    requires d.retryOf.Some? ==>
      var x := d.retryOf.value;
      x < |rows| && rows[x].key == d.key && (forall j :: x < j < |rows| ==> rows[j].key != d.key) && Retries(rows[x], d)
    ensures Lineal(after)
  {
    assert forall j :: 0 <= j < |rows| ==> after[j] == rows[j];
    if d.retryOf.Some? { assert NextOf(after, d.retryOf.value, |rows|) && Retries(after[d.retryOf.value], after[|rows|]); }
    hide NextOf, Retries;
    LinealIs(after);
  }

  lemma SameRows(db: Db, c: Store.Call)
    requires !(c.Create? && Writes(db, c))
    ensures |Exec(db, c).rows| == |db.rows|
  {
  }

  lemma {:induction false} RunLined(p: N.Plan, s: Sys, acts: seq<Action>)
    requires Initial(s)
    ensures Lined(Run(p, s, acts))
  {
    hide *;
    if acts == [] {
      RunStart(p, s);
      InitialLined(s);
    } else {
      var most := acts[..|acts| - 1];
      RunLined(p, s, most);
      RunBasic(p, s, most);
      BasicParts(Run(p, s, most));
      RunLast(p, s, acts);
      NextParts(p, Run(p, s, most), acts[|acts| - 1]);
      LinedParts(Run(p, s, most));
      NextLatestHeld(p, Run(p, s, most), acts[|acts| - 1]);
      NextLineal(p, Run(p, s, most), acts[|acts| - 1]);
      LinedIs(Run(p, s, acts));
    }
  }

  lemma InitialLined(s: Sys)
    requires Initial(s)
    ensures Lined(s) && WorkersIndexed(s.workers)
  {
  }

  lemma LinedIs(s: Sys)
    ensures Lined(s) <==> Lineal(s.db.rows) && LatestHeld(s.db.rows, s.det)
  {
    hide Lineal, LatestHeld;
  }

  /**
   In every run, a retry is of the deployment of its job just before it, strictly older,
   failed or rejected, at the same spec hash, and one a person asked to retry; one with
   nothing to register is of a deployment whose register went through.
  */
  lemma RetriesThePrevious(p: N.Plan, s: Sys, acts: seq<Action>, i: nat)
    requires Initial(s) && i < |Run(p, s, acts).db.rows| && Run(p, s, acts).db.rows[i].retryOf.Some?
    ensures var rows := Run(p, s, acts).db.rows;
      var x := rows[i].retryOf.value;
      NextOf(rows, x, i) && Retries(rows[x], rows[i])
  {
    hide *;
    RunLined(p, s, acts);
    LinedIs(Run(p, s, acts));
    LinealIs(Run(p, s, acts).db.rows);
  }

  /** So no deployment is the retry of by two. */
  lemma RetriedByOne(p: N.Plan, s: Sys, acts: seq<Action>, i: nat, j: nat)
    requires hide *; Initial(s) && i < |Run(p, s, acts).db.rows| && j < |Run(p, s, acts).db.rows|
    requires var rows := Run(p, s, acts).db.rows; rows[i].retryOf.Some? && rows[i].retryOf == rows[j].retryOf
    ensures i == j
  {
    hide *;
    RetriesThePrevious(p, s, acts, i);
    RetriesThePrevious(p, s, acts, j);
    SameNext(Run(p, s, acts).db.rows, Run(p, s, acts).db.rows[i].retryOf.value, i, j);
  }

  lemma SameNext(rows: seq<Deployment>, x: Id, i: nat, j: nat)
    requires NextOf(rows, x, i) && NextOf(rows, x, j)
    ensures i == j
  {
  }

  /** The i-th step of the run marks the deployment retried. */
  ghost predicate Marks(p: N.Plan, s: Sys, acts: seq<Action>, i: nat, id: Id)
    requires hide *; i < |acts|
  {
    hide *; var before := Run(p, s, acts[..i]);
    var c := CallOf(before, acts[i]);
    c.MarkRetried? && c.id == id && Writes(before.db, c)
  }

  /** A deployment is marked retried at most once, over every retry anyone asks for. */
  lemma MarkedOnce(p: N.Plan, s: Sys, acts: seq<Action>, i: nat, j: nat, id: Id)
    requires hide *; Initial(s) && i < j < |acts| && Marks(p, s, acts, i, id)
    ensures !Marks(p, s, acts, j, id)
  {
    hide *;
    assert acts[..j][..i] == acts[..i];
    MarksIs(p, s, acts, i, id);
    MarksIs(p, s, acts[..j], i, id);
    MarksIs(p, s, acts, j, id);
    StaysMarked(p, s, acts[..j], i, id);
    MarkedBefore(Run(p, s, acts[..j]).db, CallOf(Run(p, s, acts[..j]), acts[j]));
  }

  lemma MarksIs(p: N.Plan, s: Sys, acts: seq<Action>, i: nat, id: Id)
    requires hide *; i < |acts|
    ensures Marks(p, s, acts, i, id) <==>
      (var before := Run(p, s, acts[..i]);
       var c := CallOf(before, acts[i]);
       c.MarkRetried? && c.id == id && Writes(before.db, c))
  {
    hide Run, CallOf, Writes;
  }

  lemma MarkedBefore(db: Db, c: Store.Call)
    ensures c.MarkRetried? && Writes(db, c) ==> c.id < |db.rows| && db.rows[c.id].retriedBy.None?
  {
  }

  lemma StaysMarked(p: N.Plan, s: Sys, acts: seq<Action>, i: nat, id: Id)
    requires hide *; Initial(s) && i < |acts| && Marks(p, s, acts, i, id)
    ensures id < |Run(p, s, acts).db.rows| && Run(p, s, acts).db.rows[id].retriedBy.Some?
  {
    hide *;
    var before, now := Run(p, s, acts[..i]), Run(p, s, acts[..i + 1]);
    assert acts[..i + 1][..i] == acts[..i];
    MarksIs(p, s, acts, i, id);
    RunLast(p, s, acts[..i + 1]);
    NextParts(p, before, acts[i]);
    MarkedRow(before.db, CallOf(before, acts[i]));
    Base.RunGrows(p, s, acts, i + 1);
    StillMarked(now.db, Run(p, s, acts).db, id);
  }

  lemma StillMarked(db: Db, after: Db, id: Id)
    requires Grows(db, after) && id < |db.rows| && db.rows[id].retriedBy.Some?
    ensures id < |after.rows| && after.rows[id].retriedBy.Some?
  {
    assert RowGrows(db.rows[id], after.rows[id]);
  }

  lemma MarkedRow(db: Db, c: Store.Call)
    requires c.MarkRetried? && Writes(db, c)
    ensures c.id < |Exec(db, c).rows| && Exec(db, c).rows[c.id].retriedBy.Some?
  {
  }

  /**
   While the live job is the deployment's spec but for counts, nothing is registered for
   it: what is left of a rerun is to wait for health and run the post-hooks.
  */
  lemma RegistersNothingInSync(p: N.Plan, s: Sys, acts: seq<Action>, id: Id)
    requires hide *; N.Lawful(p) && Initial(s) && id < |Run(p, s, acts).db.rows|
    requires var now := Run(p, s, acts);
      var d := now.db.rows[id];
      var live := LiveOf(now.nomad, d.key);
      live.Some? && N.Substitute(d.spec, live.value.job) == live.value.job
    ensures !Accepted(p, Run(p, s, acts), id)
  {
    var now := Run(p, s, acts);
    RunPinned(p, s, acts);
    var live := LiveOf(now.nomad, now.db.rows[id].key).value;
    assert !p(live.job, Some(live.job)).changed;
    hide Run, Initial, N.Lawful, Accepted;
    if Accepted(p, now, id) {
      RegistersTheDetectedDiff(p, s, acts, id);
    }
  }

  // -- terminal states and applied indexes ---------------------------------------------------------

  lemma {:induction false} AllGrows(cs: seq<Store.Call>, i: nat)
    requires i <= |cs|
    ensures Grows(ExecAll(EMPTY, cs[..i]), ExecAll(EMPTY, cs))
  {
    if i == |cs| {
      assert cs[..i] == cs;
      GrowsReflexive(ExecAll(EMPTY, cs));
    } else {
      var most := cs[..|cs| - 1];
      assert most[..i] == cs[..i];
      AllGrows(most, i);
      hide Exec, Grows;
      ExecGrows(ExecAll(EMPTY, most), cs[|cs| - 1]);
      GrowsTransitive(ExecAll(EMPTY, cs[..i]), ExecAll(EMPTY, most), ExecAll(EMPTY, cs));
    }
  }

  /** Over any store calls at all, a terminal state is never left. */
  lemma TerminalNeverLeft(cs: seq<Store.Call>, i: nat, id: Id)
    requires i <= |cs| && id < |ExecAll(EMPTY, cs[..i]).rows| && !IsActive(ExecAll(EMPTY, cs[..i]).rows[id].state)
    ensures id < |ExecAll(EMPTY, cs).rows| && ExecAll(EMPTY, cs).rows[id].state == ExecAll(EMPTY, cs[..i]).rows[id].state
  {
    AllGrows(cs, i);
    var was, now := ExecAll(EMPTY, cs[..i]), ExecAll(EMPTY, cs);
    assert RowGrows(was.rows[id], now.rows[id]);
  }

  /** The call moves an applied index to zero: the store does not refuse it, as it does a register at zero. */
  predicate Zeroes(db: Db, c: Store.Call, id: Id) {
    c.MoveApplied? && c.id == id && c.appliedFrom != 0 && c.appliedTo == 0 && ErrorOf(db, c).None?
  }

  /** An applied index returns to zero by such a move, and by nothing else. */
  lemma LosesAppliedIndex(db: Db, c: Store.Call, id: Id)
    requires id < |db.rows| && AppliedIndex(db.rows[id]) != 0
    ensures id < |Exec(db, c).rows|
    ensures AppliedIndex(Exec(db, c).rows[id]) == 0 <==> Zeroes(db, c, id)
  {
    ExecGrows(db, c);
    hide Grows, RowGrows;
  }

  /** The store alone does not keep it. */
  lemma MoveToZeroIsAllowed(db: Db, id: Id)
    requires id < |db.rows| && db.rows[id].state == Applying && db.rows[id].applied.Some? && db.rows[id].applied.value != 0
    ensures AppliedIndex(Exec(db, Store.MoveApplied(id, db.rows[id].applied.value, 0)).rows[id]) == 0
  {
  }

  /** The index a step is about to follow is one of a live job it read. */
  ghost predicate PcIndexed(pc: Pc) {
    (pc.HealthRead? ==> pc.seen.index > 0) && (pc.Following? ==> pc.index > 0)
  }

  ghost predicate WorkersIndexed(workers: map<Id, Worker>) {
    forall i :: i in workers ==> PcIndexed(workers[i].pc)
  }

  lemma WorkedIndexed(p: N.Plan, s: Sys, id: Id, w: Worker, work: Work)
    requires hide *; Indexed(s.nomad) && PcIndexed(w.pc)
    ensures var e := Worked(p, s, id, w, work); e.next.Some? ==> PcIndexed(e.next.value.pc)
  {
    WorkedCases(p, s, id, w, work);
    HealthIndexed(p, LiveOf(s.nomad, w.d.key), s.db, id, w.d, w.pc, work);
    NotOfRegister(p, LiveOf(s.nomad, w.d.key), w.d, w.pc, work);
    NotOfHooks(s.db.runs, id, w.d, w.pc, work);
    assert LiveOf(s.nomad, w.d.key).Some? ==> IndexOf(LiveOf(s.nomad, w.d.key)) > 0;
    hide Worked, RegisterStep, HealthStep, HookStep, LiveOf;
  }

  lemma HealthIndexed(p: N.Plan, now: Option<LiveJob>, db: Db, id: Id, d: Deployment, pc: Pc, work: Work)
    requires PcIndexed(pc) && (now.Some? ==> now.value.index > 0)
    ensures var e := HealthStep(p, now, db, id, d, pc, work); e.next.Some? ==> PcIndexed(e.next.value.pc)
  {
    hide ErrorOf, HealthCall;
  }

  /** Neither the register nor the hooks come to those places. */
  lemma NotOfRegister(p: N.Plan, now: Option<LiveJob>, d: Deployment, pc: Pc, work: Work)
    requires PcIndexed(pc)
    ensures var e := RegisterStep(p, now, d, pc, work); e.next.Some? ==> PcIndexed(e.next.value.pc)
  {
    hide PlannedPc;
    PlannedIndexed(p, d, now);
  }

  lemma NotOfHooks(runs: map<RunKey, HookRun>, id: Id, d: Deployment, pc: Pc, work: Work)
    requires PcIndexed(pc)
    ensures var e := HookStep(runs, id, d, pc, work); e.next.Some? ==> PcIndexed(e.next.value.pc)
  {
    hide HooksOf, KeyOf, PhaseOf;
  }

  lemma PlannedIndexed(p: N.Plan, d: Deployment, now: Option<LiveJob>)
    ensures forall live :: PcIndexed(PlannedPc(p, d, live, now))
  {
  }

  lemma {:induction false} RunIndexed(p: N.Plan, s: Sys, acts: seq<Action>)
    requires Initial(s)
    ensures WorkersIndexed(Run(p, s, acts).workers)
  {
    hide *;
    if acts == [] {
      RunStart(p, s);
      InitialLined(s);
    } else {
      var most, a := acts[..|acts| - 1], acts[|acts| - 1];
      RunIndexed(p, s, most);
      RunBasic(p, s, most);
      BasicParts(Run(p, s, most));
      RunLast(p, s, acts);
      var now := Run(p, s, most);
      NextParts(p, now, a);
      forall i | i in WorkersAfter(p, now, a)
        ensures PcIndexed(WorkersAfter(p, now, a)[i].pc)
      {
        NextIndexed(p, now, a, i);
      }
      AllIndexed(WorkersAfter(p, now, a));
    }
  }

  lemma AllIndexed(workers: map<Id, Worker>)
    ensures WorkersIndexed(workers) <==> forall i :: i in workers ==> PcIndexed(workers[i].pc)
  {
    hide PcIndexed;
  }

  lemma NextIndexed(p: N.Plan, s: Sys, a: Action, i: Id)
    requires hide *; Indexed(s.nomad) && WorkersIndexed(s.workers) && i in WorkersAfter(p, s, a)
    ensures PcIndexed(WorkersAfter(p, s, a)[i].pc)
  {
    WorkerOrigin(p, s, a, i);
    AllIndexed(s.workers);
    assert PcIndexed(Ready);
    hide *;
    if a.Step? && a.id == i && i in s.workers { WorkedIndexed(p, s, i, s.workers[i], a.work); }
  }

  /** No step of any run asks for it: the index followed is one the cluster gave. */
  lemma EngineNeverZeroes(p: N.Plan, s: Sys, acts: seq<Action>, a: Action, id: Id)
    requires Initial(s)
    ensures !Zeroes(Run(p, s, acts).db, CallOf(Run(p, s, acts), a), id)
  {
    hide *;
    RunIndexed(p, s, acts);
    var now := Run(p, s, acts);
    MovesAppliedOnly(now, a);
    AllIndexed(now.workers);
    NotZeroed(now.db, CallOf(now, a), id);
    if a.Step? && a.id in now.workers { FollowsUp(now.workers[a.id].pc); }
  }

  lemma NotZeroed(db: Db, c: Store.Call, id: Id)
    ensures Zeroes(db, c, id) ==> c.MoveApplied? && c.appliedTo == 0
  {
    hide ErrorOf;
  }

  lemma FollowsUp(pc: Pc)
    ensures PcIndexed(pc) && pc.Following? ==> pc.index > 0
  {
  }

  /** The one call that moves an applied index is of a worker about to follow the live one. */
  lemma MovesAppliedOnly(s: Sys, a: Action)
    ensures hide *; var c := CallOf(s, a);
      c.MoveApplied? ==> a.Step? && a.id in s.workers && s.workers[a.id].pc.Following? && c.appliedTo == s.workers[a.id].pc.index
  {
    hide NewDeployment, Review, Follows, HookCall;
  }

  /** In every run, an applied index never returns to zero. */
  lemma {:induction false} AppliedIndexNeverLost(p: N.Plan, s: Sys, acts: seq<Action>, i: nat, id: Id)
    requires hide *; Initial(s) && i <= |acts|
    requires id < |Run(p, s, acts[..i]).db.rows| && AppliedIndex(Run(p, s, acts[..i]).db.rows[id]) != 0
    ensures id < |Run(p, s, acts).db.rows| && AppliedIndex(Run(p, s, acts).db.rows[id]) != 0
  {
    hide *;
    if i == |acts| {
      assert acts[..i] == acts;
    } else {
      var most := acts[..|acts| - 1];
      assert most[..i] == acts[..i];
      AppliedIndexNeverLost(p, s, most, i, id);
      RunLast(p, s, acts);
      NextParts(p, Run(p, s, most), acts[|acts| - 1]);
      hide Run, Next, Exec, CallOf, Initial, Zeroes;
      EngineNeverZeroes(p, s, most, acts[|acts| - 1], id);
      LosesAppliedIndex(Run(p, s, most).db, CallOf(Run(p, s, most), acts[|acts| - 1]), id);
    }
  }
}
