/**
 A deployment registers once: between two registers Nomad accepts for one deployment
 somebody edited the job, over any crashes, retried steps, stale copies and scales.
*/
module RegisterOnce {
  import opened Options
  import opened Store
  import opened Decisions
  import opened Machine
  import opened Base
  import opened AppliedDiff
  import N = Nomad

  predicate ScalesName(spec: N.Job, name: string) {
    exists g :: g in spec.groups && g.Scalable() && g.name.value == name
  }

  /** The diff a deployment was detected with edits no count of a group with a scaling block. */
  predicate NoScaledEdit(d: Deployment) {
    d.diffHash.Some? ==> forall e :: e in d.diffHash.value.counts ==> !ScalesName(d.spec, e.name)
  }

  ghost predicate PcSettled(spec: N.Job, m: nat, pc: Pc) {
    match pc
    case LiveRead(live) => IndexOf(live) < m || (live.Some? && N.Quiet(spec, live.value.job) && N.Canonical(live.value.job))
    case ScaledTo(index) => index < m
    case _ => true
  }

  /** The deployment is past the register at index m: no copy of it is at an index as new. */
  ghost predicate Past(s: Sys, id: Id, m: nat) {
    && id < |s.db.rows|
    && Rank(Applying) <= Rank(s.db.rows[id].state)
    && s.db.rows[id].cas < m <= IndexOf(LiveOf(s.nomad, s.db.rows[id].key))
    && (forall c :: (id, c) in s.copies ==> c.cas < m)
    && (id in s.workers ==> s.workers[id].d.cas < m)
  }

  /** Until it ends, the live job is its own and no copy of another of the job's deployments is as new. */
  ghost predicate Holds(s: Sys, id: Id, m: nat)
    requires id < |s.db.rows|
  {
    var d := s.db.rows[id];
    && NoScaledEdit(d)
    && LiveOf(s.nomad, d.key).Some?
    && N.Quiet(d.spec, LiveOf(s.nomad, d.key).value.job)
    && (forall i, c :: (i, c) in s.copies && c.key == d.key ==> c.cas < m)
    && (forall i :: i in s.workers && s.workers[i].d.key == d.key ==> s.workers[i].d.cas < m)
    && (id in s.workers ==> PcSettled(d.spec, m, s.workers[id].pc))
  }

  ghost predicate Settled(s: Sys, id: Id, m: nat) {
    Past(s, id, m) && (IsActive(s.db.rows[id].state) ==> Holds(s, id, m))
  }

  // -- counts ------------------------------------------------------------------------------

  /** The plan of a register that went through edits no count the autoscaler owns. */
  lemma RegisteredNoScaledEdit(p: N.Plan, spec: N.Job, live: Option<N.Job>)
    requires N.Lawful(p) && N.Canonical(spec) && N.CanonicalLive(live)
    ensures forall e :: e in p(N.Adjusted(spec, live), live).counts ==> !ScalesName(spec, e.name)
  {
    var j := N.Adjusted(spec, live);
    N.AdjustedCanonical(spec, live);
    assert p(j, live).counts == N.CountEdits(j, live);
    forall e | e in N.CountEdits(j, live)
      ensures !ScalesName(spec, e.name)
    {
      var i := N.EditedGroup(spec, live.value, e);
      forall h | h in spec.groups && h.Scalable()
        ensures h.name.value != e.name
      {
        if h.name == spec.groups[i].name { N.OneOfName(spec, i, h); }
      }
    }
  }

  /** A plan of a quiet job against a quiet one shows nothing, or an edit of a count the autoscaler owns. */
  lemma TornPlan(p: N.Plan, spec: N.Job, read: N.Job, now: N.Job)
    requires N.Lawful(p) && N.Canonical(read) && N.Canonical(now) && N.Quiet(spec, read) && N.Quiet(spec, now)
    requires N.HashOf(p(read, Some(now))).Some?
    ensures exists e :: e in N.HashOf(p(read, Some(now))).value.counts && ScalesName(spec, e.name)
  {
    assert read != now;
    assert p(read, Some(now)).counts == N.CountEdits(read, Some(now));
    if |read.groups| > 0 { N.QuietGroups(spec, read, 0); }
    if |now.groups| > 0 { N.QuietGroups(spec, now, 0); }
    assert N.Substitute(spec, read).groups == read.groups && N.Substitute(spec, now).groups == now.groups;
    assert read.groups != now.groups;
    var i :| 0 <= i < |read.groups| && read.groups[i] != now.groups[i];
    N.QuietGroups(spec, read, i);
    N.QuietGroups(spec, now, i);
    N.CountOf(now, i);
    var g := read.groups[i];
    var e := N.CountEdit(g.name.value, N.LiveCounts(now.groups)[g.name.value], g.count);
    assert g in read.groups;
    assert e in N.CountEdits(read, Some(now));
    assert spec.groups[i] in spec.groups;
  }

  // -- a step keeps the deployment settled --------------------------------------------------

  /** The plan of a settled deployment never tells its worker to follow an index from the register on. */
  lemma PlanSettled(p: N.Plan, d: Deployment, now: LiveJob, live: Option<LiveJob>, m: nat)
    requires N.Lawful(p) && NoScaledEdit(d) && d.cas < m <= now.index && N.Quiet(d.spec, now.job) && N.Canonical(now.job)
    requires PcSettled(d.spec, m, LiveRead(live))
    ensures PcSettled(d.spec, m, PlannedPc(p, d, live, Some(now)))
  {
    if m <= IndexOf(live) {
      var read := live.value.job;
      assert N.Adjusted(d.spec, JobOf(live)) == read;
      if N.HashOf(p(read, Some(now.job))).Some? {
        TornPlan(p, d.spec, read, now.job);
      }
    }
  }

  /** The register step of a settled deployment's worker. */
  lemma RegisterSettled(p: N.Plan, d: Deployment, now: LiveJob, pc: Pc, m: nat, work: Work)
    requires N.Lawful(p) && NoScaledEdit(d) && d.cas < m <= now.index && N.Quiet(d.spec, now.job) && N.Canonical(now.job)
    requires PcSettled(d.spec, m, pc)
    ensures var e := RegisterStep(p, Some(now), d, pc, work); e.next.Some? ==> PcSettled(d.spec, m, e.next.value.pc)
  {
    hide *;
    var e := RegisterStep(p, Some(now), d, pc, work);
    RegisterPcs(p, Some(now), d, pc, work);
    SettledPcs(d.spec, m, now);
    if pc.LiveRead? {
      assert PcSettled(d.spec, m, LiveRead(pc.live));
      PlanSettled(p, d, now, pc.live, m);
    }
    if e.next.Some? { OtherSettled(d.spec, m, pc, e); }
  }

  /** Where a register step goes. */
  lemma RegisterPcs(p: N.Plan, now: Option<LiveJob>, d: Deployment, pc: Pc, work: Work)
    ensures var e := RegisterStep(p, now, d, pc, work);
      e.next.Some? ==>
        var to := e.next.value.pc;
        || to == pc || to == LiveRead(now) || !RegisterPc(to) || (pc.LiveRead? && to == PlannedPc(p, d, pc.live, now))
  {
    hide PlannedPc;
  }

  lemma SettledPcs(spec: N.Job, m: nat, now: LiveJob)
    requires N.Quiet(spec, now.job) && N.Canonical(now.job)
    ensures PcSettled(spec, m, LiveRead(Some(now)))
  {
    hide N.Quiet, N.Canonical;
  }

  /** Where a settled deployment's own worker gets to. */
  lemma WorkerSettled(p: N.Plan, s: Sys, id: Id, m: nat, work: Work)
    requires hide *; id < |s.db.rows| && id in s.workers && N.Lawful(p) && CanonicalCluster(s) && Copies(s) && Past(s, id, m) && Holds(s, id, m)
    ensures var e := Worked(p, s, id, s.workers[id], work);
      e.next.Some? ==> PcSettled(s.db.rows[id].spec, m, e.next.value.pc)
  {
    var w, d := s.workers[id], s.db.rows[id];
    var now := LiveOf(s.nomad, d.key).value;
    RowKeeps(w.d, d);
    assert NoScaledEdit(w.d) && PcSettled(d.spec, m, w.pc) && N.Canonical(now.job);
    hide *;
    RegisterSettled(p, w.d, now, w.pc, m, work);
    OtherSettled(d.spec, m, w.pc, HealthStep(p, LiveOf(s.nomad, w.d.key), s.db, id, w.d, w.pc, work));
    OtherSettled(d.spec, m, w.pc, HookStep(s.db.runs, id, w.d, w.pc, work));
    HealthPc(p, LiveOf(s.nomad, w.d.key), s.db, id, w.d, w.pc, work);
    HookPc(s.db.runs, id, w.d, w.pc, work);
    DecidingPc(d.spec, m);
    WorkedCases(p, s, id, w, work);
  }

  lemma OtherSettled(spec: N.Job, m: nat, pc: Pc, e: Effect)
    requires PcSettled(spec, m, pc)
    ensures e.next.Some? && (e.next.value.pc == pc || !RegisterPc(e.next.value.pc)) ==> PcSettled(spec, m, e.next.value.pc)
  {
  }

  lemma DecidingPc(spec: N.Job, m: nat)
    ensures forall to :: PcSettled(spec, m, Deciding(to))
  {
  }

  // -- the store call, the cluster and the copies ---------------------------------------------

  /** A cas index a call moves a settled deployment to is older than its register. */
  lemma MoveSettled(s: Sys, a: Action, id: Id, m: nat)
    requires hide *; Copies(s) && Settled(s, id, m)
    ensures var c := CallOf(s, a); c.MoveCas? && c.id == id && ErrorOf(s.db, c).None? ==> c.casTo < m
  {
    var c := CallOf(s, a);
    if c.MoveCas? && c.id == id && ErrorOf(s.db, c).None? {
      MoveCasOrigin(s, a);
      hide CallOf, N.Quiet, NoScaledEdit, Follows, RowGrows, PastOf, ErrorOf;
      assert s.db.rows[id].state == Applying;
    }
  }

  /** Somebody puts another job in place. */
  ghost predicate EditOf(a: Action, k: Key) {
    a.Edit? && a.key == k && N.Canonical(a.job)
  }

  /** Every change of the live job of a settled deployment that is no edit is a scale: nobody else registers. */
  lemma LiveSettled(p: N.Plan, s: Sys, a: Action, id: Id, m: nat)
    requires hide *; id < |s.db.rows| && CanonicalCluster(s) && Indexed(s.nomad) && Past(s, id, m) && Holds(s, id, m)
    requires !EditOf(a, s.db.rows[id].key)
    ensures var d := s.db.rows[id];
      var live := LiveOf(ClusterAfter(p, s, a), d.key);
      live.Some? && m <= live.value.index && N.Quiet(d.spec, live.value.job)
  {
    hide N.Quiet, N.IsScale, N.Canonical, EffectOf, ClusterAfter, Change, LiveOf;
    var d := s.db.rows[id];
    var now := LiveOf(s.nomad, d.key).value;
    LiveAfter(p, s, a, d.key);
    LiveIs(s, d.key);
    if Change(p, s, a).Some? && Change(p, s, a).value.0 == d.key {
      ChangeIs(p, s, a);
      if a.Scale? {
        N.ScaledQuiet(d.spec, now.job, a.job);
      } else {
        assert a.Step?;
        NotAccepted(p, s, a.id, a.work);
      }
    }
  }

  lemma LiveIs(s: Sys, k: Key)
    requires CanonicalCluster(s) && Indexed(s.nomad) && LiveOf(s.nomad, k).Some?
    ensures N.Canonical(LiveOf(s.nomad, k).value.job) && 0 < LiveOf(s.nomad, k).value.index <= s.nomad.raft
  {
    hide N.Canonical;
  }

  /** The live job after a step: the one it puts in place, at a higher index, or the one before. */
  lemma LiveAfter(p: N.Plan, s: Sys, a: Action, k: Key)
    ensures var live, put := LiveOf(ClusterAfter(p, s, a), k), Change(p, s, a);
      if put.Some? && put.value.0 == k then live.Some? && live.value.job == put.value.1 && live.value.index == s.nomad.raft + 1
      else live == LiveOf(s.nomad, k)
  {
    hide Change;
  }

  /** It is an edit, a scale, or a register that was accepted. */
  lemma ChangeIs(p: N.Plan, s: Sys, a: Action)
    requires Change(p, s, a).Some?
    ensures var (k, job) := Change(p, s, a).value;
      || (EditOf(a, k) && job == a.job)
      || (a.Scale? && a.key == k && LiveOf(s.nomad, k).Some? && N.IsScale(LiveOf(s.nomad, k).value.job, a.job) && job == a.job)
      || (a.Step? && a.id in s.workers && s.workers[a.id].d.key == k && EffectOf(p, s, a).register.Some?)
  {
    hide EffectOf, N.IsScale, N.Canonical;
  }

  /** Nomad turns a register down at any index but the live one. */
  lemma NotAccepted(p: N.Plan, s: Sys, id: Id, work: Work)
    requires hide *; id in s.workers && s.workers[id].d.cas < IndexOf(LiveOf(s.nomad, s.workers[id].d.key))
    ensures EffectOf(p, s, Step(id, work)).register.None?
  {
    hide HookStep, HealthStep;
  }

  /** The copies listed and taken later are of the deployment itself, the only active one of its job. */
  lemma CopiesSettled(s: Sys, a: Action, id: Id, m: nat)
    requires hide *; id < |s.db.rows| && OneActive(s.db) && Settled(s, id, m)
    ensures forall c :: (id, c) in CopiesAfter(s, a) ==> c.cas < m
    ensures IsActive(s.db.rows[id].state) ==> forall i, c :: (i, c) in CopiesAfter(s, a) && c.key == s.db.rows[id].key ==> c.cas < m
  {
    hide N.Quiet, NoScaledEdit, PcSettled;
  }

  lemma WorkersSettled(p: N.Plan, s: Sys, a: Action, id: Id, m: nat, i: Id)
    requires hide *; id < |s.db.rows| && N.Lawful(p) && CanonicalCluster(s) && Copies(s) && Settled(s, id, m) && i in WorkersAfter(p, s, a)
    ensures var w := WorkersAfter(p, s, a)[i];
      var d := s.db.rows[id];
      && (i == id ==> w.d.cas < m)
      && (IsActive(d.state) ==> (w.d.key == d.key ==> w.d.cas < m) && (i == id ==> PcSettled(d.spec, m, w.pc)))
  {
    WorkerOrigin(p, s, a, i);
    assert PcSettled(s.db.rows[id].spec, m, Ready);
    if a.Step? && i == a.id && i in s.workers {
      WorkedKeepsCopy(p, s, i, s.workers[i], a.work);
      if i == id && IsActive(s.db.rows[id].state) {
        WorkerSettled(p, s, id, m, a.work);
      }
    }
    hide N.Quiet, NoScaledEdit, PcSettled, Worked, N.Lawful, CanonicalCluster, Copies, WorkersAfter;
  }

  lemma WorkedKeepsCopy(p: N.Plan, s: Sys, id: Id, w: Worker, work: Work)
    ensures hide *; var e := Worked(p, s, id, w, work); e.next.Some? ==> e.next.value.d.cas == w.d.cas && e.next.value.d.key == w.d.key
  {
    hide HookStep, RegisterStep, HealthStep;
  }

  lemma NextSettled(p: N.Plan, s: Sys, a: Action, id: Id, m: nat)
    requires hide *; id < |s.db.rows| && N.Lawful(p) && Basic(s) && CanonicalCluster(s) && Settled(s, id, m)
    requires !EditOf(a, s.db.rows[id].key)
    ensures Settled(Next(p, s, a), id, m)
  {
    hide *;
    var d, after := s.db.rows[id], Next(p, s, a);
    BasicParts(s);
    SettledIs(s, id, m);
    RowSettled(s, a, id, m);
    NextParts(p, s, a);
    NextMoves(p, s, a);
    IndexUp(s.nomad, after.nomad, d.key);
    if IsActive(d.state) { LiveSettled(p, s, a, id, m); }
    CopiesSettled(s, a, id, m);
    forall i | i in WorkersAfter(p, s, a) { WorkersSettled(p, s, a, id, m, i); }
    SettledParts(after, d, id, m);
  }

  lemma SettledIs(s: Sys, id: Id, m: nat)
    requires hide *; id < |s.db.rows| && Settled(s, id, m)
    ensures Past(s, id, m) && m <= IndexOf(LiveOf(s.nomad, s.db.rows[id].key)) && (IsActive(s.db.rows[id].state) ==> Holds(s, id, m))
  {
    hide Holds, IsActive, LiveOf;
  }

  /** The index of a live job only goes up. */
  lemma IndexUp(n: Cluster, after: Cluster, k: Key)
    requires Indexed(n) && Moves(n, after)
    ensures IndexOf(LiveOf(n, k)) <= IndexOf(LiveOf(after, k))
  {
  }

  /** The row after a step. */
  lemma RowSettled(s: Sys, a: Action, id: Id, m: nat)
    requires hide *; id < |s.db.rows| && Copies(s) && Settled(s, id, m)
    ensures id < |Exec(s.db, CallOf(s, a)).rows|
    ensures var d, e := s.db.rows[id], Exec(s.db, CallOf(s, a)).rows[id];
      && e.key == d.key && e.spec == d.spec && e.cas < m && Rank(Applying) <= Rank(e.state)
      && (IsActive(e.state) ==> IsActive(d.state) && NoScaledEdit(e))
  {
    MoveSettled(s, a, id, m);
    RowAfter(s.db, CallOf(s, a), id);
    hide CallOf, Exec, ErrorOf, N.Quiet, Copies;
  }

  lemma SettledParts(after: Sys, d: Deployment, id: Id, m: nat)
    requires id < |after.db.rows|
    requires var e := after.db.rows[id];
      && e.key == d.key && e.spec == d.spec && e.cas < m && Rank(Applying) <= Rank(e.state)
      && (IsActive(e.state) ==> IsActive(d.state) && NoScaledEdit(e))
    requires m <= IndexOf(LiveOf(after.nomad, d.key))
    requires IsActive(d.state) ==> LiveOf(after.nomad, d.key).Some? && N.Quiet(d.spec, LiveOf(after.nomad, d.key).value.job)
    requires forall c :: (id, c) in after.copies ==> c.cas < m
    requires IsActive(d.state) ==> forall i, c :: (i, c) in after.copies && c.key == d.key ==> c.cas < m
    requires forall i :: i in after.workers ==>
      var w := after.workers[i];
      && (i == id ==> w.d.cas < m)
      && (IsActive(d.state) ==> (w.d.key == d.key ==> w.d.cas < m) && (i == id ==> PcSettled(d.spec, m, w.pc)))
    ensures Settled(after, id, m)
  {
    hide N.Quiet, NoScaledEdit, PcSettled, IsActive;
  }

  /** From the register on, the deployment is settled at the index the register got. */
  lemma AcceptedSettles(p: N.Plan, s: Sys, id: Id)
    requires hide *; N.Lawful(p) && Basic(s) && CanonicalCluster(s) && AllPinned(p, s) && Accepted(p, s, id)
    ensures id < |s.db.rows| && Settled(Next(p, s, Step(id, Register)), id, s.nomad.raft + 1)
  {
    hide *;
    var after, m := Next(p, s, Step(id, Register)), s.nomad.raft + 1;
    AcceptedFacts(p, s, id);
    CasBelow(p, s);
    AcceptedNext(p, s, id);
    IndexIs(LiveOf(after.nomad, s.db.rows[id].key));
    SettledParts(after, s.db.rows[id], id, m);
  }

  lemma AcceptedFacts(p: N.Plan, s: Sys, id: Id)
    requires hide *; N.Lawful(p) && Basic(s) && CanonicalCluster(s) && AllPinned(p, s) && Accepted(p, s, id)
    ensures id < |s.db.rows| && id in s.workers && s.workers[id].pc.PlannedAt? && EffectOf(p, s, Step(id, Register)).register.Some?
    ensures var d := s.db.rows[id];
      && s.workers[id].d.key == d.key && Rank(Applying) <= Rank(d.state)
      && NoScaledEdit(d) && N.Quiet(d.spec, EffectOf(p, s, Step(id, Register)).register.value)
      && PcSettled(d.spec, s.nomad.raft + 1, Registered)
  {
    hide EffectOf, Basic, Origin, Pin, N.Lawful;
    AcceptedAtPin(p, s, id);
    AcceptedState(p, s, id);
    var w, d := s.workers[id], s.db.rows[id];
    RowKeeps(w.d, d);
    SpecCanonical(p, d);
    var live := JobOf(LiveOf(s.nomad, d.key));
    N.AdjustedQuiet(d.spec, live);
    RegisteredNoScaledEdit(p, d.spec, live);
  }

  lemma IndexIs(live: Option<LiveJob>)
    ensures live.Some? ==> IndexOf(live) == live.value.index
  {
  }

  lemma AcceptedState(p: N.Plan, s: Sys, id: Id)
    requires hide *; id in s.workers && Basic(s) && Accepted(p, s, id)
    ensures id < |s.db.rows| && s.workers[id].d.state == Applying && PastOf(s.db.rows, id, s.workers[id].d)
    ensures Rank(Applying) <= Rank(s.db.rows[id].state)
  {
  }

  /** No deployment, and no copy of one, is at an index the cluster has yet to give. */
  lemma CasBelow(p: N.Plan, s: Sys)
    requires AllPinned(p, s)
    ensures forall i :: 0 <= i < |s.db.rows| ==> s.db.rows[i].cas <= s.nomad.raft
    ensures forall i, c :: (i, c) in s.copies ==> c.cas <= s.nomad.raft
    ensures forall i :: i in s.workers ==> s.workers[i].d.cas <= s.nomad.raft
  {
    assert forall d :: Pinned(p, s.nomad, d) ==> d.cas <= s.nomad.raft;
    hide Pinned, DetectionPinned;
  }

  lemma SettledFirst(p: N.Plan, s: Sys, id: Id)
    requires hide *; N.Lawful(p) && Basic(s) && CanonicalCluster(s) && AllPinned(p, s) && Accepted(p, s, id)
    ensures SettledAt(Next(p, s, Step(id, Register)), id, KeyAt(p, s, id), s.nomad.raft + 1)
  {
    hide *;
    AcceptedSettles(p, s, id);
    KeyStays(p, s, Step(id, Register), id);
    SettledAtKey(Next(p, s, Step(id, Register)), id, s.db.rows[id].key, s.nomad.raft + 1);
    KeyIs(p, s, id);
  }

  lemma KeyIs(p: N.Plan, s: Sys, id: Id)
    requires hide *; Basic(s) && Accepted(p, s, id)
    ensures id < |s.db.rows| && KeyAt(p, s, id) == s.db.rows[id].key
  {
    assert id in s.workers;
    hide EffectOf;
    AcceptedState(p, s, id);
  }

  /** A register changes the live job and where its worker is, and nothing else. */
  lemma AcceptedNext(p: N.Plan, s: Sys, id: Id)
    requires hide *; Accepted(p, s, id) && id in s.workers && s.workers[id].pc.PlannedAt? && EffectOf(p, s, Step(id, Register)).register.Some?
    ensures var after := Next(p, s, Step(id, Register));
      var d := s.workers[id].d;
      && after.db == s.db && after.copies == s.copies
      && after.workers == s.workers[id := Worker(d, Registered)]
      && LiveOf(after.nomad, d.key) == Some(LiveJob(EffectOf(p, s, Step(id, Register)).register.value, s.nomad.raft + 1, VersionOf(LiveOf(s.nomad, d.key)) + 1))
  {
    hide HookStep, HealthStep;
  }

  lemma {:induction false} RunSettled(p: N.Plan, s: Sys, acts: seq<Action>, id: Id, i: nat)
    requires hide *; N.Lawful(p) && Initial(s) && i < |acts| && acts[i] == Step(id, Register) && Accepted(p, Run(p, s, acts[..i]), id)
    requires forall k :: i < k < |acts| ==> !EditOf(acts[k], KeyAt(p, Run(p, s, acts[..i]), id))
    ensures SettledAt(Run(p, s, acts), id, KeyAt(p, Run(p, s, acts[..i]), id), Run(p, s, acts[..i]).nomad.raft + 1)
  {
    hide *;
    var most := acts[..|acts| - 1];
    var before, last := Run(p, s, most), acts[|acts| - 1];
    RunLast(p, s, acts);
    RunPinned(p, s, most);
    RunBasic(p, s, most);
    assert i < |acts| - 1 ==> most[..i] == acts[..i];
    if i == |acts| - 1 {
      SettledFirst(p, before, id);
    } else {
      RunSettled(p, s, most, id, i);
      NextSettledAt(p, before, last, id, KeyAt(p, Run(p, s, acts[..i]), id), Run(p, s, acts[..i]).nomad.raft + 1);
    }
  }

  ghost predicate SettledAt(s: Sys, id: Id, k: Key, m: nat) {
    Settled(s, id, m) && s.db.rows[id].key == k
  }

  lemma AtKeyIs(s: Sys, id: Id, k: Key, m: nat)
    requires SettledAt(s, id, k, m)
    ensures Settled(s, id, m) && id < |s.db.rows| && s.db.rows[id].key == k
  {
  }

  lemma SettledAtKey(s: Sys, id: Id, k: Key, m: nat)
    requires Settled(s, id, m) && id < |s.db.rows| && s.db.rows[id].key == k
    ensures SettledAt(s, id, k, m)
  {
    hide Settled;
  }

  lemma NextSettledAt(p: N.Plan, s: Sys, a: Action, id: Id, k: Key, m: nat)
    requires N.Lawful(p) && Basic(s) && CanonicalCluster(s) && SettledAt(s, id, k, m) && !EditOf(a, k)
    ensures SettledAt(Next(p, s, a), id, k, m)
  {
    hide *;
    AtKeyIs(s, id, k, m);
    NextSettled(p, s, a, id, m);
    KeyStays(p, s, a, id);
    SettledAtKey(Next(p, s, a), id, k, m);
  }

  lemma KeyStays(p: N.Plan, s: Sys, a: Action, id: Id)
    requires hide *; id < |s.db.rows|
    ensures id < |Next(p, s, a).db.rows| && Next(p, s, a).db.rows[id].key == s.db.rows[id].key
  {
    hide *;
    NextGrows(p, s, a);
    GrowsKey(s.db, Next(p, s, a).db, id);
  }

  lemma GrowsKey(db: Db, after: Db, id: Id)
    requires Grows(db, after) && id < |db.rows|
    ensures id < |after.rows| && after.rows[id].key == db.rows[id].key
  {
    assert RowGrows(db.rows[id], after.rows[id]);
  }

  /** The job of the deployment whose register Nomad accepts now. */
  ghost function KeyAt(p: N.Plan, s: Sys, id: Id): Key
    requires Accepted(p, s, id)
  {
    s.workers[id].d.key
  }

  /**
   Between two registers Nomad accepts for one deployment, somebody edited the live job:
   crashes, retried steps, stale copies, scales and other deployments never cause a second.
  */
  lemma RegistersTwiceOnlyAfterAnEdit(p: N.Plan, s: Sys, acts: seq<Action>, id: Id, i: nat, j: nat)
    requires hide *; N.Lawful(p) && Initial(s) && i < j < |acts|
    requires acts[i] == Step(id, Register) && Accepted(p, Run(p, s, acts[..i]), id)
    requires acts[j] == Step(id, Register) && Accepted(p, Run(p, s, acts[..j]), id)
    ensures exists k :: i < k < j && EditOf(acts[k], KeyAt(p, Run(p, s, acts[..i]), id))
  {
    hide *;
    if !exists k :: i < k < j && EditOf(acts[k], KeyAt(p, Run(p, s, acts[..i]), id)) {
      assert acts[..j][..i] == acts[..i];
      RunSettled(p, s, acts[..j], id, i);
      SettledNotAccepted(p, s, acts[..j], id, KeyAt(p, Run(p, s, acts[..i]), id), Run(p, s, acts[..i]).nomad.raft + 1);
    }
  }

  lemma SettledNotAccepted(p: N.Plan, s: Sys, acts: seq<Action>, id: Id, k: Key, m: nat)
    requires Initial(s) && SettledAt(Run(p, s, acts), id, k, m)
    ensures !Accepted(p, Run(p, s, acts), id)
  {
    hide *;
    RunBasic(p, s, acts);
    AtKeyIs(Run(p, s, acts), id, k, m);
    NoneAccepted(p, Run(p, s, acts), id, m);
  }

  /** Nomad accepts no register of a settled deployment. */
  lemma NoneAccepted(p: N.Plan, s: Sys, id: Id, m: nat)
    requires Basic(s) && Settled(s, id, m)
    ensures !Accepted(p, s, id)
  {
    if Accepted(p, s, id) {
      AcceptedState(p, s, id);
      hide EffectOf, Basic, Holds, N.Quiet;
      NotAccepted(p, s, id, Register);
    }
  }
}
