/**
 The engine's own code, run in place on the store and on Nomad: each method ends where the
 steps of the machine lead, Nomad's failures and an edit before the register included. What
 is proved of every run of the machine is so proved of what this code does.
*/
module Engine {
  import opened Options
  import opened Store
  import opened Decisions
  import opened Machine
  import N = Nomad
  import Database
  import opened RegisterSteps

  lemma RunUnfold(p: N.Plan, s: Sys, acts: seq<Action>)
    ensures hide *; Run(p, s, acts) == if acts == [] then s else Next(p, Run(p, s, acts[..|acts| - 1]), acts[|acts| - 1])
  {
    hide Next;
  }

  lemma RunNext(p: N.Plan, s: Sys, acts: seq<Action>, a: Action)
    ensures Run(p, s, acts + [a]) == Next(p, Run(p, s, acts), a)
  {
    hide *;
    RunUnfold(p, s, acts + [a]);
    assert (acts + [a])[..|acts|] == acts;
  }

  // -- detection: one job's deployment ----------------------------------------------------------

  predicate OfReconcile(a: Action) {
    a.ReadActive? || a.TryMove? || a.Settle? || a.ReadLatest? || a.CreateNow?
  }

  /** A step of detection moves the store and the cycle, and nothing else. */
  lemma DetectStep(p: N.Plan, s: Sys, a: Action)
    requires OfReconcile(a)
    ensures Next(p, s, a) == s.(db := Exec(s.db, DetectCall(s.det, a)), det := if Acts(a) then Acted(s, a) else Look(p, s, a))
  {
    hide Exec, Acted, Look, DetectCall;
  }

  /** The steps of a cycle on one job once it is planned. */
  const RECONCILE: seq<Action> := [ReadActive, TryMove, Settle, ReadLatest, CreateNow]

  lemma RunReconcile(p: N.Plan, s: Sys)
    ensures Run(p, s, RECONCILE) ==
      Next(p, Next(p, Next(p, Next(p, Next(p, s, ReadActive), TryMove), Settle), ReadLatest), CreateNow)
  {
    hide Next, Run;
    RunUnfold(p, s, []);
    RunNext(p, s, [], ReadActive);
    RunNext(p, s, [ReadActive], TryMove);
    RunNext(p, s, [ReadActive, TryMove], Settle);
    RunNext(p, s, [ReadActive, TryMove, Settle], ReadLatest);
    RunNext(p, s, [ReadActive, TryMove, Settle, ReadLatest], CreateNow);
    assert [] + [ReadActive] == [ReadActive] && [ReadActive] + [TryMove] == [ReadActive, TryMove];
    assert [ReadActive, TryMove] + [Settle] == [ReadActive, TryMove, Settle];
    assert [ReadActive, TryMove, Settle] + [ReadLatest] == [ReadActive, TryMove, Settle, ReadLatest];
    assert [ReadActive, TryMove, Settle, ReadLatest] + [CreateNow] == RECONCILE;
  }

  /** Steps a cycle past them does not take. */
  lemma Idles(p: N.Plan, s: Sys, a: Action)
    requires OfReconcile(a)
    requires s.det.Reconciled? || (s.det.Cleared? && !a.ReadLatest?)
    ensures Next(p, s, a) == s
  {
    DetectStep(p, s, a);
    hide Next, Exec;
    NothingWritten(s.db);
  }

  /** The cas index follows a scale; a move the other loop overtook is skipped. */
  method FollowScale(store: Database.Rows, t: Todo, o: Seen, id: Id, waiting: Deployment, ghost p: N.Plan, ghost s: Sys)
    returns (active: Deployment)
    requires hide *; s.db == store.Value() && s.det.Waiting? && s.det == Waiting(s.det.c, t, o, id, waiting)
    modifies store
    ensures Next(p, s, TryMove) == s.(db := store.Value(), det := Moved(s.det.c, t, o, id, active))
  {
    DetectStep(p, s, TryMove);
    hide Next, HashOf, Exec, ErrorOf, SameDiff;
    NothingWritten(s.db);
    active := waiting;
    if t.g.job.cfg.policy != N.NoPolicy && active.specHash == HashOf(t.g) && active.cas != o.index && SameDiff(active.diffHash, o.diff) {
      var error := store.MoveCASIndex(id, active.state, active.cas, o.index);
      if error.None? {
        active := active.(cas := o.index);
      }
    }
  }

  lemma SettleStep(p: N.Plan, s: Sys, t: Todo, o: Seen, id: Id, d: Deployment)
    requires hide *; s.det.Moved? && s.det == Moved(s.det.c, t, o, id, d)
    ensures var v := Review(t.g.job.cfg, HashOf(t.g), Problem(t.g), t.hold, d, o.index, o.diff);
      Next(p, s, Settle) == s.(
        db := Exec(s.db, if v.Keep? then NoCall else Store.Transition(id, d.state, v.to, Nops, if v.to == Failed then "failed" else "", false)),
        det := if !v.Move? || t.g.job.cfg.policy == N.NoPolicy then Reconciled(s.det.c, t) else Cleared(s.det.c, t, o))
  {
    hide Next, HashOf, Problem, Exec, Review;
    DetectStep(p, s, Settle);
  }

  /** Ends a deployment that no longer holds, moves one left detected under approval on, or keeps it. */
  method SettleWaiting(store: Database.Rows, t: Todo, o: Seen, id: Id, active: Deployment, ghost p: N.Plan, ghost s: Sys)
    returns (stays: bool)
    requires hide *; s.db == store.Value() && s.det.Moved? && s.det == Moved(s.det.c, t, o, id, active)
    modifies store
    ensures Next(p, s, Settle) ==
      s.(db := store.Value(), det := if stays || t.g.job.cfg.policy == N.NoPolicy then Reconciled(s.det.c, t) else Cleared(s.det.c, t, o))
  {
    SettleStep(p, s, t, o, id, active);
    hide Next, HashOf, Problem, Exec, ErrorOf, Rerun;
    NothingWritten(s.db);
    if t.g.job.cfg.policy == N.NoPolicy || active.specHash != HashOf(t.g) || active.cas != o.index {
      var _ := store.Transition(id, active.state, Superseded, Nops, "", false);
    } else if o.diff.None? && !Rerun(active) {
      var _ := store.Transition(id, active.state, Completed, Nops, "", false);
    } else if HoldOn(t.hold, active).Some? && active.state == Detected && active.policy == Auto {
      var _ := store.Transition(id, active.state, Superseded, Nops, "", false);
    } else {
      if active.state == Detected && active.policy == Approval {
        var problem := Problem(t.g);
        var _ := store.Transition(id, active.state, if problem then Failed else PendingApproval, Nops, if problem then "failed" else "", false);
      }
      return true;
    }
    return false;
  }

  /** What is left to deploy: blocked, held, or a new deployment. */
  method CreateFor(store: Database.Rows, t: Todo, o: Seen, ghost p: N.Plan, ghost s: Sys)
    requires hide *; s.db == store.Value() && s.det.Cleared? && s.det == Cleared(s.det.c, t, o)
    modifies store
    ensures Next(p, Next(p, s, ReadLatest), CreateNow) == s.(db := store.Value(), det := Reconciled(s.det.c, t))
  {
    var id := store.LatestDeployment(t.key);
    var latest := if id.Some? then Some(store.rows[id.value]) else None;
    ghost var found := s.(det := LatestRead(s.det.c, t, o, id, latest));
    LatestStep(p, s, t, o);
    CreateStep(p, found, t, o);
    NothingWritten(s.db);
    hide *;
    var d := Wanted(t, o, id, latest);
    if d.Some? {
      var _ := store.CreateDeployment(d.value);
    }
  }

  lemma LatestStep(p: N.Plan, s: Sys, t: Todo, o: Seen)
    requires hide *; s.det.Cleared? && s.det == Cleared(s.det.c, t, o)
    ensures var id := LatestOf(s.db.rows, t.key);
      Next(p, s, ReadLatest) == s.(det := LatestRead(s.det.c, t, o, id, if id.Some? then Some(s.db.rows[id.value]) else None))
  {
    DetectStep(p, s, ReadLatest);
    hide Next, LatestOf, Exec;
    NothingWritten(s.db);
  }

  lemma CreateStep(p: N.Plan, s: Sys, t: Todo, o: Seen)
    requires hide *; s.det.LatestRead? && s.det == LatestRead(s.det.c, t, o, s.det.latestId, s.det.latest)
    requires s.det.latestId.Some? <==> s.det.latest.Some?
    ensures var d := NewDeployment(t.key, t.g, t.hold, t.liftedBy, s.det.latestId, s.det.latest, o.index, o.job, o.diff);
      Next(p, s, CreateNow) == s.(db := Exec(s.db, if d.None? then NoCall else Create(d.value)), det := Reconciled(s.det.c, t))
  {
    DetectStep(p, s, CreateNow);
    hide Next, NewDeployment, Exec;
  }

  /** The branches of reconcileDeployment past the active deployment. */
  method Wanted(t: Todo, o: Seen, id: Option<Id>, latest: Option<Deployment>) returns (d: Option<Deployment>)
    requires id.Some? <==> latest.Some?
    ensures d == NewDeployment(t.key, t.g, t.hold, t.liftedBy, id, latest, o.index, o.job, o.diff)
  {
    var hash := HashOf(t.g);
    hide Frozen, Decisions.HashOf, Problem, Blocked, Retried;
    var drift := o.diff.Some?;
    var retrying := latest.Some? && Retried(latest.value, hash);
    if !drift && !(retrying && AppliedIndex(latest.value) != 0) {
      return None;
    }
    if drift && latest.Some? && Blocked(latest.value, hash, o.index, o.diff) {
      return None;
    }
    if t.hold.Some? {
      return None;
    }
    var made := Deployment(t.key, hash, o.job, drift, o.diff, StorePolicy(t.g.job.cfg.policy), Detected, "", o.index,
                           None, None, None, None, None, t.liftedBy, false, false, Frozen(t.g));
    if retrying {
      made := made.(retryOf := id);
    }
    if Problem(t.g) {
      made := made.(state := Failed, error := "hook not found or invalid");
    } else if t.g.job.cfg.policy == N.Approval {
      made := made.(state := PendingApproval);
    }
    return Some(made);
  }

  /** reconcileDeployment, for a job read and planned, is the five steps of the cycle in a row. */
  method ReconcileDeployment(store: Database.Rows, t: Todo, o: Seen, ghost p: N.Plan, ghost s: Sys)
    requires hide *; s.db == store.Value() && s.det.Planned? && s.det == Planned(s.det.c, t, o)
    modifies store
    ensures Run(p, s, RECONCILE) == s.(db := store.Value(), det := Reconciled(s.det.c, t))
  {
    RunReconcile(p, s);
    ActiveStep(p, s, t, o);
    ghost var g := Next(p, s, ReadActive);
    hide *;
    var active := store.ActiveDeployment(t.key);
    if active.Some? {
      var d := store.rows[active.value];
      if d.state != Detected && d.state != PendingApproval {
        Idles(p, g, TryMove);
        Idles(p, g, Settle);
        Idles(p, g, ReadLatest);
        Idles(p, g, CreateNow);
        return;
      }
      d := FollowScale(store, t, o, active.value, d, p, g);
      g := Next(p, g, TryMove);
      var stays := SettleWaiting(store, t, o, active.value, d, p, g);
      g := Next(p, g, Settle);
      if stays || t.g.job.cfg.policy == N.NoPolicy {
        Idles(p, g, ReadLatest);
        Idles(p, g, CreateNow);
        return;
      }
    } else {
      Idles(p, g, TryMove);
      Idles(p, g, Settle);
      if t.g.job.cfg.policy == N.NoPolicy {
        Idles(p, g, ReadLatest);
        Idles(p, g, CreateNow);
        return;
      }
    }
    CreateFor(store, t, o, p, g);
  }

  lemma ActiveStep(p: N.Plan, s: Sys, t: Todo, o: Seen)
    requires hide *; s.det.Planned? && s.det == Planned(s.det.c, t, o)
    ensures var id := ActiveOf(s.db.rows, t.key);
      Next(p, s, ReadActive) == s.(det :=
        if id.None? then if t.g.job.cfg.policy == N.NoPolicy then Reconciled(s.det.c, t) else Cleared(s.det.c, t, o)
        else if s.db.rows[id.value].state in {Detected, PendingApproval} then Waiting(s.det.c, t, o, id.value, s.db.rows[id.value])
        else Reconciled(s.det.c, t))
  {
    DetectStep(p, s, ReadActive);
    hide Next, ActiveOf, Exec;
    NothingWritten(s.db);
  }

  // -- a whole job: read, planned, reconciled ------------------------------------------------------

  /** Nomad, as the engine calls it. */
  class Server {
    var live: map<Key, LiveJob>
    var raft: nat

    constructor (live: map<Key, LiveJob>, raft: nat)
      ensures Value() == Cluster(live, raft)
    {
      this.live, this.raft := live, raft;
    }

    function Value(): Cluster
      reads this
    {
      Cluster(live, raft)
    }

    method Job(k: Key) returns (job: Option<LiveJob>)
      ensures job == LiveOf(Value(), k)
    {
      job := if k in live then Some(live[k]) else None;
    }

    method Plan(p: N.Plan, k: Key, job: N.Job) returns (diff: N.PlanDiff)
      ensures diff == p(job, JobOf(LiveOf(Value(), k)))
    {
      diff := p(job, if k in live then Some(live[k].job) else None);
    }

    /** The register goes through exactly at the index of the live job. */
    method RegisterCAS(k: Key, job: N.Job, cas: nat) returns (ok: bool)
      modifies this
      ensures ok == (IndexOf(LiveOf(old(Value()), k)) == cas)
      ensures Value() == if ok then Put(old(Value()), k, job) else old(Value())
    {
      var index, version := 0, 0;
      if k in live {
        index, version := live[k].index, live[k].version;
      }
      ok := index == cas;
      if ok {
        raft := raft + 1;
        live := live[k := LiveJob(job, raft, version + 1)];
      }
    }

    /** Somebody puts a job in place. */
    method Edit(k: Key, job: N.Job)
      modifies this
      ensures Value() == Put(old(Value()), k, job)
    {
      var version := if k in live then live[k].version else 0;
      raft := raft + 1;
      live := live[k := LiveJob(job, raft, version + 1)];
    }
  }

  /** The job to plan: with the live counts only when there is a live job. */
  method AdjustedJob(job: N.Job, live: Option<LiveJob>) returns (r: N.Job)
    ensures r == N.Adjusted(job, JobOf(live))
  {
    r := job;
    if live.Some? {
      r := N.SubstituteScalingCounts(job, live.value.job);
    }
  }

  lemma ReadStep(p: N.Plan, s: Sys, t: Todo)
    requires hide *; s.det.Begun? && s.det == Begun(s.det.c, t)
    ensures Next(p, s, ReadJob) == s.(det := JobRead(s.det.c, t, LiveOf(s.nomad, t.key)))
  {
    hide Exec, LiveOf;
    NothingWritten(s.db);
  }

  lemma PlanStep(p: N.Plan, s: Sys, t: Todo, live: Option<LiveJob>)
    requires hide *; s.det.JobRead? && s.det == JobRead(s.det.c, t, live)
    ensures var job := N.Adjusted(t.g.job, JobOf(live));
      Next(p, s, PlanJob) == s.(det := Planned(s.det.c, t, Seen(IndexOf(live), job, N.HashOf(p(job, JobOf(LiveOf(s.nomad, t.key)))))))
  {
    hide Exec, LiveOf, N.Adjusted, N.HashOf;
    NothingWritten(s.db);
  }

  lemma FinishStep(p: N.Plan, s: Sys, t: Todo)
    requires hide *; s.det.Reconciled? && s.det == Reconciled(s.det.c, t)
    ensures Next(p, s, FinishJob) == s.(
        db := Exec(s.db, if t.key in s.det.c.lifts then DropLift(t.key) else NoCall),
        det := Choosing(s.det.c.(done := s.det.c.done + {t.key})))
  {
    hide Exec;
  }

  /** The steps of a cycle on one job. */
  ghost function JobSteps(): seq<Action> {
    [ReadJob] + [PlanJob] + RECONCILE + [FinishJob]
  }

  lemma {:induction false} RunConcat(p: N.Plan, s: Sys, a: seq<Action>, b: seq<Action>)
    ensures Run(p, s, a + b) == Run(p, Run(p, s, a), b)
  {
    hide Next;
    if b == [] {
      assert a + b == a;
    } else {
      var n := |b| - 1;
      assert (a + b)[..|a + b| - 1] == a + b[..n] && (a + b)[|a + b| - 1] == b[n];
      RunConcat(p, s, a, b[..n]);
    }
  }

  lemma RunOne(p: N.Plan, s: Sys, a: Action)
    ensures Run(p, s, [a]) == Next(p, s, a)
  {
    hide *;
    RunUnfold(p, s, []);
    RunNext(p, s, [], a);
    assert [] + [a] == [a];
  }

  lemma RunJobSteps(p: N.Plan, s: Sys)
    ensures Run(p, s, JobSteps()) == Next(p, Run(p, Next(p, Next(p, s, ReadJob), PlanJob), RECONCILE), FinishJob)
  {
    hide Next, Run;
    RunOne(p, s, ReadJob);
    RunConcat(p, s, [ReadJob], [PlanJob]);
    RunOne(p, Next(p, s, ReadJob), PlanJob);
    RunConcat(p, s, [ReadJob] + [PlanJob], RECONCILE);
    RunNext(p, s, [ReadJob] + [PlanJob] + RECONCILE, FinishJob);
  }

  /** The steps of a cycle on one job, by the calls Nomad answers: without the read or the plan the job is left as it is. */
  ghost function StepsOn(read: bool, plan: bool): seq<Action> {
    if !read then [SkipJob] else if !plan then [ReadJob] + [SkipJob] else JobSteps()
  }

  lemma SkipStep(p: N.Plan, s: Sys)
    requires hide *; s.det.Begun? || s.det.JobRead?
    ensures Next(p, s, SkipJob) == s.(det := Choosing(s.det.c.(done := s.det.c.done + {s.det.t.key})))
  {
    hide Exec;
    NothingWritten(s.db);
  }

  lemma RunSkips(p: N.Plan, s: Sys)
    ensures Run(p, s, [SkipJob]) == Next(p, s, SkipJob)
    ensures Run(p, s, [ReadJob] + [SkipJob]) == Next(p, Next(p, s, ReadJob), SkipJob)
  {
    hide *;
    RunOne(p, s, SkipJob);
    RunOne(p, s, ReadJob);
    RunNext(p, s, [ReadJob], SkipJob);
  }

  /** reconcileJob, whether or not Nomad answers the read and the plan, when nothing comes between its calls. */
  method ReconcileJob(store: Database.Rows, server: Server, c: Cycle, t: Todo, read: bool, plan: bool, p: N.Plan, ghost s: Sys)
    requires hide *; s.db == store.Value() && s.nomad == server.Value() && s.det == Begun(c, t)
    modifies store
    ensures Run(p, s, StepsOn(read, plan)) == s.(db := store.Value(), det := Choosing(c.(done := c.done + {t.key})))
    ensures !read || !plan ==> store.Value() == old(store.Value())
  {
    RunSkips(p, s);
    if !read {
      SkipStep(p, s);
      hide *;
      return;
    }
    ReadStep(p, s, t);
    ghost var g := Next(p, s, ReadJob);
    var live := server.Job(t.key);
    if !plan {
      SkipStep(p, g);
      hide *;
      return;
    }
    PlanAndReconcile(store, server, c, t, live, p, s);
  }

  /** The rest of it, once the job is read. */
  method PlanAndReconcile(store: Database.Rows, server: Server, c: Cycle, t: Todo, live: Option<LiveJob>, p: N.Plan, ghost s: Sys)
    requires hide *; s.db == store.Value() && s.nomad == server.Value() && s.det == Begun(c, t) && live == LiveOf(server.Value(), t.key)
    modifies store
    ensures Run(p, s, JobSteps()) == s.(db := store.Value(), det := Choosing(c.(done := c.done + {t.key})))
  {
    RunJobSteps(p, s);
    ReadStep(p, s, t);
    ghost var g := Next(p, s, ReadJob);
    hide *;
    PlanStep(p, g, t, live);
    g := Next(p, g, PlanJob);
    var index := if live.Some? then live.value.index else 0;
    IndexIs(live);
    var job := AdjustedJob(t.g.job, live);
    var diff := server.Plan(p, t.key, job);
    var o := Seen(index, job, N.HashOf(diff));
    ReconcileDeployment(store, t, o, p, g);
    g := Run(p, g, RECONCILE);
    FinishStep(p, g, t);
    NothingWritten(g.db);
    if t.key in c.lifts {
      var _ := store.DropWindowLift(t.key);
    }
  }

  lemma IndexIs(live: Option<LiveJob>)
    ensures IndexOf(live) == if live.Some? then live.value.index else 0
  {
  }

  // -- apply: the register ------------------------------------------------------------------------------

  /** Where a step of a worker that registers and dispatches nothing leads. */
  lemma WorkerStep(p: N.Plan, s: Sys, id: Id, work: Work)
    requires hide *; id in s.workers && Worked(p, s, id, s.workers[id], work).register.None? && Worked(p, s, id, s.workers[id], work).dispatch.None?
    ensures var w := s.workers[id];
      var next := Worked(p, s, id, w, work).next;
      Next(p, s, Step(id, work)) == s.(db := Exec(s.db, WorkCall(id, w.d, w.pc, work)),
                                        workers := if next.Some? then s.workers[id := next.value] else Without(s.workers, id))
  {
    hide Exec, Worked, WorkCall;
  }

  predicate Registering(s: Sys, id: Id, d: Deployment, pc: Pc) {
    id in s.workers && s.workers[id] == Worker(d, pc) && d.state == Applying && AppliedIndex(d) == 0
  }

  /** The same, of the step that registers. */
  lemma RegisteredStep(p: N.Plan, s: Sys, id: Id, d: Deployment, job: N.Job)
    requires Registering(s, id, d, PlannedAt(job)) && IndexOf(LiveOf(s.nomad, d.key)) == d.cas
    ensures Next(p, s, Step(id, Register)) == s.(nomad := Put(s.nomad, d.key, job), workers := s.workers[id := Worker(d, Registered)])
  {
    NothingWritten(s.db);
    hide Exec, LiveOf;
  }

  /** A step of the register that only moves on. */
  lemma RegisterStepGoes(p: N.Plan, s: Sys, id: Id, d: Deployment, pc: Pc, work: Work)
    requires hide *; Registering(s, id, d, pc) && !work.Move? && RegisterStep(p, LiveOf(s.nomad, d.key), d, pc, work).register.None?
    ensures var next := RegisterStep(p, LiveOf(s.nomad, d.key), d, pc, work).next;
      Next(p, s, Step(id, work)) == s.(db := Exec(s.db, RegisterCall(id, d, pc, work)),
                                        workers := if next.Some? then s.workers[id := next.value] else Without(s.workers, id))
  {
    hide Exec, RegisterStep, RegisterCall, Next;
    assert Worked(p, s, id, s.workers[id], work) == RegisterStep(p, LiveOf(s.nomad, d.key), d, pc, work);
    WorkerStep(p, s, id, work);
  }

  lemma MoveStep(p: N.Plan, s: Sys, id: Id, d: Deployment, to: State)
    requires hide *; id in s.workers && s.workers[id] == Worker(d, Deciding(to))
    ensures Next(p, s, Step(id, Work.Move)) == s.(db := Exec(s.db, Store.Transition(id, d.state, to, Nops, ErrorText(to), false)), workers := Without(s.workers, id))
  {
    hide Exec, Next;
    WorkerStep(p, s, id, Work.Move);
  }

  /** A step of the worker of a deployment, or an edit of its job. */
  predicate Around(a: Action, id: Id, k: Key) {
    ((a.Step? || a.Drop?) && a.id == id) || (a.Edit? && a.key == k)
  }

  /** What a step of a deployment ends with: the store and Nomad as the code left them, its worker gone. */
  ghost predicate Ends(p: N.Plan, s: Sys, id: Id, k: Key, acts: seq<Action>, db: Db, nomad: Cluster) {
    && Run(p, s, acts) == s.(db := db, nomad := nomad, workers := Without(s.workers, id))
    && (forall a :: a in acts ==> Around(a, id, k))
  }

  lemma EndsIs(p: N.Plan, s: Sys, id: Id, k: Key, acts: seq<Action>, db: Db, nomad: Cluster)
    ensures Ends(p, s, id, k, acts, db, nomad) <==>
      && Run(p, s, acts) == s.(db := db, nomad := nomad, workers := Without(s.workers, id))
      && (forall a :: a in acts ==> Around(a, id, k))
  {
    hide Run, Without, Around;
  }

  lemma WithoutSet(m: map<Id, Worker>, id: Id, w: Worker)
    ensures Without(m[id := w], id) == Without(m, id)
  {
  }

  /** The worker is at a place of the register, after some steps from the start. */
  ghost predicate At(p: N.Plan, s: Sys, id: Id, d: Deployment, acts: seq<Action>, pc: Pc, nomad: Cluster) {
    && d.state == Applying && AppliedIndex(d) == 0
    && Run(p, s, acts) == s.(nomad := nomad, workers := s.workers[id := Worker(d, pc)])
    && (forall a :: a in acts ==> Around(a, id, d.key))
  }

  lemma AtIs(p: N.Plan, s: Sys, id: Id, d: Deployment, acts: seq<Action>, pc: Pc, nomad: Cluster)
    ensures At(p, s, id, d, acts, pc, nomad) <==>
      && d.state == Applying && AppliedIndex(d) == 0
      && Run(p, s, acts) == s.(nomad := nomad, workers := s.workers[id := Worker(d, pc)])
      && (forall a :: a in acts ==> Around(a, id, d.key))
  {
    hide Run, Around;
  }

  lemma AroundIs(id: Id, k: Key, work: Work, job: N.Job)
    ensures Around(Step(id, work), id, k) && Around(Drop(id), id, k) && Around(Edit(k, job), id, k)
  {
  }

  lemma AtRegistering(p: N.Plan, s: Sys, id: Id, d: Deployment, acts: seq<Action>, pc: Pc, nomad: Cluster)
    requires At(p, s, id, d, acts, pc, nomad)
    ensures Registering(Run(p, s, acts), id, d, pc) && Run(p, s, acts).nomad == nomad && Run(p, s, acts).db == s.db
  {
    hide Run, Around;
  }

  lemma GoesTo(d: Deployment, pc: Pc)
    ensures Goto(d, pc).register.None? && Goto(d, pc).dispatch.None? && Goto(d, pc).next == Some(Worker(d, pc))
  {
  }

  lemma AtNext(p: N.Plan, s: Sys, id: Id, d: Deployment, acts: seq<Action>, pc: Pc, nomad: Cluster, work: Work, next: Pc)
    requires At(p, s, id, d, acts, pc, nomad) && !work.Move? && RegisterCall(id, d, pc, work) == NoCall
    requires RegisterStep(p, LiveOf(nomad, d.key), d, pc, work) == Goto(d, next)
    ensures At(p, s, id, d, acts + [Step(id, work)], next, nomad)
  {
    hide *;
    GoesTo(d, next);
    NothingWritten(s.db);
    AtRegistering(p, s, id, d, acts, pc, nomad);
    AtIs(p, s, id, d, acts, pc, nomad);
    RegisterStepGoes(p, Run(p, s, acts), id, d, pc, work);
    AroundIs(id, d.key, work, d.spec);
    AtGoes(p, s, id, d, acts, pc, nomad, Step(id, work), next, nomad);
  }

  /** One more action, that leads the worker to another place. */
  lemma AtGoes(p: N.Plan, s: Sys, id: Id, d: Deployment, acts: seq<Action>, pc: Pc, nomad: Cluster, a: Action, next: Pc, after: Cluster)
    requires At(p, s, id, d, acts, pc, nomad) && Around(a, id, d.key)
    requires var g := Run(p, s, acts); Next(p, g, a) == g.(nomad := after, workers := g.workers[id := Worker(d, next)])
    ensures At(p, s, id, d, acts + [a], next, after)
  {
    hide *;
    AtIs(p, s, id, d, acts, pc, nomad);
    RunNext(p, s, acts, a);
    SetAgain(s.workers, id, Worker(d, pc), Worker(d, next));
    AtIs(p, s, id, d, acts + [a], next, after);
  }

  lemma SetAgain(m: map<Id, Worker>, id: Id, v: Worker, w: Worker)
    ensures m[id := v][id := w] == m[id := w]
  {
  }

  lemma AtRegistered(p: N.Plan, s: Sys, id: Id, d: Deployment, acts: seq<Action>, job: N.Job, nomad: Cluster)
    requires At(p, s, id, d, acts, PlannedAt(job), nomad) && IndexOf(LiveOf(nomad, d.key)) == d.cas
    ensures At(p, s, id, d, acts + [Step(id, Register)], Registered, Put(nomad, d.key, job))
  {
    hide *;
    var g := Run(p, s, acts);
    AtRegistering(p, s, id, d, acts, PlannedAt(job), nomad);
    RegisteredStep(p, g, id, d, job);
    AroundIs(id, d.key, Register, job);
    AtGoes(p, s, id, d, acts, PlannedAt(job), nomad, Step(id, Register), Registered, Put(nomad, d.key, job));
  }

  lemma EditStep(p: N.Plan, s: Sys, k: Key, job: N.Job)
    requires N.Canonical(job)
    ensures Next(p, s, Edit(k, job)) == s.(nomad := Put(s.nomad, k, job))
  {
    NothingWritten(s.db);
    hide Exec, N.Canonical, LiveOf;
  }

  /** Somebody edits the job; the worker is where it was. */
  lemma AtEdited(p: N.Plan, s: Sys, id: Id, d: Deployment, acts: seq<Action>, pc: Pc, nomad: Cluster, job: N.Job)
    requires At(p, s, id, d, acts, pc, nomad) && N.Canonical(job)
    ensures At(p, s, id, d, acts + [Edit(d.key, job)], pc, Put(nomad, d.key, job))
  {
    hide *;
    AtIs(p, s, id, d, acts, pc, nomad);
    EditStep(p, Run(p, s, acts), d.key, job);
    SetAgain(s.workers, id, Worker(d, pc), Worker(d, pc));
    AroundIs(id, d.key, Register, job);
    AtGoes(p, s, id, d, acts, pc, nomad, Edit(d.key, job), pc, Put(nomad, d.key, job));
  }

  /** From any state a run reached, the code goes on with the run: what is proved of every run holds of what it leaves. */
  lemma GoesOnWithTheRun(p: N.Plan, s: Sys, acts: seq<Action>, id: Id, k: Key, more: seq<Action>, db: Db, nomad: Cluster)
    requires Ends(p, Run(p, s, acts), id, k, more, db, nomad)
    ensures Run(p, s, acts + more).db == db && Run(p, s, acts + more).nomad == nomad
  {
    hide *;
    RunConcat(p, s, acts, more);
    EndsIs(p, Run(p, s, acts), id, k, more, db, nomad);
  }

  /** The last action of the step: its call, and the worker gone. */
  lemma AtEnds(p: N.Plan, s: Sys, id: Id, d: Deployment, acts: seq<Action>, pc: Pc, nomad: Cluster, a: Action, db: Db)
    requires At(p, s, id, d, acts, pc, nomad) && Around(a, id, d.key)
    requires var g := Run(p, s, acts); Next(p, g, a) == g.(db := db, workers := Without(g.workers, id))
    ensures Ends(p, s, id, d.key, acts + [a], db, nomad)
  {
    hide *;
    AtIs(p, s, id, d, acts, pc, nomad);
    RunNext(p, s, acts, a);
    WithoutSet(s.workers, id, Worker(d, pc));
    EndsIs(p, s, id, d.key, acts + [a], db, nomad);
  }

  /** The step ends with a move of the deployment. */
  lemma AtMoves(p: N.Plan, s: Sys, id: Id, d: Deployment, acts: seq<Action>, nomad: Cluster, to: State)
    requires At(p, s, id, d, acts, Deciding(to), nomad)
    ensures Ends(p, s, id, d.key, acts + [Step(id, Work.Move)], Exec(s.db, Store.Transition(id, d.state, to, Nops, ErrorText(to), false)), nomad)
  {
    hide *;
    AtRegistering(p, s, id, d, acts, Deciding(to), nomad);
    RegisteringIs(Run(p, s, acts), id, d, Deciding(to));
    MoveStep(p, Run(p, s, acts), id, d, to);
    AroundIs(id, d.key, Work.Move, d.spec);
    AtEnds(p, s, id, d, acts, Deciding(to), nomad, Step(id, Work.Move), Exec(s.db, Store.Transition(id, d.state, to, Nops, ErrorText(to), false)));
  }

  lemma RegisteringIs(s: Sys, id: Id, d: Deployment, pc: Pc)
    requires Registering(s, id, d, pc)
    ensures id in s.workers && s.workers[id] == Worker(d, pc)
  {
  }

  /** The step ends where it is, with the call of its last action. */
  lemma AtStops(p: N.Plan, s: Sys, id: Id, d: Deployment, acts: seq<Action>, pc: Pc, nomad: Cluster, work: Work)
    requires At(p, s, id, d, acts, pc, nomad) && !work.Move? && RegisterStep(p, LiveOf(nomad, d.key), d, pc, work) == STOP
    ensures Ends(p, s, id, d.key, acts + [Step(id, work)], Exec(s.db, RegisterCall(id, d, pc, work)), nomad)
  {
    assert STOP.register.None? && STOP.next.None?;
    hide *;
    AtRegistering(p, s, id, d, acts, pc, nomad);
    RegisterStepGoes(p, Run(p, s, acts), id, d, pc, work);
    AroundIs(id, d.key, work, d.spec);
    AtEnds(p, s, id, d, acts, pc, nomad, Step(id, work), Exec(s.db, RegisterCall(id, d, pc, work)));
  }

  lemma DropStep(p: N.Plan, s: Sys, id: Id)
    ensures Next(p, s, Drop(id)) == s.(db := s.db, workers := Without(s.workers, id))
  {
    NothingWritten(s.db);
    hide Exec, Without;
  }

  /** The step is given up where it is: the next one starts over. */
  lemma AtDrops(p: N.Plan, s: Sys, id: Id, d: Deployment, acts: seq<Action>, pc: Pc, nomad: Cluster)
    requires At(p, s, id, d, acts, pc, nomad)
    ensures Ends(p, s, id, d.key, acts + [Drop(id)], s.db, nomad)
  {
    hide *;
    AtRegistering(p, s, id, d, acts, pc, nomad);
    DropStep(p, Run(p, s, acts), id);
    AroundIs(id, d.key, Register, d.spec);
    AtEnds(p, s, id, d, acts, pc, nomad, Drop(id), s.db);
  }

  lemma AtStart(p: N.Plan, s: Sys, id: Id, d: Deployment)
    requires s.workers == s.workers[id := Worker(d, Ready)] && d.state == Applying && AppliedIndex(d) == 0
    ensures At(p, s, id, d, [], Ready, s.nomad)
  {
    RunUnfold(p, s, []);
    hide *;
    AtIs(p, s, id, d, [], Ready, s.nomad);
  }

  lemma ReadGoes(p: N.Plan, id: Id, d: Deployment, live: Option<LiveJob>)
    ensures RegisterCall(id, d, Ready, ReadLive) == NoCall && RegisterCall(id, d, LiveRead(live), PlanLive) == NoCall
    ensures RegisterStep(p, live, d, Ready, ReadLive) == Goto(d, LiveRead(live))
    ensures var job := N.Adjusted(d.spec, JobOf(live));
      RegisterStep(p, live, d, LiveRead(live), PlanLive) == Goto(d, AfterPlan(d, IndexOf(live), job, N.HashOf(p(job, JobOf(live)))))
  {
    hide AfterPlan;
  }

  lemma AfterPlanIs(d: Deployment, index: nat, job: N.Job, diff: Option<N.DiffHash>)
    ensures AfterPlan(d, index, job, diff) ==
      if index == d.cas then if diff.Some? then PlannedAt(job) else if Rerun(d) then Registered else Deciding(Completed)
      else if diff.None? then Registered
      else if SameDiff(d.diffHash, diff) then ScaledTo(index)
      else Deciding(Failed)
  {
  }

  lemma ErrorTexts()
    ensures ErrorText(Failed) == "failed" && ErrorText(Completed) == ""
  {
  }

  // -- what comes between, and what fails -----------------------------------------------------------------

  /** The step is not given up, nor timed out. */
  predicate Onward(a: Action) {
    !a.Drop? && !(a.Step? && a.work.TimeOut?)
  }

  /**
   Given up only when a call failed or the job was edited; timed out only past the apply
   timeout, and past it never given up before the live job is read back.
  */
  ghost predicate Fits(w: Weather, acts: seq<Action>) {
    && (Calm(w) ==> forall a :: a in acts ==> Onward(a) && !a.Edit?)
    && (!w.late ==> forall a :: a in acts && a.Step? ==> !a.work.TimeOut?)
    && (w.late && w.readBack ==> forall a :: a in acts ==> !a.Drop?)
  }

  lemma FitsStep(w: Weather, acts: seq<Action>, id: Id, work: Work)
    requires Fits(w, acts) && !work.TimeOut?
    ensures Fits(w, acts + [Step(id, work)])
  {
  }

  /** In other weather it may be edited, timed out or given up. */
  lemma FitsElse(w: Weather, acts: seq<Action>, id: Id, k: Key, job: N.Job)
    requires Fits(w, acts) && !Calm(w)
    ensures Fits(w, acts + [Edit(k, job)])
    ensures w.late ==> Fits(w, acts + [Step(id, TimeOut)])
    ensures !w.late || !w.readBack ==> Fits(w, acts + [Drop(id)])
  {
  }

  lemma CalmIs(w: Weather)
    ensures Calm(w) <==> w.read && w.plan && w.register == Told && w.readBack && w.edit.None?
  {
  }

  /** A place an error of Nomad stops the step at. */
  predicate Stoppable(pc: Pc) {
    pc.Ready? || pc.LiveRead? || pc.PlannedAt? || pc.Erred? || pc.Registered?
  }

  lemma TimeOutGoes(p: N.Plan, id: Id, d: Deployment, now: Option<LiveJob>, pc: Pc)
    requires Stoppable(pc)
    ensures RegisterStep(p, now, d, pc, TimeOut) == Goto(d, Deciding(Failed)) && RegisterCall(id, d, pc, TimeOut) == NoCall
  {
  }

  lemma Stops(live: Option<LiveJob>, job: N.Job)
    ensures Stoppable(Ready) && Stoppable(LiveRead(live)) && Stoppable(PlannedAt(job)) && Stoppable(Erred) && Stoppable(Registered)
  {
  }

  /** The step moves the deployment and ends. */
  method EndWith(store: Database.Rows, server: Server, id: Id, d: Deployment, to: State, text: string, ghost w: Weather, ghost p: N.Plan, ghost s: Sys, ghost before: seq<Action>)
    returns (ghost acts: seq<Action>)
    requires hide *; s.db == store.Value() && At(p, s, id, d, before, Deciding(to), server.Value()) && text == ErrorText(to) && Fits(w, before)
    modifies store
    ensures Ends(p, s, id, d.key, acts, store.Value(), server.Value()) && Fits(w, acts)
    ensures store.Value() == StoreAfter(old(store.Value()), id, d, MovedTo(to))
  {
    StoreAfterIs(s.db, id, d);
    hide *;
    AtMoves(p, s, id, d, before, server.Value(), to);
    FitsStep(w, before, id, Work.Move);
    acts := before + [Step(id, Work.Move)];
    var _ := store.Transition(id, d.state, to, Nops, text, false);
  }

  lemma StoreAfterIs(db: Db, id: Id, d: Deployment)
    ensures forall to :: StoreAfter(db, id, d, MovedTo(to)) == Exec(db, Store.Transition(id, d.state, to, Nops, ErrorText(to), false))
    ensures forall i :: StoreAfter(db, id, d, FollowedTo(i)) == Exec(db, MoveCas(id, d.state, d.cas, i))
    ensures forall i, v :: StoreAfter(db, id, d, Recorded(i, v)) == Exec(db, SetApplied(id, i, v))
    ensures StoreAfter(db, id, d, Kept) == db
  {
    hide Exec, ErrorText;
  }

  /** registerRetry: another step tries again, unless the apply timeout is past. */
  method RegisterRetry(store: Database.Rows, server: Server, id: Id, d: Deployment, w: Weather, ghost p: N.Plan, ghost s: Sys, ghost before: seq<Action>, ghost pc: Pc)
    returns (ghost acts: seq<Action>)
    requires hide *; s.db == store.Value() && At(p, s, id, d, before, pc, server.Value()) && Stoppable(pc) && Fits(w, before) && !Calm(w)
    modifies store
    ensures Ends(p, s, id, d.key, acts, store.Value(), server.Value()) && Fits(w, acts)
    ensures store.Value() == StoreAfter(old(store.Value()), id, d, TriedAgain(w))
  {
    assert TriedAgain(w) == if w.late then MovedTo(Failed) else Kept;
    ErrorTexts();
    StoreAfterIs(s.db, id, d);
    hide *;
    FitsElse(w, before, id, d.key, d.spec);
    if w.late {
      TimeOutGoes(p, id, d, LiveOf(server.Value(), d.key), pc);
      AtNext(p, s, id, d, before, pc, server.Value(), TimeOut, Deciding(Failed));
      acts := EndWith(store, server, id, d, Failed, "failed", w, p, s, before + [Step(id, TimeOut)]);
    } else {
      AtDrops(p, s, id, d, before, pc, server.Value());
      acts := before + [Drop(id)];
    }
  }

  lemma ConflictGoes(p: N.Plan, id: Id, d: Deployment, now: Option<LiveJob>, job: N.Job)
    requires IndexOf(now) != d.cas
    ensures RegisterStep(p, now, d, PlannedAt(job), Register) == Goto(d, if d.diffHash.Some? then Erred else Deciding(Failed))
    ensures RegisterCall(id, d, PlannedAt(job), Register) == NoCall
  {
  }

  /** The register, and what Nomad makes of it: through, a conflict, or no answer. */
  method RegisterPlanned(store: Database.Rows, server: Server, id: Id, d: Deployment, job: N.Job, w: Weather, ghost p: N.Plan, ghost s: Sys, ghost before: seq<Action>)
    returns (ghost acts: seq<Action>)
    requires hide *; s.db == store.Value() && At(p, s, id, d, before, PlannedAt(job), server.Value()) && Fits(w, before)
    requires w.edit.None? ==> IndexOf(LiveOf(server.Value(), d.key)) == d.cas
    modifies store, server
    ensures Ends(p, s, id, d.key, acts, store.Value(), server.Value()) && Fits(w, acts)
    ensures var (end, after) := RegisterEnd(old(server.Value()), d, job, w);
      store.Value() == StoreAfter(old(store.Value()), id, d, end) && server.Value() == after
  {
    hide *;
    Stops(None, job);
    ErrorTexts();
    RegisterEndIs(server.Value(), d, job, w);
    CalmIs(w);
    acts := before;
    if w.register == NotSent {
      acts := RegisterRetry(store, server, id, d, w, p, s, acts, PlannedAt(job));
      return;
    }
    ghost var nomad := server.Value();
    var ok := server.RegisterCAS(d.key, job, d.cas);
    if ok {
      AtRegistered(p, s, id, d, acts, job, nomad);
      FitsStep(w, acts, id, Register);
      acts := acts + [Step(id, Register)];
      if w.register == Unheard {
        acts := RegisterRetry(store, server, id, d, w, p, s, acts, Registered);
      } else {
        acts := RecordApplied(store, server, id, d, w, p, s, acts);
      }
      return;
    }
    if w.register == Unheard {
      acts := RegisterRetry(store, server, id, d, w, p, s, acts, PlannedAt(job));
      return;
    }
    ConflictGoes(p, id, d, LiveOf(nomad, d.key), job);
    AtNext(p, s, id, d, acts, PlannedAt(job), nomad, Register, if d.diffHash.Some? then Erred else Deciding(Failed));
    FitsStep(w, acts, id, Register);
    acts := acts + [Step(id, Register)];
    if d.diffHash.Some? {
      // The next step plans again, and tells a scale from an edit.
      acts := RegisterRetry(store, server, id, d, w, p, s, acts, Erred);
    } else {
      acts := EndWith(store, server, id, d, Failed, "failed", w, p, s, acts);
    }
  }

  lemma RegisterEndIs(n: Cluster, d: Deployment, job: N.Job, w: Weather)
    ensures RegisterEnd(n, d, job, w) ==
      if w.register == NotSent then (TriedAgain(w), n)
      else if IndexOf(LiveOf(n, d.key)) == d.cas then
        (if w.register == Unheard then TriedAgain(w) else ReadBackEnd(Put(n, d.key, job), d.key, w), Put(n, d.key, job))
      else (if w.register == Unheard || d.diffHash.Some? then TriedAgain(w) else MovedTo(Failed), n)
  {
    hide ReadBackEnd, TriedAgain, Put, LiveOf;
  }

  lemma ScaleStops(p: N.Plan, id: Id, d: Deployment, index: nat, nomad: Cluster)
    ensures RegisterStep(p, LiveOf(nomad, d.key), d, ScaledTo(index), MoveIndex) == STOP
    ensures RegisterCall(id, d, ScaledTo(index), MoveIndex) == MoveCas(id, d.state, d.cas, index)
  {
  }

  /** The cas index follows a scale, and the step ends. */
  method FollowAndEnd(store: Database.Rows, server: Server, id: Id, d: Deployment, index: nat, ghost w: Weather, ghost p: N.Plan, ghost s: Sys, ghost before: seq<Action>)
    returns (ghost acts: seq<Action>)
    requires hide *; s.db == store.Value() && At(p, s, id, d, before, ScaledTo(index), server.Value()) && Fits(w, before)
    modifies store
    ensures Ends(p, s, id, d.key, acts, store.Value(), server.Value()) && Fits(w, acts)
    ensures store.Value() == StoreAfter(old(store.Value()), id, d, FollowedTo(index))
  {
    StoreAfterIs(s.db, id, d);
    hide *;
    ScaleStops(p, id, d, index, server.Value());
    AtStops(p, s, id, d, before, ScaledTo(index), server.Value(), MoveIndex);
    FitsStep(w, before, id, MoveIndex);
    acts := before + [Step(id, MoveIndex)];
    var _ := store.MoveCASIndex(id, d.state, d.cas, index);
  }

  /** The register, after an edit of the job if there is one. */
  method RegisterEdited(store: Database.Rows, server: Server, id: Id, d: Deployment, job: N.Job, w: Weather, ghost p: N.Plan, ghost s: Sys, ghost before: seq<Action>)
    returns (ghost acts: seq<Action>)
    requires hide *; s.db == store.Value() && At(p, s, id, d, before, PlannedAt(job), server.Value()) && Fits(w, before)
    requires IndexOf(LiveOf(server.Value(), d.key)) == d.cas && (w.edit.Some? ==> N.Canonical(w.edit.value))
    modifies store, server
    ensures Ends(p, s, id, d.key, acts, store.Value(), server.Value()) && Fits(w, acts)
    ensures var (end, after) := RegisterEnd(if w.edit.Some? then Put(old(server.Value()), d.key, w.edit.value) else old(server.Value()), d, job, w);
      store.Value() == StoreAfter(old(store.Value()), id, d, end) && server.Value() == after
  {
    hide *;
    acts := before;
    if w.edit.Some? {
      AtEdited(p, s, id, d, acts, PlannedAt(job), server.Value(), w.edit.value);
      CalmIs(w);
      FitsElse(w, acts, id, d.key, w.edit.value);
      acts := acts + [Edit(d.key, w.edit.value)];
      server.Edit(d.key, w.edit.value);
    }
    acts := RegisterPlanned(store, server, id, d, job, w, p, s, acts);
  }

  /** The job planned, and what the plan tells the step. */
  method PlanAndRegister(store: Database.Rows, server: Server, id: Id, d: Deployment, live: Option<LiveJob>, w: Weather, p: N.Plan, ghost s: Sys, ghost before: seq<Action>)
    returns (ghost acts: seq<Action>)
    requires hide *; s.db == store.Value() && live == LiveOf(server.Value(), d.key) && (w.edit.Some? ==> N.Canonical(w.edit.value))
    requires At(p, s, id, d, before, LiveRead(live), server.Value()) && Fits(w, before)
    modifies store, server
    ensures Ends(p, s, id, d.key, acts, store.Value(), server.Value()) && Fits(w, acts)
    ensures var (end, after) := PlannedEnd(p, old(server.Value()), d, w);
      store.Value() == StoreAfter(old(store.Value()), id, d, end) && server.Value() == after
  {
    hide *;
    ErrorTexts();
    PlannedEndIs(p, server.Value(), d, w);
    ReadGoes(p, id, d, live);
    IndexIs(live);
    var index := if live.Some? then live.value.index else 0;
    var job := AdjustedJob(d.spec, live);
    var diff := server.Plan(p, d.key, job);
    var shown := N.HashOf(diff);
    AfterPlanIs(d, index, job, shown);
    ghost var nomad := server.Value();
    AtNext(p, s, id, d, before, LiveRead(live), nomad, PlanLive, AfterPlan(d, index, job, shown));
    FitsStep(w, before, id, PlanLive);
    acts := before + [Step(id, PlanLive)];
    if index == d.cas && shown.Some? {
      acts := RegisterEdited(store, server, id, d, job, w, p, s, acts);
    } else if index == d.cas && !Rerun(d) {
      acts := EndWith(store, server, id, d, Completed, "", w, p, s, acts);
    } else if index == d.cas || shown.None? {
      acts := RecordApplied(store, server, id, d, w, p, s, acts);
    } else if SameDiff(d.diffHash, shown) {
      acts := FollowAndEnd(store, server, id, d, index, w, p, s, acts);
    } else {
      acts := EndWith(store, server, id, d, Failed, "failed", w, p, s, acts);
    }
  }

  lemma PlannedEndIs(p: N.Plan, n: Cluster, d: Deployment, w: Weather)
    ensures var live := LiveOf(n, d.key);
      var job := N.Adjusted(d.spec, JobOf(live));
      var shown := N.HashOf(p(job, JobOf(live)));
      PlannedEnd(p, n, d, w) ==
        if IndexOf(live) == d.cas && shown.Some? then RegisterEnd(if w.edit.Some? then Put(n, d.key, w.edit.value) else n, d, job, w)
        else if IndexOf(live) == d.cas && !Rerun(d) then (MovedTo(Completed), n)
        else if IndexOf(live) == d.cas || shown.None? then (ReadBackEnd(n, d.key, w), n)
        else if SameDiff(d.diffHash, shown) then (FollowedTo(IndexOf(live)), n)
        else (MovedTo(Failed), n)
  {
    hide ReadBackEnd, Put, LiveOf, RegisterEnd, N.Adjusted, N.HashOf, Rerun, SameDiff;
  }

  /** stepRegister, whatever calls Nomad fails to answer, with an edit of the job before its register or none. */
  method StepRegister(store: Database.Rows, server: Server, id: Id, d: Deployment, w: Weather, p: N.Plan, ghost s: Sys)
    returns (ghost acts: seq<Action>)
    requires hide *; s.db == store.Value() && s.nomad == server.Value() && (w.edit.Some? ==> N.Canonical(w.edit.value))
    requires s.workers == s.workers[id := Worker(d, Ready)] && d.state == Applying && AppliedIndex(d) == 0
    modifies store, server
    ensures Ends(p, s, id, d.key, acts, store.Value(), server.Value()) && Fits(w, acts)
    ensures var (end, after) := RegisterStepEnd(p, old(server.Value()), d, w);
      store.Value() == StoreAfter(old(store.Value()), id, d, end) && server.Value() == after
  {
    assert RegisterStepEnd(p, server.Value(), d, w) == if w.read && w.plan then PlannedEnd(p, server.Value(), d, w) else (TriedAgain(w), server.Value());
    AtStart(p, s, id, d);
    assert Fits(w, []);
    hide *;
    CalmIs(w);
    acts := [];
    if !w.read {
      Stops(None, d.spec);
      acts := RegisterRetry(store, server, id, d, w, p, s, acts, Ready);
      return;
    }
    var live := server.Job(d.key);
    ReadGoes(p, id, d, live);
    AtNext(p, s, id, d, [], Ready, s.nomad, ReadLive, LiveRead(live));
    FitsStep(w, acts, id, ReadLive);
    acts := acts + [Step(id, ReadLive)];
    if !w.plan {
      Stops(live, d.spec);
      acts := RegisterRetry(store, server, id, d, w, p, s, acts, LiveRead(live));
      return;
    }
    acts := PlanAndRegister(store, server, id, d, live, w, p, s, acts);
  }

  /** The live job is read again, and its index recorded. */
  method RecordApplied(store: Database.Rows, server: Server, id: Id, d: Deployment, w: Weather, ghost p: N.Plan, ghost s: Sys, ghost before: seq<Action>)
    returns (ghost acts: seq<Action>)
    requires hide *; s.db == store.Value() && At(p, s, id, d, before, Registered, server.Value()) && Fits(w, before)
    modifies store
    ensures Ends(p, s, id, d.key, acts, store.Value(), server.Value()) && Fits(w, acts)
    ensures store.Value() == StoreAfter(old(store.Value()), id, d, ReadBackEnd(server.Value(), d.key, w))
  {
    ghost var nomad := server.Value();
    StoreAfterIs(s.db, id, d);
    hide *;
    ReadBackIs(nomad, d.key, w);
    CalmIs(w);
    if !w.readBack {
      FitsElse(w, before, id, d.key, d.spec);
      AtDrops(p, s, id, d, before, Registered, nomad);
      acts := before + [Drop(id)];
      return;
    }
    var applied := server.Job(d.key);
    ReadBackGoes(p, id, d, applied);
    NothingWritten(s.db);
    FitsStep(w, before, id, ReadBack);
    acts := before + [Step(id, ReadBack)];
    if applied.None? {
      AtStops(p, s, id, d, before, Registered, nomad, ReadBack);
      return;
    }
    AtNext(p, s, id, d, before, Registered, nomad, ReadBack, Reread(applied.value.index, applied.value.version));
    RecordStops(p, id, d, LiveOf(nomad, d.key), applied.value.index, applied.value.version);
    AtStops(p, s, id, d, acts, Reread(applied.value.index, applied.value.version), nomad, Record);
    FitsStep(w, acts, id, Record);
    acts := acts + [Step(id, Record)];
    var _ := store.SetApplied(id, applied.value.index, applied.value.version);
  }

  lemma ReadBackIs(n: Cluster, k: Key, w: Weather)
    ensures var live := LiveOf(n, k);
      ReadBackEnd(n, k, w) == if w.readBack && live.Some? then Recorded(live.value.index, live.value.version) else Kept
  {
    hide LiveOf;
  }

  lemma ReadBackGoes(p: N.Plan, id: Id, d: Deployment, now: Option<LiveJob>)
    ensures RegisterStep(p, now, d, Registered, ReadBack) == if now.None? then STOP else Goto(d, Reread(now.value.index, now.value.version))
    ensures RegisterCall(id, d, Registered, ReadBack) == NoCall
  {
  }

  lemma RecordStops(p: N.Plan, id: Id, d: Deployment, now: Option<LiveJob>, index: nat, version: nat)
    ensures RegisterStep(p, now, d, Reread(index, version), Record) == STOP
    ensures RegisterCall(id, d, Reread(index, version), Record) == SetApplied(id, index, version)
  {
  }

  // -- one outcome --------------------------------------------------------------------------------------

  /** The step that leads a worker on from its place. */
  function Forward(pc: Pc): Work {
    match pc
    case Ready => ReadLive
    case LiveRead(_) => PlanLive
    case PlannedAt(_) => Register
    case ScaledTo(_) => MoveIndex
    case Registered => ReadBack
    case Reread(_, _) => Record
    case _ => Work.Move
  }

  /** The worker alone, led on n times. */
  ghost function Led(p: N.Plan, s: Sys, id: Id, n: nat): Sys {
    hide *; if n == 0 then s
    else
      var g := Led(p, s, id, n - 1);
      if id in g.workers then Next(p, g, Step(id, Forward(g.workers[id].pc))) else g
  }

  ghost predicate Applies(s: Sys, id: Id) {
    id in s.workers ==> s.workers[id].d.state == Applying && AppliedIndex(s.workers[id].d) == 0
  }

  /** Any other step leaves it where it is. */
  lemma OtherStep(p: N.Plan, s: Sys, id: Id, work: Work)
    requires hide *; Applies(s, id) && !work.TimeOut? && (id in s.workers ==> work != Forward(s.workers[id].pc))
    ensures Next(p, s, Step(id, work)) == s
  {
    NothingWritten(s.db);
    if id in s.workers {
      var w := s.workers[id];
      GoesTo(w.d, w.pc);
      StepStays(p, s, id, w, work);
      hide *;
      WorkerStep(p, s, id, work);
      assert s.workers[id := w] == s.workers;
    } else {
      hide Exec;
    }
  }

  lemma StepStays(p: N.Plan, s: Sys, id: Id, w: Worker, work: Work)
    requires w.d.state == Applying && AppliedIndex(w.d) == 0 && !work.TimeOut? && work != Forward(w.pc)
    ensures Worked(p, s, id, w, work) == Goto(w.d, w.pc) && WorkCall(id, w.d, w.pc, work) == NoCall
  {
  }

  lemma StillApplies(p: N.Plan, s: Sys, id: Id, work: Work)
    requires Applies(s, id)
    ensures Applies(Next(p, s, Step(id, work)), id)
  {
    if id in s.workers { WorkedKeeps(p, s, id, s.workers[id], work); }
    hide Exec, Worked, WorkCall;
  }

  lemma WorkedKeeps(p: N.Plan, s: Sys, id: Id, w: Worker, work: Work)
    requires hide *; w.d.state == Applying && AppliedIndex(w.d) == 0
    ensures var e := Worked(p, s, id, w, work); e.next.Some? ==> e.next.value.d == w.d
  {
    hide RegisterStep;
  }

  lemma {:induction false} LedOn(p: N.Plan, s: Sys, id: Id, acts: seq<Action>) returns (n: nat)
    requires hide *; Applies(s, id) && forall a :: a in acts ==> a.Step? && a.id == id && !a.work.TimeOut?
    ensures Run(p, s, acts) == Led(p, s, id, n) && Applies(Run(p, s, acts), id)
  {
    RunUnfold(p, s, acts);
    if acts == [] {
      n := 0;
      assert Led(p, s, id, 0) == s;
    } else {
      var most, a := acts[..|acts| - 1], acts[|acts| - 1];
      n := LedOn(p, s, id, most);
      var g := Run(p, s, most);
      LedIs(p, s, id, n);
      hide *;
      StillApplies(p, g, id, a.work);
      if id in g.workers && a.work == Forward(g.workers[id].pc) {
        n := n + 1;
      } else {
        OtherStep(p, g, id, a.work);
      }
    }
  }

  lemma LedIs(p: N.Plan, s: Sys, id: Id, n: nat)
    ensures hide *; var g := Led(p, s, id, n);
      Led(p, s, id, n + 1) == if id in g.workers then Next(p, g, Step(id, Forward(g.workers[id].pc))) else g
  {
    hide Next, Forward;
  }

  lemma {:induction false} LedStays(p: N.Plan, s: Sys, id: Id, n: nat, m: nat)
    requires n <= m && id !in Led(p, s, id, n).workers
    ensures Led(p, s, id, m) == Led(p, s, id, n)
    decreases m
  {
    hide *;
    if n < m {
      LedStays(p, s, id, n, m - 1);
      LedIs(p, s, id, m - 1);
      hide *;
    }
  }

  /**
   What the code leaves when Nomad answers everything and nobody edits the job is settled by
   the steps of the machine: there is one outcome, whatever steps are said to lead to it.
  */
  lemma OneOutcome(p: N.Plan, s: Sys, id: Id, k: Key, w: Weather, acts: seq<Action>, db: Db, nomad: Cluster, others: seq<Action>, db': Db, nomad': Cluster)
    requires Calm(w) && Applies(s, id)
    requires Ends(p, s, id, k, acts, db, nomad) && Fits(w, acts) && Ends(p, s, id, k, others, db', nomad') && Fits(w, others)
    ensures db == db' && nomad == nomad'
  {
    CalmSteps(w, acts, id, k);
    CalmSteps(w, others, id, k);
    EndsIs(p, s, id, k, acts, db, nomad);
    EndsIs(p, s, id, k, others, db', nomad');
    assert id !in Without(s.workers, id);
    hide *;
    var n := LedOn(p, s, id, acts);
    var m := LedOn(p, s, id, others);
    if n <= m { LedStays(p, s, id, n, m); } else { LedStays(p, s, id, m, n); }
  }

  lemma CalmSteps(w: Weather, acts: seq<Action>, id: Id, k: Key)
    requires Calm(w) && Fits(w, acts) && forall a :: a in acts ==> Around(a, id, k)
    ensures forall a :: a in acts ==> a.Step? && a.id == id && !a.work.TimeOut?
  {
  }
}
