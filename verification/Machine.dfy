/**
 The two loops, the people and the cluster as one transition system. A store call is
 one step and a Nomad call is one step; a crash loses every local of the process. The
 functions below are the steps: one that is not enabled leaves the system as it is.
*/
module Machine {
  import opened Options
  import opened Store
  import opened Decisions
  import N = Nomad

  datatype LiveJob = LiveJob(job: N.Job, index: nat, version: nat)

  /** The live jobs and the last index the cluster gave: every change of a job is at a new one. */
  datatype Cluster = Cluster(live: map<Key, LiveJob>, raft: nat)

  // -- detection: what one cycle holds in its locals -----------------------------------

  /** What a cycle read before its jobs: git, the pauses and the Deploy now requests. */
  datatype Cycle = Cycle(git: map<Key, GitJob>, unparsed: bool, paused: set<Key>, allPaused: bool,
                         lifts: map<Key, Lift>, done: set<Key>)

  /** The job under reconciliation. */
  datatype Todo = Todo(key: Key, g: GitJob, hold: Option<Hold>, liftedBy: Option<Actor>)

  /** The index read, the job planned with the counts read, and the hash of its diff (none without drift). */
  datatype Seen = Seen(index: nat, job: N.Job, diff: Option<N.DiffHash>)

  datatype Detection =
    | Idle
    | Parsed(git: map<Key, GitJob>, unparsed: bool)
    | PausesRead(git: map<Key, GitJob>, unparsed: bool, paused: set<Key>)
    | AllPauseRead(git: map<Key, GitJob>, unparsed: bool, paused: set<Key>, allPaused: bool)
    | Choosing(c: Cycle)
    | Begun(c: Cycle, t: Todo)
    | JobRead(c: Cycle, t: Todo, live: Option<LiveJob>)
    | Planned(c: Cycle, t: Todo, o: Seen)
    | Waiting(c: Cycle, t: Todo, o: Seen, id: Id, d: Deployment)
    | Moved(c: Cycle, t: Todo, o: Seen, id: Id, d: Deployment)
    | Cleared(c: Cycle, t: Todo, o: Seen)
    | LatestRead(c: Cycle, t: Todo, o: Seen, latestId: Option<Id>, latest: Option<Deployment>)
    | Reconciled(c: Cycle, t: Todo)
    | Sweeping(c: Cycle, left: map<Id, Deployment>)

  // -- apply: one step of one deployment, from the copy of its row the loop listed --------

  datatype Pc =
    | Ready
    | Deciding(to: State)
    | LiveRead(live: Option<LiveJob>)
    | PlannedAt(job: N.Job)
    | ScaledTo(index: nat)
    | Erred
    | Registered
    | Reread(index: nat, version: nat)
    | HealthRead(seen: LiveJob)
    | Following(index: nat)
    | AtHook(i: nat)
    | RunRead(i: nat, run: HookRun)
    | Sending(i: nat)
    | HasChild(i: nat, child: string)
    | Awaiting(i: nat)
    | Finishing(i: nat, result: RunState)

  datatype Worker = Worker(d: Deployment, pc: Pc)

  /** What people and the clock set: git as parsed, the pauses, the sync windows closed now. */
  datatype World = World(git: map<Key, GitJob>, unparsed: bool, paused: set<Key>, allPaused: bool, closed: set<Key>)

  /** The store, the cluster, the world, the locals of the process, and the dispatches ever sent. */
  datatype Sys = Sys(
    db: Db, nomad: Cluster, world: World,
    det: Detection, copies: set<(Id, Deployment)>, workers: map<Id, Worker>, sent: seq<RunKey>)

  // -- the steps -----------------------------------------------------------------------

  datatype Answer = Sent(child: string) | TurnedDown | Lost

  datatype Work =
    | Start | Move
    | ReadLive | PlanLive | Register | MoveIndex | ReadBack | Record | TimeOut
    | Health(to: State) | ReadHealth | PlanHealth | MoveApplied | SeeWaiting | SeePromoted
    | EnterPhase | Ensure | HookTimeOut | Reuse | GiveUp(result: RunState) | MarkRunning
    | Send(answer: Answer) | Find(found: Option<string>) | SaveChild | Resume | Outcome(result: RunState) | Finish
    | PhaseDone

  datatype Action =
    | Edit(key: Key, job: N.Job) | Scale(key: Key, job: N.Job)
    | Push(git: map<Key, GitJob>, unparsed: bool)
    | SetPause(key: Key, on: bool) | SetAllPause(on: bool) | SetWindow(key: Key, closed: bool)
    | Crash
    | Approve(id: Id, hash: SpecHash, who: string) | Reject(id: Id, who: string) | Retry(id: Id, who: string)
    | DeployNow(key: Key, hash: SpecHash, who: string) | AskPromotion(id: Id, who: string)
    | Parse | ReadPauses | ReadAllPause | ReadLifts
    | Begin(key: Key) | ReadJob | PlanJob | ReadActive | TryMove | Settle | ReadLatest | CreateNow | FinishJob | SkipJob
    | ListForSweep | Sweep(id: Id) | SweepLift(key: Key) | StopCycle
    | List(id: Id) | Take(id: Id, d: Deployment) | Drop(id: Id)
    | Step(id: Id, work: Work)

  function LiveOf(n: Cluster, k: Key): Option<LiveJob> {
    if k in n.live then Some(n.live[k]) else None
  }

  function JobOf(l: Option<LiveJob>): Option<N.Job> {
    match l case None => None case Some(v) => Some(v.job)
  }

  /** The modify index of the live job, zero when there is none. */
  function IndexOf(l: Option<LiveJob>): nat {
    match l case None => 0 case Some(v) => v.index
  }

  function VersionOf(l: Option<LiveJob>): nat {
    match l case None => 0 case Some(v) => v.version
  }

  // -- the cluster, git, the clock --------------------------------------------------------

  ghost predicate CanonicalGit(git: map<Key, GitJob>) {
    forall k :: k in git ==> N.Canonical(git[k].job)
  }

  ghost function WorldAfter(w: World, a: Action): World {
    if a.Push? then if CanonicalGit(a.git) then w.(git := a.git, unparsed := a.unparsed) else w
    else if a.SetPause? then w.(paused := if a.on then w.paused + {a.key} else w.paused - {a.key})
    else if a.SetAllPause? then w.(allPaused := a.on)
    else if a.SetWindow? then w.(closed := if a.closed then w.closed + {a.key} else w.closed - {a.key})
    else w
  }

  // -- detection -----------------------------------------------------------------------------

  /** The hold on a job this cycle, and who lifted its window for the spec git has. */
  function HoldOf(c: Cycle, k: Key, g: GitJob, closed: bool): (Option<Hold>, Option<Actor>) {
    var hold := HoldFrom(k in c.paused || c.allPaused, WindowCloses(g.job.cfg, closed));
    if k in c.lifts && hold == Some(Window) && c.lifts[k].specHash == HashOf(g)
    then (None, Some(c.lifts[k].actor))
    else (hold, None)
  }

  function ActiveRows(rows: seq<Deployment>): map<Id, Deployment> {
    map i: nat | i < |rows| && IsActive(rows[i].state) :: rows[i]
  }

  /** The steps of a cycle that only read: git, the store, Nomad. */
  function Look(p: N.Plan, s: Sys, a: Action): Detection {
    var det := s.det;
    if a.Parse? && det.Idle? then Parsed(s.world.git, s.world.unparsed)
    else if a.ReadPauses? && det.Parsed? then PausesRead(det.git, det.unparsed, s.world.paused)
    else if a.ReadAllPause? && det.PausesRead? then AllPauseRead(det.git, det.unparsed, det.paused, s.world.allPaused)
    else if a.ReadLifts? && det.AllPauseRead? then Choosing(Cycle(det.git, det.unparsed, det.paused, det.allPaused, s.db.lifts, {}))
    else if a.Begin? && det.Choosing? && a.key in det.c.git && a.key !in det.c.done then
      var (hold, liftedBy) := HoldOf(det.c, a.key, det.c.git[a.key], a.key in s.world.closed);
      Begun(det.c, Todo(a.key, det.c.git[a.key], hold, liftedBy))
    else if a.ReadJob? && det.Begun? then JobRead(det.c, det.t, LiveOf(s.nomad, det.t.key))
    else if a.PlanJob? && det.JobRead? then
      var job := N.Adjusted(det.t.g.job, JobOf(det.live));
      Planned(det.c, det.t, Seen(IndexOf(det.live), job, N.HashOf(p(job, JobOf(LiveOf(s.nomad, det.t.key))))))
    else if a.ReadActive? && det.Planned? then
      var id := ActiveOf(s.db.rows, det.t.key);
      if id.None? then if det.t.g.job.cfg.policy == N.NoPolicy then Reconciled(det.c, det.t) else Cleared(det.c, det.t, det.o)
      else
        var d := s.db.rows[id.value];
        if d.state in {Detected, PendingApproval} then Waiting(det.c, det.t, det.o, id.value, d) else Reconciled(det.c, det.t)
    else if a.ReadLatest? && det.Cleared? then
      var latest := LatestOf(s.db.rows, det.t.key);
      LatestRead(det.c, det.t, det.o, latest, if latest.None? then None else Some(s.db.rows[latest.value]))
    else if a.SkipJob? && (det.Begun? || det.JobRead?) then Choosing(det.c.(done := det.c.done + {det.t.key}))
    else if a.ListForSweep? && det.Choosing? && !det.c.unparsed && det.c.git.Keys <= det.c.done then Sweeping(det.c, ActiveRows(s.db.rows))
    else if a.StopCycle? then Idle
    else det
  }

  /** What a cycle decides of the deployment that waits. */
  function ReviewOf(det: Detection): Verdict
    requires det.Moved?
  {
    Review(det.t.g.job.cfg, HashOf(det.t.g), Problem(det.t.g), det.t.hold, det.d, det.o.index, det.o.diff)
  }

  /** What a cycle holds after a step that makes a store call. */
  function Acted(s: Sys, a: Action): Detection {
    var det := s.det;
    if a.TryMove? && det.Waiting? then
      var call := DetectCall(det, a);
      Moved(det.c, det.t, det.o, det.id, if call.MoveCas? && ErrorOf(s.db, call).None? then det.d.(cas := det.o.index) else det.d)
    else if a.Settle? && det.Moved? then
      if ReviewOf(det).Move? && det.t.g.job.cfg.policy != N.NoPolicy then Cleared(det.c, det.t, det.o) else Reconciled(det.c, det.t)
    else if a.CreateNow? && det.LatestRead? then Reconciled(det.c, det.t)
    else if a.FinishJob? && det.Reconciled? then Choosing(det.c.(done := det.c.done + {det.t.key}))
    else if a.Sweep? && det.Sweeping? && a.id in det.left then Sweeping(det.c, Without(det.left, a.id))
    else det
  }

  predicate Acts(a: Action) {
    a.TryMove? || a.Settle? || a.CreateNow? || a.FinishJob? || a.Sweep? || a.SweepLift?
  }

  /** A move to failed carries why. */
  function ErrorText(to: State): string {
    if to == Failed then "failed" else ""
  }

  // -- apply ------------------------------------------------------------------------------------

  /** What a step of a worker does besides its store call: where it goes (or stops), what it registers or dispatches. */
  datatype Effect = Effect(next: Option<Worker>, register: Option<N.Job>, dispatch: Option<RunKey>)

  function Goto(d: Deployment, pc: Pc): Effect {
    Effect(Some(Worker(d, pc)), None, None)
  }

  const STOP := Effect(None, None, None)

  /** applyStep: by the state of the copy the step works on. */
  function Worked(p: N.Plan, s: Sys, id: Id, w: Worker, work: Work): Effect {
    var d := w.d;
    if work.Move? then if w.pc.Deciding? then STOP else Goto(d, w.pc)
    else if d.state == Applying then
      if AppliedIndex(d) == 0 then RegisterStep(p, LiveOf(s.nomad, d.key), d, w.pc, work) else HealthStep(p, LiveOf(s.nomad, d.key), s.db, id, d, w.pc, work)
    else if d.state in {PreHook, PostHook} then HookStep(s.db.runs, id, d, w.pc, work)
    else if work.Start? && w.pc.Ready? && d.state == Detected && d.policy == Auto
            && HoldOn(HoldFrom(d.key in s.world.paused || s.world.allPaused,
                               WindowCloses(d.spec.cfg, d.key in s.world.closed)), d).None?
    then Goto(d, Deciding(NextAfterDecision(d)))
    else Goto(d, w.pc)
  }

  /** stepRegister: read, plan, register or follow a scale, read back, record. `now` is the live job at this step. */
  function RegisterStep(p: N.Plan, now: Option<LiveJob>, d: Deployment, pc: Pc, work: Work): (e: Effect)
    ensures e.next.Some? ==> e.next.value.d == d
    ensures e.dispatch.None? && (e.register.Some? ==> work.Register?)
  {
    if work.ReadLive? && pc.Ready? then Goto(d, LiveRead(now))
    else if work.PlanLive? && pc.LiveRead? then Goto(d, PlannedPc(p, d, pc.live, now))
    else if work.Register? && pc.PlannedAt? then
      if IndexOf(now) == d.cas then Effect(Some(Worker(d, Registered)), Some(pc.job), None)
      else Goto(d, if d.diffHash.Some? then Erred else Deciding(Failed))
    else if work.MoveIndex? && pc.ScaledTo? then STOP
    else if work.ReadBack? && pc.Registered? then if now.None? then STOP else Goto(d, Reread(IndexOf(now), VersionOf(now)))
    else if work.Record? && pc.Reread? then STOP
    // A Nomad error up to the register, or instead of its answer, past the apply timeout.
    else if work.TimeOut? && (pc.Ready? || pc.LiveRead? || pc.PlannedAt? || pc.Erred? || pc.Registered?) then Goto(d, Deciding(Failed))
    else Goto(d, pc)
  }

  /** The spec with the counts of the live job read, planned against the live job now. */
  function PlannedPc(p: N.Plan, d: Deployment, live: Option<LiveJob>, now: Option<LiveJob>): Pc {
    var job := N.Adjusted(d.spec, JobOf(live));
    AfterPlan(d, IndexOf(live), job, N.HashOf(p(job, JobOf(now))))
  }

  /** What the plan of the job at the index read tells the register step. */
  function AfterPlan(d: Deployment, index: nat, job: N.Job, diff: Option<N.DiffHash>): Pc {
    if index == d.cas then
      if diff.Some? then PlannedAt(job)
      else if Rerun(d) then Registered
      else Deciding(Completed)
    else
      if diff.None? then Registered
      else if SameDiff(d.diffHash, diff) then ScaledTo(index)
      else Deciding(Failed)
  }

  /**
   stepHealth: whatever verdict Nomad's allocations give, and the check of a live index that
   moved: read the job, plan the spec with its counts, follow it when the plan shows nothing.
  */
  function HealthStep(p: N.Plan, now: Option<LiveJob>, db: Db, id: Id, d: Deployment, pc: Pc, work: Work): (e: Effect)
    ensures e.next.Some? ==> e.next.value.d == d || (work.MoveApplied? && pc.Following? && e.next.value.d == d.(applied := Some(pc.index)))
    ensures e.register.None? && e.dispatch.None?
  {
    if work.Health? && pc.Ready? then
      Goto(d, if work.to == Failed || work.to == (if d.spec.cfg.post != [] then PostHook else Completed) then Deciding(work.to) else pc)
    else if work.ReadHealth? && pc.Ready? then Goto(d, if now.None? then Deciding(Failed) else HealthRead(now.value))
    else if work.PlanHealth? && pc.HealthRead? then
      Goto(d, if pc.seen.index == AppliedIndex(d) then Ready
              else if N.HashOf(p(N.Substitute(d.spec, pc.seen.job), JobOf(now))).Some? then Deciding(Failed)
              else Following(pc.seen.index))
    else if work.MoveApplied? && pc.Following? then
      if ErrorOf(db, HealthCall(id, d, pc, work)).None? then Goto(d.(applied := Some(pc.index)), Ready) else STOP
    else if (work.SeeWaiting? || work.SeePromoted?) && pc.Ready? then STOP
    else Goto(d, pc)
  }

  function PhaseOf(d: Deployment): Phase {
    if d.state == PreHook then Pre else Post
  }

  /** The frozen hooks of one phase, in order. */
  function HooksOf(hooks: seq<FrozenHook>, phase: Phase): (r: seq<FrozenHook>)
    ensures forall i :: 0 <= i < |r| ==> r[i] in hooks && r[i].phase == phase
  {
    if hooks == [] then []
    else (if hooks[0].phase == phase then [hooks[0]] else []) + HooksOf(hooks[1..], phase)
  }

  function KeyOf(id: Id, d: Deployment, i: nat): RunKey
    requires i < |HooksOf(d.hooks, PhaseOf(d))|
  {
    RunKey(id, PhaseOf(d), HooksOf(d.hooks, PhaseOf(d))[i].position)
  }

  function AfterRun(i: nat, result: RunState): Pc {
    if result == RunSucceeded then AtHook(i + 1) else Deciding(Failed)
  }

  /** At a hook, or past the last one of the phase. */
  function AtHookStep(runs: map<RunKey, HookRun>, id: Id, d: Deployment, i: nat, work: Work): Pc {
    var n := |HooksOf(d.hooks, PhaseOf(d))|;
    if work.HookTimeOut? && i < n then Deciding(Failed)
    else if work.Ensure? && i < n then RunRead(i, if KeyOf(id, d, i) in runs then runs[KeyOf(id, d, i)] else HookRun(Dispatching, None))
    else if work.PhaseDone? && i == n then Deciding(if d.state == PreHook then Applying else Completed)
    else AtHook(i)
  }

  /** With its run read: used again, given up, marked as running, found, or waited for. */
  function ReadStep(i: nat, run: HookRun, work: Work): Pc {
    if work.Reuse? && Terminal(run.state) then AfterRun(i, run.state)
    else if work.GiveUp? && Unsent(run) && work.result in {RunFailed, RunTimedOut} then Finishing(i, work.result)
    else if work.MarkRunning? && Unsent(run) then Sending(i)
    else if work.Find? && run.state == Running && run.child.None? then
      if work.found.Some? then HasChild(i, work.found.value) else Finishing(i, RunFailed)
    else if work.Resume? && !Terminal(run.state) && run.child.Some? then Awaiting(i)
    else RunRead(i, run)
  }

  /** stepHook and the runner: one hook after the other, each dispatched at most once. */
  function HookStep(runs: map<RunKey, HookRun>, id: Id, d: Deployment, pc: Pc, work: Work): (e: Effect)
    ensures e.next.Some? ==> e.next.value.d == d
    ensures e.register.None? && (e.dispatch.Some? ==> work.Send?)
  {
    var n := |HooksOf(d.hooks, PhaseOf(d))|;
    if work.EnterPhase? && pc.Ready? then Goto(d, if n == 0 then Deciding(Failed) else AtHook(0))
    else if pc.AtHook? then Goto(d, AtHookStep(runs, id, d, pc.i, work))
    else if pc.RunRead? then Goto(d, if work.MarkRunning? && pc.i >= n then pc else ReadStep(pc.i, pc.run, work))
    else if work.Send? && pc.Sending? && pc.i < n then
      Effect(if work.answer.Lost? then None
             else Some(Worker(d, if work.answer.Sent? then HasChild(pc.i, work.answer.child) else Finishing(pc.i, RunFailed))),
             None, Some(KeyOf(id, d, pc.i)))
    else if work.SaveChild? && pc.HasChild? && pc.i < n then Goto(d, Awaiting(pc.i))
    else if work.Outcome? && pc.Awaiting? && Terminal(work.result) then Goto(d, Finishing(pc.i, work.result))
    else if work.Finish? && pc.Finishing? && pc.i < n then Goto(d, AfterRun(pc.i, pc.result))
    else Goto(d, pc)
  }

  /** Nothing of the run was sent to Nomad yet. */
  predicate Unsent(run: HookRun) {
    run.state == Dispatching && run.child.None?
  }

  // -- the store call of each step -----------------------------------------------------------

  predicate IsOutside(a: Action) {
    a.Edit? || a.Scale? || a.Push? || a.SetPause? || a.SetAllPause? || a.SetWindow? || a.Crash?
  }

  predicate IsHuman(a: Action) {
    a.Approve? || a.Reject? || a.Retry? || a.DeployNow? || a.AskPromotion?
  }

  predicate IsApply(a: Action) {
    a.List? || a.Take? || a.Drop? || a.Step?
  }

  /** The store call a step makes. */
  function CallOf(s: Sys, a: Action): Store.Call {
    if IsOutside(a) then NoCall
    else if IsHuman(a) then HumanCall(s, a)
    else if IsApply(a) then
      if a.Step? && a.id in s.workers then WorkCall(a.id, s.workers[a.id].d, s.workers[a.id].pc, a.work) else NoCall
    else DetectCall(s.det, a)
  }

  function HumanCall(s: Sys, a: Action): Store.Call {
    if a.Approve? then
      if a.id < |s.db.rows| && s.db.rows[a.id].state == PendingApproval && s.db.rows[a.id].specHash == a.hash
      then Transition(a.id, PendingApproval, NextAfterDecision(s.db.rows[a.id]), Person(a.who), "", true) else NoCall
    else if a.Reject? then Transition(a.id, PendingApproval, Rejected, Person(a.who), "", true)
    else if a.Retry? then MarkRetried(a.id, Person(a.who))
    else if a.DeployNow? then RequestLift(a.key, a.hash, Person(a.who))
    else if a.AskPromotion? then RequestPromotion(a.id, Person(a.who))
    else NoCall
  }

  function DetectCall(det: Detection, a: Action): Store.Call {
    if a.TryMove? && det.Waiting? then
      if Follows(det.t.g.job.cfg, HashOf(det.t.g), det.d, det.o.index, det.o.diff) then MoveCas(det.id, det.d.state, det.d.cas, det.o.index) else NoCall
    else if a.Settle? && det.Moved? then
      var v := ReviewOf(det);
      if v.Keep? then NoCall else Transition(det.id, det.d.state, v.to, Nops, ErrorText(v.to), false)
    else if a.CreateNow? && det.LatestRead? && (det.latestId.Some? <==> det.latest.Some?) then
      var d := NewDeployment(det.t.key, det.t.g, det.t.hold, det.t.liftedBy, det.latestId, det.latest, det.o.index, det.o.job, det.o.diff);
      if d.None? then NoCall else Create(d.value)
    else if a.FinishJob? && det.Reconciled? && det.t.key in det.c.lifts then Store.DropLift(det.t.key)
    else if a.Sweep? && det.Sweeping? && a.id in det.left && det.left[a.id].key !in det.c.git && det.left[a.id].state in {Detected, PendingApproval} then
      Transition(a.id, det.left[a.id].state, Superseded, Nops, "", false)
    else if a.SweepLift? && det.Sweeping? && a.key in det.c.lifts && a.key !in det.c.git then Store.DropLift(a.key)
    else NoCall
  }

  function WorkCall(id: Id, d: Deployment, pc: Pc, work: Work): Store.Call {
    if work.Move? then
      if pc.Deciding? then Transition(id, d.state, pc.to, Nops, ErrorText(pc.to), false) else NoCall
    else if d.state == Applying then
      if AppliedIndex(d) == 0 then RegisterCall(id, d, pc, work) else HealthCall(id, d, pc, work)
    else if d.state in {PreHook, PostHook} then HookCall(id, d, pc, work)
    else NoCall
  }

  function RegisterCall(id: Id, d: Deployment, pc: Pc, work: Work): (c: Store.Call)
    ensures c.NoCall? || (c.MoveCas? && work.MoveIndex?) || (c.SetApplied? && work.Record?)
  {
    if work.MoveIndex? && pc.ScaledTo? then MoveCas(id, d.state, d.cas, pc.index)
    else if work.Record? && pc.Reread? then SetApplied(id, pc.index, pc.version)
    else NoCall
  }

  function HealthCall(id: Id, d: Deployment, pc: Pc, work: Work): (c: Store.Call)
    ensures c.NoCall? || c.MoveApplied? || c.MarkWaiting? || c.MarkPromoted?
  {
    if work.MoveApplied? && pc.Following? then Store.MoveApplied(id, AppliedIndex(d), pc.index)
    else if work.SeeWaiting? && pc.Ready? then MarkWaiting(id)
    else if work.SeePromoted? && pc.Ready? then MarkPromoted(id)
    else NoCall
  }

  function HookCall(id: Id, d: Deployment, pc: Pc, work: Work): (c: Store.Call)
    ensures c.NoCall? || c.EnsureRun? || c.UpdateRun?
  {
    var n := |HooksOf(d.hooks, PhaseOf(d))|;
    if work.Ensure? && pc.AtHook? && pc.i < n then EnsureRun(KeyOf(id, d, pc.i))
    else if work.MarkRunning? && pc.RunRead? && pc.i < n && Unsent(pc.run) then UpdateRun(KeyOf(id, d, pc.i), Running, None)
    else if work.SaveChild? && pc.HasChild? && pc.i < n then UpdateRun(KeyOf(id, d, pc.i), Running, Some(pc.child))
    else if work.Finish? && pc.Finishing? && pc.i < n then UpdateRun(KeyOf(id, d, pc.i), pc.result, None)
    else NoCall
  }

  // -- runs -----------------------------------------------------------------------------------------

  /** What a worker's step does; nothing for any other action. */
  function EffectOf(p: N.Plan, s: Sys, a: Action): Effect {
    if a.Step? && a.id in s.workers then Worked(p, s, a.id, s.workers[a.id], a.work) else STOP
  }

  /** The live job a step puts in place, if any. */
  ghost function Change(p: N.Plan, s: Sys, a: Action): Option<(Key, N.Job)> {
    if a.Edit? && N.Canonical(a.job) then Some((a.key, a.job))
    else if a.Scale? && a.key in s.nomad.live && N.IsScale(s.nomad.live[a.key].job, a.job) then Some((a.key, a.job))
    else if a.Step? && a.id in s.workers then
      var job := EffectOf(p, s, a).register;
      if job.Some? then Some((s.workers[a.id].d.key, job.value)) else None
    else None
  }

  ghost function ClusterAfter(p: N.Plan, s: Sys, a: Action): Cluster {
    match Change(p, s, a)
    case None => s.nomad
    case Some((k, job)) =>
      var index := s.nomad.raft + 1;
      Cluster(s.nomad.live[k := LiveJob(job, index, VersionOf(LiveOf(s.nomad, k)) + 1)], index)
  }

  function DetectionAfter(p: N.Plan, s: Sys, a: Action): Detection {
    if a.Crash? then Idle
    else if IsOutside(a) || IsHuman(a) || IsApply(a) then s.det
    else if Acts(a) then Acted(s, a)
    else Look(p, s, a)
  }

  /** The copies the apply loop listed: a step may start from any of them, however old. */
  function CopiesAfter(s: Sys, a: Action): set<(Id, Deployment)> {
    if a.Crash? then {}
    else if a.List? && a.id < |s.db.rows| && IsActive(s.db.rows[a.id].state) then s.copies + {(a.id, s.db.rows[a.id])}
    else s.copies
  }

  /** The steps in flight, at most one per deployment. */
  function WorkersAfter(p: N.Plan, s: Sys, a: Action): map<Id, Worker> {
    if a.Crash? then map[]
    else if a.Take? && (a.id, a.d) in s.copies && a.id !in s.workers then s.workers[a.id := Worker(a.d, Ready)]
    else if a.Drop? then Without(s.workers, a.id)
    else if a.Step? && a.id in s.workers then
      var next := EffectOf(p, s, a).next;
      if next.Some? then s.workers[a.id := next.value] else Without(s.workers, a.id)
    else s.workers
  }

  function SentAfter(p: N.Plan, s: Sys, a: Action): seq<RunKey> {
    var sent := EffectOf(p, s, a).dispatch;
    if sent.Some? then s.sent + [sent.value] else s.sent
  }

  /** One step: at most one store call, at most one change of the cluster, and the locals after it. */
  ghost function Next(p: N.Plan, s: Sys, a: Action): Sys {
    Sys(Exec(s.db, CallOf(s, a)), ClusterAfter(p, s, a), WorldAfter(s.world, a), DetectionAfter(p, s, a), CopiesAfter(s, a), WorkersAfter(p, s, a), SentAfter(p, s, a))
  }

  /** A database with nothing in it, over any cluster and any git. */
  ghost predicate Initial(s: Sys) {
    && s.db == EMPTY && s.det == Idle && s.copies == {} && s.workers == map[] && s.sent == []
    && CanonicalGit(s.world.git)
    && (forall k :: k in s.nomad.live ==> 0 < s.nomad.live[k].index <= s.nomad.raft && N.Canonical(s.nomad.live[k].job))
  }

  ghost function Run(p: N.Plan, s: Sys, acts: seq<Action>): Sys {
    if acts == [] then s else Next(p, Run(p, s, acts[..|acts| - 1]), acts[|acts| - 1])
  }
}
