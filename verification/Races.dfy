/**
 The races are real: three runs, built from the same cycles and steps, in which a job gets a
 second deployment of one spec though nobody asked for one.
*/
module Races {
  import opened Options
  import opened Store
  import opened Decisions
  import opened Machine
  import Engine
  import RegisterSteps
  import Lawful
  import N = Nomad

  // -- building a run ------------------------------------------------------------------------

  predicate OfNops(a: Action) {
    !IsOutside(a) && !IsHuman(a)
  }

  /** The steps are Nops' own, but for the others named. */
  predicate Own(acts: seq<Action>, others: set<Action>) {
    forall a :: a in acts ==> OfNops(a) || a in others
  }

  /** A run leads to the state. */
  ghost predicate Leads(p: N.Plan, s: Sys, acts: seq<Action>, t: Sys, others: set<Action>) {
    Run(p, s, acts) == t && Own(acts, others)
  }

  lemma Starts(p: N.Plan, s: Sys, others: set<Action>)
    ensures Leads(p, s, [], s, others)
  {
    hide Next, OfNops;
  }

  lemma LeadsIs(p: N.Plan, s: Sys, acts: seq<Action>, t: Sys, others: set<Action>)
    requires Leads(p, s, acts, t, others)
    ensures Run(p, s, acts) == t && Own(acts, others)
  {
    hide Run, Own;
  }

  /** One step more. */
  lemma Goes(p: N.Plan, s: Sys, acts: seq<Action>, m: Sys, a: Action, t: Sys, others: set<Action>)
    requires hide *; Leads(p, s, acts, m, others) && Next(p, m, a) == t && (OfNops(a) || a in others)
    ensures Leads(p, s, acts + [a], t, others)
  {
    hide Run, Next, OfNops;
    Engine.RunNext(p, s, acts, a);
  }

  // -- a cycle reads and plans a job -----------------------------------------------------------

  const AUTO := N.Config(N.Auto, [], [], false)

  /** The job is free to be deployed at any time: nothing holds it, and its policy needs nobody. */
  predicate Free(s: Sys, k: Key, g: GitJob) {
    && k in s.world.git && s.world.git[k] == g && g.job.cfg == AUTO
    && k !in s.world.paused && !s.world.allPaused && s.db.lifts == map[]
  }

  function CycleOf(s: Sys): Cycle {
    Cycle(s.world.git, s.world.unparsed, s.world.paused, s.world.allPaused, s.db.lifts, {})
  }

  function Task(k: Key, g: GitJob): Todo {
    Todo(k, g, None, None)
  }

  /** What a cycle holds after n of its first steps. */
  function Held(s: Sys, k: Key, g: GitJob, n: nat): Detection {
    var c := CycleOf(s);
    if n == 0 then Idle
    else if n == 1 then Parsed(c.git, c.unparsed)
    else if n == 2 then PausesRead(c.git, c.unparsed, c.paused)
    else if n == 3 then AllPauseRead(c.git, c.unparsed, c.paused, c.allPaused)
    else if n == 4 then Choosing(c)
    else if n == 5 then Begun(c, Task(k, g))
    else JobRead(c, Task(k, g), LiveOf(s.nomad, k))
  }

  function Opening(k: Key, n: nat): Action {
    if n == 0 then Parse else if n == 1 then ReadPauses else if n == 2 then ReadAllPause
    else if n == 3 then ReadLifts else if n == 4 then Begin(k) else ReadJob
  }

  lemma HeldNext(p: N.Plan, s: Sys, k: Key, g: GitJob, n: nat)
    requires hide *; Free(s, k, g) && n < 6
    ensures Next(p, s.(det := Held(s, k, g, n)), Opening(k, n)) == s.(det := Held(s, k, g, n + 1)) && OfNops(Opening(k, n))
  {
    hide Exec, Decisions.HashOf;
    NothingWritten(s.db);
    if n == 4 { assert HoldOf(CycleOf(s), k, g, k in s.world.closed) == (None, None); }
  }

  lemma HeldEnds(s: Sys, k: Key, g: GitJob)
    ensures Held(s, k, g, 0) == Idle && Held(s, k, g, 6) == JobRead(CycleOf(s), Task(k, g), LiveOf(s.nomad, k))
  {
  }

  lemma {:induction false} Reads(p: N.Plan, s: Sys, acts: seq<Action>, m: Sys, k: Key, g: GitJob, n: nat, others: set<Action>) returns (more: seq<Action>)
    requires hide *; Leads(p, s, acts, m, others) && m.det == Idle && Free(m, k, g) && n <= 6
    ensures Leads(p, s, more, m.(det := Held(m, k, g, n)), others)
  {
    hide *;
    more := acts;
    if n == 0 {
      HeldEnds(m, k, g);
    } else {
      more := Reads(p, s, acts, m, k, g, n - 1, others);
      HeldNext(p, m, k, g, n - 1);
      Goes(p, s, more, m.(det := Held(m, k, g, n - 1)), Opening(k, n - 1), m.(det := Held(m, k, g, n)), others);
      more := more + [Opening(k, n - 1)];
    }
  }

  /** The job as it was when the cycle read it, planned against the job that is live. */
  function Shown(p: N.Plan, g: GitJob, read: Option<LiveJob>, now: Option<LiveJob>): Seen {
    var job := N.Adjusted(g.job, JobOf(read));
    Seen(IndexOf(read), job, N.HashOf(p(job, JobOf(now))))
  }

  lemma StepsOwn()
    ensures OfNops(PlanJob) && OfNops(ReadActive) && OfNops(TryMove) && OfNops(Settle) && OfNops(ReadLatest) && OfNops(CreateNow)
    ensures OfNops(FinishJob) && OfNops(StopCycle) && OfNops(List(0)) && forall d :: OfNops(Take(0, d))
    ensures forall work :: OfNops(Step(0, work))
  {
  }

  /** A cycle reads the job, and plans it. */
  lemma Plans(p: N.Plan, s: Sys, acts: seq<Action>, m: Sys, k: Key, g: GitJob, others: set<Action>) returns (more: seq<Action>)
    requires hide *; Leads(p, s, acts, m, others) && m.det == Idle && Free(m, k, g)
    ensures Leads(p, s, more, m.(det := Planned(CycleOf(m), Task(k, g), Shown(p, g, LiveOf(m.nomad, k), LiveOf(m.nomad, k)))), others)
  {
    hide *;
    more := Reads(p, s, acts, m, k, g, 6, others);
    HeldEnds(m, k, g);
    more := PlansRead(p, s, more, m, CycleOf(m), k, g, LiveOf(m.nomad, k), others);
  }

  lemma PlansRead(p: N.Plan, s: Sys, acts: seq<Action>, m: Sys, c: Cycle, k: Key, g: GitJob, read: Option<LiveJob>, others: set<Action>) returns (more: seq<Action>)
    requires hide *; Leads(p, s, acts, m.(det := JobRead(c, Task(k, g), read)), others)
    ensures Leads(p, s, more, m.(det := Planned(c, Task(k, g), Shown(p, g, read, LiveOf(m.nomad, k)))), others)
  {
    hide *;
    ShownIs(p, g, read, LiveOf(m.nomad, k));
    TaskIs(k, g);
    var m1 := m.(det := JobRead(c, Task(k, g), read));
    Engine.PlanStep(p, m1, Task(k, g), read);
    StepsOwn();
    Goes(p, s, acts, m1, PlanJob, m.(det := Planned(c, Task(k, g), Shown(p, g, read, LiveOf(m.nomad, k)))), others);
    more := acts + [PlanJob];
  }

  lemma ShownIs(p: N.Plan, g: GitJob, read: Option<LiveJob>, now: Option<LiveJob>)
    ensures Shown(p, g, read, now) == Seen(IndexOf(read), N.Adjusted(g.job, JobOf(read)), N.HashOf(p(N.Adjusted(g.job, JobOf(read)), JobOf(now))))
  {
    hide N.Adjusted, N.HashOf;
  }

  lemma TaskIs(k: Key, g: GitJob)
    ensures Task(k, g) == Todo(k, g, None, None)
  {
  }

  // -- a cycle creates a deployment -------------------------------------------------------------

  /** The deployment a cycle creates for the spec in git and what it planned. */
  function Made(k: Key, g: GitJob, o: Seen): Deployment {
    Deployment(k, Decisions.HashOf(g), o.job, true, o.diff, DeployPolicy.Auto, Detected, "", o.index,
               None, None, None, None, None, None, false, false, [])
  }

  /** Nothing is in the way of a new deployment of the spec. */
  predicate Open(rows: seq<Deployment>, k: Key, g: GitJob) {
    var id := LatestOf(rows, k);
    id.Some? ==> !Ended(rows[id.value].state) || rows[id.value].specHash != Decisions.HashOf(g)
  }

  lemma NewIs(rows: seq<Deployment>, k: Key, g: GitJob, o: Seen)
    requires g.job.cfg == AUTO && o.diff.Some? && Open(rows, k, g)
    ensures var id := LatestOf(rows, k);
      NewDeployment(k, g, None, None, id, if id.Some? then Some(rows[id.value]) else None, o.index, o.job, o.diff) == Some(Made(k, g, o))
  {
    hide LatestOf;
    assert Lines(g) == [];
    assert Frozen(g) == [];
    hide Decisions.HashOf;
  }

  lemma Creates(p: N.Plan, s: Sys, acts: seq<Action>, m: Sys, c: Cycle, k: Key, g: GitJob, o: Seen, others: set<Action>) returns (more: seq<Action>)
    requires hide *; Leads(p, s, acts, m.(det := Cleared(c, Task(k, g), o)), others) && g.job.cfg == AUTO && o.diff.Some? && Open(m.db.rows, k, g)
    ensures Leads(p, s, more, m.(db := Exec(m.db, Create(Made(k, g, o))), det := Reconciled(c, Task(k, g))), others)
  {
    hide *;
    var t := Task(k, g);
    TaskIs(k, g);
    var m1 := m.(det := Cleared(c, t, o));
    var id := LatestOf(m.db.rows, k);
    var m2 := m.(det := LatestRead(c, t, o, id, if id.Some? then Some(m.db.rows[id.value]) else None));
    StepsOwn();
    Engine.LatestStep(p, m1, t, o);
    Goes(p, s, acts, m1, ReadLatest, m2, others);
    NewIs(m.db.rows, k, g, o);
    Engine.CreateStep(p, m2, t, o);
    Goes(p, s, acts + [ReadLatest], m2, CreateNow, m.(db := Exec(m.db, Create(Made(k, g, o))), det := Reconciled(c, t)), others);
    more := acts + [ReadLatest] + [CreateNow];
  }

  lemma StopStep(p: N.Plan, s: Sys)
    ensures Next(p, s, StopCycle) == s.(det := Idle)
  {
    hide Exec;
    NothingWritten(s.db);
  }

  /** A cycle that planned drift, and finds no deployment active or in the way, creates one and ends. */
  lemma Deploys(p: N.Plan, s: Sys, acts: seq<Action>, m: Sys, c: Cycle, k: Key, g: GitJob, o: Seen, others: set<Action>) returns (more: seq<Action>)
    requires hide *; Leads(p, s, acts, m.(det := Planned(c, Task(k, g), o)), others) && g.job.cfg == AUTO && o.diff.Some? && Open(m.db.rows, k, g)
    requires ActiveOf(m.db.rows, k) == None && c.lifts == map[]
    ensures Leads(p, s, more, m.(db := Exec(m.db, Create(Made(k, g, o))), det := Idle), others)
  {
    assert AUTO.policy == N.Auto;
    hide *;
    var t, db := Task(k, g), Exec(m.db, Create(Made(k, g, o)));
    TaskIs(k, g);
    StepsOwn();
    var m1, m2 := m.(det := Planned(c, t, o)), m.(db := db, det := Reconciled(c, t));
    Engine.ActiveStep(p, m1, t, o);
    Goes(p, s, acts, m1, ReadActive, m.(det := Cleared(c, t, o)), others);
    more := Creates(p, s, acts + [ReadActive], m, c, k, g, o, others);
    var m3 := m2.(det := Choosing(c.(done := c.done + {k})));
    Engine.FinishStep(p, m2, t);
    NothingWritten(db);
    Goes(p, s, more, m2, FinishJob, m3, others);
    StopStep(p, m3);
    Goes(p, s, more + [FinishJob], m3, StopCycle, m.(db := db, det := Idle), others);
    more := more + [FinishJob] + [StopCycle];
  }

  lemma CreateLeaves(db: Db, k: Key, g: GitJob, o: Seen)
    requires ActiveOf(db.rows, k) == None
    ensures var after := Exec(db, Create(Made(k, g, o))); after.rows == db.rows + [Made(k, g, o)] && after.lifts == db.lifts
  {
    hide Decisions.HashOf, ActiveOf;
  }

  lemma MadeIs(k: Key, g: GitJob, o: Seen)
    ensures var d := Made(k, g, o);
      && d.key == k && d.specHash == Decisions.HashOf(g) && d.spec == o.job && d.diffHash == o.diff && d.cas == o.index
      && d.state == Detected && d.policy == DeployPolicy.Auto && d.applied == None && d.error == "" && d.retryOf == None
  {
    hide Decisions.HashOf;
  }

  // -- a cycle supersedes a deployment -------------------------------------------------------------

  function Moved(db: Db, id: Id, from: State, to: State, error: string): Db {
    Exec(db, Transition(id, from, to, Nops, error, false))
  }

  lemma MoveLeaves(db: Db, id: Id, from: State, to: State, error: string)
    requires id < |db.rows| && db.rows[id].state == from && to in Allowed(from) && db.rows[id].error == ""
    ensures var after := Moved(db, id, from, to, error);
      after.rows == db.rows[id := db.rows[id].(state := to, error := error)] && after.lifts == db.lifts
  {
    hide Allowed;
  }

  /** The deployment waits for the spec in git, but for another index and another diff. */
  predicate Outdated(d: Deployment, g: GitJob, o: Seen) {
    && g.job.cfg == AUTO && d.specHash == Decisions.HashOf(g) && d.state == Detected
    && d.diffHash.Some? && d.diffHash != o.diff && d.cas != o.index
  }

  lemma OutdatedIs(d: Deployment, g: GitJob, o: Seen)
    requires Outdated(d, g, o)
    ensures d.state == Detected && !Follows(g.job.cfg, Decisions.HashOf(g), d, o.index, o.diff)
    ensures Review(g.job.cfg, Decisions.HashOf(g), Problem(g), None, d, o.index, o.diff) == Verdict.Move(Superseded)
    ensures g.job.cfg.policy != N.NoPolicy
  {
    hide Decisions.HashOf, Problem;
  }

  lemma MoveSkipped(p: N.Plan, m: Sys, c: Cycle, t: Todo, o: Seen, id: Id, d: Deployment)
    requires hide *; !Follows(t.g.job.cfg, Decisions.HashOf(t.g), d, o.index, o.diff)
    ensures Next(p, m.(det := Waiting(c, t, o, id, d)), TryMove) == m.(det := Machine.Moved(c, t, o, id, d))
  {
    hide Next, Follows, Decisions.HashOf, Exec;
    NothingWritten(m.db);
    Engine.DetectStep(p, m.(det := Waiting(c, t, o, id, d)), TryMove);
  }

  lemma Supersedes(p: N.Plan, s: Sys, acts: seq<Action>, m: Sys, c: Cycle, k: Key, g: GitJob, o: Seen, id: Id, others: set<Action>) returns (more: seq<Action>)
    requires hide *; Leads(p, s, acts, m.(det := Planned(c, Task(k, g), o)), others)
    requires ActiveOf(m.db.rows, k) == Some(id) && Outdated(m.db.rows[id], g, o)
    ensures Leads(p, s, more, m.(db := Moved(m.db, id, Detected, Superseded, ""), det := Cleared(c, Task(k, g), o)), others)
  {
    hide *;
    var t, d := Task(k, g), m.db.rows[id];
    TaskIs(k, g);
    StepsOwn();
    OutdatedIs(d, g, o);
    MovedIs(m.db, id, Detected, Superseded, "");
    var m1, m2, m3 := m.(det := Planned(c, t, o)), m.(det := Waiting(c, t, o, id, d)), m.(det := Machine.Moved(c, t, o, id, d));
    Engine.ActiveStep(p, m1, t, o);
    Goes(p, s, acts, m1, ReadActive, m2, others);
    MoveSkipped(p, m, c, t, o, id, d);
    Goes(p, s, acts + [ReadActive], m2, TryMove, m3, others);
    Engine.SettleStep(p, m3, t, o, id, d);
    Goes(p, s, acts + [ReadActive] + [TryMove], m3, Settle, m.(db := Moved(m.db, id, Detected, Superseded, ""), det := Cleared(c, t, o)), others);
    more := acts + [ReadActive] + [TryMove] + [Settle];
  }

  lemma MovedIs(db: Db, id: Id, from: State, to: State, error: string)
    ensures Moved(db, id, from, to, error) == Exec(db, Transition(id, from, to, Nops, error, false))
  {
    hide Exec;
  }

  // -- the apply loop at work on the first deployment --------------------------------------------------

  /** Its worker alone, at a place. */
  function On(m: Sys, d: Deployment, pc: Pc): Sys {
    m.(workers := map[0 := Worker(d, pc)])
  }

  lemma ListStep(p: N.Plan, m: Sys, d: Deployment)
    requires hide *; |m.db.rows| > 0 && m.db.rows[0] == d && IsActive(d.state)
    ensures Next(p, m, List(0)) == m.(copies := m.copies + {(0, d)})
  {
    hide Exec, IsActive;
    NothingWritten(m.db);
  }

  lemma TakeStep(p: N.Plan, m: Sys, d: Deployment)
    requires hide *; (0, d) in m.copies && m.workers == map[]
    ensures Next(p, m, Take(0, d)) == On(m, d, Ready)
  {
    hide Exec;
    NothingWritten(m.db);
  }

  /** The apply loop lists the deployment and takes it up. */
  lemma TakesUp(p: N.Plan, s: Sys, acts: seq<Action>, m: Sys, d: Deployment, others: set<Action>) returns (more: seq<Action>)
    requires hide *; Leads(p, s, acts, m, others) && |m.db.rows| > 0 && m.db.rows[0] == d && IsActive(d.state) && m.workers == map[]
    ensures Leads(p, s, more, On(m.(copies := m.copies + {(0, d)}), d, Ready), others)
  {
    hide *;
    var m1 := m.(copies := m.copies + {(0, d)});
    StepsOwn();
    ListStep(p, m, d);
    Goes(p, s, acts, m, List(0), m1, others);
    TakeStep(p, m1, d);
    Goes(p, s, acts + [List(0)], m1, Take(0, d), On(m1, d, Ready), others);
    more := acts + [List(0)] + [Take(0, d)];
  }

  lemma OnIs(m: Sys, d: Deployment, pc: Pc)
    ensures On(m, d, pc) == m.(workers := map[0 := Worker(d, pc)]) && 0 in On(m, d, pc).workers && On(m, d, pc).workers[0] == Worker(d, pc)
    ensures forall next :: m.(workers := On(m, d, pc).workers[0 := Worker(d, next)]) == On(m, d, next)
    ensures Without(On(m, d, pc).workers, 0) == map[]
  {
    assert forall next :: map[0 := Worker(d, pc)][0 := Worker(d, next)] == map[0 := Worker(d, next)];
  }

  lemma GotoIs(d: Deployment, pc: Pc)
    ensures Goto(d, pc).register.None? && Goto(d, pc).dispatch.None? && Goto(d, pc).next == Some(Worker(d, pc))
    ensures STOP.register.None? && STOP.dispatch.None? && STOP.next == None
  {
  }

  /** A step of the worker that only moves on. */
  lemma Works(p: N.Plan, s: Sys, acts: seq<Action>, m: Sys, d: Deployment, pc: Pc, work: Work, next: Pc, others: set<Action>)
    requires hide *; Leads(p, s, acts, On(m, d, pc), others)
    requires WorkCall(0, d, pc, work) == NoCall && Worked(p, On(m, d, pc), 0, Worker(d, pc), work) == Goto(d, next)
    ensures Leads(p, s, acts + [Step(0, work)], On(m, d, next), others)
  {
    hide *;
    StepsOwn();
    OnIs(m, d, pc);
    GotoIs(d, next);
    Engine.WorkerStep(p, On(m, d, pc), 0, work);
    NothingWritten(m.db);
    Goes(p, s, acts, On(m, d, pc), Step(0, work), On(m, d, next), others);
  }

  /** Taken up, one step to a decision, and the move it decided. */
  lemma Decides(p: N.Plan, s: Sys, acts: seq<Action>, m: Sys, d: Deployment, work: Work, to: State, others: set<Action>) returns (more: seq<Action>)
    requires hide *; Leads(p, s, acts, m, others) && |m.db.rows| > 0 && m.db.rows[0] == d && IsActive(d.state) && m.workers == map[]
    requires WorkCall(0, d, Ready, work) == NoCall
    requires Worked(p, On(m.(copies := m.copies + {(0, d)}), d, Ready), 0, Worker(d, Ready), work) == Goto(d, Deciding(to))
    ensures Leads(p, s, more, m.(db := Moved(m.db, 0, d.state, to, ErrorText(to)), copies := m.copies + {(0, d)}), others)
  {
    hide *;
    var l := m.(copies := m.copies + {(0, d)});
    var m2 := On(l, d, Deciding(to));
    more := TakesUp(p, s, acts, m, d, others);
    Works(p, s, more, l, d, Ready, work, Deciding(to), others);
    more := more + [Step(0, work)];
    StepsOwn();
    OnIs(l, d, Deciding(to));
    Engine.MoveStep(p, m2, 0, d, to);
    MovedIs(m.db, 0, d.state, to, ErrorText(to));
    Goes(p, s, more, m2, Step(0, Work.Move), m.(db := Moved(m.db, 0, d.state, to, ErrorText(to)), copies := m.copies + {(0, d)}), others);
    more := more + [Step(0, Work.Move)];
  }

  /** A deployment of the job at its register, the job not being in Nomad. */
  predicate AtItsRegister(p: N.Plan, d: Deployment, n: Cluster) {
    d.state == Applying && d.applied == None && d.cas == 0 && d.key !in n.live && p(d.spec, None).changed
  }

  lemma RegisterGoes(p: N.Plan, m: Sys, d: Deployment)
    requires hide *; AtItsRegister(p, d, m.nomad)
    ensures WorkCall(0, d, Ready, ReadLive) == NoCall && Worked(p, On(m, d, Ready), 0, Worker(d, Ready), ReadLive) == Goto(d, LiveRead(None))
    ensures WorkCall(0, d, LiveRead(None), PlanLive) == NoCall
    ensures Worked(p, On(m, d, LiveRead(None)), 0, Worker(d, LiveRead(None)), PlanLive) == Goto(d, PlannedAt(d.spec))
    ensures Engine.Registering(On(m, d, PlannedAt(d.spec)), 0, d, PlannedAt(d.spec)) && IndexOf(LiveOf(m.nomad, d.key)) == d.cas
  {
  }

  /** The worker registers the spec. */
  lemma Registers(p: N.Plan, s: Sys, acts: seq<Action>, m: Sys, d: Deployment, others: set<Action>) returns (more: seq<Action>)
    requires hide *; Leads(p, s, acts, On(m, d, Ready), others) && AtItsRegister(p, d, m.nomad)
    ensures Leads(p, s, more, On(m.(nomad := RegisterSteps.Put(m.nomad, d.key, d.spec)), d, Registered), others)
  {
    hide *;
    RegisterGoes(p, m, d);
    Works(p, s, acts, m, d, Ready, ReadLive, LiveRead(None), others);
    Works(p, s, acts + [Step(0, ReadLive)], m, d, LiveRead(None), PlanLive, PlannedAt(d.spec), others);
    more := acts + [Step(0, ReadLive)] + [Step(0, PlanLive)];
    var m1, n := On(m, d, PlannedAt(d.spec)), RegisterSteps.Put(m.nomad, d.key, d.spec);
    StepsOwn();
    OnIs(m, d, PlannedAt(d.spec));
    OnIs(m.(nomad := n), d, Registered);
    Engine.RegisteredStep(p, m1, 0, d, d.spec);
    Goes(p, s, more, m1, Step(0, Register), On(m.(nomad := n), d, Registered), others);
    more := more + [Step(0, Register)];
  }

  lemma RecordGoes(p: N.Plan, m: Sys, d: Deployment, live: LiveJob)
    requires hide *; d.state == Applying && d.applied == None && LiveOf(m.nomad, d.key) == Some(live)
    ensures WorkCall(0, d, Registered, ReadBack) == NoCall
    ensures Worked(p, On(m, d, Registered), 0, Worker(d, Registered), ReadBack) == Goto(d, Reread(live.index, live.version))
    ensures WorkCall(0, d, Reread(live.index, live.version), Record) == SetApplied(0, live.index, live.version)
    ensures Worked(p, On(m, d, Reread(live.index, live.version)), 0, Worker(d, Reread(live.index, live.version)), Record) == STOP
  {
    hide LiveOf;
  }

  /** The worker reads the job back and records its index. */
  lemma Records(p: N.Plan, s: Sys, acts: seq<Action>, m: Sys, d: Deployment, live: LiveJob, others: set<Action>) returns (more: seq<Action>)
    requires hide *; Leads(p, s, acts, On(m, d, Registered), others)
    requires d.state == Applying && d.applied == None && LiveOf(m.nomad, d.key) == Some(live)
    ensures Leads(p, s, more, m.(db := Exec(m.db, SetApplied(0, live.index, live.version)), workers := map[]), others)
  {
    hide *;
    var pc := Reread(live.index, live.version);
    RecordGoes(p, m, d, live);
    Works(p, s, acts, m, d, Registered, ReadBack, pc, others);
    StepsOwn();
    OnIs(m, d, pc);
    GotoIs(d, pc);
    Engine.WorkerStep(p, On(m, d, pc), 0, Record);
    more := acts + [Step(0, ReadBack)] + [Step(0, Record)];
    Goes(p, s, acts + [Step(0, ReadBack)], On(m, d, pc), Step(0, Record), m.(db := Exec(m.db, SetApplied(0, live.index, live.version)), workers := map[]), others);
  }

  // -- a first deployment starts ---------------------------------------------------------------------------

  lemma InitialIs(s: Sys)
    requires hide *; Initial(s)
    ensures s.det == Idle && s.db.rows == [] && s.db.lifts == map[] && s.workers == map[] && CanonicalGit(s.world.git)
    ensures forall k :: ActiveOf([], k) == None && LatestOf([], k) == None
    ensures forall k :: k in s.nomad.live ==> s.nomad.live[k].index <= s.nomad.raft
  {
  }

  lemma OneRow(rows: seq<Deployment>, k: Key)
    requires |rows| == 1 && rows[0].key == k
    ensures LatestOf(rows, k) == Some(0) && ActiveOf(rows, k) == if IsActive(rows[0].state) then Some(0) else None
  {
    assert rows[..0] == [];
  }

  lemma OpenIs(rows: seq<Deployment>, k: Key, g: GitJob)
    ensures LatestOf(rows, k) == None ==> Open(rows, k, g)
    ensures LatestOf(rows, k).Some? ==>
      var d := rows[LatestOf(rows, k).value];
      (Open(rows, k, g) <==> !Ended(d.state) || d.specHash != Decisions.HashOf(g))
    ensures !Ended(Completed) && !Ended(Superseded)
  {
    hide LatestOf, Decisions.HashOf;
  }

  lemma CycleIs(s: Sys, k: Key, g: GitJob)
    requires Free(s, k, g)
    ensures CycleOf(s).lifts == s.db.lifts == map[] && g.job.cfg == AUTO && k in s.world.git && s.world.git[k] == g
  {
  }

  lemma FreeStill(s: Sys, t: Sys, k: Key, g: GitJob)
    requires Free(s, k, g) && t.world == s.world && t.db.lifts == s.db.lifts
    ensures Free(t, k, g)
  {
  }

  /** With the job not in Nomad, git's own spec is planned. */
  lemma ShownNew(p: N.Plan, g: GitJob, n: Cluster, k: Key)
    requires k !in n.live
    ensures LiveOf(n, k) == None && Shown(p, g, None, None) == Seen(0, g.job, N.HashOf(p(g.job, None)))
    ensures p(g.job, None).changed ==> N.HashOf(p(g.job, None)).Some?
  {
  }

  /** A first cycle deploys the job. */
  lemma DeploysFirst(p: N.Plan, s: Sys, k: Key, g: GitJob, others: set<Action>) returns (acts: seq<Action>, db: Db)
    requires hide *; Initial(s) && Free(s, k, g) && k !in s.nomad.live && p(g.job, None).changed
    ensures Leads(p, s, acts, s.(db := db), others)
    ensures db.rows == [Made(k, g, Seen(0, g.job, N.HashOf(p(g.job, None))))] && db.lifts == map[]
  {
    hide *;
    InitialIs(s);
    CycleIs(s, k, g);
    ShownNew(p, g, s.nomad, k);
    Starts(p, s, others);
    acts := Plans(p, s, [], s, k, g, others);
    var o := Shown(p, g, None, None);
    OpenIs([], k, g);
    acts := Deploys(p, s, acts, s, CycleOf(s), k, g, o, others);
    db := Exec(s.db, Create(Made(k, g, o)));
    CreateLeaves(s.db, k, g, o);
  }

  lemma StartGoes(p: N.Plan, m: Sys, k: Key, g: GitJob, o: Seen)
    requires hide *; Free(m, k, g) && o.job == g.job
    ensures var d := Made(k, g, o);
      && WorkCall(0, d, Ready, Start) == NoCall && Worked(p, On(m, d, Ready), 0, Worker(d, Ready), Start) == Goto(d, Deciding(Applying))
      && IsActive(d.state) && d.state == Detected && ErrorText(Applying) == "" && d.error == ""
  {
    hide Decisions.HashOf;
  }

  lemma Moves()
    ensures Applying in Allowed(Detected) && Superseded in Allowed(Detected) && Completed in Allowed(Applying) && Failed in Allowed(Applying)
    ensures IsActive(Detected) && IsActive(Applying) && !IsActive(Superseded) && !IsActive(Completed) && !IsActive(Failed)
    ensures ErrorText(Completed) == "" && ErrorText(Failed) == "failed"
  {
  }

  /** The deployment moves on to its apply. */
  lemma StartsApply(p: N.Plan, s: Sys, acts: seq<Action>, m: Sys, k: Key, g: GitJob, o: Seen, others: set<Action>)
    returns (more: seq<Action>, after: Sys)
    requires hide *; Leads(p, s, acts, m, others) && Free(m, k, g) && o.job == g.job && m.db.rows == [Made(k, g, o)] && m.workers == map[]
    ensures Leads(p, s, more, after, others) && Free(after, k, g)
    ensures after == m.(db := after.db, copies := after.copies) && after.db.rows == [Made(k, g, o).(state := Applying)]
  {
    hide *;
    var d := Made(k, g, o);
    var l := m.(copies := m.copies + {(0, d)});
    FreeStill(m, l, k, g);
    StartGoes(p, l, k, g, o);
    more := Decides(p, s, acts, m, d, Start, Applying, others);
    after := l.(db := Moved(m.db, 0, Detected, Applying, ""));
    Moves();
    MoveLeaves(m.db, 0, Detected, Applying, "");
    FreeStill(m, after, k, g);
  }

  // -- a cycle overtaken by an apply ------------------------------------------------------------------------

  lemma SetLeaves(db: Db, index: nat, version: nat)
    requires |db.rows| == 1 && db.rows[0].state == Applying && index > 0
    ensures var after := Exec(db, SetApplied(0, index, version));
      after.rows == [db.rows[0].(applied := Some(index), version := Some(version))] && after.lifts == db.lifts
  {
  }

  lemma HealthGoes(p: N.Plan, m: Sys, d: Deployment)
    requires hide *; d.state == Applying && AppliedIndex(d) != 0 && d.spec.cfg == AUTO
    ensures WorkCall(0, d, Ready, Health(Completed)) == NoCall
    ensures Worked(p, On(m, d, Ready), 0, Worker(d, Ready), Health(Completed)) == Goto(d, Deciding(Completed))
  {
    hide RegisterStep, HookStep;
  }

  lemma PutIs(n: Cluster, k: Key, job: N.Job)
    ensures var after := RegisterSteps.Put(n, k, job);
      && k in after.live && after.live[k].job == job && after.live[k].index == n.raft + 1 && after.raft == n.raft + 1
      && LiveOf(after, k) == Some(after.live[k]) && JobOf(LiveOf(after, k)) == Some(job) && IndexOf(LiveOf(after, k)) == n.raft + 1
  {
  }

  /** The deployment is registered, its index recorded, and completed as Nomad reports it healthy. */
  lemma Applies(p: N.Plan, s: Sys, acts: seq<Action>, m: Sys, d: Deployment, others: set<Action>) returns (more: seq<Action>, after: Sys)
    requires hide *; Leads(p, s, acts, m, others) && m.db.rows == [d] && m.workers == map[] && AtItsRegister(p, d, m.nomad)
    requires d.spec.cfg == AUTO && d.error == "" && d.state == Applying && d.applied == None
    ensures Leads(p, s, more, after, others)
    ensures after == m.(db := after.db, nomad := after.nomad, copies := after.copies) && after.db.lifts == m.db.lifts
    ensures |after.db.rows| == 1 && after.db.rows[0].key == d.key && after.db.rows[0].state == Completed && after.db.rows[0].specHash == d.specHash
  {
    hide *;
    Moves();
    more := TakesUp(p, s, acts, m, d, others);
    var l, n := m.(copies := m.copies + {(0, d)}), RegisterSteps.Put(m.nomad, d.key, d.spec);
    more := Registers(p, s, more, l, d, others);
    PutIs(m.nomad, d.key, d.spec);
    var live := n.live[d.key];
    more := Records(p, s, more, l.(nomad := n), d, live, others);
    var m2 := l.(nomad := n, db := Exec(m.db, SetApplied(0, live.index, live.version)));
    SetLeaves(m.db, live.index, live.version);
    var d2 := d.(applied := Some(live.index), version := Some(live.version));
    AppliedIs(d2, live.index);
    HealthGoes(p, m2.(copies := m2.copies + {(0, d2)}), d2);
    more := Decides(p, s, more, m2, d2, Health(Completed), Completed, others);
    MoveLeaves(m2.db, 0, Applying, Completed, "");
    after := m2.(db := Moved(m2.db, 0, Applying, Completed, ""), copies := m2.copies + {(0, d2)});
  }

  lemma AppliedIs(d: Deployment, index: nat)
    requires d.applied == Some(index)
    ensures AppliedIndex(d) == index
  {
  }

  /**
   That one deployment of an unchanged spec is enough does not hold: a cycle that planned
   the job before a register, and looks for its active deployment after it completed,
   creates a second one. Nobody did anything, and no step of the world is in the run.
  */
  lemma OvertakenCycleDeploysAgain(p: N.Plan, s: Sys, k: Key, g: GitJob) returns (acts: seq<Action>)
    requires hide *; Initial(s) && Free(s, k, g) && k !in s.nomad.live && p(g.job, None).changed
    ensures Own(acts, {})
    ensures var rows := Run(p, s, acts).db.rows;
      |rows| == 2 && rows[0].key == k && rows[1].key == k && rows[0].specHash == rows[1].specHash == Decisions.HashOf(g)
  {
    hide *;
    var o := Seen(0, g.job, N.HashOf(p(g.job, None)));
    var db, m;
    InitialIs(s);
    MadeIs(k, g, o);
    CycleIs(s, k, g);
    ShownNew(p, g, s.nomad, k);
    acts, db := DeploysFirst(p, s, k, g, {});
    var m1 := s.(db := db);
    FreeStill(s, m1, k, g);
    CycleIs(m1, k, g);
    acts := Plans(p, s, acts, m1, k, g, {});
    var c := CycleOf(m1);
    m1 := m1.(det := Planned(c, Task(k, g), o));
    FreeStill(s, m1, k, g);
    acts, m := StartsApply(p, s, acts, m1, k, g, o, {});
    var d := Made(k, g, o).(state := Applying);
    AtRegisterIs(p, d, m.nomad);
    acts, m := Applies(p, s, acts, m, d, {});
    OneRow(m.db.rows, k);
    Moves();
    OpenIs(m.db.rows, k, g);
    acts := Deploys(p, s, acts, m, c, k, g, o, {});
    CreateLeaves(m.db, k, g, o);
    LeadsIs(p, s, acts, m.(db := Exec(m.db, Create(Made(k, g, o))), det := Idle), {});
  }

  lemma AtRegisterIs(p: N.Plan, d: Deployment, n: Cluster)
    ensures AtItsRegister(p, d, n) <==> d.state == Applying && d.applied == None && d.cas == 0 && d.key !in n.live && p(d.spec, None).changed
  {
  }

  // -- a scale between the read and the plan ------------------------------------------------------

  /** The target leaves the count of its first group to the autoscaler. */
  ghost predicate ScalesFirst(target: N.Job) {
    N.Canonical(target) && target.groups != [] && target.groups[0].scaling
  }

  /** The target with another count of its first group. */
  function Scaled(target: N.Job, count: int): N.Job {
    if target.groups == [] || !target.groups[0].Group? then target
    else target.(groups := target.groups[0 := target.groups[0].(count := Some(count))])
  }

  /** Every count of the target is a scale of it, and planned with its own count it is in sync. */
  lemma ScaledIs(target: N.Job, b: int, c: int)
    requires ScalesFirst(target)
    ensures N.Canonical(Scaled(target, b)) && N.IsScaleFor(target, Scaled(target, b), Scaled(target, c))
    ensures N.Substitute(target, Scaled(target, b)) == Scaled(target, b)
  {
    var live := Scaled(target, b);
    assert N.Canonical(live);
    forall i | 0 <= i < |target.groups|
      ensures N.WithCount(target.groups[i], N.LiveCounts(live.groups)) == live.groups[i]
    {
      N.CountOf(live, i);
    }
    assert N.Substitute(target, live).groups == live.groups;
    assert target.groups[0] in target.groups;
    forall i | 0 <= i < |live.groups| && live.groups[i] != Scaled(target, c).groups[i]
      ensures N.ScaledIn(target, live.groups[i].name)
    {
      assert i == 0;
    }
    assert live.groups[0].(count := Some(c)) == Scaled(target, c).groups[0];
  }

  /** A plan with the count of before a scale against the job after it shows the count edited. */
  lemma TornDrifts(p: N.Plan, target: N.Job, b: int, c: int)
    requires N.Lawful(p) && ScalesFirst(target) && b != c
    ensures p(Scaled(target, b), Some(Scaled(target, c))).changed
  {
    ScaledIs(target, b, c);
    ScaledIs(target, c, b);
    var job, live := Scaled(target, b), Scaled(target, c);
    N.CountOf(live, 0);
    var g := job.groups[0];
    assert N.CountEdit(g.name.value, c, Some(b)) in N.CountEdits(job, Some(live)) by {
      assert g in job.groups && g.count == Some(b);
    }
    hide N.CountEdits, N.Canonical;
  }

  /** What a cycle sees of the scaled job: in sync, unless the count moved between its read and its plan. */
  lemma ShownScaled(p: N.Plan, g: GitJob, read: LiveJob, now: LiveJob, b: int, c: int)
    requires N.Lawful(p) && ScalesFirst(g.job) && read.job == Scaled(g.job, b) && now.job == Scaled(g.job, c)
    ensures Shown(p, g, Some(read), Some(now)).index == read.index
    ensures Shown(p, g, Some(read), Some(now)).diff.Some? <==> b != c
  {
    ScaledIs(g.job, b, c);
    if b != c { TornDrifts(p, g.job, b, c); }
    hide N.Substitute, ScalesFirst, N.IsScaleFor, N.Canonical;
  }

  lemma ScaleStep(p: N.Plan, m: Sys, k: Key, live: LiveJob, job: N.Job)
    requires LiveOf(m.nomad, k) == Some(live) && N.IsScale(live.job, job)
    ensures Next(p, m, Scale(k, job)) == m.(nomad := RegisterSteps.Put(m.nomad, k, job))
  {
    hide N.IsScale, Exec;
    NothingWritten(m.db);
  }

  /** A cycle with a scale between its two calls to Nomad creates a deployment. */
  lemma TornDeploys(p: N.Plan, s: Sys, acts: seq<Action>, m: Sys, k: Key, g: GitJob, live: LiveJob, b: int, c: int, others: set<Action>)
    returns (more: seq<Action>, after: Sys, d: Deployment)
    requires hide *; Leads(p, s, acts, m, others) && N.Lawful(p) && m.det == Idle && Free(m, k, g) && ScalesFirst(g.job) && b != c
    requires LiveOf(m.nomad, k) == Some(live) && live.job == Scaled(g.job, b) && Scale(k, Scaled(g.job, c)) in others
    requires ActiveOf(m.db.rows, k) == None && Open(m.db.rows, k, g)
    ensures Leads(p, s, more, after, others) && Free(after, k, g)
    ensures after == m.(db := after.db, nomad := RegisterSteps.Put(m.nomad, k, Scaled(g.job, c))) && after.db.rows == m.db.rows + [d]
    ensures d.key == k && d.specHash == Decisions.HashOf(g) && d.cas == live.index && d.diffHash.Some? && d.state == Detected && d.error == ""
  {
    hide *;
    var job := Scaled(g.job, c);
    var cycle, n := CycleOf(m), RegisterSteps.Put(m.nomad, k, job);
    CycleIs(m, k, g);
    more := Reads(p, s, acts, m, k, g, 6, others);
    HeldEnds(m, k, g);
    var m1 := m.(det := JobRead(cycle, Task(k, g), Some(live)));
    ScaledIs(g.job, b, c);
    IsScaleIs(g.job, live.job, job);
    ScaleStep(p, m1, k, live, job);
    Goes(p, s, more, m1, Scale(k, job), m1.(nomad := n), others);
    more := PlansRead(p, s, more + [Scale(k, job)], m.(nomad := n), cycle, k, g, Some(live), others);
    PutIs(m.nomad, k, job);
    var o := Shown(p, g, Some(live), Some(n.live[k]));
    ShownScaled(p, g, live, n.live[k], b, c);
    more := Deploys(p, s, more, m.(nomad := n), cycle, k, g, o, others);
    d := Made(k, g, o);
    after := m.(db := Exec(m.db, Create(d)), nomad := n, det := Idle);
    CreateLeaves(m.db, k, g, o);
    MadeIs(k, g, o);
    FreeStill(m, after, k, g);
  }

  lemma IsScaleIs(target: N.Job, before: N.Job, after: N.Job)
    requires N.IsScaleFor(target, before, after)
    ensures N.IsScale(before, after)
  {
    hide N.IsScale;
  }

  /** The cycle after finds the job in sync, at another index than the deployment that waits, and ends that one. */
  lemma Calms(p: N.Plan, s: Sys, acts: seq<Action>, m: Sys, k: Key, g: GitJob, live: LiveJob, c: int, id: Id, others: set<Action>)
    returns (more: seq<Action>, after: Sys)
    requires hide *; Leads(p, s, acts, m, others) && N.Lawful(p) && m.det == Idle && Free(m, k, g) && ScalesFirst(g.job)
    requires LiveOf(m.nomad, k) == Some(live) && live.job == Scaled(g.job, c) && ActiveOf(m.db.rows, k) == Some(id)
    requires var d := m.db.rows[id]; d.specHash == Decisions.HashOf(g) && d.state == Detected && d.diffHash.Some? && d.cas != live.index && d.error == ""
    ensures Leads(p, s, more, after, others) && Free(after, k, g)
    ensures after == m.(db := after.db) && after.db.rows == m.db.rows[id := m.db.rows[id].(state := Superseded, error := "")]
  {
    hide *;
    CycleIs(m, k, g);
    more := Plans(p, s, acts, m, k, g, others);
    var o := Shown(p, g, Some(live), Some(live));
    ShownScaled(p, g, live, live, c, c);
    IsOutdated(m.db.rows[id], g, o);
    more := Supersedes(p, s, more, m, CycleOf(m), k, g, o, id, others);
    var m1 := m.(db := Moved(m.db, id, Detected, Superseded, ""), det := Cleared(CycleOf(m), Task(k, g), o));
    StepsOwn();
    StopStep(p, m1);
    after := m1.(det := Idle);
    Goes(p, s, more, m1, StopCycle, after, others);
    more := more + [StopCycle];
    Moves();
    MoveLeaves(m.db, id, Detected, Superseded, "");
    FreeStill(m, after, k, g);
  }

  lemma IsOutdated(d: Deployment, g: GitJob, o: Seen)
    ensures Outdated(d, g, o) <==>
      && g.job.cfg == AUTO && d.specHash == Decisions.HashOf(g) && d.state == Detected
      && d.diffHash.Some? && d.diffHash != o.diff && d.cas != o.index
  {
    hide Decisions.HashOf;
  }

  /**
   A job in sync, scaled twice and nothing else, gets two deployments of the one spec in git:
   each scale fell between a cycle's read of the job and its plan.
  */
  lemma ScalesAloneDeployTwice(p: N.Plan, s: Sys, k: Key, g: GitJob, c: int) returns (acts: seq<Action>)
    requires hide *; N.Lawful(p) && Initial(s) && Free(s, k, g) && ScalesFirst(g.job)
    requires k in s.nomad.live && s.nomad.live[k].job == Scaled(g.job, c)
    ensures Own(acts, {Scale(k, Scaled(g.job, c + 1)), Scale(k, Scaled(g.job, c + 2))})
    ensures var rows := Run(p, s, acts).db.rows;
      |rows| == 2 && rows[0].key == k && rows[1].key == k && rows[0].specHash == rows[1].specHash == Decisions.HashOf(g)
  {
    hide *;
    var others := {Scale(k, Scaled(g.job, c + 1)), Scale(k, Scaled(g.job, c + 2))};
    var m, d;
    var live := s.nomad.live[k];
    InitialIs(s);
    LiveIs(s.nomad, k);
    OpenIs([], k, g);
    Starts(p, s, others);
    acts, m, d := TornDeploys(p, s, [], s, k, g, live, c, c + 1, others);
    PutIs(s.nomad, k, Scaled(g.job, c + 1));
    live := m.nomad.live[k];
    OneRow(m.db.rows, k);
    Moves();
    acts, m := Calms(p, s, acts, m, k, g, live, c + 1, 0, others);
    OneRow(m.db.rows, k);
    OpenIs(m.db.rows, k, g);
    acts, m, d := TornDeploys(p, s, acts, m, k, g, live, c + 1, c + 2, others);
    LeadsIs(p, s, acts, m, others);
  }

  lemma LiveIs(n: Cluster, k: Key)
    ensures k in n.live ==> LiveOf(n, k) == Some(n.live[k])
  {
  }

  // -- the register of a stale copy -------------------------------------------------------------------------

  /** Two jobs for one key: either can be put in place, and the second drifts otherwise over the first than over none. */
  ghost predicate Rivals(p: N.Plan, first: N.Job, second: N.Job) {
    && p(first, None).changed && p(second, None).changed && N.Canonical(second)
    && N.Fresh(p, second, Some(first)).Some? && N.Fresh(p, second, Some(first)) != N.Fresh(p, second, None)
    && first != second && second.cfg == AUTO
  }

  /** The deployment of the first job failed, a copy of it from before is still listed, and git has the second. */
  ghost predicate Overdue(p: N.Plan, t: Sys, k: Key, g: GitJob, copy: Deployment) {
    hide *;
    && t.det == Idle && t.workers == map[] && Free(t, k, g) && (0, copy) in t.copies && copy.key == k && AtItsRegister(p, copy, t.nomad)
    && |t.db.rows| == 1 && t.db.rows[0].key == k && !IsActive(t.db.rows[0].state) && t.db.rows[0].specHash != Decisions.HashOf(g)
  }

  lemma OverdueIs(p: N.Plan, t: Sys, k: Key, g: GitJob, copy: Deployment)
    ensures hide *; Overdue(p, t, k, g, copy) <==>
      && t.det == Idle && t.workers == map[] && Free(t, k, g) && (0, copy) in t.copies && copy.key == k && AtItsRegister(p, copy, t.nomad)
      && |t.db.rows| == 1 && t.db.rows[0].key == k && !IsActive(t.db.rows[0].state) && t.db.rows[0].specHash != Decisions.HashOf(g)
  {
    hide Free, AtItsRegister, IsActive, Decisions.HashOf;
  }

  lemma RivalsIs(p: N.Plan, first: N.Job, second: N.Job)
    requires Rivals(p, first, second)
    ensures p(first, None).changed && p(second, None).changed && first != second && second.cfg == AUTO && N.Canonical(second)
    ensures N.Fresh(p, second, Some(first)).Some? && N.Fresh(p, second, Some(first)) != N.Fresh(p, second, None)
  {
    hide N.Fresh, N.Canonical;
  }

  lemma TimeOutGoes(p: N.Plan, m: Sys, d: Deployment)
    requires hide *; d.state == Applying && d.applied == None
    ensures WorkCall(0, d, Ready, TimeOut) == NoCall && Worked(p, On(m, d, Ready), 0, Worker(d, Ready), TimeOut) == Goto(d, Deciding(Failed))
  {
    hide HookStep, HealthStep, PlannedPc;
  }

  lemma PushStep(p: N.Plan, m: Sys, git: map<Key, GitJob>)
    requires CanonicalGit(git)
    ensures Next(p, m, Push(git, false)) == m.(world := m.world.(git := git, unparsed := false))
  {
    hide Exec, CanonicalGit;
    NothingWritten(m.db);
  }

  lemma FreeAfterPush(s: Sys, t: Sys, k: Key, g: GitJob, next: GitJob)
    requires Free(s, k, g) && CanonicalGit(s.world.git) && N.Canonical(next.job) && next.job.cfg == AUTO && t.db.lifts == s.db.lifts
    requires t.world == s.world.(git := s.world.git[k := next], unparsed := false)
    ensures Free(t, k, next) && CanonicalGit(t.world.git)
  {
    hide N.Canonical;
  }

  lemma HashTells(g: GitJob, next: GitJob)
    ensures g.job != next.job ==> Decisions.HashOf(g) != Decisions.HashOf(next)
  {
    hide Lines;
  }

  /** A deployment is created for the first job, starts, fails at its register, and git moves on. */
  lemma FallsBehind(p: N.Plan, s: Sys, k: Key, g: GitJob, next: GitJob)
    returns (acts: seq<Action>, t: Sys, copy: Deployment, others: set<Action>)
    requires hide *; Initial(s) && Free(s, k, g) && k !in s.nomad.live && Rivals(p, g.job, next.job)
    ensures Leads(p, s, acts, t, others) && Overdue(p, t, k, next, copy) && copy.spec == g.job
  {
    hide *;
    others := {Push(s.world.git[k := next], false)};
    var o := Seen(0, g.job, N.HashOf(p(g.job, None)));
    var db, m;
    InitialIs(s);
    CycleIs(s, k, g);
    RivalsIs(p, g.job, next.job);
    MadeIs(k, g, o);
    acts, db := DeploysFirst(p, s, k, g, others);
    var m1 := s.(db := db);
    FreeStill(s, m1, k, g);
    acts, m := StartsApply(p, s, acts, m1, k, g, o, others);
    copy := Made(k, g, o).(state := Applying);
    Moves();
    TimeOutGoes(p, m.(copies := m.copies + {(0, copy)}), copy);
    acts := Decides(p, s, acts, m, copy, TimeOut, Failed, others);
    MoveLeaves(m.db, 0, Applying, Failed, "failed");
    var m2 := m.(db := Moved(m.db, 0, Applying, Failed, "failed"), copies := m.copies + {(0, copy)});
    FreeStill(m, m2, k, g);
    t := m2.(world := m2.world.(git := s.world.git[k := next], unparsed := false));
    FreeAfterPush(m2, t, k, g, next);
    PushStep(p, m2, s.world.git[k := next]);
    Goes(p, s, acts, m2, Push(s.world.git[k := next], false), t, others);
    acts := acts + [Push(s.world.git[k := next], false)];
    AtRegisterIs(p, copy, t.nomad);
    HashTells(g, next);
    OverdueIs(p, t, k, next, copy);
  }

  lemma TwoRows(rows: seq<Deployment>, k: Key)
    requires |rows| == 2 && rows[0].key == k && rows[1].key == k && !IsActive(rows[0].state)
    ensures LatestOf(rows, k) == Some(1) && ActiveOf(rows, k) == if IsActive(rows[1].state) then Some(1) else None
  {
    OneRow(rows[..1], k);
  }

  /** What a cycle plans is the diff of what git declares against the live job. */
  lemma ShownFresh(p: N.Plan, g: GitJob, live: Option<LiveJob>)
    ensures Shown(p, g, live, live).diff == N.Fresh(p, g.job, JobOf(live)) && Shown(p, g, live, live).index == IndexOf(live)
    ensures IndexOf(None) == 0 && JobOf(None) == None
  {
    hide N.Adjusted, N.HashOf;
  }

  /** Once a copy has fallen behind: the next cycles, with only Nops at work. */
  lemma GoesOn(p: N.Plan, t: Sys, k: Key, g: GitJob, copy: Deployment) returns (late: seq<Action>)
    requires hide *; Overdue(p, t, k, g, copy) && Rivals(p, copy.spec, g.job)
    ensures Own(late, {})
    ensures var rows := Run(p, t, late).db.rows;
      |rows| == 3 && rows[1].key == k && rows[2].key == k && rows[1].specHash == rows[2].specHash == Decisions.HashOf(g)
  {
    hide *;
    OverdueIs(p, t, k, g, copy);
    AtRegisterIs(p, copy, t.nomad);
    RivalsIs(p, copy.spec, g.job);
    CycleIs(t, k, g);
    LiveIs(t.nomad, k);
    var m;
    Starts(p, t, {});
    late := Plans(p, t, [], t, k, g, {});
    ShownNew(p, g, t.nomad, k);
    ShownFresh(p, g, None);
    var o := Shown(p, g, None, None);
    OneRow(t.db.rows, k);
    OpenIs(t.db.rows, k, g);
    late := Deploys(p, t, late, t, CycleOf(t), k, g, o, {});
    m := t.(db := Exec(t.db, Create(Made(k, g, o))));
    CreateLeaves(t.db, k, g, o);
    MadeIs(k, g, o);
    StepsOwn();
    TakeStep(p, m, copy);
    Goes(p, t, late, m, Take(0, copy), On(m, copy, Ready), {});
    late := Registers(p, t, late + [Take(0, copy)], m, copy, {});
    OnIs(m.(nomad := RegisterSteps.Put(m.nomad, k, copy.spec)), copy, Registered);
    m := On(m.(nomad := RegisterSteps.Put(m.nomad, k, copy.spec)), copy, Registered);
    PutIs(t.nomad, k, copy.spec);
    FreeStill(t, m, k, g);
    late := DeploysAgain(p, t, late, m, k, g, {});
  }

  /** The next cycle ends the deployment that waits, and creates another of the same spec. */
  lemma DeploysAgain(p: N.Plan, s: Sys, acts: seq<Action>, m: Sys, k: Key, g: GitJob, others: set<Action>) returns (more: seq<Action>)
    requires hide *; Leads(p, s, acts, m, others) && m.det == Idle && Free(m, k, g) && IndexOf(LiveOf(m.nomad, k)) != 0
    requires |m.db.rows| == 2 && m.db.rows[0].key == k && !IsActive(m.db.rows[0].state)
    requires var d := m.db.rows[1];
      d.key == k && d.specHash == Decisions.HashOf(g) && d.state == Detected && d.diffHash.Some? && d.cas == 0 && d.error == ""
    requires N.Fresh(p, g.job, JobOf(LiveOf(m.nomad, k))).Some? && N.Fresh(p, g.job, JobOf(LiveOf(m.nomad, k))) != m.db.rows[1].diffHash
    ensures Own(more, others)
    ensures var rows := Run(p, s, more).db.rows;
      |rows| == 3 && rows[1].key == k && rows[2].key == k && rows[1].specHash == rows[2].specHash == Decisions.HashOf(g)
  {
    hide *;
    var live := LiveOf(m.nomad, k);
    var o := Shown(p, g, live, live);
    CycleIs(m, k, g);
    ShownFresh(p, g, live);
    IsOutdated(m.db.rows[1], g, o);
    Moves();
    TwoRows(m.db.rows, k);
    more := Plans(p, s, acts, m, k, g, others);
    more := Supersedes(p, s, more, m, CycleOf(m), k, g, o, 1, others);
    MoveLeaves(m.db, 1, Detected, Superseded, "");
    var m1 := m.(db := Moved(m.db, 1, Detected, Superseded, ""));
    TwoRows(m1.db.rows, k);
    OpenIs(m1.db.rows, k, g);
    more := Creates(p, s, more, m1, CycleOf(m), k, g, o, others);
    CreateLeaves(m1.db, k, g, o);
    MadeIs(k, g, o);
    LeadsIs(p, s, more, m1.(db := Exec(m1.db, Create(Made(k, g, o))), det := Reconciled(CycleOf(m), Task(k, g))), others);
  }

  /**
   A deployment failed and git moved on; nothing happens outside any more, and the job gets
   two deployments of the new spec: the copy of the failed one that was still listed was
   registered between the cycles that created them.
  */
  lemma StaleCopyDeploysAgain(p: N.Plan, s: Sys, k: Key, g: GitJob, next: GitJob) returns (early: seq<Action>, late: seq<Action>)
    requires hide *; Initial(s) && Free(s, k, g) && k !in s.nomad.live && Rivals(p, g.job, next.job)
    ensures Run(p, s, early).det == Idle && |Run(p, s, early).db.rows| == 1 && Own(late, {})
    ensures var rows := Run(p, s, early + late).db.rows;
      |rows| == 3 && rows[1].key == k && rows[2].key == k && rows[1].specHash == rows[2].specHash == Decisions.HashOf(next)
  {
    hide *;
    var t, copy, others;
    early, t, copy, others := FallsBehind(p, s, k, g, next);
    LeadsIs(p, s, early, t, others);
    OverdueIs(p, t, k, next, copy);
    late := GoesOn(p, t, k, next, copy);
    Engine.RunConcat(p, s, early, late);
  }

  // -- there is such a run ----------------------------------------------------------------------------------

  /** A group, with one count or the other. */
  function OneGroup(count: int): N.Job {
    N.Job(AUTO, [N.Group(Some("g"), Some(count), false, "")], "")
  }

  lemma RivalsExist()
    ensures Rivals(Lawful.Plain, OneGroup(1), OneGroup(2))
  {
    var first, second := OneGroup(1), OneGroup(2);
    var group, other := first.groups[0], second.groups[0];
    assert group.count != other.count && group in first.groups && other in second.groups;
    assert N.Adjusted(second, Some(first)).groups == second.groups;
    assert other in N.Added(second, None);
    assert N.Names(Some(first)) == {"g"};
    assert other !in N.Added(second, Some(first));
    assert Lawful.Plain(second, None).added != Lawful.Plain(second, Some(first)).added;
  }

  function Beginning(k: Key, g: GitJob): Sys {
    Sys(EMPTY, Cluster(map[], 0), World(map[k := g], false, {}, false, {}), Idle, {}, map[], [])
  }

  lemma BeginningIs(k: Key)
    ensures var s := Beginning(k, GitJob(OneGroup(1), map[]));
      Initial(s) && Free(s, k, GitJob(OneGroup(1), map[])) && k !in s.nomad.live
  {
  }

  /** A lawful plan and a run from nothing of the race of a stale copy: what StaleCopyDeploysAgain asks for can be. */
  lemma StaleCopyRun(k: Key) returns (p: N.Plan, s: Sys, early: seq<Action>, late: seq<Action>)
    ensures hide *; N.Lawful(p) && Initial(s)
    ensures |Run(p, s, early).db.rows| == 1 && Own(late, {})
    ensures var rows := Run(p, s, early + late).db.rows;
      |rows| == 3 && rows[1].key == k && rows[2].key == k && rows[1].specHash == rows[2].specHash
  {
    hide *;
    var g, next := GitJob(OneGroup(1), map[]), GitJob(OneGroup(2), map[]);
    p, s := Lawful.Plain, Beginning(k, g);
    Lawful.PlainIsLawful();
    RivalsExist();
    BeginningIs(k);
    early, late := StaleCopyDeploysAgain(p, s, k, g, next);
  }
}
