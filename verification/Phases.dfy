/**
 The phases a deployment declares are the phases it goes through: its pre-hooks before its
 register, its post-hooks before it completes, over whole runs.
*/
module Phases {
  import opened Options
  import opened Store
  import opened Decisions
  import opened Machine
  import opened Base
  import opened Births
  import opened AppliedDiff
  import opened RegisterOnce
  import opened HookRuns
  import opened ApprovalSafety
  import N = Nomad

  // -- where a step decides to go ------------------------------------------------------------

  /** A deployment with something to register, of a job that declares pre-hooks. */
  predicate NeedsPre(d: Deployment) {
    d.diffHash.Some? && d.spec.cfg.pre != []
  }

  /** A step decides to start with the pre-hooks exactly when there are some to run first, and to end with the post-hooks likewise. */
  predicate DecidesRight(w: Worker) {
    w.pc.Deciding? ==>
      && (w.d.state in {Detected, PendingApproval} ==> w.pc.to == if NeedsPre(w.d) then PreHook else Applying)
      && (w.d.state == Applying ==>
            && (w.pc.to == PostHook ==> w.d.spec.cfg.post != [])
            && (w.pc.to == Completed ==> w.d.spec.cfg.post == [] || AppliedIndex(w.d) == 0))
  }

  ghost predicate AllDecideRight(s: Sys) {
    forall id :: id in s.workers ==> DecidesRight(s.workers[id])
  }

  lemma AllDecideIs(s: Sys)
    ensures AllDecideRight(s) <==> forall id :: id in s.workers ==> DecidesRight(s.workers[id])
  {
    hide DecidesRight;
  }

  lemma NextAfterIs(d: Deployment)
    requires AsGit(d)
    ensures NextAfterDecision(d) == if NeedsPre(d) then PreHook else Applying
  {
  }

  lemma WorkedDecidesRight(p: N.Plan, s: Sys, id: Id, w: Worker, work: Work)
    requires AsGit(w.d) && DecidesRight(w)
    ensures var e := Worked(p, s, id, w, work); e.next.Some? ==> DecidesRight(e.next.value)
  {
    NextAfterIs(w.d);
    if w.d.state == Applying {
      if AppliedIndex(w.d) == 0 {
        RegisterDecides(p, LiveOf(s.nomad, w.d.key), w.d, w.pc, work);
      }
      HealthDecides(p, LiveOf(s.nomad, w.d.key), s.db, id, w.d, w.pc, work);
    }
    hide RegisterStep, HealthStep, HookStep, NextAfterDecision, NeedsPre, HoldFrom, HoldOn;
  }

  lemma RegisterDecides(p: N.Plan, now: Option<LiveJob>, d: Deployment, pc: Pc, work: Work)
    requires d.state == Applying && AppliedIndex(d) == 0 && DecidesRight(Worker(d, pc))
    ensures var e := RegisterStep(p, now, d, pc, work); e.next.Some? ==> DecidesRight(e.next.value)
  {
  }

  lemma HealthDecides(p: N.Plan, now: Option<LiveJob>, db: Db, id: Id, d: Deployment, pc: Pc, work: Work)
    requires d.state == Applying && DecidesRight(Worker(d, pc))
    ensures var e := HealthStep(p, now, db, id, d, pc, work); e.next.Some? ==> DecidesRight(e.next.value)
  {
    hide ErrorOf, HealthCall;
  }

  lemma WorkerAsGit(s: Sys, id: Id)
    requires Copies(s) && RowsAsGit(s.db.rows) && id in s.workers
    ensures AsGit(s.workers[id].d) && id < |s.db.rows|
  {
    hide DetectionPast;
    assert RowGrows(s.workers[id].d, s.db.rows[id]) && AsGit(s.db.rows[id]);
  }

  lemma NextDecidesRight(p: N.Plan, s: Sys, a: Action)
    requires Copies(s) && Born(s) && AllDecideRight(s)
    ensures AllDecideRight(Next(p, s, a))
  {
    hide *;
    NextParts(p, s, a);
    BornIs(s);
    AllDecideIs(s);
    forall id | id in WorkersAfter(p, s, a)
      ensures DecidesRight(WorkersAfter(p, s, a)[id])
    {
      WorkerOrigin(p, s, a, id);
      ReadyRight(WorkersAfter(p, s, a)[id]);
      if a.Step? && a.id == id && id in s.workers {
        WorkerAsGit(s, id);
        WorkedDecidesRight(p, s, id, s.workers[id], a.work);
      }
    }
    AllDecideIs(Next(p, s, a));
  }

  lemma ReadyRight(w: Worker)
    ensures w.pc.Ready? ==> DecidesRight(w)
  {
  }

  // -- the events -------------------------------------------------------------------------------

  /** An event that is no move, or of a birth. */
  predicate Aside(e: Event) {
    e.from == Some(e.to) || e.from.None? || (e.from == Some(Detected) && e.to in {PendingApproval, Failed})
  }

  /** A call logs its move, and nothing else but asides. */
  lemma NewEvents(db: Db, c: Store.Call)
    ensures var after := Exec(db, c).events;
      && db.events <= after
      && (forall i :: |db.events| <= i < |after| ==>
            Aside(after[i]) || (c.Transition? && Writes(db, c) && after[i] == Event(c.id, Some(c.from), c.to, c.actor)))
  {
  }

  /** What the log says of a deployment: it started where its job says, and left for the post-hooks only with some. */
  predicate EventRight(rows: seq<Deployment>, e: Event) {
    Starts(e) || (e.to == PostHook && !Aside(e)) ==>
      && e.dep < |rows|
      && (Starts(e) ==> HooksThere(rows[e.dep].specHash) && e.to == if NeedsPre(rows[e.dep]) then PreHook else Applying)
      && (e.to == PostHook ==> rows[e.dep].spec.cfg.post != [])
  }

  ghost predicate EventsRight(db: Db) {
    forall i :: 0 <= i < |db.events| ==> EventRight(db.rows, db.events[i])
  }

  lemma EventsIs(db: Db)
    ensures EventsRight(db) <==> forall i :: 0 <= i < |db.events| ==> EventRight(db.rows, db.events[i])
  {
    hide EventRight;
  }

  lemma EventStays(db: Db, after: Db, e: Event)
    requires Grows(db, after) && EventRight(db.rows, e)
    ensures EventRight(after.rows, e)
  {
    if e.dep < |db.rows| { RowGrown(db, after, e.dep); }
    hide Grows, HooksThere;
  }

  lemma AsideRight(rows: seq<Deployment>, e: Event)
    requires Aside(e)
    ensures EventRight(rows, e)
  {
  }

  /** The move a step of the system makes. */
  lemma MoveRight(s: Sys, a: Action)
    requires hide *; Copies(s) && Born(s) && RowsFromGit(s.db.rows) && AllDecideRight(s) && CallOf(s, a).Transition? && Writes(s.db, CallOf(s, a))
    ensures var c := CallOf(s, a); EventRight(s.db.rows, Event(c.id, Some(c.from), c.to, c.actor))
  {
    hide *;
    var c := CallOf(s, a);
    TransitionOrigin(s, a);
    BornIs(s);
    AllDecideIs(s);
    MovesFrom(s.db, c);
    WasAsGit(s.db.rows, c.id);
    NextAfterIs(s.db.rows[c.id]);
    WasFromGit(s.db.rows, c.id);
    WaitsThere(s.db.rows[c.id]);
    if a.Step? {
      WorkerAsGit(s, a.id);
      WorkerPlan(s, a.id);
      Decided(s.workers[a.id], s.db.rows[a.id]);
    }
    RightWhen(s.db.rows, c);
  }

  lemma MovesFrom(db: Db, c: Store.Call)
    requires c.Transition? && Writes(db, c)
    ensures c.id < |db.rows| && db.rows[c.id].state == c.from && c.to in Allowed(c.from)
  {
  }

  lemma WorkerPlan(s: Sys, id: Id)
    requires Copies(s) && id in s.workers && id < |s.db.rows|
    ensures RowGrows(s.workers[id].d, s.db.rows[id])
  {
    hide RowGrows, DetectionPast;
    assert PastOf(s.db.rows, id, s.workers[id].d);
  }

  /** What a worker decides of its copy is what its row asks for. */
  lemma Decided(w: Worker, d: Deployment)
    requires RowGrows(w.d, d) && DecidesRight(w) && w.pc.Deciding?
    ensures w.d.state in {Detected, PendingApproval} ==> w.pc.to == if NeedsPre(d) then PreHook else Applying
    ensures w.d.state == Applying && w.pc.to == PostHook ==> d.spec.cfg.post != []
  {
  }

  /** A deployment that is not failed declares no hook that is missing or invalid. */
  lemma WaitsThere(d: Deployment)
    requires FromGit(d)
    ensures d.state != Failed ==> HooksThere(d.specHash)
  {
    hide Problem, Frozen, Decisions.HashOf, HooksThere;
    var g :| d.hooks == Frozen(g) && d.specHash == Decisions.HashOf(g) && d.spec.cfg == g.job.cfg && (Problem(g) ==> d.state == Failed);
    ProblemIs(g);
  }

  lemma RightWhen(rows: seq<Deployment>, c: Store.Call)
    requires c.Transition? && c.id < |rows| && rows[c.id].state == c.from && c.to in Allowed(c.from)
    requires rows[c.id].state != Failed ==> HooksThere(rows[c.id].specHash)
    requires c.from in {Detected, PendingApproval} && c.to in {PreHook, Applying} ==> c.to == if NeedsPre(rows[c.id]) then PreHook else Applying
    requires c.from == Applying && c.to == PostHook ==> rows[c.id].spec.cfg.post != []
    ensures EventRight(rows, Event(c.id, Some(c.from), c.to, c.actor))
  {
    hide HooksThere, NeedsPre;
  }

  lemma NextEventsRight(p: N.Plan, s: Sys, a: Action)
    requires Copies(s) && Born(s) && RowsFromGit(s.db.rows) && AllDecideRight(s) && EventsRight(s.db)
    ensures EventsRight(Exec(s.db, CallOf(s, a)))
  {
    hide *;
    var c := CallOf(s, a);
    var after := Exec(s.db, c);
    NewEvents(s.db, c);
    ExecGrows(s.db, c);
    EventsIs(s.db);
    if c.Transition? && Writes(s.db, c) { MoveRight(s, a); }
    forall i | 0 <= i < |after.events|
      ensures EventRight(after.rows, after.events[i])
    {
      if i < |s.db.events| || !Aside(after.events[i]) {
        EventStays(s.db, after, after.events[i]);
      } else {
        AsideRight(after.rows, after.events[i]);
      }
    }
    EventsIs(after);
  }

  ghost predicate Phased(s: Sys) {
    AllDecideRight(s) && EventsRight(s.db)
  }

  lemma PhasedIs(s: Sys)
    ensures Phased(s) <==> AllDecideRight(s) && EventsRight(s.db)
  {
    hide AllDecideRight, EventsRight;
  }

  lemma InitialPhased(s: Sys)
    requires Initial(s)
    ensures Phased(s)
  {
  }

  lemma {:induction false} RunPhased(p: N.Plan, s: Sys, acts: seq<Action>)
    requires Initial(s)
    ensures Phased(Run(p, s, acts))
  {
    hide *;
    if acts == [] {
      RunStart(p, s);
      InitialPhased(s);
    } else {
      var most, a := acts[..|acts| - 1], acts[|acts| - 1];
      var before := Run(p, s, most);
      RunPhased(p, s, most);
      RunBasic(p, s, most);
      BasicParts(before);
      RunBorn(p, s, most);
      RunHooked(p, s, most);
      HookedCfg(before);
      RunLast(p, s, acts);
      NextParts(p, before, a);
      PhasedIs(before);
      NextDecidesRight(p, before, a);
      NextEventsRight(p, before, a);
      PhasedIs(Run(p, s, acts));
    }
  }

  // -- the pre-hooks ------------------------------------------------------------------------------

  /** A state but the first is entered by a legal move into it. */
  lemma {:induction false} EntersBy(events: seq<Event>, id: Id, st: State) returns (i: nat)
    requires Chained(events, id) && Entered(events, id, st) && st != Detected
    ensures i < |events| && events[i].dep == id && events[i].to == st
    ensures events[i].from.Some? && events[i].from.value != st && st in Allowed(events[i].from.value)
  {
    var n := |events| - 1;
    EnteredSplit(events, id, st);
    if Entered(events[..n], id, st) {
      i := EntersBy(events[..n], id, st);
    } else {
      i := n;
      if Folded(events[..n], id) == Some(st) { FoldedEntered(events[..n], id); }
    }
  }

  lemma EnteredSplit(events: seq<Event>, id: Id, st: State)
    requires Entered(events, id, st)
    ensures var n := |events| - 1; n >= 0 && (Entered(events[..n], id, st) || (events[n].dep == id && events[n].to == st))
  {
    var n := |events| - 1;
    var j :| 0 <= j <= n && events[j].dep == id && events[j].to == st;
    if j < n { assert events[..n][j] == events[j]; }
  }

  /** Every hook the job declares for the phase ran for the deployment, and succeeded. */
  predicate RanAll(runs: map<RunKey, HookRun>, id: Id, phase: Phase, ids: seq<string>) {
    forall i :: 0 <= i < |ids| ==> RunKey(id, phase, i) in runs && runs[RunKey(id, phase, i)].state == RunSucceeded
  }

  /** What is frozen of a deployment with all its hooks there is what it declares: so a phase that succeeded ran it all. */
  lemma RanDeclared(runs: map<RunKey, HookRun>, id: Id, d: Deployment, phase: Phase)
    requires FromGit(d) && HooksThere(d.specHash) && PhaseSucceeded(runs, id, d, phase)
    ensures RanAll(runs, id, phase, Declared(d.spec.cfg, phase))
  {
    var g :| d.hooks == Frozen(g) && d.specHash == Decisions.HashOf(g) && d.spec.cfg == g.job.cfg && (Problem(g) ==> d.state == Failed);
    ProblemIs(g);
    FrozenAreDeclared(g, phase);
    hide Frozen, HooksOf, Problem, HooksThere, Decisions.HashOf, Declared;
    var h, ids := HooksOf(d.hooks, phase), Declared(d.spec.cfg, phase);
    forall i | 0 <= i < |ids|
      ensures RunKey(id, phase, i) in runs && runs[RunKey(id, phase, i)].state == RunSucceeded
    {
      assert Succeeded(runs, HookKey(id, phase, h[i]));
    }
  }

  /** The log and the rows of a run, together. */
  lemma RunLogged(p: N.Plan, s: Sys, acts: seq<Action>, id: Id)
    requires hide *; Initial(s) && id < |Run(p, s, acts).db.rows|
    ensures var db := Run(p, s, acts).db;
      EventsRight(db) && EventsEarned(db) && Chained(db.events, id) && FromGit(db.rows[id])
  {
    hide *;
    RunBasic(p, s, acts);
    BasicParts(Run(p, s, acts));
    ChainedLog(Run(p, s, acts).db, id);
    RunPhased(p, s, acts);
    PhasedIs(Run(p, s, acts));
    RunHooked(p, s, acts);
    HookedFromGit(Run(p, s, acts), id);
    HookedEarned(Run(p, s, acts));
  }

  lemma HookedEarned(s: Sys)
    requires Hooked(s)
    ensures EventsEarned(s.db)
  {
    hide EventsEarned;
  }

  /**
   In every run, a deployment with something to register that was ever applying has run every
   pre-hook its job declares, each with success; one that was ever in pre_hook declares some and
   has something to register, and one that was ever in post_hook declares post-hooks.
  */
  lemma AppliesAfterItsPreHooks(p: N.Plan, s: Sys, acts: seq<Action>, id: Id)
    requires hide *; Initial(s) && id < |Run(p, s, acts).db.rows|
    ensures var db := Run(p, s, acts).db;
      var d := db.rows[id];
      && (Entered(db.events, id, Applying) && d.diffHash.Some? ==> RanAll(db.runs, id, Pre, d.spec.cfg.pre))
      && (Entered(db.events, id, PreHook) ==> d.diffHash.Some? && d.spec.cfg.pre != [])
      && (Entered(db.events, id, PostHook) ==> d.spec.cfg.post != [])
  {
    hide *;
    var db := Run(p, s, acts).db;
    RunLogged(p, s, acts, id);
    if Entered(db.events, id, Applying) { RanItsPre(db, id); }
    if Entered(db.events, id, PreHook) { EntersDeclared(db, id, PreHook); }
    if Entered(db.events, id, PostHook) { EntersDeclared(db, id, PostHook); }
  }

  lemma RanItsPre(db: Db, id: Id)
    requires hide *; id < |db.rows| && EventsRight(db) && EventsEarned(db) && Chained(db.events, id) && FromGit(db.rows[id])
    requires Entered(db.events, id, Applying)
    ensures db.rows[id].diffHash.Some? ==> RanAll(db.runs, id, Pre, db.rows[id].spec.cfg.pre)
  {
    var i := EntersBy(db.events, id, Applying);
    var e := db.events[i];
    assert e.from in {Some(Detected), Some(PendingApproval), Some(PreHook)};
    EventsIs(db);
    assert EventRight(db.rows, e);
    if e.from == Some(PreHook) {
      WasEarned(db, i);
      assert PhaseSucceeded(db.runs, id, db.rows[id], Pre);
      var j := StartedBefore(db, id, i);
      RanDeclared(db.runs, id, db.rows[id], Pre);
    }
  }

  /** What entered pre_hook started, with all its hooks there. */
  lemma StartedBefore(db: Db, id: Id, i: nat) returns (j: nat)
    requires hide *; id < |db.rows| && EventsRight(db) && Chained(db.events, id) && i < |db.events| && db.events[i].dep == id && db.events[i].from == Some(PreHook)
    ensures j < |db.events| && db.events[j].dep == id && Starts(db.events[j]) && HooksThere(db.rows[id].specHash)
  {
    ChainedPrefix(db.events, id, i + 1);
    assert db.events[..i + 1][..i] == db.events[..i];
    FoldedEntered(db.events[..i], id);
    EnteredLater(db.events, id, PreHook, i);
    j := EntersBy(db.events, id, PreHook);
    EventsIs(db);
    assert EventRight(db.rows, db.events[j]);
  }

  lemma EnteredLater(events: seq<Event>, id: Id, st: State, n: nat)
    requires n <= |events| && Entered(events[..n], id, st)
    ensures Entered(events, id, st)
  {
    var i :| 0 <= i < n && events[..n][i].dep == id && events[..n][i].to == st;
    assert events[i].dep == id && events[i].to == st;
  }

  lemma EntersDeclared(db: Db, id: Id, st: State)
    requires hide *; id < |db.rows| && EventsRight(db) && Chained(db.events, id) && Entered(db.events, id, st)
    ensures st == PreHook ==> db.rows[id].diffHash.Some? && db.rows[id].spec.cfg.pre != []
    ensures st == PostHook ==> db.rows[id].spec.cfg.post != []
  {
    if st in {PreHook, PostHook} {
      var i := EntersBy(db.events, id, st);
      EventsIs(db);
      assert EventRight(db.rows, db.events[i]);
    }
  }

  /** In every run, whenever Nomad accepts a register for a deployment, every pre-hook its job declares has run for it and succeeded. */
  lemma RegistersAfterItsPreHooks(p: N.Plan, s: Sys, acts: seq<Action>, id: Id)
    requires hide *; N.Lawful(p) && Initial(s) && Accepted(p, Run(p, s, acts), id)
    ensures var db := Run(p, s, acts).db;
      id < |db.rows| && RanAll(db.runs, id, Pre, db.rows[id].spec.cfg.pre)
  {
    hide *;
    var now := Run(p, s, acts);
    RegistersTheDetectedDiff(p, s, acts, id);
    RunBasic(p, s, acts);
    RunHonest(p, s, acts);
    HonestIs(now);
    AcceptedWorker(p, now, id);
    AcceptedState(p, now, id);
    DriftHashes(p(EffectOf(p, now, Step(id, Register)).register.value, JobOf(LiveOf(now.nomad, now.db.rows[id].key))));
    AppliesAfterItsPreHooks(p, s, acts, id);
  }

  lemma AcceptedWorker(p: N.Plan, s: Sys, id: Id)
    requires Accepted(p, s, id)
    ensures id in s.workers && EffectOf(p, s, Step(id, Register)).register.Some?
  {
  }

  lemma DriftHashes(d: N.PlanDiff)
    ensures d.changed <==> N.HashOf(d).Some?
  {
  }
}
