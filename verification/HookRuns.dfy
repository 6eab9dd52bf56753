/**
 Hooks run at most once and in order, through any crashes: a run is saved as running
 before its dispatch, and nothing is dispatched for a run that is.
*/
module HookRuns {
  import opened Options
  import opened Store
  import opened Decisions
  import opened Machine
  import opened Base
  import opened Births
  import N = Nomad

  // -- the frozen hooks --------------------------------------------------------------------

  /** The hooks of a phase are at the places they are declared, in that order. */
  predicate InOrder(hooks: seq<FrozenHook>) {
    forall i, j :: 0 <= i < j < |hooks| ==> hooks[i].position < hooks[j].position
  }

  lemma Assoc<T>(a: seq<T>, b: seq<T>, c: seq<T>)
    ensures a + (b + c) == (a + b) + c
  {
  }

  lemma HeadOf<T>(a: seq<T>, b: seq<T>)
    requires a != []
    ensures (a + b)[0] == a[0] && (a + b)[1..] == a[1..] + b
  {
  }

  lemma HooksOfFirst(hooks: seq<FrozenHook>, phase: Phase)
    requires hooks != []
    ensures HooksOf(hooks, phase) == (if hooks[0].phase == phase then [hooks[0]] else []) + HooksOf(hooks[1..], phase)
  {
  }

  lemma {:induction false} HooksOfSplit(a: seq<FrozenHook>, b: seq<FrozenHook>, phase: Phase)
    ensures HooksOf(a + b, phase) == HooksOf(a, phase) + HooksOf(b, phase)
  {
    if a == [] {
      assert a + b == b;
    } else {
      hide *;
      HeadOf(a, b);
      HooksOfFirst(a + b, phase);
      HooksOfFirst(a, phase);
      HooksOfSplit(a[1..], b, phase);
      Assoc(if a[0].phase == phase then [a[0]] else [], HooksOf(a[1..], phase), HooksOf(b, phase));
    }
  }

  lemma {:induction false} HooksOfPhase(hooks: seq<FrozenHook>, phase: Phase)
    requires forall i :: 0 <= i < |hooks| ==> hooks[i].phase == phase
    ensures HooksOf(hooks, phase) == hooks
    ensures forall other :: other != phase ==> HooksOf(hooks, other) == []
  {
    if hooks != [] {
      HooksOfPhase(hooks[1..], phase);
      assert hooks == [hooks[0]] + hooks[1..];
    }
  }

  /** Freezing a list of one phase's lines keeps them in order. */
  lemma {:induction false} FrozenInOrder(lines: seq<HookLine>, from: nat, phase: Phase)
    requires forall i :: 0 <= i < |lines| ==> lines[i].phase == phase
    ensures var h := FrozenFrom(lines, from);
      InOrder(h) && forall i :: 0 <= i < |h| ==> h[i].phase == phase && h[i].position >= from
  {
    if lines != [] {
      FrozenInOrder(lines[1..], from + 1, phase);
    }
  }

  /** And freezes all of them when none is missing or invalid. */
  lemma {:induction false} FrozenAll(lines: seq<HookLine>, from: nat)
    requires forall i :: 0 <= i < |lines| ==> lines[i].mark.Spec?
    ensures var h := FrozenFrom(lines, from);
      && |h| == |lines|
      && forall i :: 0 <= i < |lines| ==> h[i] == FrozenHook(lines[i].phase, from + i, lines[i].id, lines[i].mark.text)
  {
    if lines != [] {
      FrozenAll(lines[1..], from + 1);
      assert lines[0].mark.Spec?;
      assert FrozenFrom(lines, from) == [FrozenHook(lines[0].phase, from, lines[0].id, lines[0].mark.text)] + FrozenFrom(lines[1..], from + 1);
    }
  }

  function Declared(cfg: N.Config, phase: Phase): seq<string> {
    if phase == Pre then cfg.pre else cfg.post
  }

  lemma FrozenPhases(g: GitJob)
    ensures HooksOf(Frozen(g), Pre) == FrozenFrom(PhaseLines(Pre, g.job.cfg.pre, g.hookFiles), 0)
    ensures HooksOf(Frozen(g), Post) == FrozenFrom(PhaseLines(Post, g.job.cfg.post, g.hookFiles), 0)
    ensures InOrder(HooksOf(Frozen(g), Pre)) && InOrder(HooksOf(Frozen(g), Post))
  {
    var pre, post := PhaseLines(Pre, g.job.cfg.pre, g.hookFiles), PhaseLines(Post, g.job.cfg.post, g.hookFiles);
    FrozenInOrder(pre, 0, Pre);
    FrozenInOrder(post, 0, Post);
    HooksOfPhase(FrozenFrom(pre, 0), Pre);
    HooksOfPhase(FrozenFrom(post, 0), Post);
    HooksOfSplit(FrozenFrom(pre, 0), FrozenFrom(post, 0), Pre);
    HooksOfSplit(FrozenFrom(pre, 0), FrozenFrom(post, 0), Post);
  }

  /** Without a problem, what is frozen for a phase is what the job declares for it, hook by hook. */
  lemma FrozenAreDeclared(g: GitJob, phase: Phase)
    requires !Problem(g)
    ensures var h, ids := HooksOf(Frozen(g), phase), Declared(g.job.cfg, phase);
      && |h| == |ids|
      && forall i :: 0 <= i < |ids| ==>
           ids[i] in g.hookFiles && g.hookFiles[ids[i]].Spec? && h[i] == FrozenHook(phase, i, ids[i], g.hookFiles[ids[i]].text)
  {
    FrozenPhases(g);
    var ids := Declared(g.job.cfg, phase);
    var lines := PhaseLines(phase, ids, g.hookFiles);
    NoProblem(g, phase);
    FrozenAll(lines, 0);
    hide FrozenFrom, HooksOf, Frozen;
    assert forall i :: 0 <= i < |ids| ==> lines[i] == HookLine(phase, ids[i], MarkOf(g.hookFiles, ids[i]));
  }

  lemma NoProblem(g: GitJob, phase: Phase)
    requires !Problem(g)
    ensures var lines := PhaseLines(phase, Declared(g.job.cfg, phase), g.hookFiles); forall i :: 0 <= i < |lines| ==> lines[i].mark.Spec?
  {
    var lines := PhaseLines(phase, Declared(g.job.cfg, phase), g.hookFiles);
    forall i | 0 <= i < |lines|
      ensures lines[i].mark.Spec?
    {
      assert lines[i] == Lines(g)[if phase == Pre then i else |g.job.cfg.pre| + i];
    }
  }

  /** What a deployment's hooks, spec hash and spec come from, and that a problem left it failed. */
  ghost predicate FromGit(d: Deployment) {
    exists g :: d.hooks == Frozen(g) && d.specHash == Decisions.HashOf(g) && d.spec.cfg == g.job.cfg && (Problem(g) ==> d.state == Failed)
  }

  // -- what every run keeps ----------------------------------------------------------------

  function HookKey(id: Id, phase: Phase, h: FrozenHook): RunKey {
    RunKey(id, phase, h.position)
  }

  predicate Succeeded(runs: map<RunKey, HookRun>, k: RunKey) {
    k in runs && runs[k].state == RunSucceeded
  }

  /** The first n hooks of a phase have succeeded. */
  predicate DoneBefore(runs: map<RunKey, HookRun>, id: Id, phase: Phase, hooks: seq<FrozenHook>, n: nat)
    requires n <= |hooks|
  {
    forall i :: 0 <= i < n ==> Succeeded(runs, HookKey(id, phase, hooks[i]))
  }

  predicate PhaseSucceeded(runs: map<RunKey, HookRun>, id: Id, d: Deployment, phase: Phase) {
    var hooks := HooksOf(d.hooks, phase);
    hooks != [] && DoneBefore(runs, id, phase, hooks, |hooks|)
  }

  /** The next state once every hook of the phase succeeded. */
  function PhaseEnd(st: State): State {
    if st == PreHook then Applying else Completed
  }

  /** What a hook step knows at each of its points. */
  ghost predicate Knows(runs: map<RunKey, HookRun>, sent: seq<RunKey>, id: Id, d: Deployment, pc: Pc) {
    var hooks := HooksOf(d.hooks, PhaseOf(d));
    match pc
    case AtHook(i) => hooks != [] && i <= |hooks| && DoneBefore(runs, id, PhaseOf(d), hooks, i)
    case RunRead(i, run) => Reached(runs, id, d, i) && runs[KeyOf(id, d, i)] == run
    case Sending(i) => Reached(runs, id, d, i) && runs[KeyOf(id, d, i)] == HookRun(Running, None) && KeyOf(id, d, i) !in sent
    case HasChild(i, child) => Reached(runs, id, d, i) && runs[KeyOf(id, d, i)].state == Running
    case Awaiting(i) => Reached(runs, id, d, i) && runs[KeyOf(id, d, i)].state == Running
    case Finishing(i, result) => Reached(runs, id, d, i) && Terminal(result) && !Terminal(runs[KeyOf(id, d, i)].state)
    case Deciding(to) => to == PhaseEnd(d.state) ==> PhaseSucceeded(runs, id, d, PhaseOf(d))
    case _ => true
  }

  /** The step is at the i-th hook of its phase: the ones before it succeeded, and it has a run. */
  ghost predicate Reached(runs: map<RunKey, HookRun>, id: Id, d: Deployment, i: nat) {
    var hooks := HooksOf(d.hooks, PhaseOf(d));
    i < |hooks| && DoneBefore(runs, id, PhaseOf(d), hooks, i) && KeyOf(id, d, i) in runs
  }

  /** A run is of a frozen hook, and every hook before it in its phase has succeeded. */
  ghost predicate RunInOrder(rows: seq<Deployment>, runs: map<RunKey, HookRun>, k: RunKey) {
    && k.dep < |rows|
    && var hooks := HooksOf(rows[k.dep].hooks, k.phase);
       exists i :: 0 <= i < |hooks| && hooks[i].position == k.position && DoneBefore(runs, k.dep, k.phase, hooks, i)
  }

  ghost predicate RunsInOrder(rows: seq<Deployment>, runs: map<RunKey, HookRun>) {
    forall k :: k in runs ==> RunInOrder(rows, runs, k) && (runs[k].child.Some? ==> runs[k].state != Dispatching)
  }

  ghost predicate SentOnce(runs: map<RunKey, HookRun>, sent: seq<RunKey>) {
    && (forall i :: 0 <= i < |sent| ==> sent[i] in runs && runs[sent[i]].state != Dispatching)
    && (forall i, j :: 0 <= i < j < |sent| ==> sent[i] != sent[j])
  }

  ghost predicate WorkersKnow(runs: map<RunKey, HookRun>, sent: seq<RunKey>, workers: map<Id, Worker>) {
    forall id :: id in workers && workers[id].d.state in {PreHook, PostHook} ==> Knows(runs, sent, id, workers[id].d, workers[id].pc)
  }

  /** The event ends a hook phase with success. */
  predicate EndsPhase(e: Event) {
    (e.from == Some(PreHook) && e.to == Applying) || (e.from == Some(PostHook) && e.to == Completed)
  }

  function EndedPhase(e: Event): Phase {
    if e.to == Applying then Pre else Post
  }

  ghost predicate EventsEarned(db: Db) {
    forall i :: 0 <= i < |db.events| && EndsPhase(db.events[i]) ==>
      && db.events[i].dep < |db.rows|
      && PhaseSucceeded(db.runs, db.events[i].dep, db.rows[db.events[i].dep], EndedPhase(db.events[i]))
  }

  ghost predicate RowsFromGit(rows: seq<Deployment>) {
    forall i :: 0 <= i < |rows| ==> FromGit(rows[i])
  }

  ghost predicate Hooked(s: Sys) {
    && CfgKept(s.det)
    && RowsFromGit(s.db.rows)
    && RunsInOrder(s.db.rows, s.db.runs)
    && SentOnce(s.db.runs, s.sent)
    && WorkersKnow(s.db.runs, s.sent, s.workers)
    && EventsEarned(s.db)
  }

  // -- a hook step ---------------------------------------------------------------------------

  /** The runs after each of the calls a hook step makes. */
  lemma RunsAfter(db: Db, c: Store.Call)
    ensures c.NoCall? ==> Exec(db, c).runs == db.runs
    ensures c.EnsureRun? ==> Exec(db, c).runs == if c.run in db.runs then db.runs else db.runs[c.run := HookRun(Dispatching, None)]
    ensures c.UpdateRun? && c.run in db.runs ==>
              Exec(db, c).runs == db.runs[c.run := HookRun(c.state', if c.child.Some? then c.child else db.runs[c.run].child)]
  {
  }

  /** A finished run is never written again. */
  lemma StepKeepsTerminal(db: Db, sent: seq<RunKey>, id: Id, d: Deployment, pc: Pc, work: Work)
    requires Knows(db.runs, sent, id, d, pc)
    requires forall k :: k in db.runs && db.runs[k].child.Some? ==> db.runs[k].state != Dispatching
    ensures var after := Exec(db, HookCall(id, d, pc, work)).runs;
      && (forall k :: k in db.runs ==> k in after && (Terminal(db.runs[k].state) ==> after[k] == db.runs[k]))
      && (forall k :: k in db.runs && k.dep != id ==> after[k] == db.runs[k])
      && (forall k :: k in after && k !in db.runs ==> k.dep == id && work.Ensure? && pc.AtHook? && k == KeyOf(id, d, pc.i))
      && (forall k :: k in after && after[k].child.Some? ==> after[k].state != Dispatching)
      && (forall k :: k in db.runs && db.runs[k].state != Dispatching ==> after[k].state != Dispatching)
  {
    RunsAfter(db, HookCall(id, d, pc, work));
    hide HooksOf, DoneBefore, PhaseSucceeded, Exec;
  }

  lemma DoneStays(runs: map<RunKey, HookRun>, after: map<RunKey, HookRun>, id: Id, phase: Phase, hooks: seq<FrozenHook>, n: nat)
    requires forall k :: k in runs ==> k in after && (Terminal(runs[k].state) ==> after[k] == runs[k])
    requires n <= |hooks| && DoneBefore(runs, id, phase, hooks, n)
    ensures DoneBefore(after, id, phase, hooks, n)
  {
  }

  /** What the step knows after its own move. */
  ghost predicate KnowsNext(db: Db, sent: seq<RunKey>, id: Id, d: Deployment, pc: Pc, work: Work) {
    var e := HookStep(db.runs, id, d, pc, work);
    e.next.Some? ==>
      Knows(Exec(db, HookCall(id, d, pc, work)).runs, if e.dispatch.Some? then sent + [e.dispatch.value] else sent, id, d, e.next.value.pc)
  }

  /** Before it comes to a hook, or once it decided. */
  lemma StartKnows(db: Db, sent: seq<RunKey>, id: Id, d: Deployment, pc: Pc, work: Work)
    requires d.state in {PreHook, PostHook} && Knows(db.runs, sent, id, d, pc) && !Underway(pc) && !pc.AtHook?
    ensures KnowsNext(db, sent, id, d, pc, work)
  {
    hide *;
    StartStays(db.runs, id, d, pc, work);
    RunsAfter(db, NoCall);
    KnowsStart(db.runs, sent, id, d);
    KnowsIs(db, sent, id, d, pc, work);
  }

  /** Nothing is written or sent there, and the worker stays or comes to its first hook. */
  lemma StartStays(runs: map<RunKey, HookRun>, id: Id, d: Deployment, pc: Pc, work: Work)
    requires !Underway(pc) && !pc.AtHook?
    ensures HookCall(id, d, pc, work) == NoCall
    ensures var e := HookStep(runs, id, d, pc, work);
      && e.dispatch.None? && e.next.Some?
      && e.next.value.pc in {pc, if |HooksOf(d.hooks, PhaseOf(d))| == 0 then Deciding(Failed) else AtHook(0)}
  {
    hide HooksOf, KeyOf;
  }

  lemma KnowsStart(runs: map<RunKey, HookRun>, sent: seq<RunKey>, id: Id, d: Deployment)
    requires d.state in {PreHook, PostHook}
    ensures Knows(runs, sent, id, d, if |HooksOf(d.hooks, PhaseOf(d))| == 0 then Deciding(Failed) else AtHook(0))
  {
    hide HooksOf;
  }

  lemma KnowsIs(db: Db, sent: seq<RunKey>, id: Id, d: Deployment, pc: Pc, work: Work)
    ensures KnowsNext(db, sent, id, d, pc, work) <==>
      var e := HookStep(db.runs, id, d, pc, work);
      e.next.Some? ==>
        Knows(Exec(db, HookCall(id, d, pc, work)).runs, if e.dispatch.Some? then sent + [e.dispatch.value] else sent, id, d, e.next.value.pc)
  {
    hide HookStep, HookCall, Exec, Knows;
  }

  /** Before the run of the hook it is at is read. */
  lemma HookKnows(db: Db, sent: seq<RunKey>, id: Id, d: Deployment, pc: Pc, work: Work)
    requires d.state in {PreHook, PostHook} && Knows(db.runs, sent, id, d, pc) && pc.AtHook?
    requires forall k :: k in db.runs && db.runs[k].child.Some? ==> db.runs[k].state != Dispatching
    ensures KnowsNext(db, sent, id, d, pc, work)
  {
    var after := Exec(db, HookCall(id, d, pc, work)).runs;
    StepKeepsTerminal(db, sent, id, d, pc, work);
    DoneStays(db.runs, after, id, PhaseOf(d), HooksOf(d.hooks, PhaseOf(d)), pc.i);
    RunsAfter(db, HookCall(id, d, pc, work));
    hide HooksOf, DoneBefore, KeyOf, Exec, SentOnce;
  }

  /** Once it is read, where nothing is written. */
  lemma ReadKnows(db: Db, sent: seq<RunKey>, id: Id, d: Deployment, pc: Pc, work: Work)
    requires d.state in {PreHook, PostHook} && Knows(db.runs, sent, id, d, pc) && pc.RunRead? && !work.MarkRunning?
    requires forall k :: k in db.runs && db.runs[k].child.Some? ==> db.runs[k].state != Dispatching
    ensures KnowsNext(db, sent, id, d, pc, work)
  {
    RunsAfter(db, NoCall);
    hide *;
    KnowsIs(db, sent, id, d, pc, work);
    ReachedHere(db.runs, sent, id, d, pc.i, pc.run);
    ReadSteps(db.runs, id, d, pc.i, pc.run, work);
    KnowsRead(db.runs, sent, id, d, pc.i, pc.run, HookStep(db.runs, id, d, pc, work).next.value.pc);
  }

  lemma ReachedHere(runs: map<RunKey, HookRun>, sent: seq<RunKey>, id: Id, d: Deployment, i: nat, run: HookRun)
    requires Knows(runs, sent, id, d, RunRead(i, run))
    ensures i < |HooksOf(d.hooks, PhaseOf(d))|
  {
    hide HooksOf, DoneBefore, KeyOf;
  }

  /** Where a run that was read leads, but for the mark that it runs. */
  predicate ReadTo(i: nat, run: HookRun, to: Pc) {
    || to == RunRead(i, run)
    || (Terminal(run.state) && to == AfterRun(i, run.state))
    || (Unsent(run) && (to == Finishing(i, RunFailed) || to == Finishing(i, RunTimedOut)))
    || (run.state == Running && run.child.None? && (to == Finishing(i, RunFailed) || (to.HasChild? && to.i == i)))
    || (!Terminal(run.state) && run.child.Some? && to == Awaiting(i))
  }

  lemma ReadSteps(runs: map<RunKey, HookRun>, id: Id, d: Deployment, i: nat, run: HookRun, work: Work)
    requires i < |HooksOf(d.hooks, PhaseOf(d))| && !work.MarkRunning?
    ensures HookCall(id, d, RunRead(i, run), work) == NoCall
    ensures var e := HookStep(runs, id, d, RunRead(i, run), work); e.dispatch.None? && e.next.Some? && ReadTo(i, run, e.next.value.pc)
  {
    hide HooksOf, KeyOf, AfterRun;
  }

  lemma KnowsRead(runs: map<RunKey, HookRun>, sent: seq<RunKey>, id: Id, d: Deployment, i: nat, run: HookRun, to: Pc)
    requires d.state in {PreHook, PostHook} && Knows(runs, sent, id, d, RunRead(i, run)) && ReadTo(i, run, to)
    requires forall k :: k in runs && runs[k].child.Some? ==> runs[k].state != Dispatching
    ensures Knows(runs, sent, id, d, to)
  {
    if run.state == RunSucceeded { DoneSteps(runs, id, PhaseOf(d), HooksOf(d.hooks, PhaseOf(d)), i); }
    hide HooksOf, PhaseSucceeded, DoneBefore;
  }

  lemma SendingKnows(db: Db, sent: seq<RunKey>, id: Id, d: Deployment, pc: Pc, work: Work)
    requires d.state in {PreHook, PostHook} && Knows(db.runs, sent, id, d, pc) && (pc.Sending? || pc.Awaiting?)
    ensures KnowsNext(db, sent, id, d, pc, work)
  {
    assert HookCall(id, d, pc, work) == NoCall;
    RunsAfter(db, NoCall);
    hide HooksOf, PhaseSucceeded, DoneBefore, KeyOf, Exec;
  }

  /** Before anything is sent the run is saved as running. */
  lemma MarkKnows(db: Db, sent: seq<RunKey>, id: Id, d: Deployment, pc: Pc)
    requires d.state in {PreHook, PostHook} && Knows(db.runs, sent, id, d, pc) && SentOnce(db.runs, sent) && pc.RunRead?
    requires forall k :: k in db.runs && db.runs[k].child.Some? ==> db.runs[k].state != Dispatching
    ensures KnowsNext(db, sent, id, d, pc, MarkRunning)
  {
    var after := Exec(db, HookCall(id, d, pc, MarkRunning)).runs;
    StepKeepsTerminal(db, sent, id, d, pc, MarkRunning);
    DoneStays(db.runs, after, id, PhaseOf(d), HooksOf(d.hooks, PhaseOf(d)), pc.i);
    RunsAfter(db, HookCall(id, d, pc, MarkRunning));
    hide HooksOf, PhaseSucceeded, DoneBefore, Exec;
  }

  lemma ChildKnows(db: Db, sent: seq<RunKey>, id: Id, d: Deployment, pc: Pc, work: Work)
    requires d.state in {PreHook, PostHook} && Knows(db.runs, sent, id, d, pc) && pc.HasChild?
    requires forall k :: k in db.runs && db.runs[k].child.Some? ==> db.runs[k].state != Dispatching
    ensures KnowsNext(db, sent, id, d, pc, work)
  {
    var after := Exec(db, HookCall(id, d, pc, work)).runs;
    StepKeepsTerminal(db, sent, id, d, pc, work);
    DoneStays(db.runs, after, id, PhaseOf(d), HooksOf(d.hooks, PhaseOf(d)), pc.i);
    RunsAfter(db, HookCall(id, d, pc, work));
    hide HooksOf, PhaseSucceeded, DoneBefore, Exec;
  }

  lemma FinishingKnows(db: Db, sent: seq<RunKey>, id: Id, d: Deployment, pc: Pc, work: Work)
    requires d.state in {PreHook, PostHook} && Knows(db.runs, sent, id, d, pc) && pc.Finishing?
    requires forall k :: k in db.runs && db.runs[k].child.Some? ==> db.runs[k].state != Dispatching
    ensures KnowsNext(db, sent, id, d, pc, work)
  {
    hide HooksOf, PhaseSucceeded, DoneBefore, Exec;
    var hooks, phase := HooksOf(d.hooks, PhaseOf(d)), PhaseOf(d);
    var after := Exec(db, HookCall(id, d, pc, work)).runs;
    StepKeepsTerminal(db, sent, id, d, pc, work);
    DoneStays(db.runs, after, id, phase, hooks, pc.i);
    DoneSteps(after, id, phase, hooks, pc.i);
    RunsAfter(db, HookCall(id, d, pc, work));
  }

  lemma DoneSteps(runs: map<RunKey, HookRun>, id: Id, phase: Phase, hooks: seq<FrozenHook>, i: nat)
    requires i < |hooks| && DoneBefore(runs, id, phase, hooks, i)
    ensures Succeeded(runs, HookKey(id, phase, hooks[i])) ==> DoneBefore(runs, id, phase, hooks, i + 1)
  {
  }

  predicate Underway(pc: Pc) {
    pc.RunRead? || pc.Sending? || pc.HasChild? || pc.Awaiting? || pc.Finishing?
  }

  lemma StepKnows(db: Db, sent: seq<RunKey>, id: Id, d: Deployment, pc: Pc, work: Work)
    requires d.state in {PreHook, PostHook} && Knows(db.runs, sent, id, d, pc) && SentOnce(db.runs, sent)
    requires forall k :: k in db.runs && db.runs[k].child.Some? ==> db.runs[k].state != Dispatching
    ensures KnowsNext(db, sent, id, d, pc, work)
  {
    assert pc.RunRead? || pc.Sending? || pc.HasChild? || pc.Awaiting? || pc.Finishing? <==> Underway(pc);
    hide *;
    if pc.AtHook? {
      HookKnows(db, sent, id, d, pc, work);
    } else if pc.RunRead? && work.MarkRunning? {
      MarkKnows(db, sent, id, d, pc);
    } else if pc.RunRead? {
      ReadKnows(db, sent, id, d, pc, work);
    } else if pc.Sending? || pc.Awaiting? {
      SendingKnows(db, sent, id, d, pc, work);
    } else if pc.HasChild? {
      ChildKnows(db, sent, id, d, pc, work);
    } else if pc.Finishing? {
      FinishingKnows(db, sent, id, d, pc, work);
    } else {
      StartKnows(db, sent, id, d, pc, work);
    }
  }

  // -- every step ------------------------------------------------------------------------------

  /** What no step does to the runs: lose one, write a finished one, take one back to unsent. */
  ghost predicate RunsKept(runs: map<RunKey, HookRun>, after: map<RunKey, HookRun>) {
    forall k :: k in runs ==>
      && k in after && (Terminal(runs[k].state) ==> after[k] == runs[k])
      && (runs[k].state != Dispatching ==> after[k].state != Dispatching)
  }

  /** The action is a step of a worker in a hook phase. */
  predicate HookAction(s: Sys, a: Action) {
    a.Step? && a.id in s.workers && s.workers[a.id].d.state in {PreHook, PostHook} && !a.work.Move?
  }

  lemma OtherRuns(s: Sys, a: Action)
    requires !HookAction(s, a)
    ensures Exec(s.db, CallOf(s, a)).runs == s.db.runs
  {
    if CallOf(s, a).EnsureRun? || CallOf(s, a).UpdateRun? {
      RunCallOrigin(s, a);
    }
    NoRunCall(s.db, CallOf(s, a));
    hide CallOf, Exec;
  }

  lemma NoRunCall(db: Db, c: Store.Call)
    requires !c.EnsureRun? && !c.UpdateRun?
    ensures Exec(db, c).runs == db.runs
  {
  }

  lemma HookActionIs(p: N.Plan, s: Sys, a: Action)
    requires HookAction(s, a)
    ensures var w := s.workers[a.id];
      CallOf(s, a) == HookCall(a.id, w.d, w.pc, a.work) && EffectOf(p, s, a) == HookStep(s.db.runs, a.id, w.d, w.pc, a.work)
  {
    hide HookCall, HookStep;
  }

  lemma OtherDispatch(p: N.Plan, s: Sys, a: Action)
    requires !HookAction(s, a)
    ensures EffectOf(p, s, a).dispatch.None?
  {
    hide HookStep, HealthStep, RegisterStep;
  }

  lemma CallKeepsRuns(p: N.Plan, s: Sys, a: Action)
    requires Hooked(s)
    ensures var after := Exec(s.db, CallOf(s, a)).runs;
      && RunsKept(s.db.runs, after)
      && (forall k :: k in s.db.runs && !(HookAction(s, a) && k.dep == a.id) ==> after[k] == s.db.runs[k])
      && (forall k :: k in after && after[k].child.Some? ==> after[k].state != Dispatching)
      && (forall k :: k in after && k !in s.db.runs ==>
            HookAction(s, a) && k.dep == a.id && s.workers[a.id].pc.AtHook? && s.workers[a.id].pc.i < |HooksOf(s.workers[a.id].d.hooks, PhaseOf(s.workers[a.id].d))| && k == KeyOf(a.id, s.workers[a.id].d, s.workers[a.id].pc.i))
  {
    hide CallOf, Exec, HookCall, Knows, RunInOrder, EventsEarned, RowsFromGit, HooksOf, KeyOf, Terminal;
    if HookAction(s, a) {
      var w := s.workers[a.id];
      HookActionIs(p, s, a);
      StepKeepsTerminal(s.db, s.sent, a.id, w.d, w.pc, a.work);
      AtHookBound(s.db, a.id, w.d, w.pc, a.work);
    } else {
      OtherRuns(s, a);
    }
  }

  lemma AtHookBound(db: Db, id: Id, d: Deployment, pc: Pc, work: Work)
    ensures pc.AtHook? && Exec(db, HookCall(id, d, pc, work)).runs != db.runs ==> pc.i < |HooksOf(d.hooks, PhaseOf(d))|
  {
    hide HooksOf;
  }

  lemma OrderStays(rows: seq<Deployment>, rows': seq<Deployment>, runs: map<RunKey, HookRun>, after: map<RunKey, HookRun>, k: RunKey)
    requires RunInOrder(rows, runs, k) && RunsKept(runs, after)
    requires k.dep < |rows'| && rows'[k.dep].hooks == rows[k.dep].hooks
    ensures RunInOrder(rows', after, k)
  {
    var hooks := HooksOf(rows[k.dep].hooks, k.phase);
    var i :| 0 <= i < |hooks| && hooks[i].position == k.position && DoneBefore(runs, k.dep, k.phase, hooks, i);
    DoneStays(runs, after, k.dep, k.phase, hooks, i);
  }

  lemma PhaseStays(runs: map<RunKey, HookRun>, after: map<RunKey, HookRun>, id: Id, d: Deployment, e: Deployment, phase: Phase)
    requires RunsKept(runs, after) && PhaseSucceeded(runs, id, d, phase) && e.hooks == d.hooks
    ensures PhaseSucceeded(after, id, e, phase)
  {
    DoneStays(runs, after, id, phase, HooksOf(d.hooks, phase), |HooksOf(d.hooks, phase)|);
  }

  lemma HooksStay(db: Db, c: Store.Call, i: Id)
    requires i < |db.rows|
    ensures i < |Exec(db, c).rows| && Exec(db, c).rows[i].hooks == db.rows[i].hooks
  {
    ExecGrows(db, c);
    assert RowGrows(db.rows[i], Exec(db, c).rows[i]);
  }

  lemma NextRunsInOrder(p: N.Plan, s: Sys, a: Action)
    requires Copies(s) && Hooked(s)
    ensures var after := Exec(s.db, CallOf(s, a)); RunsInOrder(after.rows, after.runs)
  {
    var after := Exec(s.db, CallOf(s, a));
    CallKeepsRuns(p, s, a);
    forall k | k in after.runs
      ensures RunInOrder(after.rows, after.runs, k)
    {
      if k in s.db.runs {
        HooksStay(s.db, CallOf(s, a), k.dep);
        assert RunInOrder(s.db.rows, s.db.runs, k);
        hide *;
        OrderStays(s.db.rows, after.rows, s.db.runs, after.runs, k);
      } else {
        var w := s.workers[a.id];
        assert RowGrows(w.d, s.db.rows[a.id]) && Knows(s.db.runs, s.sent, a.id, w.d, w.pc);
        HooksStay(s.db, CallOf(s, a), a.id);
        FirstRun(s.db.rows, s.db.runs, s.sent, a.id, w.d, w.pc);
        hide *;
        OrderStays(s.db.rows, after.rows, s.db.runs, after.runs, k);
      }
    }
    hide *;
    AllInOrder(after.rows, after.runs);
  }

  lemma AllInOrder(rows: seq<Deployment>, runs: map<RunKey, HookRun>)
    requires forall k :: k in runs ==> RunInOrder(rows, runs, k)
    requires forall k :: k in runs && runs[k].child.Some? ==> runs[k].state != Dispatching
    ensures RunsInOrder(rows, runs)
  {
    hide RunInOrder;
  }

  lemma FirstRun(rows: seq<Deployment>, runs: map<RunKey, HookRun>, sent: seq<RunKey>, id: Id, d: Deployment, pc: Pc)
    requires id < |rows| && RowGrows(d, rows[id]) && pc.AtHook? && Knows(runs, sent, id, d, pc) && pc.i < |HooksOf(d.hooks, PhaseOf(d))|
    ensures RunInOrder(rows, runs, KeyOf(id, d, pc.i))
  {
    assert HooksOf(rows[id].hooks, PhaseOf(d))[pc.i].position == KeyOf(id, d, pc.i).position;
  }

  lemma NextSentOnce(p: N.Plan, s: Sys, a: Action)
    requires Hooked(s)
    ensures SentOnce(Exec(s.db, CallOf(s, a)).runs, SentAfter(p, s, a))
  {
    hide *;
    var after, e := Exec(s.db, CallOf(s, a)).runs, EffectOf(p, s, a);
    SentIs(p, s, a);
    CallKeepsRuns(p, s, a);
    if HookAction(s, a) {
      HookWorker(s, a);
      var w := s.workers[a.id];
      HookActionIs(p, s, a);
      DispatchUnsent(s.db, s.sent, a.id, w.d, w.pc, a.work);
    } else {
      OtherDispatch(p, s, a);
    }
    SentStays(s.db.runs, after, s.sent, e.dispatch);
  }

  lemma SentIs(p: N.Plan, s: Sys, a: Action)
    requires hide *; Hooked(s)
    ensures SentOnce(s.db.runs, s.sent)
    ensures var e := EffectOf(p, s, a); SentAfter(p, s, a) == if e.dispatch.Some? then s.sent + [e.dispatch.value] else s.sent
  {
    hide EffectOf, Knows, RunInOrder, SentOnce;
  }

  lemma HookWorker(s: Sys, a: Action)
    requires hide *; Hooked(s) && HookAction(s, a)
    ensures a.Step? && a.id in s.workers && s.workers[a.id].d.state in {PreHook, PostHook}
    ensures var w := s.workers[a.id]; Knows(s.db.runs, s.sent, a.id, w.d, w.pc)
  {
    hide Knows, RunInOrder, SentOnce, EventsEarned;
  }

  lemma SentStays(runs: map<RunKey, HookRun>, after: map<RunKey, HookRun>, sent: seq<RunKey>, k: Option<RunKey>)
    requires SentOnce(runs, sent) && RunsKept(runs, after)
    requires k.Some? ==> k.value !in sent && k.value in runs && runs[k.value].state == Running
    ensures SentOnce(after, if k.Some? then sent + [k.value] else sent)
  {
    hide Terminal;
  }

  /** What is dispatched was not before, and its run is saved as running. */
  lemma DispatchUnsent(db: Db, sent: seq<RunKey>, id: Id, d: Deployment, pc: Pc, work: Work)
    requires Knows(db.runs, sent, id, d, pc)
    ensures var e := HookStep(db.runs, id, d, pc, work);
      e.dispatch.Some? ==>
        && e.dispatch.value !in sent && e.dispatch.value in db.runs && db.runs[e.dispatch.value].state == Running
        && e.dispatch.value.dep == id
  {
    hide HooksOf, DoneBefore;
  }

  /** Other workers' keys are of other deployments: their knowledge stands. */
  lemma KnowsStays(runs: map<RunKey, HookRun>, after: map<RunKey, HookRun>, sent: seq<RunKey>, sent': seq<RunKey>, id: Id, d: Deployment, pc: Pc)
    requires Knows(runs, sent, id, d, pc) && RunsKept(runs, after)
    requires forall k :: k in runs && k.dep == id ==> after[k] == runs[k]
    requires forall k :: k in sent' && k.dep == id ==> k in sent
    ensures Knows(after, sent', id, d, pc)
  {
    var hooks, phase := HooksOf(d.hooks, PhaseOf(d)), PhaseOf(d);
    forall n: nat | n <= |hooks| && DoneBefore(runs, id, phase, hooks, n)
      ensures DoneBefore(after, id, phase, hooks, n)
    {
      DoneStays(runs, after, id, phase, hooks, n);
    }
    hide HooksOf, DoneBefore;
  }

  lemma SentKeys(p: N.Plan, s: Sys, a: Action)
    requires Hooked(s)
    ensures forall k :: k in SentAfter(p, s, a) && k !in s.sent ==> HookAction(s, a) && k.dep == a.id
  {
    hide HookStep, EffectOf, Knows, RunInOrder, SentOnce, EventsEarned;
    if HookAction(s, a) {
      var w := s.workers[a.id];
      HookActionIs(p, s, a);
      DispatchUnsent(s.db, s.sent, a.id, w.d, w.pc, a.work);
    } else {
      OtherDispatch(p, s, a);
    }
  }

  lemma StepEffect(p: N.Plan, s: Sys, a: Action)
    requires hide *; a.Step? && a.id in s.workers
    ensures EffectOf(p, s, a) == Worked(p, s, a.id, s.workers[a.id], a.work)
  {
    hide Worked;
  }

  lemma WorkedState(p: N.Plan, s: Sys, id: Id, w: Worker, work: Work)
    ensures hide *; var e := Worked(p, s, id, w, work); e.next.Some? ==> e.next.value.d.state == w.d.state
  {
    hide RegisterStep, HealthStep, HookStep;
  }

  lemma OwnKnows(p: N.Plan, s: Sys, a: Action)
    requires Hooked(s) && HookAction(s, a)
    ensures var e := EffectOf(p, s, a);
      e.next.Some? ==> Knows(Exec(s.db, CallOf(s, a)).runs, SentAfter(p, s, a), a.id, e.next.value.d, e.next.value.pc)
  {
    hide Exec, CallOf, EffectOf, HookStep, HookCall, Knows, RunInOrder, EventsEarned;
    var w := s.workers[a.id];
    assert Knows(s.db.runs, s.sent, a.id, w.d, w.pc) && SentOnce(s.db.runs, s.sent) && RunsInOrder(s.db.rows, s.db.runs);
    HookActionIs(p, s, a);
    StepKnows(s.db, s.sent, a.id, w.d, w.pc, a.work);
  }

  /** A worker past a Move step has stopped, or not moved. */
  lemma MovedOn(p: N.Plan, s: Sys, a: Action)
    requires hide *; a.Step? && a.id in s.workers && s.workers[a.id].d.state in {PreHook, PostHook} && !HookAction(s, a)
    ensures var e := EffectOf(p, s, a); e.next.Some? ==> e.next.value == s.workers[a.id]
  {
  }

  lemma NextWorkerKnows(p: N.Plan, s: Sys, a: Action, id: Id)
    requires hide *; Copies(s) && Hooked(s) && id in WorkersAfter(p, s, a) && WorkersAfter(p, s, a)[id].d.state in {PreHook, PostHook}
    ensures Knows(Exec(s.db, CallOf(s, a)).runs, SentAfter(p, s, a), id, WorkersAfter(p, s, a)[id].d, WorkersAfter(p, s, a)[id].pc)
  {
    hide *;
    var after, sent, w := Exec(s.db, CallOf(s, a)).runs, SentAfter(p, s, a), WorkersAfter(p, s, a)[id];
    CallKeepsRuns(p, s, a);
    WorkerOrigin(p, s, a, id);
    SentKeys(p, s, a);
    ReadyKnows(after, sent, id, w.d);
    if id in s.workers {
      WorkerKnew(p, s, a, id);
      if HookAction(s, a) && id == a.id {
        OwnKnows(p, s, a);
      } else if w == s.workers[id] {
        KnowsStays(s.db.runs, after, s.sent, sent, id, w.d, w.pc);
      }
    }
  }

  lemma ReadyKnows(runs: map<RunKey, HookRun>, sent: seq<RunKey>, id: Id, d: Deployment)
    ensures Knows(runs, sent, id, d, Ready)
  {
  }

  lemma WorkerKnew(p: N.Plan, s: Sys, a: Action, id: Id)
    requires hide *; Hooked(s) && id in s.workers
    ensures s.workers[id].d.state in {PreHook, PostHook} ==> Knows(s.db.runs, s.sent, id, s.workers[id].d, s.workers[id].pc)
    ensures a.Step? && a.id == id ==>
              var e := Worked(p, s, id, s.workers[id], a.work);
              && EffectOf(p, s, a) == e
              && (e.next.Some? ==>
                    && e.next.value.d.state == s.workers[id].d.state
                    && (s.workers[id].d.state in {PreHook, PostHook} && !HookAction(s, a) ==> e.next.value == s.workers[id]))
    ensures HookAction(s, a) ==> a.Step?
  {
    if a.Step? && a.id == id {
      WorkedState(p, s, id, s.workers[id], a.work);
      StepEffect(p, s, a);
      if s.workers[id].d.state in {PreHook, PostHook} && !HookAction(s, a) { MovedOn(p, s, a); }
    }
    hide Knows, RunInOrder, SentOnce, EventsEarned, Worked, EffectOf;
  }

  // -- rows and events -------------------------------------------------------------------------

  lemma NewFromGit(s: Sys, a: Action)
    requires hide *; CfgKept(s.det) && CallOf(s, a).Create?
    ensures FromGit(CallOf(s, a).d)
  {
    CreateOrigin(s, a);
    var det := s.det;
    var d := CallOf(s, a).d;
    hide CallOf;
    BornFromGit(det.t.key, det.t.g, det.t.hold, det.t.liftedBy, det.latestId, det.latest, det.o.index, det.o.job, det.o.diff, d);
  }

  /** What detection creates comes from what git declares. */
  lemma BornFromGit(key: Key, g: GitJob, hold: Option<Hold>, liftedBy: Option<Actor>, latestId: Option<Id>, latest: Option<Deployment>,
                    index: nat, planned: N.Job, diff: Option<N.DiffHash>, d: Deployment)
    requires latestId.Some? <==> latest.Some?
    requires planned.cfg == g.job.cfg
    requires NewDeployment(key, g, hold, liftedBy, latestId, latest, index, planned, diff) == Some(d)
    ensures FromGit(d)
  {
    assert d.hooks == Frozen(g) && d.specHash == Decisions.HashOf(g) && d.spec.cfg == g.job.cfg && (Problem(g) ==> d.state == Failed);
  }

  lemma NextRowsFromGit(s: Sys, a: Action)
    requires Hooked(s)
    ensures RowsFromGit(Exec(s.db, CallOf(s, a)).rows)
  {
    hide *;
    var c := CallOf(s, a);
    var after := Exec(s.db, c);
    HookedCfg(s);
    if c.Create? { NewFromGit(s, a); }
    RowsAppended(s.db, c);
    forall i | 0 <= i < |after.rows|
      ensures FromGit(after.rows[i])
    {
      if i < |s.db.rows| {
        WasFromGit(s.db.rows, i);
        GitStays(s.db, c, i);
        FromGitGrows(s.db.rows[i], after.rows[i]);
      } else {
        var e := after.rows[i];
        FromGitGrows(c.d, e);
      }
    }
    AllFromGit(after.rows);
  }

  lemma WasFromGit(rows: seq<Deployment>, i: nat)
    requires RowsFromGit(rows) && i < |rows|
    ensures FromGit(rows[i])
  {
    hide FromGit;
  }

  lemma AllFromGit(rows: seq<Deployment>)
    requires forall i :: 0 <= i < |rows| ==> FromGit(rows[i])
    ensures RowsFromGit(rows)
  {
    hide FromGit;
  }

  lemma GitStays(db: Db, c: Store.Call, i: Id)
    requires i < |db.rows|
    ensures i < |Exec(db, c).rows|
    ensures var d, e := db.rows[i], Exec(db, c).rows[i];
      e.hooks == d.hooks && e.specHash == d.specHash && e.spec == d.spec && (d.state == Failed ==> e.state == Failed)
  {
    ExecGrows(db, c);
    assert RowGrows(db.rows[i], Exec(db, c).rows[i]);
  }

  lemma FromGitGrows(d: Deployment, e: Deployment)
    requires FromGit(d) && e.hooks == d.hooks && e.specHash == d.specHash && e.spec == d.spec
    requires d.state == Failed ==> e.state == Failed
    ensures FromGit(e)
  {
    var g :| d.hooks == Frozen(g) && d.specHash == Decisions.HashOf(g) && d.spec.cfg == g.job.cfg && (Problem(g) ==> d.state == Failed);
    assert e.hooks == Frozen(g) && e.specHash == Decisions.HashOf(g) && e.spec.cfg == g.job.cfg && (Problem(g) ==> e.state == Failed);
  }

  /** A transition that ends a hook phase with success comes from a step that saw it succeed. */
  lemma PhaseEndEarned(s: Sys, a: Action)
    requires hide *; Copies(s) && Hooked(s) && CallOf(s, a).Transition? && Writes(s.db, CallOf(s, a))
    requires var c := CallOf(s, a); EndsPhase(Event(c.id, Some(c.from), c.to, c.actor))
    ensures var c := CallOf(s, a);
      c.id < |s.db.rows| && PhaseSucceeded(s.db.runs, c.id, s.db.rows[c.id], if c.to == Applying then Pre else Post)
  {
    TransitionOrigin(s, a);
    assert DetectionPast(s.db.rows, s.det);
    if a.Settle? || a.Sweep? { CycleMovesWaiting(s, a); }
    hide CallOf, Writes, RunsKept, PhaseSucceeded;
    var c := CallOf(s, a);
    assert c.from in {PreHook, PostHook};
    assert a.Step? && c.id == a.id;
    var w := s.workers[a.id];
    assert RowGrows(w.d, s.db.rows[a.id]) && Knows(s.db.runs, s.sent, a.id, w.d, w.pc);
    assert w.d.state == c.from && w.pc == Deciding(c.to);
  }

  lemma NextEventsEarned(p: N.Plan, s: Sys, a: Action)
    requires Copies(s) && Hooked(s)
    ensures EventsEarned(Exec(s.db, CallOf(s, a)))
  {
    hide Exec, CallOf, PhaseSucceeded, EventsEarned, RunsKept;
    var c := CallOf(s, a);
    var after := Exec(s.db, c);
    CallKeepsRuns(p, s, a);
    EventsAfter(s.db, c);
    assert EventsEarned(s.db);
    forall i | 0 <= i < |after.events| && EndsPhase(after.events[i])
      ensures Earned(after, i)
    {
      if i < |s.db.events| {
        WasEarned(s.db, i);
        var id := s.db.events[i].dep;
        HooksStay(s.db, c, id);
        PhaseStays(s.db.runs, after.runs, id, s.db.rows[id], after.rows[id], EndedPhase(s.db.events[i]));
      } else {
        PhaseEndEarned(s, a);
        HooksStay(s.db, c, c.id);
        PhaseStays(s.db.runs, after.runs, c.id, s.db.rows[c.id], after.rows[c.id], EndedPhase(after.events[i]));
      }
    }
    AllEarned(after);
  }

  ghost predicate Earned(db: Db, i: nat)
    requires i < |db.events|
  {
    && db.events[i].dep < |db.rows|
    && PhaseSucceeded(db.runs, db.events[i].dep, db.rows[db.events[i].dep], EndedPhase(db.events[i]))
  }

  lemma WasEarned(db: Db, i: nat)
    requires EventsEarned(db) && i < |db.events| && EndsPhase(db.events[i])
    ensures Earned(db, i)
  {
  }

  lemma AllEarned(db: Db)
    requires forall i :: 0 <= i < |db.events| && EndsPhase(db.events[i]) ==> Earned(db, i)
    ensures EventsEarned(db)
  {
    forall i | 0 <= i < |db.events| && EndsPhase(db.events[i])
      ensures db.events[i].dep < |db.rows| && PhaseSucceeded(db.runs, db.events[i].dep, db.rows[db.events[i].dep], EndedPhase(db.events[i]))
    {
      assert Earned(db, i);
    }
  }

  /** Of the events a call logs, only a transition's can end a phase. */
  lemma EventsAfter(db: Db, c: Store.Call)
    ensures var after := Exec(db, c).events;
      && db.events <= after
      && forall i :: |db.events| <= i < |after| && EndsPhase(after[i]) ==>
           c.Transition? && Writes(db, c) && after[i] == Event(c.id, Some(c.from), c.to, c.actor)
  {
  }

  lemma HookedParts(s: Sys)
    requires CfgKept(s.det) && RowsFromGit(s.db.rows) && RunsInOrder(s.db.rows, s.db.runs) && SentOnce(s.db.runs, s.sent) && EventsEarned(s.db)
    requires forall id :: id in s.workers && s.workers[id].d.state in {PreHook, PostHook} ==> Knows(s.db.runs, s.sent, id, s.workers[id].d, s.workers[id].pc)
    ensures Hooked(s)
  {
    hide CfgKept, RowsFromGit, RunsInOrder, SentOnce, EventsEarned, Knows;
  }

  lemma HookedCfg(s: Sys)
    requires Hooked(s)
    ensures CfgKept(s.det) && RowsFromGit(s.db.rows)
  {
    hide CfgKept, RowsFromGit, RunsInOrder, SentOnce, EventsEarned, Knows;
  }

  lemma NextHooked(p: N.Plan, s: Sys, a: Action)
    requires Copies(s) && Hooked(s)
    ensures Hooked(Next(p, s, a))
  {
    hide *;
    NextParts(p, s, a);
    HookedCfg(s);
    NextCfgKept(p, s, a);
    NextRowsFromGit(s, a);
    NextRunsInOrder(p, s, a);
    NextSentOnce(p, s, a);
    NextEventsEarned(p, s, a);
    forall id | id in WorkersAfter(p, s, a) && WorkersAfter(p, s, a)[id].d.state in {PreHook, PostHook} {
      NextWorkerKnows(p, s, a, id);
    }
    HookedParts(Next(p, s, a));
  }

  lemma {:induction false} RunHooked(p: N.Plan, s: Sys, acts: seq<Action>)
    requires Initial(s)
    ensures Hooked(Run(p, s, acts))
  {
    hide *;
    if acts == [] {
      RunStart(p, s);
      InitialHooked(s);
    } else {
      var most := acts[..|acts| - 1];
      RunHooked(p, s, most);
      RunBasic(p, s, most);
      BasicParts(Run(p, s, most));
      RunLast(p, s, acts);
      NextHooked(p, Run(p, s, most), acts[|acts| - 1]);
    }
  }

  lemma InitialHooked(s: Sys)
    requires Initial(s)
    ensures Hooked(s)
  {
  }

  // -- the theorems ------------------------------------------------------------------------------

  /** Over any run, crashes and all, nothing is dispatched twice for one hook of one deployment. */
  lemma DispatchedOnce(p: N.Plan, s: Sys, acts: seq<Action>, i: nat, j: nat)
    requires hide *; Initial(s) && i < j < |Run(p, s, acts).sent|
    ensures Run(p, s, acts).sent[i] != Run(p, s, acts).sent[j]
  {
    RunHooked(p, s, acts);
    hide Run, Initial;
  }

  /** The next step dispatches the hook run k. */
  predicate Dispatches(p: N.Plan, s: Sys, a: Action, k: RunKey) {
    EffectOf(p, s, a).dispatch == Some(k)
  }

  /**
   A hook is dispatched with its run saved as running and never dispatched before, and only
   after every hook declared before it in its phase has succeeded.
  */
  lemma DispatchesInOrder(p: N.Plan, s: Sys, acts: seq<Action>, a: Action, k: RunKey)
    requires hide *; Initial(s) && Dispatches(p, Run(p, s, acts), a, k)
    ensures var now := Run(p, s, acts);
      && k !in now.sent && k in now.db.runs && now.db.runs[k].state == Running && k.dep < |now.db.rows|
      && var hooks := HooksOf(now.db.rows[k.dep].hooks, k.phase);
         exists i :: 0 <= i < |hooks| && hooks[i].position == k.position && InOrder(hooks) && DoneBefore(now.db.runs, k.dep, k.phase, hooks, i)
  {
    var now := Run(p, s, acts);
    RunHooked(p, s, acts);
    hide Run, Initial;
    if !HookAction(now, a) { OtherDispatch(p, now, a); }
    HookWorker(now, a);
    HookActionIs(p, now, a);
    var w := now.workers[a.id];
    DispatchUnsent(now.db, now.sent, a.id, w.d, w.pc, a.work);
    hide *;
    RunOrder(now, k);
  }

  lemma RunOrder(s: Sys, k: RunKey)
    requires hide *; Hooked(s) && k in s.db.runs
    ensures k.dep < |s.db.rows|
    ensures var hooks := HooksOf(s.db.rows[k.dep].hooks, k.phase);
      exists i :: 0 <= i < |hooks| && hooks[i].position == k.position && InOrder(hooks) && DoneBefore(s.db.runs, k.dep, k.phase, hooks, i)
  {
    hide Knows, EventsEarned, SentOnce;
    assert RunInOrder(s.db.rows, s.db.runs, k);
    assert FromGit(s.db.rows[k.dep]);
    var g :| s.db.rows[k.dep].hooks == Frozen(g) && s.db.rows[k.dep].specHash == Decisions.HashOf(g);
    FrozenPhases(g);
    var hooks := HooksOf(s.db.rows[k.dep].hooks, k.phase);
    var i :| 0 <= i < |hooks| && hooks[i].position == k.position && DoneBefore(s.db.runs, k.dep, k.phase, hooks, i);
    hide FrozenFrom, HooksOf, DoneBefore;
    assert InOrder(hooks) by { assert k.phase == Pre || k.phase == Post; }
  }

  /** A finished run never changes. */
  lemma {:induction false} FinishedRunStays(p: N.Plan, s: Sys, acts: seq<Action>, i: nat, k: RunKey)
    requires hide *; Initial(s) && i <= |acts|
    requires var was := Run(p, s, acts[..i]).db.runs; k in was && Terminal(was[k].state)
    ensures k in Run(p, s, acts).db.runs && Run(p, s, acts).db.runs[k] == Run(p, s, acts[..i]).db.runs[k]
  {
    hide *;
    if i == |acts| {
      assert acts[..i] == acts;
    } else {
      var most := acts[..|acts| - 1];
      assert most[..i] == acts[..i];
      FinishedRunStays(p, s, most, i, k);
      RunHooked(p, s, most);
      RunLast(p, s, acts);
      hide Run, Hooked, Next;
      KeepsFinished(p, Run(p, s, most), acts[|acts| - 1], k);
    }
  }

  lemma KeepsFinished(p: N.Plan, s: Sys, a: Action, k: RunKey)
    requires hide *; Hooked(s) && k in s.db.runs && Terminal(s.db.runs[k].state)
    ensures k in Next(p, s, a).db.runs && Next(p, s, a).db.runs[k] == s.db.runs[k]
  {
    hide CallOf, Exec, Next, Hooked, HooksOf, HookCall, WorkCall, HookStep;
    NextParts(p, s, a);
    CallKeepsRuns(p, s, a);
  }

  /**
   A deployment went from pre_hook to applying, or from post_hook to completed, only with
   every hook it froze for that phase succeeded, and at least one.
  */
  lemma PhaseEndsWithSuccess(p: N.Plan, s: Sys, acts: seq<Action>, i: nat)
    requires hide *; Initial(s) && i < |Run(p, s, acts).db.events| && EndsPhase(Run(p, s, acts).db.events[i])
    ensures var db := Run(p, s, acts).db;
      var e := db.events[i];
      e.dep < |db.rows| && PhaseSucceeded(db.runs, e.dep, db.rows[e.dep], EndedPhase(e))
  {
    RunHooked(p, s, acts);
    assert EventsEarned(Run(p, s, acts).db);
    hide Run, PhaseSucceeded, Initial;
  }

  /** Hook by hook, the frozen hooks of a phase are the ones declared, with the specs of the snapshot. */
  ghost predicate FrozeDeclared(d: Deployment, g: GitJob, phase: Phase) {
    var h, ids := HooksOf(d.hooks, phase), Declared(g.job.cfg, phase);
    && |h| == |ids|
    && forall i :: 0 <= i < |ids| ==>
         ids[i] in g.hookFiles && g.hookFiles[ids[i]].Spec? && h[i] == FrozenHook(phase, i, ids[i], g.hookFiles[ids[i]].text)
  }

  /** A deployment that can be applied, or was, froze exactly the hooks its job declares, under its spec hash. */
  lemma AppliesWhatItDeclares(p: N.Plan, s: Sys, acts: seq<Action>, id: Id)
    requires hide *; Initial(s) && id < |Run(p, s, acts).db.rows| && Run(p, s, acts).db.rows[id].state != Failed
    ensures var d := Run(p, s, acts).db.rows[id];
      exists g :: d.specHash == Decisions.HashOf(g) && d.spec.cfg == g.job.cfg && FrozeDeclared(d, g, Pre) && FrozeDeclared(d, g, Post)
  {
    hide *;
    RunHooked(p, s, acts);
    HookedFromGit(Run(p, s, acts), id);
    FrozeItAll(Run(p, s, acts).db.rows[id]);
  }

  lemma HookedFromGit(s: Sys, id: Id)
    requires Hooked(s) && id < |s.db.rows|
    ensures FromGit(s.db.rows[id])
  {
    hide FromGit;
  }

  lemma FrozeItAll(d: Deployment)
    requires FromGit(d) && d.state != Failed
    ensures exists g :: d.specHash == Decisions.HashOf(g) && d.spec.cfg == g.job.cfg && FrozeDeclared(d, g, Pre) && FrozeDeclared(d, g, Post)
  {
    hide Problem, Decisions.HashOf, Frozen, FrozeDeclared;
    var g :| d.hooks == Frozen(g) && d.specHash == Decisions.HashOf(g) && d.spec.cfg == g.job.cfg && (Problem(g) ==> d.state == Failed);
    Froze(d, g, Pre);
    Froze(d, g, Post);
  }

  lemma Froze(d: Deployment, g: GitJob, phase: Phase)
    requires !Problem(g) && d.hooks == Frozen(g)
    ensures FrozeDeclared(d, g, phase)
  {
    FrozenAreDeclared(g, phase);
    hide Problem, Frozen, HooksOf, Declared;
  }
}
