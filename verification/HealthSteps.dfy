/**
 stepHealth: the wait for a registered job to become healthy, in place and tied to the steps
 of the machine, and exactly how a step of it ends, whatever Nomad answers.
*/
module HealthSteps {
  import opened Options
  import opened Store
  import opened Machine
  import opened Base
  import N = Nomad
  import Database
  import Engine
  import Hooks
  import Health

  // -- what a step finds -----------------------------------------------------------------------

  datatype Status = Successful | Broken | Rolling | Unknown

  /** Nomad's own deployment of a job: the index of the job it rolls out, and how it goes. */
  datatype Rollout = Rollout(index: nat, status: Status, groups: seq<Health.Group>)

  /**
   What a step finds: whether its bound is past, Nomad's deployment if it answers, whether it
   answers the read of the job and the plan, whether that job never has allocations, those it has
   and whether an evaluation is left for them, if it answers.
  */
  datatype Findings = Findings(
    past: bool, rollout: Option<Option<Rollout>>, read: bool, plan: bool, idle: bool,
    allocs: Option<seq<Health.Alloc>>, unfinished: Option<bool>)

  /** The verdict of the canaries. */
  function CanaryVerdict(groups: seq<Health.Group>): Health.Verdict {
    if forall g :: g in groups ==> !Health.Manual(g) then Health.Waiting
    else if forall g :: g in groups && Health.Manual(g) ==> Health.IsPromoted(g) then Health.Promoted
    else if forall g :: g in groups && Health.Manual(g) ==> Health.IsPromoted(g) || Health.Ready(g) then Health.AwaitingPromotion
    else Health.Waiting
  }

  /** The verdict of the allocations, those of other versions aside. */
  function AllocsVerdict(allocs: seq<Health.Alloc>, version: nat, unfinished: Option<bool>): Health.Verdict {
    if exists a :: a in allocs && Health.Ours(a, version) && Health.Down(a) then
      if unfinished == Some(false) then Health.Unhealthy else Health.Waiting
    else if (exists a :: a in allocs && Health.Ours(a, version)) && forall a :: a in allocs && Health.Ours(a, version) ==> Health.Settled(a)
    then Health.Healthy
    else Health.Waiting
  }

  function RolloutVerdict(r: Rollout): Health.Verdict {
    match r.status
    case Successful => Health.Healthy
    case Broken => Health.Unhealthy
    case Rolling => CanaryVerdict(r.groups)
    case Unknown => Health.Waiting
  }

  function LiveVerdict(d: Deployment, live: LiveJob, w: Findings): Health.Verdict {
    if w.idle then Health.Healthy
    else if w.allocs.None? then Health.Waiting
    else AllocsVerdict(w.allocs.value, d.version.GetOr(live.version), w.unfinished)
  }

  // -- the end of a step --------------------------------------------------------------------------

  /** A deployment that waits for a person has no bound. */
  predicate Awaits(d: Deployment) {
    d.waiting && !d.promoted
  }

  datatype HealthEnd = MovedTo(to: State) | MarksWait | MarksPromoted | Kept

  function OnVerdict(d: Deployment, v: Health.Verdict): HealthEnd {
    match v
    case Healthy => MovedTo(if d.spec.cfg.post != [] then PostHook else Completed)
    case Unhealthy => MovedTo(Failed)
    case AwaitingPromotion => MarksWait
    case Promoted => if Awaits(d) then MarksPromoted else Kept
    case Waiting => Kept
  }

  /** The live job is the spec, but for the counts of the groups that scale. */
  predicate OnlyScaled(p: N.Plan, d: Deployment, live: LiveJob) {
    d.version.Some? && !p(N.Substitute(d.spec, live.job), Some(live.job)).changed
  }

  /** The index a step follows a scale to, if it does, and how it ends. */
  function HealthEnds(p: N.Plan, db: Db, n: Cluster, id: Id, d: Deployment, w: Findings): (Option<nat>, HealthEnd) {
    if !Awaits(d) && w.past then (None, MovedTo(Failed))
    else if w.rollout.None? then (None, Kept)
    else if w.rollout.value.Some? && w.rollout.value.value.index == AppliedIndex(d) then (None, OnVerdict(d, RolloutVerdict(w.rollout.value.value)))
    else if !w.read then (None, Kept)
    else
      var now := LiveOf(n, d.key);
      if now.None? then (None, MovedTo(Failed))
      else LiveEnds(p, db, id, d, now.value, w)
  }

  function LiveEnds(p: N.Plan, db: Db, id: Id, d: Deployment, live: LiveJob, w: Findings): (Option<nat>, HealthEnd) {
    if live.index == AppliedIndex(d) then (None, OnVerdict(d, LiveVerdict(d, live, w)))
    else if d.version.Some? && !w.plan then (None, Kept)
    else if !OnlyScaled(p, d, live) then (None, MovedTo(Failed))
    else if ErrorOf(db, Store.MoveApplied(id, AppliedIndex(d), live.index)).Some? then (None, Kept)
    else (Some(live.index), OnVerdict(d, LiveVerdict(d, live, w)))
  }

  function StoreAfter(db: Db, id: Id, d: Deployment, followed: Option<nat>, end: HealthEnd): Db {
    var moved := if followed.Some? then Exec(db, Store.MoveApplied(id, AppliedIndex(d), followed.value)) else db;
    match end
    case MovedTo(to) => Exec(moved, Transition(id, d.state, to, Nops, ErrorText(to), false))
    case MarksWait => Exec(moved, MarkWaiting(id))
    case MarksPromoted => Exec(moved, MarkPromoted(id))
    case Kept => moved
  }

  /** Every allocation of the version or after it is settled, and there is one. */
  predicate AllSettled(allocs: seq<Health.Alloc>, version: nat) {
    && (exists a :: a in allocs && a.version >= version)
    && (forall a :: a in allocs && a.version >= version ==> a.next != "" || a.client == "running" || a.client == "complete")
  }

  /** One of them failed or was lost, neither replaced nor to be rescheduled. */
  predicate OneDown(allocs: seq<Health.Alloc>, version: nat) {
    exists a :: a in allocs && a.version >= version && a.client in {"failed", "lost"} && a.next == "" && a.followup == ""
  }

  lemma AllocsVerdictIs(allocs: seq<Health.Alloc>, version: nat, unfinished: Option<bool>)
    ensures var v := AllocsVerdict(allocs, version, unfinished);
      && (v == Health.Healthy <==> AllSettled(allocs, version))
      && (v == Health.Unhealthy <==> unfinished == Some(false) && OneDown(allocs, version))
      && v in {Health.Healthy, Health.Unhealthy, Health.Waiting}
  {
    if a :| a in allocs && Health.Ours(a, version) && Health.Down(a) {
      DownNotSettled(a);
      assert a.client in {"failed", "lost"};
    }
    if a :| a in allocs && a.version >= version && a.client in {"failed", "lost"} && a.next == "" && a.followup == "" {
      assert Health.Ours(a, version) && Health.Down(a);
    }
  }

  lemma DownNotSettled(a: Health.Alloc)
    requires Health.Down(a)
    ensures !Health.Settled(a)
  {
    Health.EndedNotSettled(a);
  }

  /** A live job that moved is followed only as a scale, and only if the row is still as it was. */
  predicate Follows(p: N.Plan, db: Db, id: Id, d: Deployment, live: LiveJob, w: Findings) {
    && live.index != AppliedIndex(d) && w.plan && OnlyScaled(p, d, live)
    && id < |db.rows| && db.rows[id].state == Applying && db.rows[id].applied == Some(AppliedIndex(d))
  }

  /**
   A step follows a scale, fails, goes on, or records a wait or a promotion, each exactly then. A
   step past its bound fails at once; else Nomad's deployment of the register decides, when there
   is one, and the live job and its allocations when there is none.
  */
  lemma HealthEndsAs(p: N.Plan, db: Db, n: Cluster, id: Id, d: Deployment, w: Findings)
    ensures var (followed, end) := HealthEnds(p, db, n, id, d, w);
      var late := w.past && (!d.waiting || d.promoted);
      var tracked := !late && w.rollout.Some? && w.rollout.value.Some? && w.rollout.value.value.index == AppliedIndex(d);
      var looks := !late && w.rollout.Some? && !tracked && w.read;
      var live := LiveOf(n, d.key);
      var follows := looks && live.Some? && Follows(p, db, id, d, live.value, w);
      var counts := looks && live.Some? && (live.value.index == AppliedIndex(d) || follows);
      && (followed == if follows then Some(live.value.index) else None)
      && (end == MovedTo(if d.spec.cfg.post != [] then PostHook else Completed) <==>
            || (tracked && w.rollout.value.value.status == Successful)
            || (counts && (w.idle || (w.allocs.Some? && AllSettled(w.allocs.value, d.version.GetOr(live.value.version))))))
      && (end == MovedTo(Failed) <==>
            || late
            || (tracked && w.rollout.value.value.status == Broken)
            || (looks && live.None?)
            || (looks && live.Some? && live.value.index != AppliedIndex(d) && !OnlyScaled(p, d, live.value) && (w.plan || d.version.None?))
            || (counts && !w.idle && w.allocs.Some? && w.unfinished == Some(false) && OneDown(w.allocs.value, d.version.GetOr(live.value.version))))
      && (end == MarksWait <==> tracked && w.rollout.value.value.status == Rolling && AwaitsPerson(w.rollout.value.value.groups))
      && (end == MarksPromoted <==>
            d.waiting && !d.promoted && tracked && w.rollout.value.value.status == Rolling && AllPromoted(w.rollout.value.value.groups))
  {
    var live := LiveOf(n, d.key);
    if live.Some? && w.allocs.Some? {
      AllocsVerdictIs(w.allocs.value, d.version.GetOr(live.value.version), w.unfinished);
    }
    hide AllocsVerdict, OnlyScaled, AllSettled, OneDown, LiveOf;
  }

  /** The canaries a person has to promote are all promoted, and there are some. */
  predicate AllPromoted(groups: seq<Health.Group>) {
    (exists g :: g in groups && Health.Manual(g)) && forall g :: g in groups && Health.Manual(g) ==> Health.IsPromoted(g)
  }

  /** One of them is not, and those are placed and healthy. */
  predicate AwaitsPerson(groups: seq<Health.Group>) {
    && (exists g :: g in groups && Health.Manual(g) && !Health.IsPromoted(g))
    && forall g :: g in groups && Health.Manual(g) ==> Health.IsPromoted(g) || Health.Ready(g)
  }

  // -- in steps of the worker -----------------------------------------------------------------------

  ghost predicate At(p: N.Plan, s: Sys, id: Id, d: Deployment, acts: seq<Action>, pc: Pc, db: Db) {
    && d.state == Applying && AppliedIndex(d) != 0
    && Run(p, s, acts) == s.(db := db, workers := s.workers[id := Worker(d, pc)])
    && (forall a :: a in acts ==> Hooks.OfWorker(a, id))
  }

  lemma AtIs(p: N.Plan, s: Sys, id: Id, d: Deployment, acts: seq<Action>, pc: Pc, db: Db)
    ensures At(p, s, id, d, acts, pc, db) <==>
      && d.state == Applying && AppliedIndex(d) != 0
      && Run(p, s, acts) == s.(db := db, workers := s.workers[id := Worker(d, pc)])
      && (forall a :: a in acts ==> Hooks.OfWorker(a, id))
  {
    hide Run;
  }

  lemma AtStart(p: N.Plan, s: Sys, id: Id, d: Deployment)
    requires s.workers == s.workers[id := Worker(d, Ready)] && d.state == Applying && AppliedIndex(d) != 0
    ensures At(p, s, id, d, [], Ready, s.db)
  {
    Engine.RunUnfold(p, s, []);
    hide *;
    AtIs(p, s, id, d, [], Ready, s.db);
  }

  /** Where a step of the wait leads. */
  lemma HealthWorkerStep(p: N.Plan, s: Sys, id: Id, d: Deployment, pc: Pc, work: Work)
    requires hide *; id in s.workers && s.workers[id] == Worker(d, pc) && d.state == Applying && AppliedIndex(d) != 0 && !work.Move?
    ensures var next := HealthStep(p, LiveOf(s.nomad, d.key), s.db, id, d, pc, work).next;
      Next(p, s, Step(id, work)) == s.(
        db := Exec(s.db, HealthCall(id, d, pc, work)),
        workers := if next.Some? then s.workers[id := next.value] else Without(s.workers, id))
  {
    hide Exec, HealthStep, HealthCall, Next;
    assert Worked(p, s, id, s.workers[id], work) == HealthStep(p, LiveOf(s.nomad, d.key), s.db, id, d, pc, work);
    Engine.WorkerStep(p, s, id, work);
  }

  lemma AtNext(p: N.Plan, s: Sys, id: Id, d: Deployment, acts: seq<Action>, pc: Pc, db: Db, work: Work, e: Deployment, next: Pc)
    requires hide *; At(p, s, id, d, acts, pc, db) && !work.Move? && e.state == Applying && AppliedIndex(e) != 0
    requires HealthStep(p, LiveOf(s.nomad, d.key), db, id, d, pc, work) == Goto(e, next)
    ensures At(p, s, id, e, acts + [Step(id, work)], next, Exec(db, HealthCall(id, d, pc, work)))
  {
    hide *;
    Engine.GoesTo(e, next);
    Hooks.OfStep(id, work);
    AtIs(p, s, id, d, acts, pc, db);
    HealthWorkerStep(p, Run(p, s, acts), id, d, pc, work);
    Engine.RunNext(p, s, acts, Step(id, work));
    Engine.SetAgain(s.workers, id, Worker(d, pc), Worker(e, next));
    AtIs(p, s, id, e, acts + [Step(id, work)], next, Exec(db, HealthCall(id, d, pc, work)));
  }

  /** The step ends with its call. */
  lemma AtStops(p: N.Plan, s: Sys, id: Id, d: Deployment, acts: seq<Action>, pc: Pc, db: Db, work: Work)
    requires hide *; At(p, s, id, d, acts, pc, db) && !work.Move?
    requires HealthStep(p, LiveOf(s.nomad, d.key), db, id, d, pc, work).next.None?
    ensures Hooks.Left(p, s, id, acts + [Step(id, work)], Exec(db, HealthCall(id, d, pc, work)), s.sent)
  {
    hide *;
    Hooks.OfStep(id, work);
    AtIs(p, s, id, d, acts, pc, db);
    HealthWorkerStep(p, Run(p, s, acts), id, d, pc, work);
    Engine.RunNext(p, s, acts, Step(id, work));
    Engine.WithoutSet(s.workers, id, Worker(d, pc));
    Hooks.LeftIs(p, s, id, acts + [Step(id, work)], Exec(db, HealthCall(id, d, pc, work)), s.sent);
  }

  /** Nothing is decided: a later step looks again. */
  lemma AtDrops(p: N.Plan, s: Sys, id: Id, d: Deployment, acts: seq<Action>, pc: Pc, db: Db)
    requires At(p, s, id, d, acts, pc, db)
    ensures Hooks.Left(p, s, id, acts + [Drop(id)], db, s.sent)
  {
    hide *;
    Hooks.OfStep(id, ReadHealth);
    AtIs(p, s, id, d, acts, pc, db);
    Hooks.DropStep(p, Run(p, s, acts), id);
    Engine.RunNext(p, s, acts, Drop(id));
    Engine.WithoutSet(s.workers, id, Worker(d, pc));
    Hooks.LeftIs(p, s, id, acts + [Drop(id)], db, s.sent);
  }

  lemma AtMoves(p: N.Plan, s: Sys, id: Id, d: Deployment, acts: seq<Action>, db: Db, to: State)
    requires At(p, s, id, d, acts, Deciding(to), db)
    ensures Hooks.Left(p, s, id, acts + [Step(id, Work.Move)], Exec(db, Transition(id, d.state, to, Nops, ErrorText(to), false)), s.sent)
  {
    hide *;
    Hooks.OfStep(id, Work.Move);
    AtIs(p, s, id, d, acts, Deciding(to), db);
    Engine.MoveStep(p, Run(p, s, acts), id, d, to);
    Engine.RunNext(p, s, acts, Step(id, Work.Move));
    Engine.WithoutSet(s.workers, id, Worker(d, Deciding(to)));
    Hooks.LeftIs(p, s, id, acts + [Step(id, Work.Move)], Exec(db, Transition(id, d.state, to, Nops, ErrorText(to), false)), s.sent);
  }

  // -- the places of the wait ---------------------------------------------------------------------------

  lemma VerdictPlaces(p: N.Plan, now: Option<LiveJob>, db: Db, id: Id, d: Deployment)
    ensures HealthStep(p, now, db, id, d, Ready, Work.Health(Failed)) == Goto(d, Deciding(Failed))
    ensures var to := if d.spec.cfg.post != [] then PostHook else Completed;
      HealthStep(p, now, db, id, d, Ready, Work.Health(to)) == Goto(d, Deciding(to))
    ensures forall to :: HealthCall(id, d, Ready, Work.Health(to)) == NoCall
    ensures HealthStep(p, now, db, id, d, Ready, SeeWaiting).next.None? && HealthStep(p, now, db, id, d, Ready, SeePromoted).next.None?
    ensures HealthCall(id, d, Ready, SeeWaiting) == MarkWaiting(id) && HealthCall(id, d, Ready, SeePromoted) == MarkPromoted(id)
  {
    hide ErrorOf, N.HashOf, N.Substitute;
  }

  lemma ReadPlaces(p: N.Plan, now: Option<LiveJob>, db: Db, id: Id, d: Deployment, seen: LiveJob)
    ensures HealthStep(p, now, db, id, d, Ready, ReadHealth) == Goto(d, if now.None? then Deciding(Failed) else HealthRead(now.value))
    ensures HealthCall(id, d, Ready, ReadHealth) == HealthCall(id, d, HealthRead(seen), PlanHealth) == NoCall
    ensures HealthStep(p, Some(seen), db, id, d, HealthRead(seen), PlanHealth) ==
      Goto(d, if seen.index == AppliedIndex(d) then Ready
              else if p(N.Substitute(d.spec, seen.job), Some(seen.job)).changed then Deciding(Failed)
              else Following(seen.index))
  {
    hide ErrorOf, N.Substitute;
  }

  lemma FollowPlaces(p: N.Plan, now: Option<LiveJob>, db: Db, id: Id, d: Deployment, index: nat)
    ensures HealthCall(id, d, Following(index), Work.MoveApplied) == Store.MoveApplied(id, AppliedIndex(d), index)
    ensures HealthStep(p, now, db, id, d, Following(index), Work.MoveApplied) ==
      if ErrorOf(db, Store.MoveApplied(id, AppliedIndex(d), index)).None? then Goto(d.(applied := Some(index)), Ready) else STOP
    ensures STOP.next.None?
  {
    hide ErrorOf, N.HashOf, N.Substitute;
  }

  // -- stepHealth --------------------------------------------------------------------------------------------

  method CanaryHealth(groups: seq<Health.Group>) returns (v: Health.Verdict)
    ensures v == CanaryVerdict(groups)
  {
    v := Health.CanaryHealth(groups);
  }

  method AllocsHealth(allocs: seq<Health.Alloc>, version: nat, unfinished: Option<bool>) returns (v: Health.Verdict)
    ensures v == AllocsVerdict(allocs, version, unfinished)
  {
    // Without an answer the evaluations are taken as unfinished: the step waits.
    v := Health.AllocsHealth(allocs, version, unfinished.GetOr(true));
    if a :| a in allocs && Health.Ours(a, version) && Health.Down(a) {
      DownNotSettled(a);
    }
  }

  /** What each end writes. */
  lemma EndIs(db: Db, id: Id, d: Deployment, v: Health.Verdict)
    ensures v.Healthy? ==> OnVerdict(d, v) == MovedTo(if d.spec.cfg.post != [] then PostHook else Completed)
    ensures v.Unhealthy? ==> OnVerdict(d, v) == MovedTo(Failed)
    ensures v.AwaitingPromotion? ==> OnVerdict(d, v) == MarksWait
    ensures v.Promoted? ==> OnVerdict(d, v) == if d.waiting && !d.promoted then MarksPromoted else Kept
    ensures v.Waiting? ==> OnVerdict(d, v) == Kept
    ensures forall to :: StoreAfter(db, id, d, None, MovedTo(to)) == Exec(db, Transition(id, d.state, to, Nops, ErrorText(to), false))
    ensures StoreAfter(db, id, d, None, MarksWait) == Exec(db, MarkWaiting(id)) && StoreAfter(db, id, d, None, MarksPromoted) == Exec(db, MarkPromoted(id))
    ensures StoreAfter(db, id, d, None, Kept) == db
  {
    hide Exec, ErrorText;
  }

  lemma PlainText()
    ensures ErrorText(PostHook) == ErrorText(Completed) == "" && ErrorText(Failed) == "failed"
  {
  }

  /** A verdict moves the deployment, and the step ends. */
  method EndWith(store: Database.Rows, id: Id, d: Deployment, to: State, text: string, ghost p: N.Plan, ghost s: Sys, ghost before: seq<Action>)
    returns (ghost acts: seq<Action>)
    requires hide *; At(p, s, id, d, before, Ready, store.Value()) && text == ErrorText(to)
    requires to == Failed || to == (if d.spec.cfg.post != [] then PostHook else Completed)
    modifies store
    ensures Hooks.Left(p, s, id, acts, store.Value(), s.sent)
    ensures store.Value() == Exec(old(store.Value()), Transition(id, d.state, to, Nops, text, false))
  {
    hide *;
    ghost var db := store.Value();
    AtIs(p, s, id, d, before, Ready, db);
    VerdictPlaces(p, LiveOf(s.nomad, d.key), db, id, d);
    NothingWritten(db);
    AtNext(p, s, id, d, before, Ready, db, Work.Health(to), d, Deciding(to));
    acts := before + [Step(id, Work.Health(to))];
    AtMoves(p, s, id, d, acts, db, to);
    acts := acts + [Step(id, Work.Move)];
    var _ := store.Transition(id, d.state, to, Nops, text, false);
  }

  /** The step does what the verdict asks, and ends. */
  method ActOn(store: Database.Rows, id: Id, d: Deployment, v: Health.Verdict, ghost p: N.Plan, ghost s: Sys, ghost before: seq<Action>)
    returns (ghost acts: seq<Action>)
    requires hide *; At(p, s, id, d, before, Ready, store.Value())
    modifies store
    ensures Hooks.Left(p, s, id, acts, store.Value(), s.sent)
    ensures store.Value() == StoreAfter(old(store.Value()), id, d, None, OnVerdict(d, v))
  {
    EndIs(store.Value(), id, d, v);
    PlainText();
    hide *;
    VerdictPlaces(p, LiveOf(s.nomad, d.key), store.Value(), id, d);
    match v {
      case Healthy =>
        acts := EndWith(store, id, d, if d.spec.cfg.post != [] then PostHook else Completed, "", p, s, before);
      case Unhealthy =>
        acts := EndWith(store, id, d, Failed, "failed", p, s, before);
      case AwaitingPromotion =>
        AtStops(p, s, id, d, before, Ready, store.Value(), SeeWaiting);
        acts := before + [Step(id, SeeWaiting)];
        var _, _ := store.MarkAwaitingPromotion(id);
      case Promoted =>
        if d.waiting && !d.promoted {
            AtStops(p, s, id, d, before, Ready, store.Value(), SeePromoted);
          acts := before + [Step(id, SeePromoted)];
          var _, _ := store.MarkPromoted(id);
        } else {
          AtDrops(p, s, id, d, before, Ready, store.Value());
          acts := before + [Drop(id)];
        }
      case Waiting =>
        AtDrops(p, s, id, d, before, Ready, store.Value());
        acts := before + [Drop(id)];
    }
  }

  /** The verdict of the allocations of the live job, as far as Nomad answers. */
  method ReadVerdict(d: Deployment, live: LiveJob, w: Findings) returns (v: Health.Verdict)
    ensures v == LiveVerdict(d, live, w)
  {
    if w.idle {
      return Health.Healthy;
    }
    if w.allocs.None? {
      return Health.Waiting;
    }
    v := AllocsHealth(w.allocs.value, d.version.GetOr(live.version), w.unfinished);
  }

  /** The live job when Nomad has no deployment of the register: moved, scaled, or as registered. */
  method CheckLive(store: Database.Rows, server: Engine.Server, id: Id, d: Deployment, w: Findings, p: N.Plan, ghost s: Sys)
    returns (ghost acts: seq<Action>)
    requires hide *; s.nomad == server.Value() && Indexed(server.Value()) && At(p, s, id, d, [], Ready, store.Value())
    modifies store
    ensures Hooks.Left(p, s, id, acts, store.Value(), s.sent)
    ensures var (followed, end) :=
        if LiveOf(server.Value(), d.key).None? then (None, MovedTo(Failed)) else LiveEnds(p, old(store.Value()), id, d, LiveOf(server.Value(), d.key).value, w);
      store.Value() == StoreAfter(old(store.Value()), id, d, followed, end)
  {
    ghost var db := store.Value();
    EndIs(db, id, d, Health.Waiting);
    PlainText();
    hide *;
    acts := [];
    var now := server.Job(d.key);
    if now.None? {
      acts := EndWith(store, id, d, Failed, "failed", p, s, acts);
      return;
    }
    var live := now.value;
    LiveEndsIs(p, db, id, d, live, w);
    if live.index == AppliedIndex(d) {
      var v := ReadVerdict(d, live, w);
      acts := ActOn(store, id, d, v, p, s, acts);
    } else if d.version.None? {
      acts := EndWith(store, id, d, Failed, "failed", p, s, acts);
    } else if !w.plan {
      AtDrops(p, s, id, d, acts, Ready, db);
      acts := acts + [Drop(id)];
    } else {
      var job := N.SubstituteScalingCounts(d.spec, live.job);
      var diff := server.Plan(p, d.key, job);
      if diff.changed {
        acts := EndWith(store, id, d, Failed, "failed", p, s, acts);
      } else {
        acts := FollowScale(store, server, id, d, live, w, p, s);
      }
    }
  }

  lemma LiveEndsIs(p: N.Plan, db: Db, id: Id, d: Deployment, live: LiveJob, w: Findings)
    ensures LiveEnds(p, db, id, d, live, w) ==
      if live.index == AppliedIndex(d) then (None, OnVerdict(d, LiveVerdict(d, live, w)))
      else if d.version.None? then (None, MovedTo(Failed))
      else if !w.plan then (None, Kept)
      else if p(N.Substitute(d.spec, live.job), Some(live.job)).changed then (None, MovedTo(Failed))
      else if ErrorOf(db, Store.MoveApplied(id, AppliedIndex(d), live.index)).Some? then (None, Kept)
      else (Some(live.index), OnVerdict(d, LiveVerdict(d, live, w)))
  {
    hide OnVerdict, LiveVerdict, ErrorOf, N.Substitute;
  }

  /** The applied index follows the scale, and the wait goes on at it. */
  method FollowScale(store: Database.Rows, ghost server: Engine.Server, id: Id, d: Deployment, live: LiveJob, w: Findings, p: N.Plan, ghost s: Sys)
    returns (ghost acts: seq<Action>)
    requires hide *; s.nomad == server.Value() && LiveOf(server.Value(), d.key) == Some(live) && live.index > 0 && live.index != AppliedIndex(d)
    requires At(p, s, id, d, [], Ready, store.Value()) && !p(N.Substitute(d.spec, live.job), Some(live.job)).changed
    modifies store
    ensures Hooks.Left(p, s, id, acts, store.Value(), s.sent)
    ensures store.Value() == StoreAfter(old(store.Value()), id, d,
        if ErrorOf(old(store.Value()), Store.MoveApplied(id, AppliedIndex(d), live.index)).Some? then None else Some(live.index),
        if ErrorOf(old(store.Value()), Store.MoveApplied(id, AppliedIndex(d), live.index)).Some? then Kept else OnVerdict(d, LiveVerdict(d, live, w)))
  {
    ghost var db := store.Value();
    var index, applied := live.index, d.applied.GetOr(0);
    var e := d.(applied := Some(index));
    Followed(db, id, d, index, live, w);
    hide *;
    ghost var now := LiveOf(server.Value(), d.key);
    AtIs(p, s, id, d, [], Ready, db);
    NothingWritten(db);
    ReadPlaces(p, now, db, id, d, live);
    AtNext(p, s, id, d, [], Ready, db, ReadHealth, d, HealthRead(live));
    acts := [] + [Step(id, ReadHealth)];
    AtNext(p, s, id, d, acts, HealthRead(live), db, PlanHealth, d, Following(index));
    acts := acts + [Step(id, PlanHealth)];
    FollowPlaces(p, now, db, id, d, index);
    var error := store.MoveAppliedIndex(id, applied, index);
    if error.Some? {
      AtStops(p, s, id, d, acts, Following(index), db, Work.MoveApplied);
      acts := acts + [Step(id, Work.MoveApplied)];
      return;
    }
    AtNext(p, s, id, d, acts, Following(index), db, Work.MoveApplied, e, Ready);
    acts := acts + [Step(id, Work.MoveApplied)];
    var v := ReadVerdict(e, live, w);
    acts := ActOn(store, id, e, v, p, s, acts);
  }

  /** The deployment at the index it followed is as before, and what it writes then too. */
  lemma Followed(db: Db, id: Id, d: Deployment, index: nat, live: LiveJob, w: Findings)
    ensures var e := d.(applied := Some(index));
      var call := Store.MoveApplied(id, AppliedIndex(d), index);
      var v := LiveVerdict(d, live, w);
      && LiveVerdict(e, live, w) == v && AppliedIndex(d) == d.applied.GetOr(0) && AppliedIndex(e) == index
      && StoreAfter(Exec(db, call), id, e, None, OnVerdict(e, v)) == StoreAfter(db, id, d, Some(index), OnVerdict(d, v))
      && (ErrorOf(db, call).Some? ==> Exec(db, call) == db) && StoreAfter(db, id, d, None, Kept) == db
  {
    hide Written, ErrorText, AllocsVerdict;
    var call := Store.MoveApplied(id, AppliedIndex(d), index);
    if ErrorOf(db, call).Some? { assert Exec(db, call) == db; }
    hide Exec;
  }

  /** stepHealth, whatever Nomad answers, with nothing in between its calls. */
  method StepHealth(store: Database.Rows, server: Engine.Server, id: Id, d: Deployment, w: Findings, p: N.Plan, ghost s: Sys)
    returns (ghost acts: seq<Action>)
    requires hide *; s.db == store.Value() && s.nomad == server.Value() && Indexed(server.Value())
    requires s.workers == s.workers[id := Worker(d, Ready)] && d.state == Applying && AppliedIndex(d) != 0
    modifies store
    ensures Hooks.Left(p, s, id, acts, store.Value(), s.sent)
    ensures var (followed, end) := HealthEnds(p, old(store.Value()), server.Value(), id, d, w);
      store.Value() == StoreAfter(old(store.Value()), id, d, followed, end)
  {
    ghost var db := store.Value();
    AtStart(p, s, id, d);
    HealthEndsIs(p, db, server.Value(), id, d, w);
    EndIs(db, id, d, Health.Waiting);
    PlainText();
    hide *;
    acts := [];
    var waiting := d.waiting && !d.promoted;
    if !waiting && w.past {
      acts := EndWith(store, id, d, Failed, "failed", p, s, acts);
      return;
    }
    if w.rollout.Some? && w.rollout.value.Some? && w.rollout.value.value.index == d.applied.GetOr(0) {
      var rollout := w.rollout.value.value;
      var v := RolloutHealth(rollout);
      acts := ActOn(store, id, d, v, p, s, acts);
    } else if w.rollout.Some? && w.read {
      acts := CheckLive(store, server, id, d, w, p, s);
    } else {
      AtDrops(p, s, id, d, acts, Ready, db);
      acts := acts + [Drop(id)];
    }
  }

  method RolloutHealth(r: Rollout) returns (v: Health.Verdict)
    ensures v == RolloutVerdict(r)
  {
    match r.status {
      case Successful => v := Health.Healthy;
      case Broken => v := Health.Unhealthy;
      case Rolling => v := CanaryHealth(r.groups);
      case Unknown => v := Health.Waiting;
    }
  }

  lemma HealthEndsIs(p: N.Plan, db: Db, n: Cluster, id: Id, d: Deployment, w: Findings)
    ensures var tracked := w.rollout.Some? && w.rollout.value.Some? && w.rollout.value.value.index == d.applied.GetOr(0);
      HealthEnds(p, db, n, id, d, w) ==
        if !(d.waiting && !d.promoted) && w.past then (None, MovedTo(Failed))
        else if tracked then (None, OnVerdict(d, RolloutVerdict(w.rollout.value.value)))
        else if w.rollout.None? || !w.read then (None, Kept)
        else if LiveOf(n, d.key).None? then (None, MovedTo(Failed)) else LiveEnds(p, db, id, d, LiveOf(n, d.key).value, w)
  {
    hide LiveEnds, OnVerdict, RolloutVerdict, LiveOf;
  }
}
