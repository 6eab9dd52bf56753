/**
 A deployment that registered completes only after its post-hooks, whatever stale copy of it a
 step starts from: once the register is recorded no copy is at the live index any more, so
 none finds its job in place at the index it waits for and completes without them.
*/
module Completion {
  import opened Options
  import opened Store
  import opened Decisions
  import opened Machine
  import opened Base
  import opened Births
  import opened AppliedDiff
  import opened RegisterOnce
  import opened HookRuns
  import opened ApprovalSafety
  import opened Phases
  import N = Nomad

  // -- past the register -----------------------------------------------------------------------

  /** The deployment has something to register, and its worker saw that done, or the store has it recorded. */
  predicate Through(s: Sys, id: Id) {
    && id < |s.db.rows| && s.db.rows[id].diffHash.Some?
    && (s.db.rows[id].applied.Some? || (id in s.workers && s.workers[id].d.state == Applying && (s.workers[id].pc.Registered? || s.workers[id].pc.Reread?)))
  }

  /** No version of the deployment is at the index of the live job. */
  ghost predicate Off(s: Sys, id: Id)
    requires id < |s.db.rows|
  {
    var now := IndexOf(LiveOf(s.nomad, s.db.rows[id].key));
    && s.db.rows[id].cas != now
    && (forall c :: (id, c) in s.copies ==> c.cas != now)
    && (id in s.workers ==> s.workers[id].d.cas != now)
  }

  ghost predicate OffOnceThrough(s: Sys) {
    forall id: nat :: Through(s, id) ==> Off(s, id) && Rank(Applying) <= Rank(s.db.rows[id].state)
  }

  /** A step about to complete without a register, or that might, is of a deployment without one recorded. */
  predicate Tied(d: Deployment, w: Worker) {
    w.d.state == Applying && d.applied.Some? ==>
      && (w.pc.Deciding? && w.pc.to == Completed ==> w.d.spec.cfg.post == [])
      && (w.pc.LiveRead? && w.d.diffHash.Some? ==> IndexOf(w.pc.live) != w.d.cas)
  }

  ghost predicate AllTied(s: Sys) {
    forall id :: id in s.workers && id < |s.db.rows| ==> Tied(s.db.rows[id], s.workers[id])
  }

  lemma OffIs(s: Sys)
    ensures OffOnceThrough(s) <==> forall id: nat :: Through(s, id) ==> Off(s, id) && Rank(Applying) <= Rank(s.db.rows[id].state)
    ensures AllTied(s) <==> forall id :: id in s.workers && id < |s.db.rows| ==> Tied(s.db.rows[id], s.workers[id])
  {
    hide Through, Off, Rank, Tied;
  }

  // -- it stays so -----------------------------------------------------------------------------------

  /** A call leaves the cas index of a row past its register alone. */
  lemma CasStays(s: Sys, a: Action, id: Id)
    requires hide *; id < |s.db.rows| && Copies(s) && Through(s, id) && Rank(Applying) <= Rank(s.db.rows[id].state)
    ensures id < |Exec(s.db, CallOf(s, a)).rows|
    ensures var d, e := s.db.rows[id], Exec(s.db, CallOf(s, a)).rows[id];
      e.cas == d.cas && e.key == d.key && e.diffHash == d.diffHash && Rank(Applying) <= Rank(e.state)
  {
    var c := CallOf(s, a);
    RowStep(s.db, c, id);
    ExecGrows(s.db, c);
    assert RowGrows(s.db.rows[id], Exec(s.db, c).rows[id]);
    if c.MoveCas? && c.id == id && Writes(s.db, c) {
      MoveCasOrigin(s, a);
      hide CallOf, Exec, Follows, RowGrows, PastOf;
    }
    hide CallOf, Exec, Follows, PastOf, Copies;
  }

  /** The live job is the same, or at an index no version has. */
  lemma LiveOff(p: N.Plan, s: Sys, a: Action, k: Key, cas: nat)
    requires hide *; Indexed(s.nomad) && cas <= s.nomad.raft && cas != IndexOf(LiveOf(s.nomad, k))
    ensures cas != IndexOf(LiveOf(ClusterAfter(p, s, a), k))
  {
    hide *;
    NextParts(p, s, a);
    NextMoves(p, s, a);
    MovesAt(s.nomad, ClusterAfter(p, s, a), k);
  }

  lemma OffStays(p: N.Plan, s: Sys, a: Action, id: Id)
    requires hide *; id < |s.db.rows| && Basic(s) && AllPinned(p, s) && Through(s, id) && Off(s, id) && Rank(Applying) <= Rank(s.db.rows[id].state)
    ensures var after := Next(p, s, a); id < |after.db.rows| && Off(after, id) && Rank(Applying) <= Rank(after.db.rows[id].state)
  {
    hide *;
    var after, k := Next(p, s, a), s.db.rows[id].key;
    BasicParts(s);
    CasStays(s, a, id);
    CasBelow(p, s);
    NextParts(p, s, a);
    OffAt(s, id);
    LiveOff(p, s, a, k, s.db.rows[id].cas);
    forall c | (id, c) in after.copies
      ensures c.cas != IndexOf(LiveOf(after.nomad, k))
    {
      CopyFrom(s, a, id, c);
      LiveOff(p, s, a, k, c.cas);
    }
    if id in after.workers {
      WorkerOrigin(p, s, a, id);
      if id in s.workers {
        if a.Step? { WorkedKeepsCopy(p, s, id, s.workers[id], a.work); }
        LiveOff(p, s, a, k, s.workers[id].d.cas);
      }
      if a.Take? && (id, a.d) in s.copies { LiveOff(p, s, a, k, a.d.cas); }
    }
    OffWhen(after, id);
  }

  lemma OffAt(s: Sys, id: Id)
    requires id < |s.db.rows| && Off(s, id)
    ensures var now := IndexOf(LiveOf(s.nomad, s.db.rows[id].key));
      && s.db.rows[id].cas != now && (forall c :: (id, c) in s.copies ==> c.cas != now)
      && (id in s.workers ==> s.workers[id].d.cas != now)
  {
  }

  lemma OffWhen(s: Sys, id: Id)
    requires id < |s.db.rows|
    requires var now := IndexOf(LiveOf(s.nomad, s.db.rows[id].key));
      && s.db.rows[id].cas != now && (forall c :: (id, c) in s.copies ==> c.cas != now)
      && (id in s.workers ==> s.workers[id].d.cas != now)
    ensures Off(s, id)
  {
  }

  // -- how it comes to be -------------------------------------------------------------------------------

  /** The steps that come past the register. */
  lemma ThroughBy(p: N.Plan, s: Sys, a: Action, id: Id)
    requires hide *; Basic(s) && Born(s) && Through(Next(p, s, a), id) && !Through(s, id)
    ensures a.Step? && a.id == id && id in s.workers && id < |s.db.rows| && s.workers[id].d.state == Applying && AppliedIndex(s.workers[id].d) == 0
    ensures s.db.rows[id].diffHash.Some?
    ensures var w := s.workers[id];
      RegisterStep(p, LiveOf(s.nomad, w.d.key), w.d, w.pc, a.work).next == Some(Worker(w.d, Registered)) && !w.pc.Registered?
  {
    hide *;
    var after := Next(p, s, a);
    BasicParts(s);
    NextParts(p, s, a);
    ThroughIs(s, id);
    ThroughIs(after, id);
    NextGrows(p, s, a);
    if id < |s.db.rows| { RowGrown(s.db, after.db, id); }
    if after.db.rows[id].applied.Some? { AppliedBy(s, a, id); }
    if id in after.workers {
      WorkerOrigin(p, s, a, id);
      CopyKnown(s, a, id);
      if a.Step? && a.id == id && id in s.workers {
        RegisteredBy(p, s, id, s.workers[id], a.work);
      }
    }
  }

  lemma ThroughIs(s: Sys, id: Id)
    ensures Through(s, id) <==>
      && id < |s.db.rows| && s.db.rows[id].diffHash.Some?
      && (s.db.rows[id].applied.Some? || (id in s.workers && s.workers[id].d.state == Applying && (s.workers[id].pc.Registered? || s.workers[id].pc.Reread?)))
  {
  }

  /** An applied index comes by its record, of a step that read the live job back. */
  lemma AppliedFrom(db: Db, c: Store.Call, id: Id)
    requires id < |Exec(db, c).rows| && Exec(db, c).rows[id].applied.Some?
    ensures id < |db.rows| && (db.rows[id].applied.Some? || (c.SetApplied? && c.id == id))
  {
  }

  lemma AppliedBy(s: Sys, a: Action, id: Id)
    requires hide *; id < |Exec(s.db, CallOf(s, a)).rows| && Exec(s.db, CallOf(s, a)).rows[id].applied.Some?
    ensures id < |s.db.rows|
    ensures s.db.rows[id].applied.Some? || (a.Step? && a.id == id && id in s.workers && s.workers[id].pc.Reread? && s.workers[id].d.state == Applying && a.work.Record?)
  {
    hide *;
    AppliedFrom(s.db, CallOf(s, a), id);
    if CallOf(s, a).SetApplied? { RecordOrigin(s, a); }
  }

  lemma CopyKnown(s: Sys, a: Action, id: Id)
    requires Copies(s)
    ensures id in s.workers || (a.Take? && (id, a.d) in s.copies) ==> id < |s.db.rows|
  {
    hide RowGrows, DetectionPast;
  }

  lemma RegisteredBy(p: N.Plan, s: Sys, id: Id, w: Worker, work: Work)
    ensures hide *; var next := Worked(p, s, id, w, work).next;
      next.Some? && next.value.d.state == Applying && (next.value.pc.Registered? || next.value.pc.Reread?)
      && !(w.d.state == Applying && (w.pc.Registered? || w.pc.Reread?)) ==>
        && w.d.state == Applying && AppliedIndex(w.d) == 0
        && RegisterStep(p, LiveOf(s.nomad, w.d.key), w.d, w.pc, work).next == Some(Worker(w.d, Registered))
  {
    RegisterGoes(p, LiveOf(s.nomad, w.d.key), w.d, w.pc, work);
    HealthNever(p, LiveOf(s.nomad, w.d.key), s.db, id, w.d, w.pc, work);
    WorkedState(p, s, id, w, work);
    hide RegisterStep, HealthStep, HookStep;
  }

  lemma RegisterGoes(p: N.Plan, now: Option<LiveJob>, d: Deployment, pc: Pc, work: Work)
    ensures var next := RegisterStep(p, now, d, pc, work).next;
      next.Some? ==> next.value.d == d && (next.value.pc.Registered? || next.value.pc.Reread? ==> pc.Registered? || pc.Reread? || next.value.pc.Registered?)
  {
  }

  lemma HealthNever(p: N.Plan, now: Option<LiveJob>, db: Db, id: Id, d: Deployment, pc: Pc, work: Work)
    ensures var next := HealthStep(p, now, db, id, d, pc, work).next;
      next.Some? && (next.value.pc.Registered? || next.value.pc.Reread?) ==> pc.Registered? || pc.Reread?
  {
    hide ErrorOf, HealthCall;
  }

  /** A version at the index of the live job pins a diff, so a plan that shows none tells it is not. */
  lemma PinClash(p: N.Plan, n: Cluster, c: Deployment, read: Option<N.Job>)
    requires N.Lawful(p) && Pinned(p, n, c) && c.diffHash.Some? && N.CanonicalLive(JobOf(LiveOf(n, c.key)))
    requires N.HashOf(p(N.Adjusted(c.spec, read), JobOf(LiveOf(n, c.key)))) == None
    ensures c.cas != IndexOf(LiveOf(n, c.key))
  {
    SpecCanonical(p, c);
    assert N.Adjusted(c.spec, None) == c.spec;
    NothingIsInSync(p, c.spec, None, read, JobOf(LiveOf(n, c.key)));
    hide N.Lawful, N.Fresh, Origin;
  }

  /** Where the register step comes through: it registered, or its plan of the job shows nothing. */
  lemma ComesThrough(p: N.Plan, now: Option<LiveJob>, d: Deployment, pc: Pc, work: Work)
    requires AsGit(d) && d.diffHash.Some? && !pc.Registered?
    requires RegisterStep(p, now, d, pc, work).next == Some(Worker(d, Registered))
    ensures (work.Register? && pc.PlannedAt? && RegisterStep(p, now, d, pc, work).register.Some?)
         || (work.PlanLive? && pc.LiveRead? && N.HashOf(p(N.Adjusted(d.spec, JobOf(pc.live)), JobOf(now))) == None)
  {
    hide N.HashOf, N.Adjusted;
  }

  /** A plan that shows nothing leaves the cluster and the store as they are. */
  lemma PlansOnly(p: N.Plan, s: Sys, id: Id)
    requires id in s.workers && s.workers[id].d.state == Applying && AppliedIndex(s.workers[id].d) == 0 && s.workers[id].pc.LiveRead?
    ensures var after := Next(p, s, Step(id, PlanLive));
      && after.db == s.db && after.nomad == s.nomad && after.copies == s.copies
      && after.workers.Keys == s.workers.Keys && after.workers[id].d == s.workers[id].d
  {
    hide HookStep, HealthStep, PlannedPc;
    NothingWritten(s.db);
  }

  lemma ComesOff(p: N.Plan, s: Sys, a: Action, id: Id)
    requires hide *; N.Lawful(p) && Basic(s) && CanonicalCluster(s) && AllPinned(p, s) && Born(s)
    requires Through(Next(p, s, a), id) && !Through(s, id)
    ensures var after := Next(p, s, a); id < |after.db.rows| && Off(after, id) && Rank(Applying) <= Rank(after.db.rows[id].state)
  {
    hide *;
    ThroughBy(p, s, a, id);
    var w, d := s.workers[id], s.db.rows[id];
    BasicParts(s);
    BornIs(s);
    WorkerAsGit(s, id);
    WorkerPlan(s, id);
    RowKeeps(w.d, d);
    ApplyingRank(w.d, d);
    ComesThrough(p, LiveOf(s.nomad, w.d.key), w.d, w.pc, a.work);
    if a.work.Register? {
      RegisterAccepted(p, s, id);
      AcceptedNext(p, s, id);
      CasBelow(p, s);
      RegisteredOff(p, s, id);
    } else {
      PlansOnly(p, s, id);
      PlannedOff(p, s, id, JobOf(w.pc.live));
    }
  }

  lemma ApplyingRank(d: Deployment, e: Deployment)
    requires RowGrows(d, e) && d.state == Applying
    ensures Rank(Applying) <= Rank(e.state)
  {
  }

  lemma RegisterAccepted(p: N.Plan, s: Sys, id: Id)
    requires id in s.workers && s.workers[id].d.state == Applying && AppliedIndex(s.workers[id].d) == 0
    requires var w := s.workers[id]; RegisterStep(p, LiveOf(s.nomad, w.d.key), w.d, w.pc, Register).register.Some?
    ensures Accepted(p, s, id) && EffectOf(p, s, Step(id, Register)).register.Some?
  {
    hide RegisterStep, HealthStep, HookStep;
  }

  lemma RegisteredOff(p: N.Plan, s: Sys, id: Id)
    requires hide *; id < |s.db.rows| && id in s.workers && EffectOf(p, s, Step(id, Register)).register.Some?
    requires s.workers[id].d.key == s.db.rows[id].key
    requires var after, d := Next(p, s, Step(id, Register)), s.workers[id].d;
      && after.db == s.db && after.copies == s.copies && after.workers == s.workers[id := Worker(d, Registered)]
      && LiveOf(after.nomad, d.key) == Some(LiveJob(EffectOf(p, s, Step(id, Register)).register.value, s.nomad.raft + 1, VersionOf(LiveOf(s.nomad, d.key)) + 1))
    requires forall i :: 0 <= i < |s.db.rows| ==> s.db.rows[i].cas <= s.nomad.raft
    requires forall i, c :: (i, c) in s.copies ==> c.cas <= s.nomad.raft
    requires forall i :: i in s.workers ==> s.workers[i].d.cas <= s.nomad.raft
    ensures Off(Next(p, s, Step(id, Register)), id)
  {
    hide *;
    var after := Next(p, s, Step(id, Register));
    IndexIs(LiveOf(after.nomad, s.db.rows[id].key));
    OffWhen(after, id);
  }

  lemma PlannedOff(p: N.Plan, s: Sys, id: Id, read: Option<N.Job>)
    requires hide *; N.Lawful(p) && Copies(s) && CanonicalCluster(s) && AllPinned(p, s) && id < |s.db.rows| && id in s.workers
    requires s.db.rows[id].diffHash.Some?
    requires var d := s.workers[id].d;
      && d.key == s.db.rows[id].key && d.spec == s.db.rows[id].spec
      && N.HashOf(p(N.Adjusted(d.spec, read), JobOf(LiveOf(s.nomad, d.key)))) == None
    requires var after := Next(p, s, Step(id, PlanLive));
      && after.db == s.db && after.nomad == s.nomad && after.copies == s.copies
      && after.workers.Keys == s.workers.Keys && after.workers[id].d == s.workers[id].d
    ensures Off(Next(p, s, Step(id, PlanLive)), id)
  {
    hide *;
    var d, k := s.db.rows[id], s.db.rows[id].key;
    LiveCanonical(s, k);
    VersionsPinned(p, s, id);
    PinClash(p, s.nomad, d, read);
    PinClash(p, s.nomad, s.workers[id].d, read);
    forall c | (id, c) in s.copies
      ensures c.cas != IndexOf(LiveOf(s.nomad, k))
    {
      PinClash(p, s.nomad, c, read);
    }
    OffWhen(Next(p, s, Step(id, PlanLive)), id);
  }

  lemma LiveCanonical(s: Sys, k: Key)
    requires CanonicalCluster(s)
    ensures N.CanonicalLive(JobOf(LiveOf(s.nomad, k)))
  {
    hide N.Canonical;
  }

  /** Every version of a deployment is of its job, with its spec and its diff, and pinned. */
  lemma VersionsPinned(p: N.Plan, s: Sys, id: Id)
    requires AllPinned(p, s) && Copies(s) && id < |s.db.rows|
    ensures Pinned(p, s.nomad, s.db.rows[id])
    ensures forall c :: (id, c) in s.copies ==>
      Pinned(p, s.nomad, c) && c.key == s.db.rows[id].key && c.spec == s.db.rows[id].spec && c.diffHash == s.db.rows[id].diffHash
    ensures id in s.workers ==>
      var c := s.workers[id].d; Pinned(p, s.nomad, c) && c.key == s.db.rows[id].key && c.spec == s.db.rows[id].spec && c.diffHash == s.db.rows[id].diffHash
  {
    hide Pinned, PcPinned, DetectionPinned, DetectionPast;
  }

  lemma NextOff(p: N.Plan, s: Sys, a: Action, id: Id)
    requires hide *; N.Lawful(p) && Basic(s) && CanonicalCluster(s) && AllPinned(p, s) && Born(s) && OffOnceThrough(s)
    requires Through(Next(p, s, a), id)
    ensures var after := Next(p, s, a); id < |after.db.rows| && Off(after, id) && Rank(Applying) <= Rank(after.db.rows[id].state)
  {
    hide *;
    OffIs(s);
    ThroughIs(s, id);
    if Through(s, id) {
      OffStays(p, s, a, id);
    } else {
      ComesOff(p, s, a, id);
    }
  }

  // -- what a step decides ---------------------------------------------------------------------------------

  lemma WorkedTied(p: N.Plan, s: Sys, id: Id, d: Deployment, w: Worker, work: Work)
    requires AsGit(w.d) && Tied(d, w) && DecidesRight(w)
    requires w.d.state == Applying && d.applied.Some? && w.d.diffHash.Some? ==> w.d.cas != IndexOf(LiveOf(s.nomad, w.d.key))
    ensures var next := Worked(p, s, id, w, work).next; next.Some? ==> Tied(d, next.value)
  {
    var now := LiveOf(s.nomad, w.d.key);
    if w.d.state == Applying && d.applied.Some? {
      RegisterTied(p, now, d, w.d, w.pc, work);
      HealthTied(p, now, s.db, id, d, w.d, w.pc, work);
    }
    WorkedState(p, s, id, w, work);
    hide RegisterStep, HealthStep, HookStep;
  }

  lemma RegisterTied(p: N.Plan, now: Option<LiveJob>, d: Deployment, c: Deployment, pc: Pc, work: Work)
    requires AsGit(c) && Tied(d, Worker(c, pc)) && c.state == Applying && d.applied.Some? && (c.diffHash.Some? ==> c.cas != IndexOf(now))
    ensures var next := RegisterStep(p, now, c, pc, work).next; next.Some? ==> Tied(d, next.value)
  {
    hide N.HashOf, N.Adjusted;
  }

  lemma HealthTied(p: N.Plan, now: Option<LiveJob>, db: Db, id: Id, d: Deployment, c: Deployment, pc: Pc, work: Work)
    requires Tied(d, Worker(c, pc)) && c.state == Applying && d.applied.Some?
    ensures var next := HealthStep(p, now, db, id, c, pc, work).next; next.Some? ==> Tied(d, next.value)
  {
    hide ErrorOf, HealthCall, N.HashOf;
  }

  lemma NextTied(p: N.Plan, s: Sys, a: Action, id: Id)
    requires hide *; Basic(s) && Born(s) && AllDecideRight(s) && OffOnceThrough(s) && AllTied(s)
    requires id in WorkersAfter(p, s, a) && id < |Exec(s.db, CallOf(s, a)).rows|
    ensures Tied(Exec(s.db, CallOf(s, a)).rows[id], WorkersAfter(p, s, a)[id])
  {
    hide *;
    var after, w := Exec(s.db, CallOf(s, a)).rows[id], WorkersAfter(p, s, a)[id];
    BasicParts(s);
    BornIs(s);
    OffIs(s);
    AllDecideIs(s);
    WorkerOrigin(p, s, a, id);
    CopyKnown(s, a, id);
    ReadyTied(after, w);
    if after.applied.Some? && id in s.workers {
      var was := s.workers[id];
      AppliedBy(s, a, id);
      TiedSame(s.db.rows[id], after, was);
      WorkerAsGit(s, id);
      WorkerPlan(s, id);
      RowKeeps(was.d, s.db.rows[id]);
      UnappliedCopy(was.d, s.db.rows[id]);
      ThroughIs(s, id);
      if Through(s, id) { OffAt(s, id); }
      if a.Step? && a.id == id {
        RecordStops(p, s, id, was, a.work);
        if s.db.rows[id].applied.Some? {
          WorkedTied(p, s, id, s.db.rows[id], was, a.work);
          TiedSame(s.db.rows[id], after, w);
        }
      }
    }
  }

  lemma ReadyTied(d: Deployment, w: Worker)
    ensures w.pc.Ready? || d.applied.None? ==> Tied(d, w)
  {
  }

  lemma TiedSame(d: Deployment, e: Deployment, w: Worker)
    ensures (d.applied.Some? <==> e.applied.Some?) ==> (Tied(d, w) <==> Tied(e, w))
  {
  }

  lemma UnappliedCopy(d: Deployment, e: Deployment)
    requires RowGrows(d, e)
    ensures e.applied.None? ==> AppliedIndex(d) == 0
  {
  }

  /** The record ends the step. */
  lemma RecordStops(p: N.Plan, s: Sys, id: Id, w: Worker, work: Work)
    ensures hide *; work.Record? && w.pc.Reread? && w.d.state == Applying && AppliedIndex(w.d) == 0 ==> Worked(p, s, id, w, work).next.None?
  {
    hide HealthStep, HookStep;
  }

  // -- the events of completing ----------------------------------------------------------------------------

  /** A deployment that completed otherwise than from its post-hooks declares none, or has no register recorded. */
  predicate EndRight(rows: seq<Deployment>, e: Event) {
    e.to == Completed && !Aside(e) && e.from != Some(PostHook) ==>
      && e.dep < |rows| && rows[e.dep].state == Completed
      && (rows[e.dep].applied.None? || rows[e.dep].spec.cfg.post == [])
  }

  ghost predicate EndsRight(db: Db) {
    forall i :: 0 <= i < |db.events| ==> EndRight(db.rows, db.events[i])
  }

  lemma EndsIs(db: Db)
    ensures EndsRight(db) <==> forall i :: 0 <= i < |db.events| ==> EndRight(db.rows, db.events[i])
  {
    hide EndRight;
  }

  lemma EndStays(db: Db, after: Db, e: Event)
    requires Grows(db, after) && EndRight(db.rows, e)
    ensures EndRight(after.rows, e)
  {
    if e.dep < |db.rows| { assert RowGrows(db.rows[e.dep], after.rows[e.dep]); }
  }

  lemma AsideEnds(rows: seq<Deployment>, e: Event)
    requires Aside(e)
    ensures EndRight(rows, e)
  {
  }

  lemma EndMoves(p: N.Plan, s: Sys, a: Action)
    requires hide *; Copies(s) && Born(s) && AllDecideRight(s) && AllTied(s) && CallOf(s, a).Transition? && Writes(s.db, CallOf(s, a))
    ensures var c := CallOf(s, a); EndRight(Exec(s.db, c).rows, Event(c.id, Some(c.from), c.to, c.actor))
  {
    hide *;
    var c := CallOf(s, a);
    TransitionOrigin(s, a);
    BornIs(s);
    OffIs(s);
    AllDecideIs(s);
    MovesFrom(s.db, c);
    MovedRow(s.db, c);
    WasAsGit(s.db.rows, c.id);
    NextAfterIs(s.db.rows[c.id]);
    WaitsUnapplied(s.db.rows, c.id);
    if a.Settle? || a.Sweep? { CopiesCycle(s); CycleMovesWaiting(s, a); }
    if a.Step? && c.to == Completed {
      WorkerPlan(s, a.id);
      DecidedEnd(s.workers[a.id], s.db.rows[a.id]);
    }
    EndWhen(s.db.rows, Exec(s.db, c).rows, c);
  }

  lemma CopiesCycle(s: Sys)
    requires Copies(s)
    ensures DetectionPast(s.db.rows, s.det)
  {
    hide DetectionPast, PastOf;
  }

  lemma MovedRow(db: Db, c: Store.Call)
    requires c.Transition? && Writes(db, c)
    ensures c.id < |db.rows| && c.id < |Exec(db, c).rows|
    ensures var d, e := db.rows[c.id], Exec(db, c).rows[c.id]; e.state == c.to && e.applied == d.applied && e.spec == d.spec
  {
  }

  lemma WaitsUnapplied(rows: seq<Deployment>, id: Id)
    requires UnappliedWait(rows) && id < |rows|
    ensures rows[id].state in {Detected, PendingApproval} ==> rows[id].applied.None?
  {
  }

  lemma DecidedEnd(w: Worker, d: Deployment)
    requires RowGrows(w.d, d) && DecidesRight(w) && Tied(d, w) && w.pc.Deciding? && w.pc.to == Completed
    ensures w.d.state !in {Detected, PendingApproval}
    ensures w.d.state == Applying ==> d.applied.None? || d.spec.cfg.post == []
  {
  }

  lemma EndWhen(rows: seq<Deployment>, after: seq<Deployment>, c: Store.Call)
    requires c.Transition? && c.id < |rows| && c.id < |after| && c.to in Allowed(c.from)
    requires var d, e := rows[c.id], after[c.id]; e.state == c.to && e.applied == d.applied && e.spec == d.spec
    requires c.to == Completed && c.from in {Detected, PendingApproval, Applying} ==> rows[c.id].applied.None? || rows[c.id].spec.cfg.post == []
    ensures EndRight(after, Event(c.id, Some(c.from), c.to, c.actor))
  {
  }

  lemma NextEndsRight(p: N.Plan, s: Sys, a: Action)
    requires Copies(s) && Born(s) && AllDecideRight(s) && AllTied(s) && EndsRight(s.db)
    ensures EndsRight(Exec(s.db, CallOf(s, a)))
  {
    hide *;
    var c := CallOf(s, a);
    var after := Exec(s.db, c);
    NewEvents(s.db, c);
    ExecGrows(s.db, c);
    EndsIs(s.db);
    if c.Transition? && Writes(s.db, c) { EndMoves(p, s, a); }
    forall i | 0 <= i < |after.events|
      ensures EndRight(after.rows, after.events[i])
    {
      if i < |s.db.events| {
        EndStays(s.db, after, s.db.events[i]);
      } else if Aside(after.events[i]) {
        AsideEnds(after.rows, after.events[i]);
      }
    }
    EndsIs(after);
  }

  ghost predicate Completing(s: Sys) {
    OffOnceThrough(s) && AllTied(s) && EndsRight(s.db)
  }

  lemma CompletingIs(s: Sys)
    ensures Completing(s) <==> OffOnceThrough(s) && AllTied(s) && EndsRight(s.db)
  {
    hide OffOnceThrough, AllTied, EndsRight;
  }

  lemma InitialCompleting(s: Sys)
    requires Initial(s)
    ensures Completing(s)
  {
  }

  lemma NextCompleting(p: N.Plan, s: Sys, a: Action)
    requires N.Lawful(p) && Basic(s) && CanonicalCluster(s) && AllPinned(p, s) && Born(s) && AllDecideRight(s) && Completing(s)
    ensures Completing(Next(p, s, a))
  {
    hide *;
    var after := Next(p, s, a);
    BasicParts(s);
    CompletingIs(s);
    NextParts(p, s, a);
    forall id: nat | Through(after, id)
      ensures id < |after.db.rows| && Off(after, id) && Rank(Applying) <= Rank(after.db.rows[id].state)
    {
      NextOff(p, s, a, id);
    }
    forall id | id in after.workers && id < |after.db.rows|
      ensures Tied(after.db.rows[id], after.workers[id])
    {
      NextTied(p, s, a, id);
    }
    OffIs(after);
    NextEndsRight(p, s, a);
    CompletingIs(after);
  }

  lemma {:induction false} RunCompleting(p: N.Plan, s: Sys, acts: seq<Action>)
    requires N.Lawful(p) && Initial(s)
    ensures Completing(Run(p, s, acts))
  {
    hide *;
    if acts == [] {
      RunStart(p, s);
      InitialCompleting(s);
    } else {
      var most, a := acts[..|acts| - 1], acts[|acts| - 1];
      RunCompleting(p, s, most);
      RunBasic(p, s, most);
      RunPinned(p, s, most);
      RunBorn(p, s, most);
      RunPhased(p, s, most);
      PhasedIs(Run(p, s, most));
      RunLast(p, s, acts);
      NextCompleting(p, Run(p, s, most), a);
    }
  }

  /** The deployment completed from its post-hooks. */
  ghost predicate CompletedFromHooks(events: seq<Event>, id: Id) {
    exists i :: 0 <= i < |events| && events[i].dep == id && events[i].from == Some(PostHook) && events[i].to == Completed
  }

  /**
   In every run, a deployment with a recorded applied index that has completed and whose job
   declares post-hooks has run every one of them with success, and completed from post_hook.
  */
  lemma CompletesAfterItsPostHooks(p: N.Plan, s: Sys, acts: seq<Action>, id: Id)
    requires hide *; N.Lawful(p) && Initial(s) && id < |Run(p, s, acts).db.rows|
    requires var d := Run(p, s, acts).db.rows[id]; d.state == Completed && d.applied.Some? && d.spec.cfg.post != []
    ensures var db := Run(p, s, acts).db;
      RanAll(db.runs, id, Post, db.rows[id].spec.cfg.post) && CompletedFromHooks(db.events, id)
  {
    hide *;
    var db := Run(p, s, acts).db;
    RunLogged(p, s, acts, id);
    RunCompleting(p, s, acts);
    CompletingIs(Run(p, s, acts));
    RunBasic(p, s, acts);
    BasicParts(Run(p, s, acts));
    StateEntered(db, id);
    var i := EntersBy(db.events, id, Completed);
    EndsIs(db);
    FromPostHook(db, id, i);
    WasEarned(db, i);
    EarnedPost(db, i);
    WaitsThere(db.rows[id]);
    RanDeclared(db.runs, id, db.rows[id], Post);
    DeclaredPost(db.rows[id].spec.cfg);
  }

  lemma FromPostHook(db: Db, id: Id, i: nat)
    requires id < |db.rows| && i < |db.events| && db.events[i].dep == id && db.events[i].to == Completed
    requires db.events[i].from.Some? && db.events[i].from.value != Completed && EndRight(db.rows, db.events[i])
    requires db.rows[id].applied.Some? && db.rows[id].spec.cfg.post != []
    ensures db.events[i].from == Some(PostHook) && EndsPhase(db.events[i]) && CompletedFromHooks(db.events, id)
  {
  }

  lemma EarnedPost(db: Db, i: nat)
    requires i < |db.events| && Earned(db, i) && db.events[i].to == Completed
    ensures PhaseSucceeded(db.runs, db.events[i].dep, db.rows[db.events[i].dep], Post)
  {
    hide PhaseSucceeded;
  }

  lemma DeclaredPost(cfg: N.Config)
    ensures Declared(cfg, Post) == cfg.post
  {
  }
}
