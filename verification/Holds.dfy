/**
 What a cycle read before it creates, over whole runs: git, the pauses, the window, the live
 job and the latest deployment, each at a step since the cycle started. So a deployment is of
 what it read after the event that called for it, and nothing is created or started while held.
*/
module Holds {
  import opened Options
  import opened Store
  import opened Decisions
  import opened Machine
  import opened Base
  import opened Lineage
  import opened JobLedger
  import opened Beats
  import opened Consecutive
  import N = Nomad

  // -- what a cycle holds of what it read --------------------------------------------------------

  datatype Value =
    | GitValue(git: map<Key, GitJob>, unparsed: bool)
    | PauseValue(paused: set<Key>)
    | AllPauseValue(allPaused: bool)
    | WindowValue(c: Cycle, t: Todo)
    | LiveValue(o: Seen)
    | RetryValue(latestId: Option<Id>, latest: Option<Deployment>)

  /** The value a cycle holds of a thing it reads, for the job it is at. */
  function ValueOf(det: Detection, k: Key, x: Part): Option<Value> {
    match x
    case GitPart =>
      if det.Idle? then None
      else if det.Parsed? || det.PausesRead? || det.AllPauseRead? then Some(GitValue(det.git, det.unparsed))
      else Some(GitValue(det.c.git, det.c.unparsed))
    case PausePart =>
      if det.Idle? || det.Parsed? then None
      else Some(PauseValue(if det.PausesRead? || det.AllPauseRead? then det.paused else det.c.paused))
    case AllPausePart =>
      if det.Idle? || det.Parsed? || det.PausesRead? then None
      else Some(AllPauseValue(if det.AllPauseRead? then det.allPaused else det.c.allPaused))
    case WindowPart => if At(det, k) then Some(WindowValue(det.c, det.t)) else None
    case LivePart =>
      if At(det, k) && (det.Planned? || det.Waiting? || det.Moved? || det.Cleared? || det.LatestRead?) then Some(LiveValue(det.o)) else None
    case RetryPart => if At(det, k) && det.LatestRead? then Some(RetryValue(det.latestId, det.latest)) else None
  }

  /** The step reads that value. */
  ghost predicate Takes(p: N.Plan, s: Sys, a: Action, k: Key, x: Part, v: Value) {
    match x
    case GitPart => a.Parse? && v == GitValue(s.world.git, s.world.unparsed)
    case PausePart => a.ReadPauses? && v == PauseValue(s.world.paused)
    case AllPausePart => a.ReadAllPause? && v == AllPauseValue(s.world.allPaused)
    case WindowPart =>
      && a == Begin(k) && v.WindowValue? && v.t.key == k && k in v.c.git && k !in v.c.done && v.t.g == v.c.git[k]
      && (v.t.hold, v.t.liftedBy) == HoldOf(v.c, k, v.t.g, k in s.world.closed)
    case LivePart => a.PlanJob? && v.LiveValue? && v.o.diff == N.HashOf(p(v.o.job, JobOf(LiveOf(s.nomad, k))))
    case RetryPart => a.ReadLatest? && v == LatestValue(s.db.rows, k)
  }

  function LatestValue(rows: seq<Deployment>, k: Key): Value {
    var id := LatestOf(rows, k);
    RetryValue(id, if id.Some? then Some(rows[id.value]) else None)
  }

  /** A value held after a step was held before it, or is read at it. */
  ghost predicate From(p: N.Plan, s: Sys, a: Action, det: Detection, k: Key, x: Part) {
    var v := ValueOf(det, k, x); v.Some? ==> v == ValueOf(s.det, k, x) || Takes(p, s, a, k, x, v.value)
  }

  lemma ValueGoes(p: N.Plan, s: Sys, a: Action, k: Key, x: Part)
    ensures hide *; From(p, s, a, DetectionAfter(p, s, a), k, x)
  {
    LookFrom(p, s, a, k, x);
    ActedFrom(p, s, a, k, x);
    StayFrom(p, s, a, k, x);
    hide *;
    DetectionIs(p, s, a);
  }

  lemma StayFrom(p: N.Plan, s: Sys, a: Action, k: Key, x: Part)
    ensures From(p, s, a, s.det, k, x) && From(p, s, a, Idle, k, x)
  {
    hide Takes;
  }

  lemma LookFrom(p: N.Plan, s: Sys, a: Action, k: Key, x: Part)
    ensures hide *; From(p, s, a, Look(p, s, a), k, x)
  {
    hide HoldOf, ActiveOf, LatestOf, N.HashOf, N.Adjusted, LiveOf, ActiveRows;
  }

  lemma ActedFrom(p: N.Plan, s: Sys, a: Action, k: Key, x: Part)
    ensures hide *; From(p, s, a, Acted(s, a), k, x)
  {
    hide ReviewOf, DetectCall, Takes, ErrorOf;
  }

  /** It had read what it holds. */
  lemma HeldIsRead(det: Detection, k: Key, x: Part)
    ensures ValueOf(det, k, x).Some? ==> Has(Known(det, k), x)
    ensures det.LatestRead? && det.t.key == k ==> ValueOf(det, k, x).Some?
  {
  }

  // -- over a run ------------------------------------------------------------------------------------

  ghost function HeldAt(p: N.Plan, s: Sys, acts: seq<Action>, k: Key, x: Part, n: nat): Option<Value>
    requires n <= |acts|
  {
    hide *; ValueOf(Run(p, s, acts[..n]).det, k, x)
  }

  ghost predicate TakesAt(p: N.Plan, s: Sys, acts: seq<Action>, k: Key, x: Part, r: nat, v: Value)
    requires r < |acts|
  {
    hide *; Takes(p, Run(p, s, acts[..r]), acts[r], k, x, v)
  }

  /** The r-th step read the value the cycle under way at n holds, and has held since. */
  ghost predicate ReadAt(p: N.Plan, s: Sys, acts: seq<Action>, k: Key, x: Part, r: nat, n: nat)
    requires n <= |acts|
  {
    hide *; CycleStart(BeatsOf(p, s, acts, k), n) <= r < n && HeldAt(p, s, acts, k, x, n).Some?
            && TakesAt(p, s, acts, k, x, r, HeldAt(p, s, acts, k, x, n).value)
            && forall q: nat :: r < q <= n ==> HeldAt(p, s, acts, k, x, q).Some?
  }

  lemma HeldNext(p: N.Plan, s: Sys, acts: seq<Action>, k: Key, x: Part, n: nat)
    requires hide *; n < |acts|
    ensures var v := HeldAt(p, s, acts, k, x, n + 1);
      v.Some? ==> !BeatsOf(p, s, acts, k)[n].over && (v == HeldAt(p, s, acts, k, x, n) || TakesAt(p, s, acts, k, x, n, v.value))
  {
    hide *;
    var now, a := Run(p, s, acts[..n]), acts[n];
    StepTo(p, s, acts, n);
    NextParts(p, now, a);
    ValueGoes(p, now, a, k, x);
    BeatIs(p, now, a, k);
    HeldIs(p, s, acts, k, x, n);
    HeldIs(p, s, acts, k, x, n + 1);
    FromIs(p, now, a, DetectionAfter(p, now, a), k, x);
  }

  lemma HeldIs(p: N.Plan, s: Sys, acts: seq<Action>, k: Key, x: Part, n: nat)
    requires hide *; n <= |acts|
    ensures HeldAt(p, s, acts, k, x, n) == ValueOf(Run(p, s, acts[..n]).det, k, x)
    ensures n < |acts| ==> forall v :: TakesAt(p, s, acts, k, x, n, v) <==> Takes(p, Run(p, s, acts[..n]), acts[n], k, x, v)
  {
    hide Run, ValueOf, Takes;
  }

  lemma FromIs(p: N.Plan, s: Sys, a: Action, det: Detection, k: Key, x: Part)
    ensures hide *; From(p, s, a, det, k, x) ==> var v := ValueOf(det, k, x); v.Some? ==> !det.Idle? && (v == ValueOf(s.det, k, x) || Takes(p, s, a, k, x, v.value))
  {
    hide Takes;
  }

  lemma {:induction false} ReadSince(p: N.Plan, s: Sys, acts: seq<Action>, k: Key, x: Part, n: nat) returns (r: nat)
    requires hide *; Initial(s) && n <= |acts| && HeldAt(p, s, acts, k, x, n).Some?
    ensures ReadAt(p, s, acts, k, x, r, n)
    decreases n
  {
    hide *;
    NoneHeld(p, s, acts, k, x);
    HeldNext(p, s, acts, k, x, n - 1);
    StartNext(BeatsOf(p, s, acts, k), n - 1);
    if HeldAt(p, s, acts, k, x, n) == HeldAt(p, s, acts, k, x, n - 1) {
      r := ReadSince(p, s, acts, k, x, n - 1);
      ReadIs(p, s, acts, k, x, r, n - 1);
    } else {
      r := n - 1;
    }
    ReadIs(p, s, acts, k, x, r, n);
  }

  lemma NoneHeld(p: N.Plan, s: Sys, acts: seq<Action>, k: Key, x: Part)
    requires hide *; Initial(s)
    ensures HeldAt(p, s, acts, k, x, 0).None?
  {
    assert acts[..0] == [];
    hide Takes, Next, At;
  }

  lemma ReadIs(p: N.Plan, s: Sys, acts: seq<Action>, k: Key, x: Part, r: nat, n: nat)
    requires hide *; n <= |acts|
    ensures ReadAt(p, s, acts, k, x, r, n) <==>
      && CycleStart(BeatsOf(p, s, acts, k), n) <= r < n && HeldAt(p, s, acts, k, x, n).Some?
      && TakesAt(p, s, acts, k, x, r, HeldAt(p, s, acts, k, x, n).value)
      && forall q: nat :: r < q <= n ==> HeldAt(p, s, acts, k, x, q).Some?
  {
    hide HeldAt, TakesAt, CycleStart, BeatsOf, BeatOf;
  }

  // -- a deployment is of what its cycle read -----------------------------------------------------------

  /** The step reads what the deployment is made of. */
  ghost predicate MadeOf(p: N.Plan, s: Sys, a: Action, d: Deployment, x: Part) {
    match x
    case GitPart => a.Parse? && d.key in s.world.git && d.specHash == Decisions.HashOf(s.world.git[d.key])
    case PausePart => a.ReadPauses? && d.key !in s.world.paused
    case AllPausePart => a.ReadAllPause? && !s.world.allPaused
    case WindowPart =>
      && a == Begin(d.key)
      && (d.specHash.target.cfg.policy == N.Auto && d.specHash.target.cfg.windowed && d.key in s.world.closed ==> d.liftedBy.Some?)
    case LivePart => a.PlanJob? && d.diffHash == N.HashOf(p(d.spec, JobOf(LiveOf(s.nomad, d.key))))
    case RetryPart =>
      && a.ReadLatest?
      && var id := LatestOf(s.db.rows, d.key);
         d.retryOf == if id.Some? && Retried(s.db.rows[id.value], d.specHash) then id else None
  }

  /** The r-th step reads what the deployment created at j is made of, and its cycle holds it from there on. */
  ghost predicate MadeAt(p: N.Plan, s: Sys, acts: seq<Action>, d: Deployment, x: Part, r: nat, j: nat)
    requires j <= |acts|
  {
    hide *; CycleStart(BeatsOf(p, s, acts, d.key), j) <= r < j && MadeOf(p, Run(p, s, acts[..r]), acts[r], d, x)
            && forall q: nat :: r < q < j ==> ReadBy(BeatsOf(p, s, acts, d.key), q, x)
  }

  /** What is created is made of what each cycle holds. */
  lemma HeldMakes(p: N.Plan, s: Sys, a: Action, t: Sys, b: Action, k: Key, x: Part, v: Value, closed: bool)
    requires hide *; CallOf(s, a).Create? && CallOf(s, a).d.key == k && ValueOf(s.det, k, x) == Some(v) && Takes(p, t, b, k, x, v)
    requires s.det.LatestRead? && k in s.det.c.git && s.det.t.g == s.det.c.git[k] && (s.det.t.hold, s.det.t.liftedBy) == HoldOf(s.det.c, k, s.det.t.g, closed)
    ensures MadeOf(p, t, b, CallOf(s, a).d, x)
  {
    hide CallOf, NewDeployment, LatestOf, HoldOf, WindowCloses, Decisions.HashOf, Retried, N.HashOf, LiveOf;
    CreatedWhole(s, a);
    HoldLets(s.det.c, s.det.t, closed);
    HoldLets(s.det.c, s.det.t, k in t.world.closed);
  }

  lemma CreatedWhole(s: Sys, a: Action)
    requires hide *; CallOf(s, a).Create?
    ensures var d := CallOf(s, a).d;
      && s.det.LatestRead? && s.det.t.hold.None? && (s.det.latestId.Some? <==> s.det.latest.Some?)
      && d.key == s.det.t.key && d.liftedBy == s.det.t.liftedBy && d.specHash.target == s.det.t.g.job
      && d.specHash == Decisions.HashOf(s.det.t.g) && d.spec == s.det.o.job && d.diffHash == s.det.o.diff && d.cas == s.det.o.index
      && d.retryOf == if s.det.latest.Some? && Retried(s.det.latest.value, d.specHash) then s.det.latestId else None
  {
    hide CallOf, Problem, Frozen, Lines, Retried, Blocked;
    CreateOrigin(s, a);
  }

  /** Nothing holds a job only if it is not paused, and its window lets it. */
  lemma HoldLets(c: Cycle, t: Todo, closed: bool)
    ensures (t.hold, t.liftedBy) == HoldOf(c, t.key, t.g, closed) && t.hold.None? ==>
      t.key !in c.paused && !c.allPaused && (t.g.job.cfg.policy == N.Auto && t.g.job.cfg.windowed && closed ==> t.liftedBy.Some?)
  {
    hide Decisions.HashOf;
  }

  /** The job a cycle is at, as it found it when it began with it. */
  lemma TakesWindow(p: N.Plan, s: Sys, a: Action, k: Key, det: Detection)
    requires hide *; det.LatestRead? && Takes(p, s, a, k, WindowPart, WindowValue(det.c, det.t))
    ensures det.t.key == k && k in det.c.git && det.t.g == det.c.git[k]
    ensures (det.t.hold, det.t.liftedBy) == HoldOf(det.c, k, det.t.g, k in s.world.closed)
  {
    hide HoldOf;
  }

  lemma WindowHeld(det: Detection, k: Key)
    ensures det.LatestRead? && det.t.key == k ==> ValueOf(det, k, WindowPart) == Some(WindowValue(det.c, det.t))
  {
  }

  /**
   In every run, a deployment is made of what its cycle read: git, the pauses, the window, the
   plan against the live job and the latest deployment, each at a step since the cycle started
   from which on it knew.
  */
  lemma MadeOfWhatItRead(p: N.Plan, s: Sys, acts: seq<Action>, j: nat, x: Part) returns (r: nat)
    requires hide *; Initial(s) && j < |acts| && CallOf(Run(p, s, acts[..j]), acts[j]).Create?
    ensures MadeAt(p, s, acts, CallOf(Run(p, s, acts[..j]), acts[j]).d, x, r, j)
  {
    hide *;
    var now, a := Run(p, s, acts[..j]), acts[j];
    var d := CallOf(now, a).d;
    var k := d.key;
    CreatedWhole(now, a);
    HeldIsRead(now.det, k, x);
    WindowHeld(now.det, k);
    HeldIs(p, s, acts, k, x, j);
    HeldIs(p, s, acts, k, WindowPart, j);
    var h := ReadSince(p, s, acts, k, WindowPart, j);
    ReadIs(p, s, acts, k, WindowPart, h, j);
    HeldIs(p, s, acts, k, WindowPart, h);
    TakesWindow(p, Run(p, s, acts[..h]), acts[h], k, now.det);
    r := ReadSince(p, s, acts, k, x, j);
    ReadIs(p, s, acts, k, x, r, j);
    HeldIs(p, s, acts, k, x, r);
    HeldMakes(p, now, a, Run(p, s, acts[..r]), acts[r], k, x, HeldAt(p, s, acts, k, x, j).value, k in Run(p, s, acts[..h]).world.closed);
    forall q: nat | r < q < j
      ensures ReadBy(BeatsOf(p, s, acts, k), q, x)
    {
      HeldIs(p, s, acts, k, x, q);
      HeldIsRead(Run(p, s, acts[..q]).det, k, x);
      BeatIs(p, Run(p, s, acts[..q]), acts[q], k);
      CallsWhen(BeatsOf(p, s, acts, k), q, x);
    }
    MadeIs(p, s, acts, d, x, r, j);
  }

  lemma MadeIs(p: N.Plan, s: Sys, acts: seq<Action>, d: Deployment, x: Part, r: nat, j: nat)
    requires hide *; j <= |acts|
    ensures MadeAt(p, s, acts, d, x, r, j) <==>
      && CycleStart(BeatsOf(p, s, acts, d.key), j) <= r < j && MadeOf(p, Run(p, s, acts[..r]), acts[r], d, x)
      && forall q: nat :: r < q < j ==> ReadBy(BeatsOf(p, s, acts, d.key), q, x)
  {
    hide Run, MadeOf, CycleStart, BeatsOf, BeatOf, ReadBy;
  }

  /**
   The event between two creates that the first cycle did not see is one the second deployment
   answers: what the event changes was read for it after the event.
  */
  lemma AnswersTheEvent(p: N.Plan, s: Sys, acts: seq<Action>, i: nat, j: nat, m: nat, x: Part) returns (r: nat)
    requires hide *; Initial(s) && i <= j < |acts| && CallOf(Run(p, s, acts[..j]), acts[j]).Create?
    requires EventAt(BeatsOf(p, s, acts, CallOf(Run(p, s, acts[..j]), acts[j]).d.key), i, j, m, x)
    ensures m < r && MadeAt(p, s, acts, CallOf(Run(p, s, acts[..j]), acts[j]).d, x, r, j)
  {
    hide *;
    var d := CallOf(Run(p, s, acts[..j]), acts[j]).d;
    var bs := BeatsOf(p, s, acts, d.key);
    r := MadeOfWhatItRead(p, s, acts, j, x);
    MadeIs(p, s, acts, d, x, r, j);
    EventIs(bs, i, j, m, x);
    EventsAreOutside(p, s, acts, d.key, m, x);
    ReadsItself(p, Run(p, s, acts[..r]), acts[r], d, x);
  }

  /** An event between the two creates is answered: what it changes was read for the second deployment after it. */
  ghost predicate Answered(p: N.Plan, s: Sys, acts: seq<Action>, d: Deployment, i: nat, j: nat)
    requires i <= j <= |acts|
  {
    hide *; exists m, x, r :: EventAt(BeatsOf(p, s, acts, d.key), i, j, m, x) && m < r && MadeAt(p, s, acts, d, x, r, j)
  }

  /** In every run, the second of two deployments of a job, one after the other, answers an event between them, or there is a race. */
  lemma SecondAnswers(p: N.Plan, s: Sys, acts: seq<Action>, k: Key, i: nat, j: nat)
    requires hide *; N.Lawful(p) && Initial(s) && i < j < |acts|
    requires var bs := BeatsOf(p, s, acts, k);
      CreatesAt(bs, i) && CreatesAt(bs, j) && forall m: nat :: i < m < j ==> !CreatesAt(bs, m)
    ensures var c := CallOf(Run(p, s, acts[..j]), acts[j]);
      c.Create? && c.d.key == k && (Answered(p, s, acts, c.d, i, j) || RaceBetween(BeatsOf(p, s, acts, k), i, j + 1))
  {
    hide *;
    var bs := BeatsOf(p, s, acts, k);
    ConsecutiveCreates(p, s, acts, k, i, j);
    CreatesBeat(p, s, acts, k, j);
    CreatesIts(Run(p, s, acts[..j]), acts[j], k);
    if EventBetween(bs, i, j) {
      var m, x := BetweenIs(bs, i, j);
      var r := AnswersTheEvent(p, s, acts, i, j, m, x);
      AnsweredWhen(p, s, acts, CallOf(Run(p, s, acts[..j]), acts[j]).d, i, j, m, x, r);
    }
  }

  lemma AnsweredWhen(p: N.Plan, s: Sys, acts: seq<Action>, d: Deployment, i: nat, j: nat, m: nat, x: Part, r: nat)
    requires hide *; i <= j <= |acts| && EventAt(BeatsOf(p, s, acts, d.key), i, j, m, x) && m < r && MadeAt(p, s, acts, d, x, r, j)
    ensures Answered(p, s, acts, d, i, j)
  {
    hide EventAt, MadeAt, BeatsOf, BeatOf;
  }

  lemma CreatesIts(s: Sys, a: Action, k: Key)
    requires Creates(s, CallOf(s, a), k)
    ensures CallOf(s, a).Create? && CallOf(s, a).d.key == k
  {
    hide CallOf, Writes;
  }

  lemma BetweenIs(bs: seq<Beat>, i: nat, n: nat) returns (m: nat, x: Part)
    requires i <= n <= |bs| && EventBetween(bs, i, n)
    ensures EventAt(bs, i, n, m, x)
  {
    hide EventAt;
    m, x :| EventAt(bs, i, n, m, x);
  }

  lemma EventIs(bs: seq<Beat>, i: nat, n: nat, m: nat, x: Part)
    requires i <= n <= |bs| && EventAt(bs, i, n, m, x)
    ensures CycleStart(bs, i) <= m < n && Calls(bs, m, x) && (CycleStart(bs, n) <= m ==> !ReadBy(bs, m, x))
  {
    hide CycleStart, Calls, ReadBy;
  }

  /** A step that reads is the cycle's own. */
  lemma ReadsItself(p: N.Plan, s: Sys, a: Action, d: Deployment, x: Part)
    requires hide *; MadeOf(p, s, a, d, x)
    ensures !IsOutside(a) && !IsHuman(a)
  {
    hide LatestOf, Decisions.HashOf, Retried, N.HashOf, LiveOf;
  }

  // -- no create while held ------------------------------------------------------------------------------

  /**
   In every run, the cycle that creates a deployment found, at steps of its own, the job not
   paused, nor all of them, and its window open unless a person lifted it: a pause or a closed
   window that stands through a cycle keeps it from creating.
  */
  lemma CreatesOnlyUnheld(p: N.Plan, s: Sys, acts: seq<Action>, n: nat)
    requires hide *; Initial(s) && n < |acts| && CallOf(Run(p, s, acts[..n]), acts[n]).Create?
    ensures var d := CallOf(Run(p, s, acts[..n]), acts[n]).d;
      var from := CycleStart(BeatsOf(p, s, acts, d.key), n);
      && (exists m :: from <= m < n && FindsUnpaused(p, s, acts, m, d.key))
      && (exists m :: from <= m < n && FindsNoPause(p, s, acts, m))
      && (exists m :: from <= m < n && FindsOpen(p, s, acts, m, d))
  {
    hide *;
    var d := CallOf(Run(p, s, acts[..n]), acts[n]).d;
    var r := MadeOfWhatItRead(p, s, acts, n, PausePart);
    var q := MadeOfWhatItRead(p, s, acts, n, AllPausePart);
    var h := MadeOfWhatItRead(p, s, acts, n, WindowPart);
    MadeIs(p, s, acts, d, PausePart, r, n);
    MadeIs(p, s, acts, d, AllPausePart, q, n);
    MadeIs(p, s, acts, d, WindowPart, h, n);
    FindsIs(p, s, acts, d, r);
    FindsIs(p, s, acts, d, q);
    FindsIs(p, s, acts, d, h);
  }

  /** The cycle looks at the pauses, and the job is not paused. */
  ghost predicate FindsUnpaused(p: N.Plan, s: Sys, acts: seq<Action>, m: nat, k: Key)
    requires m < |acts|
  {
    hide *; acts[m].ReadPauses? && k !in Run(p, s, acts[..m]).world.paused
  }

  /** Nor are all of them. */
  ghost predicate FindsNoPause(p: N.Plan, s: Sys, acts: seq<Action>, m: nat)
    requires m < |acts|
  {
    hide *; acts[m].ReadAllPause? && !Run(p, s, acts[..m]).world.allPaused
  }

  /** It starts on the job; if git leaves the job to nops and gives it a sync window, the window is not closed, or a person lifted it. */
  ghost predicate FindsOpen(p: N.Plan, s: Sys, acts: seq<Action>, m: nat, d: Deployment)
    requires m < |acts|
  {
    hide *;
    && acts[m] == Begin(d.key)
    && (d.specHash.target.cfg.policy == N.Auto && d.specHash.target.cfg.windowed && d.key in Run(p, s, acts[..m]).world.closed ==> d.liftedBy.Some?)
  }

  lemma FindsIs(p: N.Plan, s: Sys, acts: seq<Action>, d: Deployment, m: nat)
    requires hide *; m < |acts|
    ensures MadeOf(p, Run(p, s, acts[..m]), acts[m], d, PausePart) ==> FindsUnpaused(p, s, acts, m, d.key)
    ensures MadeOf(p, Run(p, s, acts[..m]), acts[m], d, AllPausePart) ==> FindsNoPause(p, s, acts, m)
    ensures MadeOf(p, Run(p, s, acts[..m]), acts[m], d, WindowPart) ==> FindsOpen(p, s, acts, m, d)
  {
    hide Run;
  }

  // -- no deployment after one that failed -------------------------------------------------------------------

  /**
   In every run, a deployment created after one of the same spec that had ended failed or
   rejected before the cycle started is the retry a person asked for, or is for a diff the
   other did not record, at another index, and the other never registered.
  */
  lemma FollowsAFailure(p: N.Plan, s: Sys, acts: seq<Action>, n: nat, x: Id)
    requires hide *; Initial(s) && n < |acts| && CallOf(Run(p, s, acts[..n]), acts[n]).Create?
    requires LatestOf(Run(p, s, acts[..n]).db.rows, CallOf(Run(p, s, acts[..n]), acts[n]).d.key) == Some(x)
    requires var b := CycleStart(BeatsOf(p, s, acts, CallOf(Run(p, s, acts[..n]), acts[n]).d.key), n);
      var first := Run(p, s, acts[..b]); x < |first.db.rows| && Ended(first.db.rows[x].state)
    ensures var now := Run(p, s, acts[..n]);
      var d := CallOf(now, acts[n]).d;
      x < |now.db.rows| && AfterFailure(now.db.rows[x], d, x)
  {
    hide *;
    var now, a := Run(p, s, acts[..n]), acts[n];
    var k := CallOf(now, a).d.key;
    CreatedWhole(now, a);
    RunLined(p, s, acts[..n]);
    LatestHeldIs(now);
    HeldIsRead(now.det, k, RetryPart);
    HeldIs(p, s, acts, k, RetryPart, n);
    var m := ReadSince(p, s, acts, k, RetryPart, n);
    ReadIs(p, s, acts, k, RetryPart, m, n);
    HeldIs(p, s, acts, k, RetryPart, m);
    LatestTaken(p, Run(p, s, acts[..m]), acts[m], k, now.det);
    var b := CycleStart(BeatsOf(p, s, acts, k), n);
    RunsGrow(p, s, acts, b, m);
    RunsGrow(p, s, acts, m, n);
    LatestEnded(Run(p, s, acts[..b]).db, Run(p, s, acts[..m]).db, now.db, x);
    CreatedAfterFailure(now, a, now.db.rows[x], x);
  }

  /** What is created after a deployment that had failed or was rejected. */
  predicate AfterFailure(last: Deployment, d: Deployment, x: Id) {
    d.specHash == last.specHash ==>
      if d.retryOf.Some? then d.retryOf == Some(x) && Retries(last, d)
      else d.diffHash.Some? && d.diffHash != last.diffHash && d.cas != last.cas && AppliedIndex(last) == 0
  }

  lemma LatestHeldIs(s: Sys)
    requires hide *; Lined(s) && s.det.LatestRead?
    ensures s.det.latestId == LatestOf(s.db.rows, s.det.t.key)
  {
    hide LatestOf, Lineal;
  }

  lemma LatestTaken(p: N.Plan, s: Sys, a: Action, k: Key, det: Detection)
    requires hide *; det.LatestRead? && det.t.key == k && ValueOf(det, k, RetryPart).Some? && Takes(p, s, a, k, RetryPart, ValueOf(det, k, RetryPart).value)
    ensures det.latestId == LatestOf(s.db.rows, k)
    ensures det.latestId.Some? ==> det.latestId.value < |s.db.rows| && det.latest == Some(s.db.rows[det.latestId.value])
  {
    hide LatestOf;
  }

  /** A deployment that had ended is as it was, but for the mark of a retry. */
  lemma LatestEnded(first: Db, read: Db, now: Db, x: Id)
    requires Grows(first, read) && Grows(read, now) && x < |first.rows| && Ended(first.rows[x].state)
    ensures x < |read.rows| && x < |now.rows| && Ended(read.rows[x].state) && RowGrows(read.rows[x], now.rows[x])
  {
    assert RowGrows(first.rows[x], read.rows[x]);
  }

  lemma CreatedAfterFailure(s: Sys, a: Action, last: Deployment, x: Id)
    requires hide *; CallOf(s, a).Create? && s.det.LatestRead? && s.det.latestId == Some(x) && s.det.latest.Some?
    requires Ended(s.det.latest.value.state) && RowGrows(s.det.latest.value, last)
    ensures AfterFailure(last, CallOf(s, a).d, x)
  {
    CreateOrigin(s, a);
    hide CallOf, Problem, Frozen, Lines;
  }

  lemma RunsGrow(p: N.Plan, s: Sys, acts: seq<Action>, i: nat, n: nat)
    requires hide *; Initial(s) && i <= n <= |acts|
    ensures Grows(Run(p, s, acts[..i]).db, Run(p, s, acts[..n]).db)
  {
    hide *;
    assert acts[..n][..i] == acts[..i];
    Base.RunGrows(p, s, acts[..n], i);
  }

  // -- no start while held --------------------------------------------------------------------------------------

  /** What lets a deployment start on its own. */
  predicate Lets(world: World, d: Deployment) {
    && d.policy == Auto && d.key !in world.paused && !world.allPaused
    && (d.spec.cfg.policy == N.Auto && d.spec.cfg.windowed && d.key in world.closed ==> d.liftedBy.Some?)
  }

  /** The step decides to start the deployment, and nothing holds it then. */
  ghost predicate StartsAt(p: N.Plan, s: Sys, acts: seq<Action>, m: nat, id: Id)
    requires m < |acts|
  {
    hide *; acts[m] == Step(id, Work.Start) && MayStart(Run(p, s, acts[..m]), id)
  }

  predicate MayStart(s: Sys, id: Id) {
    id < |s.db.rows| && Lets(s.world, s.db.rows[id])
  }

  /** The worker of the deployment is about to start it. */
  predicate Started(s: Sys, id: Id) {
    id in s.workers && s.workers[id].pc.Deciding? && s.workers[id].d.state == Detected
  }

  lemma StartedIs(s: Sys, id: Id)
    ensures Started(s, id) <==> id in s.workers && s.workers[id].pc.Deciding? && s.workers[id].d.state == Detected
  {
  }

  /** It is from the step that decided so on. */
  lemma NextStarted(p: N.Plan, s: Sys, a: Action, id: Id)
    requires hide *; Basic(s) && Started(Next(p, s, a), id) && !Started(s, id)
    ensures a == Step(id, Work.Start) && MayStart(s, id)
  {
    NextParts(p, s, a);
    hide Next, Worked, Indexed, Sound, DetectionPast, PastOf, Lets;
    WorkerOrigin(p, s, a, id);
    if id in s.workers && a.Step? { StartWorked(p, s, id, s.workers[id], a.work); }
    hide WorkersAfter;
  }

  lemma StartWorked(p: N.Plan, s: Sys, id: Id, w: Worker, work: Work)
    requires hide *; PastOf(s.db.rows, id, w.d)
    ensures var next := Worked(p, s, id, w, work).next;
      next.Some? && next.value.pc.Deciding? && next.value.d.state == Detected && !(w.pc.Deciding? && w.d.state == Detected) ==> work.Start? && MayStart(s, id)
  {
    hide RegisterStep, HealthStep, HookStep, NextAfterDecision;
  }

  /** A step starts a detected deployment exactly when its policy is auto, it is not paused and its window lets it. */
  lemma StartsExactly(p: N.Plan, s: Sys, id: Id, d: Deployment)
    requires d.state == Detected
    ensures var next := Worked(p, s, id, Worker(d, Ready), Work.Start).next;
      next == Some(Worker(d, Ready)) || (next.Some? && next.value.pc.Deciding? && Lets(s.world, d))
    ensures Lets(s.world, d) ==> Worked(p, s, id, Worker(d, Ready), Work.Start).next != Some(Worker(d, Ready))
  {
    hide RegisterStep, HealthStep, HookStep, NextAfterDecision;
  }

  lemma {:induction false} RunStarted(p: N.Plan, s: Sys, acts: seq<Action>, n: nat, id: Id) returns (m: nat)
    requires hide *; Initial(s) && n <= |acts| && Started(Run(p, s, acts[..n]), id)
    ensures m < n && StartsAt(p, s, acts, m, id)
    decreases n
  {
    hide *;
    NoneStarted(p, s, acts, id);
    var now := Run(p, s, acts[..n - 1]);
    StepTo(p, s, acts, n - 1);
    RunBasic(p, s, acts[..n - 1]);
    if Started(now, id) {
      m := RunStarted(p, s, acts, n - 1, id);
    } else {
      m := n - 1;
      NextStarted(p, now, acts[m], id);
      StartsIs(p, s, acts, m, id);
    }
  }

  lemma NoneStarted(p: N.Plan, s: Sys, acts: seq<Action>, id: Id)
    requires hide *; Initial(s)
    ensures !Started(Run(p, s, acts[..0]), id)
  {
    assert acts[..0] == [];
    hide Next;
  }

  lemma StartsIs(p: N.Plan, s: Sys, acts: seq<Action>, m: nat, id: Id)
    requires hide *; m < |acts|
    ensures StartsAt(p, s, acts, m, id) <==> acts[m] == Step(id, Work.Start) && MayStart(Run(p, s, acts[..m]), id)
  {
    hide Run, MayStart;
  }

  /**
   In every run, a detected deployment starts only after a step, since it was created, that
   found its job not paused and its window open, or lifted for it.
  */
  lemma StartsOnlyUnheld(p: N.Plan, s: Sys, acts: seq<Action>, n: nat)
    requires hide *; Initial(s) && n < |acts| && CallOf(Run(p, s, acts[..n]), acts[n]).Transition?
    requires var c := CallOf(Run(p, s, acts[..n]), acts[n]); c.from == Detected && c.to in {PreHook, Applying}
    ensures exists m :: 0 <= m < n && StartsAt(p, s, acts, m, CallOf(Run(p, s, acts[..n]), acts[n]).id)
  {
    hide *;
    var now := Run(p, s, acts[..n]);
    TransitionOrigin(now, acts[n]);
    StartedIs(now, acts[n].id);
    var m := RunStarted(p, s, acts, n, CallOf(now, acts[n]).id);
  }

  // -- what git no longer declares -----------------------------------------------------------------------------

  /** A cycle sweeps only with every file parsed, and done with every job git declares. */
  predicate SweepsWhole(det: Detection) {
    det.Sweeping? ==> !det.c.unparsed && det.c.git.Keys <= det.c.done
  }

  lemma NextSweepsWhole(p: N.Plan, s: Sys, a: Action)
    requires hide *; SweepsWhole(s.det)
    ensures SweepsWhole(DetectionAfter(p, s, a))
  {
    hide HoldOf, ActiveRows, Review, DetectCall, LiveOf, N.HashOf, N.Adjusted, ActiveOf, LatestOf;
  }

  lemma {:induction false} RunSweepsWhole(p: N.Plan, s: Sys, acts: seq<Action>)
    requires Initial(s)
    ensures SweepsWhole(Run(p, s, acts).det)
  {
    hide *;
    if acts == [] {
      RunStart(p, s);
      InitialSweeps(s);
    } else {
      var most := acts[..|acts| - 1];
      RunSweepsWhole(p, s, most);
      RunLast(p, s, acts);
      NextParts(p, Run(p, s, most), acts[|acts| - 1]);
      NextSweepsWhole(p, Run(p, s, most), acts[|acts| - 1]);
    }
  }

  lemma InitialSweeps(s: Sys)
    requires Initial(s)
    ensures SweepsWhole(s.det)
  {
  }

  /** The m-th step reads git, with every file parsed. */
  ghost predicate ParsesWhole(p: N.Plan, s: Sys, acts: seq<Action>, m: nat)
    requires m < |acts|
  {
    hide *; acts[m].Parse? && !Run(p, s, acts[..m]).world.unparsed
  }

  /** What a sweep does with a deployment it listed, by the git its cycle read at the m-th step. */
  ghost predicate SweptBy(p: N.Plan, s: Sys, acts: seq<Action>, m: nat, d: Deployment, id: Id, c: Store.Call)
    requires m < |acts|
  {
    hide *;
    c == if d.key !in Run(p, s, acts[..m]).world.git && d.state in {Detected, PendingApproval}
         then Transition(id, d.state, Superseded, Nops, "", false) else NoCall
  }

  /**
   In every run, a cycle that sweeps read git with every file parsed and is done with the jobs it
   declares, and supersedes of the deployments it listed exactly the waiting ones of other jobs.
  */
  lemma SweepsExactlyTheAbsent(p: N.Plan, s: Sys, acts: seq<Action>, n: nat, id: Id)
    requires hide *; Initial(s) && n < |acts| && acts[n] == Sweep(id)
    requires var det := Run(p, s, acts[..n]).det; det.Sweeping? && id in det.left
    ensures var now := Run(p, s, acts[..n]);
      var d := now.det.left[id];
      && PastOf(now.db.rows, id, d) && now.det.c.git.Keys <= now.det.c.done
      && exists m :: CycleStart(BeatsOf(p, s, acts, d.key), n) <= m < n && ParsesWhole(p, s, acts, m) && SweptBy(p, s, acts, m, d, id, CallOf(now, acts[n]))
  {
    hide *;
    var now := Run(p, s, acts[..n]);
    var d := now.det.left[id];
    RunBasic(p, s, acts[..n]);
    BasicParts(now);
    LeftPast(now, id);
    RunSweepsWhole(p, s, acts[..n]);
    SweepHolds(now.det, d.key);
    HeldIs(p, s, acts, d.key, GitPart, n);
    var m := ReadSince(p, s, acts, d.key, GitPart, n);
    ReadIs(p, s, acts, d.key, GitPart, m, n);
    HeldIs(p, s, acts, d.key, GitPart, m);
    TakesGit(p, Run(p, s, acts[..m]), acts[m], d.key, now.det.c);
    SweepCall(now, id);
    ParsesIs(p, s, acts, m, d, id, CallOf(now, acts[n]));
  }

  lemma LeftPast(s: Sys, id: Id)
    requires Copies(s) && s.det.Sweeping? && id in s.det.left
    ensures PastOf(s.db.rows, id, s.det.left[id])
  {
    hide PastOf;
    assert DetectionPast(s.db.rows, s.det);
  }

  lemma SweepHolds(det: Detection, k: Key)
    requires det.Sweeping? && SweepsWhole(det)
    ensures ValueOf(det, k, GitPart) == Some(GitValue(det.c.git, false)) && !det.c.unparsed && det.c.git.Keys <= det.c.done
  {
  }

  lemma TakesGit(p: N.Plan, s: Sys, a: Action, k: Key, c: Cycle)
    requires hide *; Takes(p, s, a, k, GitPart, GitValue(c.git, false))
    ensures a.Parse? && s.world.git == c.git && !s.world.unparsed
  {
  }

  lemma SweepCall(s: Sys, id: Id)
    requires s.det.Sweeping? && id in s.det.left
    ensures var d := s.det.left[id];
      CallOf(s, Sweep(id)) == if d.key !in s.det.c.git && d.state in {Detected, PendingApproval} then Transition(id, d.state, Superseded, Nops, "", false) else NoCall
  {
  }

  lemma ParsesIs(p: N.Plan, s: Sys, acts: seq<Action>, m: nat, d: Deployment, id: Id, c: Store.Call)
    requires hide *; m < |acts|
    ensures ParsesWhole(p, s, acts, m) <==> acts[m].Parse? && !Run(p, s, acts[..m]).world.unparsed
    ensures SweptBy(p, s, acts, m, d, id, c) <==>
      c == if d.key !in Run(p, s, acts[..m]).world.git && d.state in {Detected, PendingApproval}
           then Transition(id, d.state, Superseded, Nops, "", false) else NoCall
  {
    hide Run;
  }
}
