/**
 Two deployments of a job, one after the other: what came between the cycles that created
 them, and when a cycle creates one that nothing from outside calls for.
*/
module Consecutive {
  import opened Options
  import opened Store
  import opened Decisions
  import opened Machine
  import opened Base
  import opened AppliedDiff
  import opened Lineage
  import opened JobLedger
  import opened Beats
  import opened NoLoop
  import N = Nomad

  // -- a run, as a job sees it ----------------------------------------------------------------------

  ghost function BeatOf(p: N.Plan, s: Sys, a: Action, k: Key): Beat {
    Beat(Heard(p, s, a, k), Known(s.det, k), StrayRegister(p, s, a, k), Torn(p, s, a, k), Creates(s, CallOf(s, a), k),
         a.Step? && Changes(p, s, a, k), !Acts(a) && Ends(s.db, Exec(s.db, CallOf(s, a)), k),
         Acting(s.det, k) && Acting(DetectionAfter(p, s, a), k), DetectionAfter(p, s, a).Idle?)
  }

  /** The steps of a run, as the job sees them. */
  ghost function BeatsOf(p: N.Plan, s: Sys, acts: seq<Action>, k: Key): (bs: seq<Beat>)
    ensures hide *; |bs| == |acts| && forall m: nat :: m < |acts| ==> bs[m] == BeatOf(p, Run(p, s, acts[..m]), acts[m], k)
  {
    hide *; seq(|acts|, m requires 0 <= m < |acts| => BeatOf(p, Run(p, s, acts[..m]), acts[m], k))
  }

  /** The ledger of a job is the one of its beats. */
  lemma WatchBeaten(p: N.Plan, s: Sys, a: Action, k: Key, w: Ledger)
    ensures hide *; Note(p, s, a, k, w) == Noted(w, BeatOf(p, s, a, k)) && Watch(p, s, a, k, w) == Beaten(w, BeatOf(p, s, a, k))
  {
    hide Heard, Known, StrayRegister, Torn, Creates, CallOf, Changes, Ends, Exec, Acting, DetectionAfter, Book, HandOver;
  }

  lemma {:induction false} WatchedTally(p: N.Plan, s: Sys, acts: seq<Action>, k: Key, n: nat)
    requires hide *; n <= |acts|
    ensures Watched(p, s, acts[..n], k) == Tally(BeatsOf(p, s, acts, k), n)
    decreases n
  {
    hide *;
    TallyNext(BeatsOf(p, s, acts, k), n);
    if n == 0 {
      assert acts[..0] == [];
      NoWatch(p, s, k);
    } else {
      var most := acts[..n];
      assert most[..n - 1] == acts[..n - 1] && most[n - 1] == acts[n - 1];
      WatchedTally(p, s, acts, k, n - 1);
      WatchedLast(p, s, most, k);
      WatchBeaten(p, Run(p, s, acts[..n - 1]), acts[n - 1], k, Watched(p, s, acts[..n - 1], k));
    }
  }

  lemma TallyNext(bs: seq<Beat>, n: nat)
    requires n <= |bs|
    ensures Tally(bs, n) == if n == 0 then OPENING else Beaten(Tally(bs, n - 1), bs[n - 1])
  {
    hide Beaten;
  }

  lemma NoWatch(p: N.Plan, s: Sys, k: Key)
    ensures hide *; Watched(p, s, [], k) == OPENING
  {
    hide Watch, Run;
  }

  lemma BeatsGoOn(p: N.Plan, s: Sys, acts: seq<Action>, k: Key)
    ensures hide *; GoesOn(BeatsOf(p, s, acts, k))
  {
    hide *;
    var bs := BeatsOf(p, s, acts, k);
    GoesOnWhen(bs);
    forall m | 0 <= m < |bs|
      ensures (bs[m].creates ==> !bs[m].over) && (bs[m].acting ==> !bs[m].over)
    {
      BeatGoesOn(p, Run(p, s, acts[..m]), acts[m], k);
    }
  }

  lemma BeatGoesOn(p: N.Plan, s: Sys, a: Action, k: Key)
    ensures hide *; var b := BeatOf(p, s, a, k); (b.creates ==> !b.over) && (b.acting ==> !b.over)
  {
    CreateGoesOn(p, s, a, k);
    hide Creates, CallOf, DetectionAfter, Heard, Known, StrayRegister, Torn, Changes, Ends, Exec;
  }

  /** A step that creates does not end the cycle. */
  lemma CreateGoesOn(p: N.Plan, s: Sys, a: Action, k: Key)
    ensures hide *; Creates(s, CallOf(s, a), k) ==> a.CreateNow? && !DetectionAfter(p, s, a).Idle?
  {
    hide CallOf, DetectionAfter;
    if Creates(s, CallOf(s, a), k) {
      CreatedFacts(s, a, k);
      CreateSteps(p, s, a, k);
    }
  }

  /** What every run keeps, at its n-th step. */
  lemma RunFacts(p: N.Plan, s: Sys, acts: seq<Action>, k: Key, n: nat)
    requires hide *; N.Lawful(p) && Initial(s) && n <= |acts|
    ensures var now, w := Run(p, s, acts[..n]), Tally(BeatsOf(p, s, acts, k), n);
      Engine(p, now) && Copies(now) && LatestHeld(now.db.rows, now.det) && Views(p, now, k, w) && Owes(p, now, k, w)
  {
    hide *;
    RunPaid(p, s, acts[..n], k);
    RunEngine(p, s, acts[..n]);
    WatchedTally(p, s, acts, k, n);
    EngineCopies(p, Run(p, s, acts[..n]));
  }

  lemma StepTo(p: N.Plan, s: Sys, acts: seq<Action>, n: nat)
    requires hide *; n < |acts|
    ensures Run(p, s, acts[..n + 1]) == Next(p, Run(p, s, acts[..n]), acts[n])
  {
    hide *;
    assert acts[..n + 1][..n] == acts[..n];
    RunLast(p, s, acts[..n + 1]);
  }

  // -- two deployments, one after the other -----------------------------------------------------------------

  /**
   In every run, between the cycles that create two deployments of a job one after the other
   there is an event from outside that calls for the second, made after the first cycle read
   what it changes and before the second did, or one of three races: the live job changes
   between a cycle's read and its plan, a stale copy is registered, or a create, the second or
   the first, is from a plan that was overtaken.
  */
  lemma ConsecutiveCreates(p: N.Plan, s: Sys, acts: seq<Action>, k: Key, i: nat, j: nat)
    requires hide *; N.Lawful(p) && Initial(s) && i < j < |acts|
    requires var bs := BeatsOf(p, s, acts, k);
      CreatesAt(bs, i) && CreatesAt(bs, j) && forall m: nat :: i < m < j ==> !CreatesAt(bs, m)
    ensures var bs := BeatsOf(p, s, acts, k); EventBetween(bs, i, j) || RaceBetween(bs, i, j + 1)
  {
    hide *;
    var now, w := Run(p, s, acts[..j]), Tally(BeatsOf(p, s, acts, k), j);
    BeatsGoOn(p, s, acts, k);
    RunFacts(p, s, acts, k, j);
    CreatesBeat(p, s, acts, k, j);
    if !w.overtaken {
      NotFromOvertaken(now, acts[j], k, w);
      CreateIsDue(p, now, acts[j], k, w);
    }
    TwoCreates(BeatsOf(p, s, acts, k), i, j);
  }

  lemma CreatesBeat(p: N.Plan, s: Sys, acts: seq<Action>, k: Key, m: nat)
    requires hide *; m < |acts|
    ensures CreatesAt(BeatsOf(p, s, acts, k), m) <==> Creates(Run(p, s, acts[..m]), CallOf(Run(p, s, acts[..m]), acts[m]), k)
  {
    hide Run, BeatsOf, Creates, CallOf, Heard, Known, StrayRegister, Torn, Changes, Ends, Exec, Acting, DetectionAfter;
  }

  /** An event is a step from outside, or a person's. */
  lemma EventsAreOutside(p: N.Plan, s: Sys, acts: seq<Action>, k: Key, m: nat, x: Part)
    requires hide *; m < |acts| && Calls(BeatsOf(p, s, acts, k), m, x)
    ensures IsOutside(acts[m]) || IsHuman(acts[m])
  {
    hide *;
    HeardOutside(p, Run(p, s, acts[..m]), acts[m], k);
    BeatIs(p, Run(p, s, acts[..m]), acts[m], k);
    CallsWhen(BeatsOf(p, s, acts, k), m, x);
  }

  lemma HeardOutside(p: N.Plan, s: Sys, a: Action, k: Key)
    ensures forall x :: Has(Heard(p, s, a, k), x) ==> IsOutside(a) || IsHuman(a)
  {
    RetriesByPerson(s, a);
    hide CallOf, LiveMoved, Writes;
  }

  lemma RetriesByPerson(s: Sys, a: Action)
    ensures CallOf(s, a).MarkRetried? ==> IsHuman(a)
  {
    hide NewDeployment, Review, Follows, HookCall;
  }

  // -- a create that nothing calls for --------------------------------------------------------------------------

  predicate AsCreated(s: Sys, k: Key, w: Ledger, d: Deployment) {
    WorldOwes(s.world, d, k, w) && CycleOwes(s.det, d, k) && MarksOwe(s.det, k)
  }

  /** Git, the pauses, the window and the marks are as the job's last deployment was created from. */
  predicate AsLast(s: Sys, k: Key, w: Ledger) {
    LatestOf(s.db.rows, k).Some? && AsCreated(s, k, w, s.db.rows[LatestOf(s.db.rows, k).value])
  }

  /** The parts of a step's events, flag by flag. */
  predicate Quieted(heard: Parts, known: Parts, v: Ledger, idle: bool) {
    && (heard.git ==> known.git) && (heard.pause ==> known.pause) && (heard.allPause ==> known.allPause)
    && (heard.window ==> known.window) && (heard.retry ==> known.retry)
    && (idle ==> !v.git && !v.pause && !v.allPause && !v.window && !v.retry)
  }

  lemma QuietedIs(heard: Parts, known: Parts, v: Ledger, idle: bool)
    requires forall x :: !IsLive(x) ==> (Has(heard, x) ==> Has(known, x)) && (idle ==> !Flag(v, x))
    ensures Quieted(heard, known, v, idle)
  {
    assert !IsLive(GitPart) && !IsLive(PausePart) && !IsLive(AllPausePart) && !IsLive(WindowPart) && !IsLive(RetryPart);
    assert Has(heard, GitPart) == heard.git && Has(heard, PausePart) == heard.pause && Has(heard, AllPausePart) == heard.allPause
        && Has(heard, WindowPart) == heard.window && Has(heard, RetryPart) == heard.retry;
    assert Flag(v, GitPart) == v.git && Flag(v, PausePart) == v.pause && Flag(v, AllPausePart) == v.allPause
        && Flag(v, WindowPart) == v.window && Flag(v, RetryPart) == v.retry;
  }

  lemma HeardIs(p: N.Plan, s: Sys, a: Action, k: Key)
    ensures var h, world := Heard(p, s, a, k), WorldAfter(s.world, a);
      && h.git == GitEvent(s, world, k) && h.pause == PauseEvent(s, world, k) && h.allPause == (s.world.allPaused != world.allPaused)
      && h.window == WindowEvent(s, world, k) && h.retry == RetryEvent(s, CallOf(s, a), k)
    ensures var h := Known(s.det, k);
      && h.git == HasGit(s.det) && h.pause == HasPause(s.det) && h.allPause == HasAllPause(s.det)
      && h.window == HasWindow(s.det, k) && h.retry == HasMarks(s.det, k)
  {
    hide GitEvent, PauseEvent, WindowEvent, RetryEvent, LiveEvent, CallOf, WorldAfter, HasGit, HasPause, HasAllPause, HasWindow, HasMarks, HasLive;
  }

  lemma WorldKeeps(p: N.Plan, s: Sys, a: Action, k: Key, w: Ledger, d: Deployment, e: Deployment)
    requires WorldOwes(s.world, d, k, w) && RowGrows(d, e) && (e.retriedBy == d.retriedBy || RetryEvent(s, CallOf(s, a), k))
    requires Quieted(Heard(p, s, a, k), Known(s.det, k), Note(p, s, a, k, w), DetectionAfter(p, s, a).Idle?)
    ensures WorldOwes(WorldAfter(s.world, a), e, k, Watch(p, s, a, k, w))
  {
    HeardIs(p, s, a, k);
    NoteFlags(p, s, a, k, w);
    hide Note, Watch, Heard, Known, CallOf, Creates, RetryEvent, WorldAfter, DetectionAfter, Decisions.HashOf, WindowCloses, LiveMoved, Torn, CreatesOvertaken, Overtakes;
  }

  lemma AsCreatedStays(p: N.Plan, s: Sys, a: Action, k: Key, w: Ledger)
    requires hide *; Engine(p, s) && Views(p, s, k, w) && AsLast(s, k, w) && !Creates(s, CallOf(s, a), k)
    requires Quieted(Heard(p, s, a, k), Known(s.det, k), Note(p, s, a, k, w), DetectionAfter(p, s, a).Idle?)
    ensures AsLast(Next(p, s, a), k, Watch(p, s, a, k, w))
  {
    hide *;
    AsLastIs(s, k, w);
    var id := LatestOf(s.db.rows, k).value;
    LatestKey(s.db.rows, k);
    CreatesWhat(s, a, k);
    var d, after := s.db.rows[id], Next(p, s, a);
    AsCreatedIs(s, k, w, d);
    EngineParts(p, s, id);
    EngineCopies(p, s);
    NextParts(p, s, a);
    LatestSame(s.db, CallOf(s, a), k);
    ExecGrows(s.db, CallOf(s, a));
    GrowsRow(s.db, after.db, id);
    var e := after.db.rows[id];
    RetriedHow(s, a, k, id);
    ViewParts(p, s, k, w);
    WorldKeeps(p, s, a, k, w, d, e);
    NextCycleOwes(p, s, a, k, w, d, e);
    NextMarksOwe(p, s, a, k, w);
    AsCreatedIs(after, k, Watch(p, s, a, k, w), e);
    AsLastIs(after, k, Watch(p, s, a, k, w));
  }

  lemma LatestKey(rows: seq<Deployment>, k: Key)
    requires LatestOf(rows, k).Some?
    ensures rows[LatestOf(rows, k).value].key == k
  {
  }

  lemma AsCreatedIs(s: Sys, k: Key, w: Ledger, d: Deployment)
    ensures AsCreated(s, k, w, d) <==> WorldOwes(s.world, d, k, w) && CycleOwes(s.det, d, k) && MarksOwe(s.det, k)
  {
    hide WorldOwes, CycleOwes, MarksOwe;
  }

  lemma AsCreatedNow(p: N.Plan, s: Sys, a: Action, k: Key, w: Ledger)
    requires hide *; Engine(p, s) && Views(p, s, k, w) && Creates(s, CallOf(s, a), k)
    ensures AsLast(Next(p, s, a), k, Watch(p, s, a, k, w))
  {
    hide *;
    var after, n := Next(p, s, a), Note(p, s, a, k, w);
    CreatedFacts(s, a, k);
    EngineCopies(p, s);
    NextParts(p, s, a);
    ViewParts(p, s, k, w);
    NoteFlags(p, s, a, k, w);
    AtCreate(s.det, k, after.db.rows[|s.db.rows|]);
    CreateSteps(p, s, a, k);
    NotRetried(s, a, k);
    var e := after.db.rows[|s.db.rows|];
    NewWorldOwes(s, k, w, n, e);
    NewCycleOwes(s, k, w.window, e);
    AsCreatedIs(after, k, Watch(p, s, a, k, w), e);
    AsLastIs(after, k, Watch(p, s, a, k, w));
  }

  lemma AsLastIs(s: Sys, k: Key, w: Ledger)
    ensures AsLast(s, k, w) <==> LatestOf(s.db.rows, k).Some? && AsCreated(s, k, w, s.db.rows[LatestOf(s.db.rows, k).value])
  {
    hide AsCreated, LatestOf;
  }

  /** A step that nothing calls anything for. */
  lemma QuietBeat(bs: seq<Beat>, n: nat, i: nat)
    requires i < n < |bs| && GoesOn(bs) && !CalledBetween(bs, i, n + 1)
    ensures Quieted(bs[n].heard, bs[n].known, Noted(Tally(bs, n), bs[n]), bs[n].over)
  {
    hide *;
    forall x | !IsLive(x)
      ensures (Has(bs[n].heard, x) ==> Has(bs[n].known, x)) && (bs[n].over ==> !Flag(Noted(Tally(bs, n), bs[n]), x))
    {
      Uncalled(bs, n, i, x);
    }
    QuietedIs(bs[n].heard, bs[n].known, Noted(Tally(bs, n), bs[n]), bs[n].over);
  }

  lemma BeatIs(p: N.Plan, s: Sys, a: Action, k: Key)
    ensures hide *; var b := BeatOf(p, s, a, k);
      b.heard == Heard(p, s, a, k) && b.known == Known(s.det, k) && b.over == DetectionAfter(p, s, a).Idle? && b.creates == Creates(s, CallOf(s, a), k)
  {
    hide Heard, Known, StrayRegister, Torn, Creates, CallOf, Changes, Ends, Exec, Acting, DetectionAfter;
  }

  /** While nothing but the live job called for a deployment since the last create, all is as that create found it. */
  lemma {:induction false} RunStill(p: N.Plan, s: Sys, acts: seq<Action>, k: Key, i: nat, n: nat)
    requires hide *; N.Lawful(p) && Initial(s) && i < n <= |acts|
    requires var bs := BeatsOf(p, s, acts, k);
      CreatesAt(bs, i) && (forall m: nat :: i < m < n ==> !CreatesAt(bs, m)) && !CalledBetween(bs, i, n)
    ensures AsLast(Run(p, s, acts[..n]), k, Tally(BeatsOf(p, s, acts, k), n))
    decreases n
  {
    hide *;
    var bs := BeatsOf(p, s, acts, k);
    var now, a, w := Run(p, s, acts[..n - 1]), acts[n - 1], Tally(bs, n - 1);
    RunFacts(p, s, acts, k, n - 1);
    CreatesBeat(p, s, acts, k, n - 1);
    StepTo(p, s, acts, n - 1);
    TallyNext(bs, n);
    WatchBeaten(p, now, a, k, w);
    if n == i + 1 {
      AsCreatedNow(p, now, a, k, w);
    } else {
      EventLater(bs, i, n - 1);
      RunStill(p, s, acts, k, i, n - 1);
      BeatsGoOn(p, s, acts, k);
      QuietBeat(bs, n - 1, i);
      BeatIs(p, now, a, k);
      AsCreatedStays(p, now, a, k, w);
    }
  }

  /** A cycle is about to create, or not, and i is the create of the job before. */
  ghost predicate AboutToCreate(p: N.Plan, s: Sys, acts: seq<Action>, k: Key, i: nat) {
    hide *; i < |acts| && Run(p, s, acts).det.LatestRead? && Run(p, s, acts).det.t.key == k
            && (var bs := BeatsOf(p, s, acts, k); CreatesAt(bs, i) && forall m: nat :: i < m < |acts| ==> !CreatesAt(bs, m))
  }

  /** The latest deployment as read failed or was rejected, after a register, or at this index, or with this diff. */
  predicate Failing(d: Deployment, o: Seen) {
    Ended(d.state) && (AppliedIndex(d) != 0 || d.cas == o.index || (o.diff.Some? && o.diff == d.diffHash))
  }

  /**
   With no event of git, a pause, the window or a retry since the last create, a cycle creates
   exactly when its plan shows a diff, the job is not held, the latest deployment it read does
   not stand in the way as failed, and none is active, unless the new one is born failed.
  */
  lemma UncalledCreateIff(p: N.Plan, s: Sys, acts: seq<Action>, k: Key, i: nat)
    requires hide *; N.Lawful(p) && Initial(s) && i < |acts| && AboutToCreate(p, s, acts, k, i) && !CalledBetween(BeatsOf(p, s, acts, k), i, |acts|)
    ensures var now := Run(p, s, acts);
      var det := now.det;
      && det.LatestRead? && det.latest.Some?
      && (Creates(now, CallOf(now, CreateNow), k) <==>
        && det.o.diff.Some? && det.t.hold.None? && !Failing(det.latest.value, det.o)
        && (Problem(det.t.g) || ActiveOf(now.db.rows, k).None?))
  {
    hide *;
    var now, w := Run(p, s, acts), Tally(BeatsOf(p, s, acts, k), |acts|);
    About(p, s, acts, k, i);
    ViewParts(p, now, k, w);
    AsLastIs(now, k, w);
    var d := now.db.rows[LatestOf(now.db.rows, k).value];
    AsCreatedIs(now, k, w, d);
    LatestStill(now, k, w, d);
    CreateGuard(now, k);
  }

  lemma About(p: N.Plan, s: Sys, acts: seq<Action>, k: Key, i: nat)
    requires hide *; N.Lawful(p) && Initial(s) && i < |acts| && AboutToCreate(p, s, acts, k, i) && !CalledBetween(BeatsOf(p, s, acts, k), i, |acts|)
    ensures var now, w := Run(p, s, acts), Tally(BeatsOf(p, s, acts, k), |acts|);
      && AsLast(now, k, w) && Engine(p, now) && Copies(now) && LatestHeld(now.db.rows, now.det) && Views(p, now, k, w) && Owes(p, now, k, w)
      && now.det.LatestRead? && now.det.t.key == k
  {
    hide *;
    AboutIs(p, s, acts, k, i);
    assert acts[..|acts|] == acts;
    RunFacts(p, s, acts, k, |acts|);
    RunStill(p, s, acts, k, i, |acts|);
  }

  lemma AboutIs(p: N.Plan, s: Sys, acts: seq<Action>, k: Key, i: nat)
    requires hide *; i < |acts| && AboutToCreate(p, s, acts, k, i)
    ensures Run(p, s, acts).det.LatestRead? && Run(p, s, acts).det.t.key == k
    ensures var bs := BeatsOf(p, s, acts, k); CreatesAt(bs, i) && forall m: nat :: i < m < |acts| ==> !CreatesAt(bs, m)
  {
    hide Run, BeatsOf, CreatesAt;
  }

  /** The cycle holds the latest deployment, at the job's spec and not retried. */
  lemma LatestStill(s: Sys, k: Key, w: Ledger, d: Deployment)
    requires s.det.LatestRead? && s.det.t.key == k && LatestHeld(s.db.rows, s.det) && DetectionPast(s.db.rows, s.det)
    requires LatestOf(s.db.rows, k).Some? && d == s.db.rows[LatestOf(s.db.rows, k).value]
    requires CycleOwes(s.det, d, k) && MarksOwe(s.det, k) && JobSeen(s.world, s.det, k, w.window)
    ensures s.det.latestId.Some? && s.det.latest.Some? && s.det.latest.value.retriedBy.None?
    ensures s.det.latest.value.specHash == Decisions.HashOf(s.det.t.g)
    ensures Problem(s.det.t.g) ==> s.det.latest.value.state == Failed
  {
    assert RowGrows(s.det.latest.value, d);
    assert At(s.det, k);
    hide LatestOf, HoldOf, Decisions.HashOf, Problem;
  }

  /** The guards of a create that follows a deployment of the same spec nobody asked to retry. */
  lemma CreateGuard(s: Sys, k: Key)
    requires s.det.LatestRead? && s.det.t.key == k && s.det.latestId.Some? && s.det.latest.Some?
    requires s.det.latest.value.retriedBy.None? && s.det.latest.value.specHash == Decisions.HashOf(s.det.t.g)
    ensures var det := s.det;
      Creates(s, CallOf(s, CreateNow), k) <==>
        && det.o.diff.Some? && det.t.hold.None? && !Failing(det.latest.value, det.o)
        && (Problem(det.t.g) || ActiveOf(s.db.rows, k).None?)
  {
    hide Decisions.HashOf, Problem, Frozen, ActiveOf;
  }

  /**
   With neither an event nor a race since the last create, it creates exactly when its plan
   shows a diff, the job is not held, the latest deployment it read had not failed, and none
   is active now; and then the plan was overtaken.
  */
  lemma UntouchedCreateIff(p: N.Plan, s: Sys, acts: seq<Action>, k: Key, i: nat)
    requires hide *; N.Lawful(p) && Initial(s) && i < |acts| && AboutToCreate(p, s, acts, k, i)
    requires var bs := BeatsOf(p, s, acts, k); !EventBetween(bs, i, |acts|) && !RaceBetween(bs, i, |acts|)
    ensures var now := Run(p, s, acts);
      var det := now.det;
      && det.LatestRead? && det.latest.Some?
      && (Creates(now, CallOf(now, CreateNow), k) <==>
        det.o.diff.Some? && det.t.hold.None? && !Ended(det.latest.value.state) && ActiveOf(now.db.rows, k).None?)
      && (Creates(now, CallOf(now, CreateNow), k) ==> OvertakenSince(BeatsOf(p, s, acts, k), |acts|))
  {
    hide *;
    var bs := BeatsOf(p, s, acts, k);
    var now, w := Run(p, s, acts), Tally(bs, |acts|);
    AboutIs(p, s, acts, k, i);
    NothingSince(bs, i);
    BeatsGoOn(p, s, acts, k);
    UncalledCreateIff(p, s, acts, k, i);
    About(p, s, acts, k, i);
    Untouched(bs, i);
    ViewParts(p, now, k, w);
    AsLastIs(now, k, w);
    var id := LatestOf(now.db.rows, k).value;
    var d := now.db.rows[id];
    AsCreatedIs(now, k, w, d);
    LatestStill(now, k, w, d);
    OwesParts(p, now, k, id, w);
    LatestDiff(p, now, k, w, d);
    FailedEnded();
    if Creates(now, CallOf(now, CreateNow), k) && !w.overtaken {
      NotFromOvertaken(now, CreateNow, k, w);
      CreateIsDue(p, now, CreateNow, k, w);
    }
  }

  lemma NothingSince(bs: seq<Beat>, i: nat)
    requires i <= |bs| && !EventBetween(bs, i, |bs|)
    ensures !CalledBetween(bs, i, |bs|)
  {
    hide EventAt;
  }

  /** With neither, nothing is due. */
  lemma Untouched(bs: seq<Beat>, i: nat)
    requires i < |bs| && GoesOn(bs) && CreatesAt(bs, i) && (forall m: nat :: i < m < |bs| ==> !CreatesAt(bs, m))
    requires !EventBetween(bs, i, |bs|) && !RaceBetween(bs, i, |bs|)
    ensures !Tally(bs, |bs|).due && (Tally(bs, |bs|).overtaken ==> OvertakenSince(bs, |bs|))
  {
    Tells(bs, |bs|);
    assert Last(bs, |bs|) == Some(i);
    hide Tally, EventBetween, RaceBetween, OvertakenSince, Last;
  }

  lemma FailedEnded()
    ensures Ended(Failed)
  {
  }

  lemma NotFromOvertaken(s: Sys, a: Action, k: Key, w: Ledger)
    requires !w.overtaken
    ensures !CreatesOvertaken(s, a, k, w)
  {
    hide Creates, CallOf;
  }

  /** With nothing due, the plan in hand shows nothing or the latest deployment's diff: a failed one stands in the way. */
  lemma LatestDiff(p: N.Plan, s: Sys, k: Key, w: Ledger, d: Deployment)
    requires s.det.LatestRead? && s.det.t.key == k && LatestHeld(s.db.rows, s.det) && DetectionPast(s.db.rows, s.det) && s.det.latest.Some?
    requires LatestOf(s.db.rows, k).Some? && d == s.db.rows[LatestOf(s.db.rows, k).value]
    requires PlanOwes(p, s.nomad, s.det, d, k, w.live, w.overtaken)
    ensures s.det.o.diff.Some? ==> (Failing(s.det.latest.value, s.det.o) <==> Ended(s.det.latest.value.state))
  {
    assert RowGrows(s.det.latest.value, d);
    assert Acting(s.det, k);
    hide LatestOf, InSync;
  }
}
