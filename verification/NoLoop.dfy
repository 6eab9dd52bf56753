/**
 No deployment loop: each deployment of a job after the first is paid for by an event from
 outside, by the register of a stale copy, or by a race of a cycle with the live job. Crashes
 and Nomad's errors bring none on, nor a scale that does not fall between a cycle's two reads.
*/
module NoLoop {
  import opened Options
  import opened Store
  import opened Decisions
  import opened Machine
  import opened Base
  import opened Births
  import opened AppliedDiff
  import opened RegisterOnce
  import opened HookRuns
  import opened Lineage
  import opened JobLedger
  import N = Nomad

  // -- what a cycle read, against the world now -------------------------------------------------

  function GitView(det: Detection): Option<map<Key, GitJob>> {
    match det
    case Idle => None
    case Parsed(git, _) => Some(git)
    case PausesRead(git, _, _) => Some(git)
    case AllPauseRead(git, _, _, _) => Some(git)
    case _ => Some(det.c.git)
  }

  function PausedView(det: Detection): Option<set<Key>> {
    match det
    case Idle => None
    case Parsed(_, _) => None
    case PausesRead(_, _, paused) => Some(paused)
    case AllPauseRead(_, _, paused, _) => Some(paused)
    case _ => Some(det.c.paused)
  }

  function AllView(det: Detection): Option<bool> {
    match det
    case Idle => None
    case Parsed(_, _) => None
    case PausesRead(_, _, _) => None
    case AllPauseRead(_, _, _, allPaused) => Some(allPaused)
    case _ => Some(det.c.allPaused)
  }

  predicate SameEntry(a: map<Key, GitJob>, b: map<Key, GitJob>, k: Key) {
    (k in a) == (k in b) && (k in a ==> Decisions.HashOf(a[k]) == Decisions.HashOf(b[k]))
  }

  predicate GitSeen(world: World, det: Detection, k: Key, moved: bool) {
    GitView(det).Some? && !moved ==> SameEntry(GitView(det).value, world.git, k)
  }

  predicate PauseSeen(world: World, det: Detection, k: Key, moved: bool) {
    PausedView(det).Some? && !moved ==> (k in PausedView(det).value <==> k in world.paused)
  }

  predicate AllSeen(world: World, det: Detection, moved: bool) {
    AllView(det).Some? && !moved ==> AllView(det).value == world.allPaused
  }

  /** The job at hand is the one git declares, with the hold and the lift worked out from what was read. */
  predicate JobSeen(world: World, det: Detection, k: Key, moved: bool) {
    At(det, k) ==>
      var c, t := det.c, det.t;
      && k in c.git && t.g == c.git[k] && k !in c.done
      && ((t.hold, t.liftedBy) == HoldOf(c, k, t.g, true) || (t.hold, t.liftedBy) == HoldOf(c, k, t.g, false))
      && (!moved ==> (t.hold, t.liftedBy) == HoldOf(c, k, t.g, k in world.closed))
  }

  /** The plan is of the live job, as it is unless it moved. */
  ghost predicate PlanSeen(p: N.Plan, n: Cluster, det: Detection, k: Key, moved: bool, overtaken: bool) {
    && (At(det, k) && det.JobRead? && !moved ==> det.live == LiveOf(n, k))
    && (Acting(det, k) && !moved && !overtaken ==> N.Fresh(p, det.t.g.job, JobOf(LiveOf(n, k))) == det.o.diff)
  }

  /** The waiting deployment a cycle read is at the cas index it read until it moves on. */
  predicate WaitingSeen(rows: seq<Deployment>, det: Detection) {
    && (det.Waiting? ==>
          det.id < |rows| && (rows[det.id].state == det.d.state ==> rows[det.id].cas == det.d.cas && rows[det.id].applied.None?))
    && (det.Moved? ==>
          det.id < |rows| && (Follows(det.t.g.job.cfg, Decisions.HashOf(det.t.g), det.d, det.o.index, det.o.diff) ==> rows[det.id].state != det.d.state))
  }

  /** The latest deployment a cycle read has ended since only if it was overtaken. */
  predicate EndSeen(rows: seq<Deployment>, det: Detection, k: Key, overtaken: bool) {
    At(det, k) && det.LatestRead? && det.latestId.Some? && det.latest.Some? && det.latestId.value < |rows| && !overtaken
    && !IsActive(rows[det.latestId.value].state)
    ==> det.latest.value.state == rows[det.latestId.value].state
  }

  predicate Flags(det: Detection, k: Key, w: Ledger) {
    && (w.git ==> HasGit(det)) && (w.pause ==> HasPause(det)) && (w.allPause ==> HasAllPause(det)) && (w.window ==> HasWindow(det, k))
    && (w.live ==> HasLive(det, k)) && (w.retry ==> HasMarks(det, k)) && (w.overtaken ==> Acting(det, k))
  }

  ghost predicate Views(p: N.Plan, s: Sys, k: Key, w: Ledger) {
    && Flags(s.det, k, w)
    && GitSeen(s.world, s.det, k, w.git) && PauseSeen(s.world, s.det, k, w.pause) && AllSeen(s.world, s.det, w.allPause)
    && JobSeen(s.world, s.det, k, w.window)
    && PlanSeen(p, s.nomad, s.det, k, w.live, w.overtaken)
    && WaitingSeen(s.db.rows, s.det) && UnappliedWait(s.db.rows)
    && EndSeen(s.db.rows, s.det, k, w.overtaken)
    && PolicySeen(s.db.rows, s.det)
  }

  // -- how a cycle moves on -----------------------------------------------------------------------

  /** What a cycle reads first it keeps to its end: it is what it had read, or what the world is now. */
  predicate ViewsFrom(s: Sys, det: Detection) {
    det.Idle? ||
    (&& GitView(det) == (if s.det.Idle? then Some(s.world.git) else GitView(s.det))
     && PausedView(det) == (if PausedView(s.det).None? && PausedView(det).Some? then Some(s.world.paused) else PausedView(s.det))
     && AllView(det) == (if AllView(s.det).None? && AllView(det).Some? then Some(s.world.allPaused) else AllView(s.det)))
  }

  lemma ViewsMove(p: N.Plan, s: Sys, a: Action)
    ensures ViewsFrom(s, DetectionAfter(p, s, a))
  {
    LookMoves(p, s, a);
    ActedMoves(s, a);
    assert ViewsFrom(s, s.det) && ViewsFrom(s, Idle);
    hide *;
    DetectionIs(p, s, a);
  }

  lemma LookMoves(p: N.Plan, s: Sys, a: Action)
    ensures ViewsFrom(s, Look(p, s, a))
  {
    hide HoldOf, ActiveOf, LatestOf, Decisions.HashOf;
  }

  lemma ActedMoves(s: Sys, a: Action)
    ensures ViewsFrom(s, Acted(s, a))
  {
    hide Review, DetectCall, Decisions.HashOf, Problem;
  }

  /** A cycle's own steps change nothing of the world. */
  lemma WorldStays(p: N.Plan, s: Sys, a: Action)
    ensures DetectionAfter(p, s, a) != s.det && !a.Crash? ==> WorldAfter(s.world, a) == s.world
    ensures a.Crash? ==> WorldAfter(s.world, a) == s.world
  {
  }

  lemma NextGitSeen(p: N.Plan, s: Sys, a: Action, k: Key, moved: bool)
    requires GitSeen(s.world, s.det, k, moved)
    ensures GitSeen(WorldAfter(s.world, a), DetectionAfter(p, s, a), k, moved || (GitEvent(s, WorldAfter(s.world, a), k) && HasGit(s.det)))
  {
    ViewsMove(p, s, a);
    WorldStays(p, s, a);
    hide DetectionAfter, WorldAfter;
  }

  lemma NextPauseSeen(p: N.Plan, s: Sys, a: Action, k: Key, moved: bool)
    requires PauseSeen(s.world, s.det, k, moved)
    ensures PauseSeen(WorldAfter(s.world, a), DetectionAfter(p, s, a), k, moved || (PauseEvent(s, WorldAfter(s.world, a), k) && HasPause(s.det)))
  {
    ViewsMove(p, s, a);
    WorldStays(p, s, a);
    hide DetectionAfter, WorldAfter;
  }

  lemma NextAllSeen(p: N.Plan, s: Sys, a: Action, moved: bool)
    requires AllSeen(s.world, s.det, moved)
    ensures AllSeen(WorldAfter(s.world, a), DetectionAfter(p, s, a), moved || (s.world.allPaused != WorldAfter(s.world, a).allPaused && HasAllPause(s.det)))
  {
    ViewsMove(p, s, a);
    WorldStays(p, s, a);
    hide DetectionAfter, WorldAfter;
  }

  /** A cycle is at a job from its begin on, with the same git job, hold and lift. */
  lemma AtMove(p: N.Plan, s: Sys, a: Action, k: Key)
    ensures var det := DetectionAfter(p, s, a);
      At(det, k) ==>
        if At(s.det, k) then det.c == s.det.c && det.t == s.det.t
        else
          && det.Begun? && s.det.Choosing? && det.c == s.det.c && k in det.c.git && k !in det.c.done && det.t.g == det.c.git[k]
          && (det.t.hold, det.t.liftedBy) == HoldOf(det.c, k, det.t.g, k in s.world.closed)
  {
    hide Review, NewDeployment, DetectCall, HoldOf;
  }

  lemma NextJobSeen(p: N.Plan, s: Sys, a: Action, k: Key, moved: bool)
    requires JobSeen(s.world, s.det, k, moved)
    ensures JobSeen(WorldAfter(s.world, a), DetectionAfter(p, s, a), k, moved || (WindowEvent(s, WorldAfter(s.world, a), k) && HasWindow(s.det, k)))
  {
    AtMove(p, s, a, k);
    WorldStays(p, s, a);
    hide DetectionAfter, WorldAfter, HoldOf;
  }

  /** What a cycle at a job read of the live job, and planned. */
  lemma PlanMove(p: N.Plan, s: Sys, a: Action, k: Key)
    ensures var det := DetectionAfter(p, s, a);
      && (At(det, k) && det.JobRead? ==> det == s.det || (At(s.det, k) && a.ReadJob? && det.live == LiveOf(s.nomad, k)))
      && (Acting(det, k) ==>
            || (Acting(s.det, k) && det.o == s.det.o && det.t == s.det.t)
            || (At(s.det, k) && s.det.JobRead? && a.PlanJob? && det.Planned? && det.t == s.det.t
                && det.o.diff == N.HashOf(p(N.Adjusted(det.t.g.job, JobOf(s.det.live)), JobOf(LiveOf(s.nomad, k))))))
  {
    hide Review, NewDeployment, DetectCall, HoldOf;
  }

  lemma LiveStays(p: N.Plan, s: Sys, a: Action, k: Key)
    ensures !Changes(p, s, a, k) ==> LiveOf(ClusterAfter(p, s, a), k) == LiveOf(s.nomad, k)
    ensures Changes(p, s, a, k) ==> a.Edit? || a.Scale? || a.Step?
  {
    hide EffectOf, N.IsScale, N.Canonical;
  }

  /** A scale of a job's own groups leaves its diff as it was. */
  lemma ScaleKeepsFresh(p: N.Plan, s: Sys, a: Action, k: Key, target: N.Job)
    requires N.Lawful(p) && CanonicalCluster(s) && Changes(p, s, a, k) && a.Scale? && N.Canonical(target)
    requires N.IsScaleFor(target, s.nomad.live[k].job, a.job)
    ensures N.Fresh(p, target, JobOf(LiveOf(ClusterAfter(p, s, a), k))) == N.Fresh(p, target, JobOf(LiveOf(s.nomad, k)))
  {
    assert ClusterAfter(p, s, a).live[k].job == a.job;
    hide N.IsScaleFor, N.IsScale, N.Canonical;
  }

  lemma TargetCanonical(p: N.Plan, s: Sys, k: Key)
    requires AllPinned(p, s)
    ensures Acting(s.det, k) || (At(s.det, k) && s.det.JobRead?) ==> N.Canonical(s.det.t.g.job)
  {
    hide RowsPinned, CopiesPinned, WorkersPinned, N.Canonical;
  }

  lemma NextPlanSeen(p: N.Plan, s: Sys, a: Action, k: Key, moved: bool, overtaken: bool)
    requires N.Lawful(p) && CanonicalCluster(s) && AllPinned(p, s) && PlanSeen(p, s.nomad, s.det, k, moved, overtaken)
    ensures PlanSeen(p, ClusterAfter(p, s, a), DetectionAfter(p, s, a), k,
                     moved || (LiveMoved(p, s, a, k) && HasLive(s.det, k)) || Torn(p, s, a, k), Overtakes(p, s, a, k, overtaken))
  {
    hide DetectionAfter, ClusterAfter, Changes, N.Lawful, CanonicalCluster, AllPinned, N.IsScaleFor, N.Canonical, N.HashOf, Ends;
    PlanMove(p, s, a, k);
    LiveStays(p, s, a, k);
    TargetCanonical(p, s, k);
    if Changes(p, s, a, k) && OwnScale(s, a, k) && Acting(s.det, k) {
      ScaleKeepsFresh(p, s, a, k, s.det.t.g.job);
    }
  }

  // -- the rows under a cycle ------------------------------------------------------------------------

  /** From the read of the waiting deployment to the move that follows a scale. */
  lemma WaitingMove(p: N.Plan, s: Sys, a: Action)
    ensures hide *; var det := DetectionAfter(p, s, a);
      && (det.Waiting? ==>
            (|| det == s.det
             || (a.ReadActive? && det.id < |s.db.rows| && det.d == s.db.rows[det.id] && det.d.state in {Detected, PendingApproval})))
      && (det.Moved? ==>
            (|| det == s.det
             || (a.TryMove? && s.det.Waiting? && det.t == s.det.t && det.o == s.det.o && det.id == s.det.id
                 && var call := DetectCall(s.det, a);
                    det.d == if call.MoveCas? && ErrorOf(s.db, call).None? then s.det.d.(cas := s.det.o.index) else s.det.d)))
  {
    hide Review, NewDeployment, DetectCall, HoldOf;
  }

  /** A deployment that moved on never comes back to a state it waited in. */
  lemma WaitsNoMore(db: Db, c: Store.Call, id: Id, d: Deployment)
    requires PastOf(db.rows, id, d) && d.state in {Detected, PendingApproval} && db.rows[id].state != d.state
    ensures id < |Exec(db, c).rows| && Exec(db, c).rows[id].state != d.state
  {
    hide Exec;
    ExecGrows(db, c);
    assert RowGrows(db.rows[id], Exec(db, c).rows[id]);
  }

  lemma NextWaitingSeen(p: N.Plan, s: Sys, a: Action)
    requires Copies(s) && WaitingSeen(s.db.rows, s.det) && UnappliedWait(s.db.rows)
    ensures WaitingSeen(Exec(s.db, CallOf(s, a)).rows, DetectionAfter(p, s, a))
  {
    var det, c := DetectionAfter(p, s, a), CallOf(s, a);
    WaitingMove(p, s, a);
    assert DetectionPast(s.db.rows, s.det);
    if det.Waiting? {
      RowStep(s.db, c, det.id);
      if det == s.det {
        if s.db.rows[det.id].state != det.d.state { WaitsNoMore(s.db, c, det.id, det.d); }
        if c.MoveCas? { MoveCasOrigin(s, a); }
        if a.TryMove? { MovesOn(p, s, a); }
      } else {
        ReadOnly(s, a);
      }
    }
    if det.Moved? {
      if det == s.det {
        RowStep(s.db, c, det.id);
        if s.db.rows[det.id].state != det.d.state { WaitsNoMore(s.db, c, det.id, det.d); }
      } else {
        TriedMove(s, a);
      }
    }
    hide DetectionAfter, CallOf, Exec, Follows, Decisions.HashOf;
  }

  lemma MovesOn(p: N.Plan, s: Sys, a: Action)
    requires a.TryMove? && s.det.Waiting?
    ensures DetectionAfter(p, s, a) != s.det
  {
    hide DetectCall;
  }

  lemma ReadOnly(s: Sys, a: Action)
    requires a.ReadActive?
    ensures Exec(s.db, CallOf(s, a)) == s.db
  {
  }

  /** A move that finds the deployment where it was read succeeds. */
  lemma TriedMove(s: Sys, a: Action)
    requires hide *; a.TryMove? && s.det.Waiting? && WaitingSeen(s.db.rows, s.det) && s.det.d.state in {Detected, PendingApproval}
    ensures var t, o, d := s.det.t, s.det.o, s.det.d;
      var call := DetectCall(s.det, a);
      var moved := if call.MoveCas? && ErrorOf(s.db, call).None? then d.(cas := o.index) else d;
      Follows(t.g.job.cfg, Decisions.HashOf(t.g), moved, o.index, o.diff) ==>
        s.det.id < |Exec(s.db, CallOf(s, a)).rows| && Exec(s.db, CallOf(s, a)).rows[s.det.id].state != d.state
  {
    hide Decisions.HashOf;
  }

  /** A cycle that has read the latest deployment makes no call but its create. */
  lemma LatestMove(p: N.Plan, s: Sys, a: Action, k: Key)
    ensures hide *; var det := DetectionAfter(p, s, a);
      At(det, k) && det.LatestRead? ==>
        (|| (det == s.det && (Acts(a) ==> CallOf(s, a).NoCall?))
         || (a.ReadLatest? && CallOf(s, a).NoCall?
             && det.latestId == LatestOf(s.db.rows, k) && (det.latestId.Some? ==> det.latest == Some(s.db.rows[det.latestId.value]))))
  {
    LatestDet(p, s, a, k);
    LatestCall(s, a);
    hide DetectionAfter, CallOf, LatestOf;
  }

  lemma LatestDet(p: N.Plan, s: Sys, a: Action, k: Key)
    ensures hide *; var det := DetectionAfter(p, s, a);
      At(det, k) && det.LatestRead? ==>
        (|| (det == s.det && !a.CreateNow?)
         || (a.ReadLatest? && det.latestId == LatestOf(s.db.rows, k)
             && (det.latestId.Some? ==> det.latest == Some(s.db.rows[det.latestId.value]))))
  {
    hide *;
    DetectionIs(p, s, a);
    LatestLook(p, s, a, k);
    LatestActed(s, a, k);
  }

  lemma LatestLook(p: N.Plan, s: Sys, a: Action, k: Key)
    ensures hide *; var det := Look(p, s, a);
      At(det, k) && det.LatestRead? && !Acts(a) ==>
        (|| (det == s.det && !a.CreateNow?)
         || (a.ReadLatest? && det.latestId == LatestOf(s.db.rows, k)
             && (det.latestId.Some? ==> det.latest == Some(s.db.rows[det.latestId.value]))))
    ensures !At(Idle, k) && !Acts(ReadLatest) && Acts(CreateNow)
  {
    hide HoldOf, ActiveRows, ActiveOf, LatestOf;
  }

  lemma LatestActed(s: Sys, a: Action, k: Key)
    ensures var det := Acted(s, a); At(det, k) && det.LatestRead? ==> det == s.det && (!Acts(a) || !a.CreateNow?)
    ensures a.CreateNow? ==> Acts(a)
  {
    hide DetectCall, ReviewOf, ErrorOf;
  }

  lemma LatestCall(s: Sys, a: Action)
    ensures a.ReadLatest? || (s.det.LatestRead? && Acts(a) && !a.CreateNow?) ==> CallOf(s, a).NoCall?
  {
    hide Review, NewDeployment, Decisions.HashOf, Problem, Follows;
  }

  lemma NextEndSeen(p: N.Plan, s: Sys, a: Action, k: Key, overtaken: bool)
    requires DetectionPast(s.db.rows, s.det) && EndSeen(s.db.rows, s.det, k, overtaken)
    ensures EndSeen(Exec(s.db, CallOf(s, a)).rows, DetectionAfter(p, s, a), k, Overtakes(p, s, a, k, overtaken))
  {
    hide *;
    LatestMove(p, s, a, k);
    NothingWritten(s.db);
    var det, after := DetectionAfter(p, s, a), Exec(s.db, CallOf(s, a));
    SeesEnd(det, k, after, Overtakes(p, s, a, k, overtaken));
    if At(det, k) && det.LatestRead? && det.latestId.Some? && det.latest.Some? && det == s.det {
      var id := det.latestId.value;
      LatestKey(s.db.rows, det, k);
      RowStays(s.db, CallOf(s, a), id, k);
      SeesEnd(det, k, s.db, overtaken);
      OvertakesWhen(p, s, a, k, overtaken);
    }
  }

  /** What it takes for a latest deployment to be seen to its end. */
  lemma SeesEnd(det: Detection, k: Key, db: Db, overtaken: bool)
    ensures EndSeen(db.rows, det, k, overtaken) <==>
      (At(det, k) && det.LatestRead? && det.latestId.Some? && det.latest.Some? && det.latestId.value < |db.rows| && !overtaken
       && !IsActive(db.rows[det.latestId.value].state)
       ==> det.latest.value.state == db.rows[det.latestId.value].state)
  {
    hide At, IsActive;
  }

  lemma LatestKey(rows: seq<Deployment>, det: Detection, k: Key)
    requires DetectionPast(rows, det) && At(det, k) && det.LatestRead? && det.latestId.Some? && det.latest.Some?
    ensures det.latestId.value < |rows| && rows[det.latestId.value].key == k
  {
  }

  lemma RowStays(db: Db, c: Store.Call, id: Id, k: Key)
    requires id < |db.rows| && db.rows[id].key == k
    ensures id < |Exec(db, c).rows|
    ensures !IsActive(db.rows[id].state) ==> Exec(db, c).rows[id].state == db.rows[id].state
    ensures IsActive(db.rows[id].state) && !IsActive(Exec(db, c).rows[id].state) ==> Ends(db, Exec(db, c), k)
  {
    hide Exec;
    ExecGrows(db, c);
    assert RowGrows(db.rows[id], Exec(db, c).rows[id]);
  }

  lemma OvertakesWhen(p: N.Plan, s: Sys, a: Action, k: Key, overtaken: bool)
    requires DetectionAfter(p, s, a) == s.det && At(s.det, k) && s.det.LatestRead?
    ensures overtaken || (!Acts(a) && Ends(s.db, Exec(s.db, CallOf(s, a)), k)) ==> Overtakes(p, s, a, k, overtaken)
  {
    hide Ends, Exec, CallOf, Changes, DetectionAfter;
  }

  lemma NextFlags(p: N.Plan, s: Sys, a: Action, k: Key, w: Ledger)
    requires Flags(s.det, k, w)
    ensures Flags(DetectionAfter(p, s, a), k, Watch(p, s, a, k, w))
  {
    HasMove(p, s, a, k);
    RaceHasLive(p, s, a, k, w);
    hide Torn, CreatesOvertaken, DetectionAfter, GitEvent, PauseEvent, WindowEvent, LiveMoved, LiveEvent, StrayRegister, RetryEvent, Ends, Changes, CallOf, Creates, HasGit, HasPause, HasAllPause, HasWindow, HasLive, HasMarks, Acting;
  }

  lemma RaceHasLive(p: N.Plan, s: Sys, a: Action, k: Key, w: Ledger)
    ensures Torn(p, s, a, k) || CreatesOvertaken(s, a, k, w) ==> HasLive(s.det, k)
  {
    if CallOf(s, a).Create? { CreateOrigin(s, a); }
    hide CallOf, Changes, NewDeployment;
  }

  /** What a cycle has read it has read to its end. */
  lemma HasMove(p: N.Plan, s: Sys, a: Action, k: Key)
    ensures var det := DetectionAfter(p, s, a);
      det.Idle? ||
      (&& (HasGit(s.det) ==> HasGit(det)) && (HasPause(s.det) ==> HasPause(det)) && (HasAllPause(s.det) ==> HasAllPause(det))
       && (HasWindow(s.det, k) ==> HasWindow(det, k)) && (HasLive(s.det, k) ==> HasLive(det, k)) && (HasMarks(s.det, k) ==> HasMarks(det, k)))
  {
    hide Review, NewDeployment, DetectCall, HoldOf;
  }

  lemma NextViews(p: N.Plan, s: Sys, a: Action, k: Key, w: Ledger)
    requires N.Lawful(p) && CanonicalCluster(s) && AllPinned(p, s) && Copies(s) && Views(p, s, k, w)
    ensures Views(p, Next(p, s, a), k, Watch(p, s, a, k, w))
  {
    hide *;
    var n := Note(p, s, a, k, w);
    ViewParts(p, s, k, w);
    NextParts(p, s, a);
    NextFlags(p, s, a, k, w);
    NextGitSeen(p, s, a, k, w.git);
    NextPauseSeen(p, s, a, k, w.pause);
    NextAllSeen(p, s, a, w.allPause);
    NextJobSeen(p, s, a, k, w.window);
    NextPlanSeen(p, s, a, k, w.live, w.overtaken);
    NextWaitingSeen(p, s, a);
    NextUnappliedWait(s.db, CallOf(s, a));
    NextEndSeen(p, s, a, k, w.overtaken);
    NextPolicySeen(p, s, a);
    NoteFlags(p, s, a, k, w);
    LiveSeenMore(p, ClusterAfter(p, s, a), DetectionAfter(p, s, a), k, (w.live || (LiveMoved(p, s, a, k) && HasLive(s.det, k)) || Torn(p, s, a, k)), n.live, n.overtaken);
    Assemble(p, Next(p, s, a), k, Watch(p, s, a, k, w), n);
  }

  lemma ViewParts(p: N.Plan, s: Sys, k: Key, w: Ledger)
    requires Views(p, s, k, w) && Copies(s)
    ensures Flags(s.det, k, w) && GitSeen(s.world, s.det, k, w.git) && PauseSeen(s.world, s.det, k, w.pause) && AllSeen(s.world, s.det, w.allPause)
    ensures JobSeen(s.world, s.det, k, w.window) && PlanSeen(p, s.nomad, s.det, k, w.live, w.overtaken)
    ensures WaitingSeen(s.db.rows, s.det) && UnappliedWait(s.db.rows) && EndSeen(s.db.rows, s.det, k, w.overtaken) && PolicySeen(s.db.rows, s.det)
    ensures DetectionPast(s.db.rows, s.det)
  {
    hide Flags, GitSeen, PauseSeen, AllSeen, JobSeen, PlanSeen, WaitingSeen, UnappliedWait, EndSeen, PolicySeen, DetectionPast, PastOf;
  }

  /** The flags a step notes. */
  lemma NoteFlags(p: N.Plan, s: Sys, a: Action, k: Key, w: Ledger)
    ensures var n, world := Note(p, s, a, k, w), WorldAfter(s.world, a);
      && n.git == (w.git || (GitEvent(s, world, k) && HasGit(s.det)))
      && n.pause == (w.pause || (PauseEvent(s, world, k) && HasPause(s.det)))
      && n.allPause == (w.allPause || (s.world.allPaused != world.allPaused && HasAllPause(s.det)))
      && n.window == (w.window || (WindowEvent(s, world, k) && HasWindow(s.det, k)))
      && n.live == (w.live || (LiveMoved(p, s, a, k) && HasLive(s.det, k)) || Torn(p, s, a, k) || CreatesOvertaken(s, a, k, w))
      && n.retry == (w.retry || (RetryEvent(s, CallOf(s, a), k) && HasMarks(s.det, k)))
      && n.overtaken == Overtakes(p, s, a, k, w.overtaken)
    ensures Watch(p, s, a, k, w) == if DetectionAfter(p, s, a).Idle? then HandOver(Note(p, s, a, k, w)) else Note(p, s, a, k, w)
  {
    MovedBy(p, s, a, k);
    hide GitEvent, PauseEvent, WindowEvent, LiveMoved, LiveEvent, StrayRegister, RetryEvent, Torn, CreatesOvertaken, Overtakes, DetectionAfter, CallOf, Creates, WorldAfter;
  }

  lemma LiveSeenMore(p: N.Plan, n: Cluster, det: Detection, k: Key, moved: bool, more: bool, overtaken: bool)
    requires PlanSeen(p, n, det, k, moved, overtaken) && (moved ==> more)
    ensures PlanSeen(p, n, det, k, more, overtaken)
  {
    hide N.Fresh;
  }

  lemma Assemble(p: N.Plan, s: Sys, k: Key, w: Ledger, n: Ledger)
    requires Flags(s.det, k, w) && w == if s.det.Idle? then HandOver(n) else n
    requires GitSeen(s.world, s.det, k, n.git) && PauseSeen(s.world, s.det, k, n.pause) && AllSeen(s.world, s.det, n.allPause)
    requires JobSeen(s.world, s.det, k, n.window) && PlanSeen(p, s.nomad, s.det, k, n.live, n.overtaken)
    requires WaitingSeen(s.db.rows, s.det) && UnappliedWait(s.db.rows) && EndSeen(s.db.rows, s.det, k, n.overtaken) && PolicySeen(s.db.rows, s.det)
    ensures Views(p, s, k, w)
  {
    hide Flags, WaitingSeen, UnappliedWait, PolicySeen, HoldOf, N.Fresh;
  }

  // -- what a job is owed while nothing is due ------------------------------------------------------
  //
  // d is the job's latest deployment. While no event is unseen, a cycle finds the job as the
  // one that created d did: the same target, no hold, no retry asked, and d's diff or none.

  predicate WindowFree(d: Deployment, closed: bool) {
    d.specHash.target.cfg.policy == N.Auto && d.specHash.target.cfg.windowed && closed ==> d.liftedBy.Some?
  }

  predicate WorldOwes(world: World, d: Deployment, k: Key, w: Ledger) {
    && (!w.git ==> k in world.git && Decisions.HashOf(world.git[k]) == d.specHash)
    && (!w.pause ==> k !in world.paused)
    && (!w.allPause ==> !world.allPaused)
    && (!w.window ==> WindowFree(d, k in world.closed))
    && (!w.retry ==> d.retriedBy.None?)
  }

  predicate CycleOwes(det: Detection, d: Deployment, k: Key) {
    && (GitView(det).Some? ==> k in GitView(det).value && Decisions.HashOf(GitView(det).value[k]) == d.specHash)
    && (PausedView(det).Some? ==> k !in PausedView(det).value)
    && (AllView(det).Some? ==> !AllView(det).value)
    && (At(det, k) ==> det.t.hold.None? || (det.t.hold == Some(Window) && d.liftedBy.Some?))
  }

  predicate MarksOwe(det: Detection, k: Key) {
    At(det, k) && det.LatestRead? && det.latest.Some? ==>
      det.latest.value.retriedBy.None? && (Problem(det.t.g) ==> det.latest.value.state == Failed)
  }

  ghost predicate InSync(p: N.Plan, n: Cluster, d: Deployment, k: Key) {
    N.Fresh(p, d.specHash.target, JobOf(LiveOf(n, k))) == None
  }

  predicate NeedsSync(d: Deployment) {
    d.applied.Some? || d.state in {PostHook, Completed, Superseded}
  }

  predicate PcNeedsSync(pc: Pc) {
    pc.Registered? || pc.Reread? || (pc.Deciding? && pc.to in {PostHook, Completed, Superseded})
  }

  /** The live job shows d's diff, or none once d is applied or on its way to it. */
  ghost predicate LiveOwes(p: N.Plan, n: Cluster, d: Deployment, k: Key) {
    InSync(p, n, d, k) || (N.Fresh(p, d.specHash.target, JobOf(LiveOf(n, k))) == d.diffHash && !NeedsSync(d))
  }

  ghost predicate CopiesOwe(p: N.Plan, s: Sys, d: Deployment, k: Key, id: Id) {
    && (forall c :: (id, c) in s.copies && NeedsSync(c) ==> InSync(p, s.nomad, d, k))
    && (id in s.workers && (NeedsSync(s.workers[id].d) || PcNeedsSync(s.workers[id].pc)) ==> InSync(p, s.nomad, d, k))
  }

  ghost predicate PlanOwes(p: N.Plan, n: Cluster, det: Detection, d: Deployment, k: Key, moved: bool, overtaken: bool) {
    Acting(det, k) ==>
      && (det.o.diff == None || det.o.diff == d.diffHash)
      && (!moved && det.o.diff == None ==> InSync(p, n, d, k))
      && (d.state in {Completed, Superseded} && !overtaken ==> det.o.diff == None)
  }

  ghost predicate OwesFor(p: N.Plan, s: Sys, k: Key, id: Id, w: Ledger)
    requires hide *; id < |s.db.rows|
  {
    hide *; var d := s.db.rows[id];
    && WorldOwes(s.world, d, k, w) && CycleOwes(s.det, d, k) && MarksOwe(s.det, k)
    && (!w.live ==> LiveOwes(p, s.nomad, d, k) && CopiesOwe(p, s, d, k, id))
    && PlanOwes(p, s.nomad, s.det, d, k, w.live, w.overtaken)
  }

  ghost predicate Owes(p: N.Plan, s: Sys, k: Key, w: Ledger) {
    hide *; && (At(s.det, k) && s.det.JobRead? && w.live ==> w.due)
    && match LatestOf(s.db.rows, k)
       case None => w.due
       case Some(id) => !w.due ==> OwesFor(p, s, k, id, w)
  }

  // -- a create needs an event, or a race -------------------------------------------------------------

  /** While nothing is due, no cycle creates a deployment from a plan that was not overtaken. */
  lemma CreateIsDue(p: N.Plan, s: Sys, a: Action, k: Key, w: Ledger)
    requires Copies(s) && LatestHeld(s.db.rows, s.det) && Views(p, s, k, w) && Owes(p, s, k, w)
    requires Creates(s, CallOf(s, a), k) && !CreatesOvertaken(s, a, k, w)
    ensures w.due
  {
    hide *;
    CreatesWhat(s, a, k);
    CreateOrigin(s, a);
    CreatedFrom(s, a);
    ViewParts(p, s, k, w);
    NotOvertaken(s, a, k, w);
    LatestHere(s, k);
    OwesRead(p, s, k, w);
    if !w.due && s.det.latestId.Some? {
      var id := s.det.latestId.value;
      NothingNew(s.det.t.key, s.det.t.g, s.det.t.hold, s.det.t.liftedBy, id, s.det.latest.value, s.db.rows[id], s.det.o.index, s.det.o.job, s.det.o.diff, CallOf(s, a).d);
      ActiveFound(s.db, CallOf(s, a), id);
    }
  }

  /** The latest deployment a cycle holds is the job's. */
  lemma LatestHere(s: Sys, k: Key)
    requires s.det.LatestRead? && s.det.t.key == k && LatestHeld(s.db.rows, s.det) && DetectionPast(s.db.rows, s.det)
    ensures s.det.latestId == LatestOf(s.db.rows, k) && (s.det.latestId.Some? <==> s.det.latest.Some?)
    ensures At(s.det, k) && Acting(s.det, k)
    ensures s.det.latestId.Some? ==> RowGrows(s.det.latest.value, s.db.rows[s.det.latestId.value])
  {
    hide RowGrows, LatestOf;
  }

  /** While nothing is due, a cycle that read the latest deployment found it and the job as the last create did. */
  lemma OwesRead(p: N.Plan, s: Sys, k: Key, w: Ledger)
    requires hide *; Owes(p, s, k, w) && Flags(s.det, k, w) && JobSeen(s.world, s.det, k, w.window) && EndSeen(s.db.rows, s.det, k, w.overtaken)
    requires s.det.LatestRead? && At(s.det, k) && Acting(s.det, k) && s.det.latestId == LatestOf(s.db.rows, k)
    ensures !w.due ==> s.det.latestId.Some?
    ensures !w.due && !w.overtaken && s.det.latest.Some? ==>
      var det, d := s.det, s.db.rows[s.det.latestId.value];
      && d.specHash == Decisions.HashOf(det.t.g) && det.latest.value.retriedBy.None?
      && (det.o.diff == None || det.o.diff == d.diffHash)
      && (Problem(det.t.g) ==> det.latest.value.state == Failed)
      && (!IsActive(d.state) ==> det.latest.value.state == d.state)
      && (d.state in {Completed, Superseded} ==> det.o.diff == None)
  {
    hide LatestOf, HoldOf, InSync, LiveOwes, CopiesOwe, WorldOwes, Flags, Decisions.HashOf, Problem;
  }

  /** A create that is written is of the job at hand, with no active deployment unless born failed. */
  lemma CreatedFrom(s: Sys, a: Action)
    requires hide *; CallOf(s, a).Create?
    ensures s.det.LatestRead? && CallOf(s, a).d.key == s.det.t.key
    ensures CallOf(s, a).d.state == Failed <==> Problem(s.det.t.g)
  {
    CreateOrigin(s, a);
    hide CallOf, Problem, Frozen, Decisions.HashOf, Blocked, Retried;
  }

  lemma ActiveFound(db: Db, c: Store.Call, id: Id)
    requires c.Create? && Writes(db, c) && id < |db.rows| && db.rows[id].key == c.d.key && IsActive(db.rows[id].state)
    ensures c.d.state == Failed
  {
  }

  /** With the latest deployment's target and diff, a cycle creates nothing new once it ended, unless it ended unseen. */
  lemma NothingNew(key: Key, g: GitJob, hold: Option<Hold>, liftedBy: Option<Actor>, id: Id, latest: Deployment, d: Deployment,
                   index: nat, job: N.Job, diff: Option<N.DiffHash>, created: Deployment)
    requires NewDeployment(key, g, hold, liftedBy, Some(id), Some(latest), index, job, diff) == Some(created)
    requires RowGrows(latest, d) && d.specHash == Decisions.HashOf(g) && latest.retriedBy.None?
    requires diff == None || diff == d.diffHash
    requires Problem(g) ==> latest.state == Failed
    requires !IsActive(d.state) ==> latest.state == d.state
    requires d.state in {Completed, Superseded} ==> diff == None
    ensures IsActive(d.state) && created.state != Failed
  {
    hide Decisions.HashOf, Problem, Frozen;
  }

  // -- a step with nothing due keeps what is owed -------------------------------------------------------

  /** What a step that leaves nothing due did not do: bring an event the cycle has not read past, race, or create. */
  lemma NothingDue(p: N.Plan, s: Sys, a: Action, k: Key, w: Ledger)
    requires !Watch(p, s, a, k, w).due && !Creates(s, CallOf(s, a), k)
    ensures var n, world := Note(p, s, a, k, w), WorldAfter(s.world, a);
      && !w.due && !Torn(p, s, a, k) && !CreatesOvertaken(s, a, k, w)
      && (DetectionAfter(p, s, a).Idle? ==> !n.Later())
      && (!n.git ==> !w.git && !GitEvent(s, world, k))
      && (!n.pause ==> !w.pause && !PauseEvent(s, world, k))
      && (!n.allPause ==> !w.allPause && s.world.allPaused == world.allPaused)
      && (!n.window ==> !w.window && !WindowEvent(s, world, k))
      && (!n.retry ==> !w.retry && !RetryEvent(s, CallOf(s, a), k))
      && (!n.live ==> !w.live && !LiveMoved(p, s, a, k))
  {
    MovedBy(p, s, a, k);
    hide GitEvent, PauseEvent, WindowEvent, LiveMoved, LiveEvent, StrayRegister, RetryEvent, Torn, CreatesOvertaken, Overtakes, DetectionAfter, CallOf, Creates, WorldAfter, HasGit, HasPause, HasAllPause, HasWindow, HasLive, HasMarks;
  }

  lemma NextWorldOwes(p: N.Plan, s: Sys, a: Action, k: Key, w: Ledger, d: Deployment, e: Deployment)
    requires WorldOwes(s.world, d, k, w) && !Watch(p, s, a, k, w).due && !Creates(s, CallOf(s, a), k)
    requires RowGrows(d, e) && (e.retriedBy == d.retriedBy || RetryEvent(s, CallOf(s, a), k))
    ensures WorldOwes(WorldAfter(s.world, a), e, k, Note(p, s, a, k, w))
  {
    NothingDue(p, s, a, k, w);
    hide Note, Watch, CallOf, Creates, Torn, CreatesOvertaken, LiveMoved, RetryEvent, WorldAfter, DetectionAfter, Decisions.HashOf, WindowCloses;
  }

  /** A cycle reads the world, and works out the hold of the job it comes to. */
  lemma NextCycleOwes(p: N.Plan, s: Sys, a: Action, k: Key, w: Ledger, d: Deployment, e: Deployment)
    requires WorldOwes(s.world, d, k, w) && CycleOwes(s.det, d, k) && Flags(s.det, k, w)
    requires RowGrows(d, e)
    ensures CycleOwes(DetectionAfter(p, s, a), e, k)
  {
    hide DetectionAfter, Decisions.HashOf, HoldOf, WindowFree, NeedsSync;
    ViewsMove(p, s, a);
    AtMove(p, s, a, k);
    ReadsNow(p, s, a);
    var det := DetectionAfter(p, s, a);
    if At(det, k) && !At(s.det, k) {
      BegunFree(det.c, k, det.t.g, k in s.world.closed, d);
    }
  }

  /** The first step that reads something reads it before anything of the kind was noted. */
  lemma ReadsNow(p: N.Plan, s: Sys, a: Action)
    ensures var det := DetectionAfter(p, s, a);
      && (PausedView(s.det).None? && PausedView(det).Some? ==> !HasPause(s.det))
      && (AllView(s.det).None? && AllView(det).Some? ==> !HasAllPause(s.det))
  {
    hide Review, NewDeployment, DetectCall, HoldOf;
  }

  lemma BegunFree(c: Cycle, k: Key, g: GitJob, closed: bool, d: Deployment)
    requires k !in c.paused && !c.allPaused && Decisions.HashOf(g) == d.specHash && WindowFree(d, closed)
    ensures var hold := HoldOf(c, k, g, closed).0; hold.None? || (hold == Some(Window) && d.liftedBy.Some?)
  {
  }

  lemma SameProblem(g: GitJob, d: Deployment)
    requires FromGit(d) && d.specHash == Decisions.HashOf(g) && Problem(g)
    ensures d.state == Failed
  {
    var f :| d.hooks == Frozen(f) && d.specHash == Decisions.HashOf(f) && d.spec.cfg == f.job.cfg && (Problem(f) ==> d.state == Failed);
    hide Lines, Frozen;
    assert Lines(f) == Lines(g);
  }

  lemma NextMarksOwe(p: N.Plan, s: Sys, a: Action, k: Key, w: Ledger)
    requires hide *; MarksOwe(s.det, k) && Views(p, s, k, w) && LatestOf(s.db.rows, k).Some?
    requires var d := s.db.rows[LatestOf(s.db.rows, k).value]; WorldOwes(s.world, d, k, w) && CycleOwes(s.det, d, k) && FromGit(d)
    ensures MarksOwe(DetectionAfter(p, s, a), k)
  {
    hide *;
    var det, d := DetectionAfter(p, s, a), s.db.rows[LatestOf(s.db.rows, k).value];
    LatestMove(p, s, a, k);
    AtMove(p, s, a, k);
    ReadsLatest(p, s, a);
    MarksIs(s.det, k);
    MarksIs(det, k);
    if At(det, k) && det.LatestRead? && det != s.det {
      MarksRead(p, s, k, w, d);
      if Problem(det.t.g) { SameProblem(det.t.g, d); }
    }
  }

  lemma MarksIs(det: Detection, k: Key)
    ensures MarksOwe(det, k) <==>
      (At(det, k) && det.LatestRead? && det.latest.Some? ==>
        det.latest.value.retriedBy.None? && (Problem(det.t.g) ==> det.latest.value.state == Failed))
  {
    hide Problem;
  }

  /** Up to the read of the latest deployment, nobody asked to retry it unseen. */
  lemma MarksRead(p: N.Plan, s: Sys, k: Key, w: Ledger, d: Deployment)
    requires hide *; Views(p, s, k, w) && s.det.Cleared? && At(s.det, k) && WorldOwes(s.world, d, k, w) && CycleOwes(s.det, d, k)
    ensures d.retriedBy.None? && d.specHash == Decisions.HashOf(s.det.t.g)
  {
    hide Decisions.HashOf, HoldOf, WindowFree, PlanSeen, WaitingSeen, UnappliedWait, EndSeen, GitSeen, PauseSeen, AllSeen, PolicySeen;
  }

  lemma ReadsLatest(p: N.Plan, s: Sys, a: Action)
    ensures DetectionAfter(p, s, a).LatestRead? && DetectionAfter(p, s, a) != s.det ==> s.det.Cleared?
  {
    hide Review, NewDeployment, DetectCall, HoldOf;
  }

  // -- the live job ---------------------------------------------------------------------------------------

  /** The register of the job's active deployment leaves the live job as its target says. */
  lemma OwnRegisterSyncs(p: N.Plan, s: Sys, a: Action, k: Key)
    requires N.Lawful(p) && Basic(s) && AllPinned(p, s) && Changes(p, s, a, k) && OwnRegister(s, a, k)
    ensures InSync(p, ClusterAfter(p, s, a), s.db.rows[a.id], k)
  {
    RegistersOnly(p, s, a, k);
    AcceptedAtPin(p, s, a.id);
    AcceptedNext(p, s, a.id);
    NextParts(p, s, a);
    var d := s.db.rows[a.id];
    assert PastOf(s.db.rows, a.id, s.workers[a.id].d);
    RowKeeps(s.workers[a.id].d, d);
    assert Origin(p, d);
    hide N.Lawful, Basic, AllPinned, Accepted, Changes, EffectOf, Next, ClusterAfter, N.Canonical, N.Fresh;
    var before, at :| N.CanonicalLive(at) && d.spec == N.Adjusted(d.specHash.target, before) && d.diffHash == N.HashOf(p(d.spec, at));
    RegisteredInSync(p, d.specHash.target, before, JobOf(LiveOf(s.nomad, k)));
  }

  /** A worker's step changes the live job only by a register Nomad accepts. */
  lemma RegistersOnly(p: N.Plan, s: Sys, a: Action, k: Key)
    requires a.Step? && Changes(p, s, a, k)
    ensures a.work == Register && Accepted(p, s, a.id) && a.id in s.workers && s.workers[a.id].d.key == k && s.workers[a.id].pc.PlannedAt?
    ensures Change(p, s, a) == Some((k, EffectOf(p, s, a).register.value))
  {
    hide HookStep, HealthStep;
  }

  lemma NextFresh(p: N.Plan, s: Sys, a: Action, k: Key)
    requires hide *; N.Lawful(p) && Basic(s) && CanonicalCluster(s) && AllPinned(p, s) && LatestOf(s.db.rows, k).Some? && !LiveMoved(p, s, a, k)
    ensures var d := s.db.rows[LatestOf(s.db.rows, k).value];
      && (InSync(p, s.nomad, d, k) ==> InSync(p, ClusterAfter(p, s, a), d, k))
      && (InSync(p, ClusterAfter(p, s, a), d, k)
          || N.Fresh(p, d.specHash.target, JobOf(LiveOf(ClusterAfter(p, s, a), k))) == N.Fresh(p, d.specHash.target, JobOf(LiveOf(s.nomad, k))))
  {
    LiveStays(p, s, a, k);
    if Changes(p, s, a, k) {
      var id := LatestOf(s.db.rows, k).value;
      if OwnScale(s, a, k) {
        assert Pinned(p, s.nomad, s.db.rows[id]);
        ScaleKeepsFresh(p, s, a, k, s.db.rows[id].specHash.target);
      } else {
        OwnRegisterSyncs(p, s, a, k);
      }
    }
    hide N.Lawful, Basic, CanonicalCluster, AllPinned, Changes, N.Fresh, ClusterAfter;
  }

  // -- the deployment and its copies -----------------------------------------------------------------------

  /** What puts a worker where the live job has to be in sync. */
  lemma WorkedNeedsSync(p: N.Plan, s: Sys, id: Id, w: Worker, work: Work)
    ensures hide *; var e := Worked(p, s, id, w, work);
      e.next.Some? && (NeedsSync(e.next.value.d) || PcNeedsSync(e.next.value.pc)) ==>
        || NeedsSync(w.d) || PcNeedsSync(w.pc)
        || e.register.Some?
        || (w.pc.LiveRead? && N.HashOf(p(N.Adjusted(w.d.spec, JobOf(w.pc.live)), JobOf(LiveOf(s.nomad, w.d.key)))) == None)
  {
    RegisterNeedsSync(p, LiveOf(s.nomad, w.d.key), w.d, w.pc, work);
    HealthNeedsSync(p, LiveOf(s.nomad, w.d.key), s.db, id, w.d, w.pc, work);
    HookNeedsSync(s.db.runs, id, w.d, w.pc, work);
    hide RegisterStep, HealthStep, HookStep, N.HashOf;
  }

  lemma RegisterNeedsSync(p: N.Plan, now: Option<LiveJob>, d: Deployment, pc: Pc, work: Work)
    ensures var e := RegisterStep(p, now, d, pc, work);
      e.next.Some? && PcNeedsSync(e.next.value.pc) ==>
        || PcNeedsSync(pc) || e.register.Some?
        || (pc.LiveRead? && N.HashOf(p(N.Adjusted(d.spec, JobOf(pc.live)), JobOf(now))) == None)
  {
    hide N.HashOf;
  }

  lemma HealthNeedsSync(p: N.Plan, now: Option<LiveJob>, db: Db, id: Id, d: Deployment, pc: Pc, work: Work)
    ensures var e := HealthStep(p, now, db, id, d, pc, work);
      AppliedIndex(d) != 0 && e.next.Some? && (NeedsSync(e.next.value.d) || PcNeedsSync(e.next.value.pc)) ==> NeedsSync(d)
  {
    hide ErrorOf;
  }

  lemma HookNeedsSync(runs: map<RunKey, HookRun>, id: Id, d: Deployment, pc: Pc, work: Work)
    ensures var e := HookStep(runs, id, d, pc, work);
      d.state in {PreHook, PostHook} && e.next.Some? && PcNeedsSync(e.next.value.pc) ==> NeedsSync(d) || PcNeedsSync(pc)
  {
    hide HooksOf;
  }

  lemma NextWorkerOwes(p: N.Plan, s: Sys, a: Action, k: Key, id: Id)
    requires hide *; N.Lawful(p) && Basic(s) && CanonicalCluster(s) && AllPinned(p, s) && LatestOf(s.db.rows, k) == Some(id) && !LiveMoved(p, s, a, k)
    requires CopiesOwe(p, s, s.db.rows[id], k, id) && id in WorkersAfter(p, s, a)
    requires var w := WorkersAfter(p, s, a)[id]; NeedsSync(w.d) || PcNeedsSync(w.pc)
    ensures InSync(p, ClusterAfter(p, s, a), s.db.rows[id], k)
  {
    hide *;
    var d := s.db.rows[id];
    WorkerOrigin(p, s, a, id);
    NextFresh(p, s, a, k);
    CopiesOweAt(p, s, d, k, id);
    if a.Step? && a.id == id && id in s.workers {
      var w := s.workers[id];
      WorkedNeedsSync(p, s, id, w, a.work);
      StepEffect(p, s, a);
      WorkerOf(p, s, k, id);
      if w.pc.LiveRead? && N.HashOf(p(N.Adjusted(w.d.spec, JobOf(w.pc.live)), JobOf(LiveOf(s.nomad, k)))) == None {
        PlanInSync(p, s, k, id, JobOf(w.pc.live));
      }
      if EffectOf(p, s, a).register.Some? {
        RegisterIsOwn(p, s, a, k);
        OwnRegisterSyncs(p, s, a, k);
      }
    }
  }

  lemma CopiesOweAt(p: N.Plan, s: Sys, d: Deployment, k: Key, id: Id)
    requires CopiesOwe(p, s, d, k, id)
    ensures forall c :: (id, c) in s.copies && (NeedsSync(c) || PcNeedsSync(Ready)) ==> InSync(p, s.nomad, d, k)
    ensures id in s.workers && (NeedsSync(s.workers[id].d) || PcNeedsSync(s.workers[id].pc)) ==> InSync(p, s.nomad, d, k)
  {
    hide InSync, NeedsSync;
  }

  lemma WorkerOf(p: N.Plan, s: Sys, k: Key, id: Id)
    requires Basic(s) && LatestOf(s.db.rows, k) == Some(id) && id in s.workers
    ensures s.workers[id].d.key == k && s.workers[id].d.spec == s.db.rows[id].spec
  {
    assert PastOf(s.db.rows, id, s.workers[id].d);
    RowKeeps(s.workers[id].d, s.db.rows[id]);
  }

  /** The plan of the worker showing nothing is the live job in sync. */
  lemma PlanInSync(p: N.Plan, s: Sys, k: Key, id: Id, read: Option<N.Job>)
    requires hide *; N.Lawful(p) && CanonicalCluster(s) && AllPinned(p, s) && LatestOf(s.db.rows, k) == Some(id)
    requires N.HashOf(p(N.Adjusted(s.db.rows[id].spec, read), JobOf(LiveOf(s.nomad, k)))) == None
    ensures InSync(p, s.nomad, s.db.rows[id], k)
  {
    var d := s.db.rows[id];
    assert Pinned(p, s.nomad, d) && N.CanonicalLive(JobOf(LiveOf(s.nomad, k)));
    var before, at :| N.CanonicalLive(at) && d.spec == N.Adjusted(d.specHash.target, before) && d.diffHash == N.HashOf(p(d.spec, at));
    hide N.Lawful, CanonicalCluster, AllPinned, N.Canonical, N.HashOf, N.Adjusted;
    NothingIsInSync(p, d.specHash.target, before, read, JobOf(LiveOf(s.nomad, k)));
  }

  lemma RegisterIsOwn(p: N.Plan, s: Sys, a: Action, k: Key)
    requires hide *; Basic(s) && LatestOf(s.db.rows, k).Some? && a.Step? && LatestOf(s.db.rows, k) == Some(a.id) && a.id in s.workers
    requires EffectOf(p, s, a).register.Some? && !LiveMoved(p, s, a, k)
    ensures Changes(p, s, a, k) && OwnRegister(s, a, k)
  {
    hide *;
    WorkerOf(p, s, k, a.id);
    RegisterChanges(p, s, a, k);
    StepMoves(p, s, a, k);
  }

  lemma RegisterChanges(p: N.Plan, s: Sys, a: Action, k: Key)
    requires hide *; a.Step? && a.id in s.workers && s.workers[a.id].d.key == k && EffectOf(p, s, a).register.Some?
    ensures Changes(p, s, a, k)
  {
    hide EffectOf;
  }

  lemma StepMoves(p: N.Plan, s: Sys, a: Action, k: Key)
    ensures a.Step? && Changes(p, s, a, k) && !LiveMoved(p, s, a, k) ==> OwnRegister(s, a, k)
  {
    hide Changes, OwnRegister;
  }

  /** A cycle settles a waiting deployment that is d only with nothing to apply. */
  lemma SettleInSync(p: N.Plan, s: Sys, a: Action, k: Key, w: Ledger, id: Id)
    requires Copies(s) && Views(p, s, k, w) && id < |s.db.rows| && s.db.rows[id].key == k
    requires CycleOwes(s.det, s.db.rows[id], k) && PlanOwes(p, s.nomad, s.det, s.db.rows[id], k, w.live, w.overtaken)
    requires var c := CallOf(s, a);
      a.Settle? && c.Transition? && c.id == id && Writes(s.db, c) && c.to in {Completed, Superseded}
    ensures Acting(s.det, k) && s.det.o.diff == None
  {
    var det, d := s.det, s.db.rows[id];
    ViewParts(p, s, k, w);
    SettleOf(s, a);
    assert RowGrows(det.d, d) && d.key == k;
    assert Acting(det, k);
    assert Decisions.HashOf(det.t.g) == d.specHash;
    assert d.specHash.target.cfg.policy != N.NoPolicy;
    hide CallOf, Views, Copies, Flags, GitSeen, PauseSeen, AllSeen, PlanSeen, UnappliedWait, EndSeen, InSync, RowGrows, Problem;
    SettlesNothing(det.t.g, Problem(det.t.g), det.t.hold, det.d, det.o.index, det.o.diff);
  }

  lemma SettleOf(s: Sys, a: Action)
    requires hide *; a.Settle? && CallOf(s, a).Transition?
    ensures s.det.Moved? && CallOf(s, a).id == s.det.id && CallOf(s, a).from == s.det.d.state
    ensures var det := s.det;
      var r := Review(det.t.g.job.cfg, Decisions.HashOf(det.t.g), Problem(det.t.g), det.t.hold, det.d, det.o.index, det.o.diff);
      !r.Keep? && CallOf(s, a).to == r.to
  {
    hide Review, Decisions.HashOf, Problem;
  }

  /** A deployment with the job's spec, at the live index or following it, and not held, is ended only without drift. */
  lemma SettlesNothing(g: GitJob, problem: bool, hold: Option<Hold>, d: Deployment, index: nat, diff: Option<N.DiffHash>)
    requires g.job.cfg.policy != N.NoPolicy && d.specHash == Decisions.HashOf(g)
    requires !Follows(g.job.cfg, Decisions.HashOf(g), d, index, diff)
    requires hold.None? || (hold == Some(Window) && d.liftedBy.Some?)
    requires diff == None || diff == d.diffHash
    requires var r := Review(g.job.cfg, Decisions.HashOf(g), problem, hold, d, index, diff); !r.Keep? && r.to in {Completed, Superseded}
    ensures diff == None
  {
    hide Decisions.HashOf;
  }

  /** What ends or applies the deployment finds the live job in sync. */
  lemma NextRowOwes(p: N.Plan, s: Sys, a: Action, k: Key, w: Ledger, id: Id)
    requires hide *; Basic(s) && Views(p, s, k, w) && LatestOf(s.db.rows, k) == Some(id) && !w.live
    requires var d := s.db.rows[id];
      CycleOwes(s.det, d, k) && PlanOwes(p, s.nomad, s.det, d, k, w.live, w.overtaken) && CopiesOwe(p, s, d, k, id) && LiveOwes(p, s.nomad, d, k)
    requires id < |Exec(s.db, CallOf(s, a)).rows| && NeedsSync(Exec(s.db, CallOf(s, a)).rows[id])
    ensures InSync(p, s.nomad, s.db.rows[id], k)
  {
    hide *;
    var c, d := CallOf(s, a), s.db.rows[id];
    RowStep(s.db, c, id);
    OweParts(p, s, d, k, id);
    if !NeedsSync(d) {
      NewNeed(s.db, c, id);
      if c.Transition? {
        TransitionOrigin(s, a);
        TransitionNeeds(s, a, k, d);
        CopiesOweAt(p, s, d, k, id);
        if a.Settle? {
          SettleInSync(p, s, a, k, w, id);
          PlanOwed(p, s.nomad, s.det, d, k, w.live, w.overtaken);
        } else if a.Sweep? {
          NoSweep(s, a, k, d);
        }
      } else {
        RecordOrigin(s, a);
        RereadNeeds(s.workers[a.id].pc);
        CopiesOweAt(p, s, d, k, id);
      }
    }
  }

  lemma OweParts(p: N.Plan, s: Sys, d: Deployment, k: Key, id: Id)
    requires Basic(s) && LiveOwes(p, s.nomad, d, k)
    ensures NeedsSync(d) ==> InSync(p, s.nomad, d, k)
    ensures Copies(s)
  {
    hide NeedsSync, InSync, N.Fresh, Copies, Indexed, Sound;
  }

  /** A row comes to need the live job in sync by a transition, or by the record of its register. */
  lemma NewNeed(db: Db, c: Store.Call, id: Id)
    requires id < |db.rows| && id < |Exec(db, c).rows| && !NeedsSync(db.rows[id]) && NeedsSync(Exec(db, c).rows[id])
    ensures Writes(db, c) && (c.Transition? || c.SetApplied?) && c.id == id
    ensures c.Transition? ==> c.to in {PostHook, Completed, Superseded} && db.rows[id].state == c.from
  {
  }

  lemma RereadNeeds(pc: Pc)
    ensures pc.Reread? ==> PcNeedsSync(pc)
  {
  }

  /** Of the moves that need it, people make none. */
  lemma TransitionNeeds(s: Sys, a: Action, k: Key, d: Deployment)
    requires hide *; CallOf(s, a).Transition? && CallOf(s, a).to in {PostHook, Completed, Superseded}
    ensures !a.Approve? && !a.Reject?
    ensures a.Step? ==> a.id in s.workers && CallOf(s, a).id == a.id && PcNeedsSync(s.workers[a.id].pc)
    ensures a.Settle? ==> CallOf(s, a).to in {Completed, Superseded}
  {
    hide *;
    TransitionOrigin(s, a);
    NextIs(s, a);
    PcIs(s, a);
  }

  lemma NextIs(s: Sys, a: Action)
    ensures a.Approve? && a.id < |s.db.rows| ==> NextAfterDecision(s.db.rows[a.id]) in {PreHook, Applying}
  {
  }

  lemma PcIs(s: Sys, a: Action)
    ensures a.Step? && a.id in s.workers && s.workers[a.id].pc.Deciding? && s.workers[a.id].pc.to in {PostHook, Completed, Superseded} ==>
              PcNeedsSync(s.workers[a.id].pc)
  {
  }

  lemma PlanOwed(p: N.Plan, n: Cluster, det: Detection, d: Deployment, k: Key, moved: bool, overtaken: bool)
    requires PlanOwes(p, n, det, d, k, moved, overtaken) && Acting(det, k) && det.o.diff == None && !moved
    ensures InSync(p, n, d, k)
  {
    hide InSync;
  }

  /** A sweep takes only jobs git has not. */
  lemma NoSweep(s: Sys, a: Action, k: Key, d: Deployment)
    requires hide *; Copies(s) && CycleOwes(s.det, d, k) && a.Sweep? && CallOf(s, a).Transition? && CallOf(s, a).id < |s.db.rows|
    ensures s.db.rows[CallOf(s, a).id].key != k
  {
    var det := s.det;
    assert det.Sweeping? && a.id in det.left;
    assert RowGrows(det.left[a.id], s.db.rows[a.id]);
  }

  lemma NextLiveOwes(p: N.Plan, s: Sys, a: Action, k: Key, w: Ledger, id: Id)
    requires hide *; N.Lawful(p) && Basic(s) && CanonicalCluster(s) && AllPinned(p, s) && Views(p, s, k, w)
    requires LatestOf(s.db.rows, k) == Some(id) && !w.live && !LiveMoved(p, s, a, k)
    requires var d := s.db.rows[id];
      CycleOwes(s.det, d, k) && PlanOwes(p, s.nomad, s.det, d, k, w.live, w.overtaken) && CopiesOwe(p, s, d, k, id) && LiveOwes(p, s.nomad, d, k)
    requires id < |Exec(s.db, CallOf(s, a)).rows| && RowGrows(s.db.rows[id], Exec(s.db, CallOf(s, a)).rows[id])
    ensures LiveOwes(p, ClusterAfter(p, s, a), Exec(s.db, CallOf(s, a)).rows[id], k)
  {
    var d, e := s.db.rows[id], Exec(s.db, CallOf(s, a)).rows[id];
    NextFresh(p, s, a, k);
    if NeedsSync(e) { NextRowOwes(p, s, a, k, w, id); }
    assert e.specHash == d.specHash && e.diffHash == d.diffHash;
    hide CallOf, Exec, ClusterAfter, N.Lawful, Basic, CanonicalCluster, AllPinned, Views, CopiesOwe, CycleOwes, PlanOwes, LiveMoved, NeedsSync, N.Fresh, RowGrows;
  }

  lemma ListedNeeds(s: Sys, a: Action, id: Id, c: Deployment)
    requires (id, c) in CopiesAfter(s, a)
    ensures (id, c) in s.copies || (id < |s.db.rows| && c == s.db.rows[id])
  {
  }

  lemma NextCopiesOwe(p: N.Plan, s: Sys, a: Action, k: Key, id: Id, after: Sys, e: Deployment)
    requires hide *; N.Lawful(p) && Basic(s) && CanonicalCluster(s) && AllPinned(p, s) && LatestOf(s.db.rows, k) == Some(id) && !LiveMoved(p, s, a, k)
    requires CopiesOwe(p, s, s.db.rows[id], k, id) && LiveOwes(p, s.nomad, s.db.rows[id], k) && e.specHash == s.db.rows[id].specHash
    requires after.nomad == ClusterAfter(p, s, a) && after.copies == CopiesAfter(s, a) && after.workers == WorkersAfter(p, s, a)
    ensures CopiesOwe(p, after, e, k, id)
  {
    hide *;
    var d := s.db.rows[id];
    NextFresh(p, s, a, k);
    OweParts(p, s, d, k, id);
    CopiesOweAt(p, s, d, k, id);
    forall c | (id, c) in after.copies && NeedsSync(c)
      ensures InSync(p, after.nomad, d, k)
    {
      ListedNeeds(s, a, id, c);
    }
    if id in after.workers && (NeedsSync(after.workers[id].d) || PcNeedsSync(after.workers[id].pc)) {
      NextWorkerOwes(p, s, a, k, id);
    }
    CopiesOweFrom(p, after, d, e, k, id);
  }

  lemma CopiesOweFrom(p: N.Plan, s: Sys, d: Deployment, e: Deployment, k: Key, id: Id)
    requires forall c :: (id, c) in s.copies && NeedsSync(c) ==> InSync(p, s.nomad, d, k)
    requires id in s.workers && (NeedsSync(s.workers[id].d) || PcNeedsSync(s.workers[id].pc)) ==> InSync(p, s.nomad, d, k)
    requires e.specHash == d.specHash
    ensures CopiesOwe(p, s, e, k, id)
  {
    hide NeedsSync, N.Fresh;
  }

  /** A deployment that ended during a cycle's step on it was settled by the cycle; any other end overtakes it. */
  lemma EndedHow(p: N.Plan, s: Sys, a: Action, k: Key, id: Id, overtaken: bool)
    requires hide *; LatestOf(s.db.rows, k) == Some(id) && Acting(s.det, k) && Acting(DetectionAfter(p, s, a), k)
    requires id < |Exec(s.db, CallOf(s, a)).rows|
    requires IsActive(s.db.rows[id].state) && Exec(s.db, CallOf(s, a)).rows[id].state in {Completed, Superseded}
    ensures !Overtakes(p, s, a, k, overtaken) ==>
              var c := CallOf(s, a); a.Settle? && c.Transition? && c.id == id && Writes(s.db, c) && c.to in {Completed, Superseded}
  {
    hide *;
    RowStep(s.db, CallOf(s, a), id);
    LatestHas(s.db.rows, k, id);
    EndsNow(s.db, Exec(s.db, CallOf(s, a)), k, id);
    OvertakenBy(p, s, a, k, overtaken);
    TransitionOrigin(s, a);
    SweepsElsewhere(s, a, k);
    ActsAre(a);
  }

  lemma LatestHas(rows: seq<Deployment>, k: Key, id: Id)
    requires LatestOf(rows, k) == Some(id)
    ensures id < |rows| && rows[id].key == k
  {
  }

  lemma EndsNow(db: Db, after: Db, k: Key, id: Id)
    requires id < |db.rows| && id < |after.rows| && db.rows[id].key == k && IsActive(db.rows[id].state) && after.rows[id].state in {Completed, Superseded}
    ensures Ends(db, after, k) && after.rows[id].state != db.rows[id].state
  {
  }

  lemma OvertakenBy(p: N.Plan, s: Sys, a: Action, k: Key, overtaken: bool)
    requires Acting(s.det, k) && Acting(DetectionAfter(p, s, a), k)
    ensures !Acts(a) && Ends(s.db, Exec(s.db, CallOf(s, a)), k) ==> Overtakes(p, s, a, k, overtaken)
  {
    hide Ends, Exec, CallOf, Changes, DetectionAfter, Acting, Acts;
  }

  lemma ActsAre(a: Action)
    ensures a.Approve? || a.Reject? || a.Step? ==> !Acts(a)
  {
  }

  lemma SweepsElsewhere(s: Sys, a: Action, k: Key)
    ensures a.Sweep? && CallOf(s, a).Transition? ==> !Acting(s.det, k)
  {
  }

  lemma NextPlanOwes(p: N.Plan, s: Sys, a: Action, k: Key, w: Ledger, id: Id, e: Deployment)
    requires hide *; N.Lawful(p) && Basic(s) && CanonicalCluster(s) && AllPinned(p, s) && Views(p, s, k, w)
    requires LatestOf(s.db.rows, k) == Some(id) && !w.due && (At(s.det, k) && s.det.JobRead? && w.live ==> w.due)
    requires OwesFor(p, s, k, id, w)
    requires id < |Exec(s.db, CallOf(s, a)).rows| && e == Exec(s.db, CallOf(s, a)).rows[id] && RowGrows(s.db.rows[id], e)
    ensures PlanOwes(p, ClusterAfter(p, s, a), DetectionAfter(p, s, a), e, k,
                     w.live || LiveMoved(p, s, a, k), Overtakes(p, s, a, k, w.overtaken))
  {
    hide *;
    var det, d := DetectionAfter(p, s, a), s.db.rows[id];
    var moved, overtaken := w.live || LiveMoved(p, s, a, k), Overtakes(p, s, a, k, w.overtaken);
    PlanMove(p, s, a, k);
    ActingIs(det, k);
    ActingIs(s.det, k);
    GrowsKeeps(d, e);
    BasicCopies(s);
    OwesForParts(p, s, k, id, w);
    LatestHas(s.db.rows, k, id);
    if Acting(det, k) {
      if Acting(s.det, k) && det.o == s.det.o {
        StillOvertaken(p, s, a, k, w.overtaken);
        PlanParts(p, s.nomad, s.det, d, k, w.live, w.overtaken);
        if !LiveMoved(p, s, a, k) { NextFresh(p, s, a, k); }
        if IsActive(d.state) && e.state in {Completed, Superseded} && !overtaken {
          EndedHow(p, s, a, k, id, w.overtaken);
          SettleInSync(p, s, a, k, w, id);
        }
        EndedStays(d, e);
      } else {
        PlansHere(p, s, a, k, w, id);
        NoChange(p, s, a);
        SyncNeeds(d);
      }
      SyncSame(p, ClusterAfter(p, s, a), d, e, k);
    }
    PlanFrom(p, ClusterAfter(p, s, a), det, e, k, moved, overtaken);
  }

  lemma ActingIs(det: Detection, k: Key)
    ensures Acting(det, k) ==> det.Planned? || det.Waiting? || det.Moved? || det.Cleared? || det.LatestRead?
  {
  }

  lemma BasicCopies(s: Sys)
    requires Basic(s)
    ensures Copies(s)
  {
    hide Copies, Sound, Indexed;
  }

  lemma OwesForParts(p: N.Plan, s: Sys, k: Key, id: Id, w: Ledger)
    requires hide *; id < |s.db.rows| && OwesFor(p, s, k, id, w)
    ensures var d := s.db.rows[id]; CycleOwes(s.det, d, k) && PlanOwes(p, s.nomad, s.det, d, k, w.live, w.overtaken)
  {
    hide WorldOwes, CycleOwes, MarksOwe, LiveOwes, CopiesOwe, PlanOwes;
  }

  lemma StillOvertaken(p: N.Plan, s: Sys, a: Action, k: Key, overtaken: bool)
    requires Acting(s.det, k) && Acting(DetectionAfter(p, s, a), k)
    ensures overtaken ==> Overtakes(p, s, a, k, overtaken)
  {
    hide Ends, Exec, CallOf, Changes, DetectionAfter, Acting;
  }

  lemma PlanParts(p: N.Plan, n: Cluster, det: Detection, d: Deployment, k: Key, moved: bool, overtaken: bool)
    requires Acting(det, k) && PlanOwes(p, n, det, d, k, moved, overtaken)
    ensures (det.Planned? || det.Waiting? || det.Moved? || det.Cleared? || det.LatestRead?) && (det.o.diff == None || det.o.diff == d.diffHash)
    ensures !moved && det.o.diff == None ==> InSync(p, n, d, k)
    ensures d.state in {Completed, Superseded} && !overtaken ==> det.o.diff == None
  {
    hide InSync;
  }

  lemma PlanFrom(p: N.Plan, n: Cluster, det: Detection, d: Deployment, k: Key, moved: bool, overtaken: bool)
    requires Acting(det, k) ==>
      && (det.Planned? || det.Waiting? || det.Moved? || det.Cleared? || det.LatestRead?) && (det.o.diff == None || det.o.diff == d.diffHash)
      && (!moved && det.o.diff == None ==> InSync(p, n, d, k))
      && (d.state in {Completed, Superseded} && !overtaken ==> det.o.diff == None)
    ensures PlanOwes(p, n, det, d, k, moved, overtaken)
  {
    hide InSync;
  }

  lemma EndedStays(d: Deployment, e: Deployment)
    ensures IsActive(d.state) || d.state in {Completed, Superseded, Failed, Rejected}
    ensures RowGrows(d, e) && !IsActive(d.state) ==> e.state == d.state
  {
    match d.state
    case Detected =>
    case PendingApproval =>
    case PreHook =>
    case Applying =>
    case PostHook =>
    case Completed =>
    case Failed =>
    case Rejected =>
    case Superseded =>
  }

  lemma SyncNeeds(d: Deployment)
    ensures d.state in {Completed, Superseded} ==> NeedsSync(d)
  {
  }

  lemma SyncSame(p: N.Plan, n: Cluster, d: Deployment, e: Deployment, k: Key)
    requires e.specHash == d.specHash
    ensures InSync(p, n, d, k) == InSync(p, n, e, k)
  {
    hide N.Fresh;
  }

  lemma NoChange(p: N.Plan, s: Sys, a: Action)
    ensures a.PlanJob? ==> ClusterAfter(p, s, a) == s.nomad && CallOf(s, a).NoCall? && Exec(s.db, CallOf(s, a)) == s.db
  {
  }

  /** The plan of a cycle that read the live job as it is shows d's diff, or none. */
  lemma PlansHere(p: N.Plan, s: Sys, a: Action, k: Key, w: Ledger, id: Id)
    requires hide *; Views(p, s, k, w) && Copies(s) && LatestOf(s.db.rows, k) == Some(id) && !w.due && (w.live ==> w.due)
    requires OwesFor(p, s, k, id, w)
    requires At(s.det, k) && s.det.JobRead?
    ensures var d := s.db.rows[id];
      var diff := N.HashOf(p(N.Adjusted(s.det.t.g.job, JobOf(s.det.live)), JobOf(LiveOf(s.nomad, k))));
      && (diff == None || diff == d.diffHash)
      && (diff == None ==> InSync(p, s.nomad, d, k))
      && (NeedsSync(d) ==> diff == None)
  {
    ViewParts(p, s, k, w);
    var d := s.db.rows[id];
    assert s.det.live == LiveOf(s.nomad, k);
    assert Decisions.HashOf(s.det.t.g) == d.specHash;
    assert LiveOwes(p, s.nomad, d, k);
    hide Views, Copies, OwesFor, Flags, GitSeen, PauseSeen, AllSeen, WaitingSeen, UnappliedWait, EndSeen, PolicySeen, DetectionPast, N.HashOf, CopiesOwe;
  }

  /** The invariants the runs of the engine keep, together. */
  ghost predicate Engine(p: N.Plan, s: Sys) {
    Basic(s) && CanonicalCluster(s) && AllPinned(p, s) && Hooked(s) && LatestHeld(s.db.rows, s.det)
  }

  lemma NextOwesFor(p: N.Plan, s: Sys, a: Action, k: Key, w: Ledger, id: Id)
    requires hide *; N.Lawful(p) && Engine(p, s) && Views(p, s, k, w) && Owes(p, s, k, w)
    requires LatestOf(s.db.rows, k) == Some(id) && !Watch(p, s, a, k, w).due && !Creates(s, CallOf(s, a), k)
    ensures id < |Next(p, s, a).db.rows| && OwesFor(p, Next(p, s, a), k, id, Watch(p, s, a, k, w))
  {
    hide *;
    var d, after, n := s.db.rows[id], Next(p, s, a), Note(p, s, a, k, w);
    EngineParts(p, s, id);
    NothingDue(p, s, a, k, w);
    OwesParts(p, s, k, id, w);
    NextParts(p, s, a);
    ExecGrows(s.db, CallOf(s, a));
    GrowsRow(s.db, after.db, id);
    var e := after.db.rows[id];
    RetriedHow(s, a, k, id);
    ViewParts(p, s, k, w);
    NextWorldOwes(p, s, a, k, w, d, e);
    NextCycleOwes(p, s, a, k, w, d, e);
    NextMarksOwe(p, s, a, k, w);
    if !n.live {
      NextLiveOwes(p, s, a, k, w, id);
      GrowsKeeps(d, e);
      NextCopiesOwe(p, s, a, k, id, after, e);
    }
    NextPlanOwes(p, s, a, k, w, id, e);
    NoteFlags(p, s, a, k, w);
    OwesFrom(p, after, k, id, n, Watch(p, s, a, k, w), w.live || LiveMoved(p, s, a, k));
  }

  lemma GrowsRow(db: Db, after: Db, id: Id)
    requires Grows(db, after) && id < |db.rows|
    ensures id < |after.rows| && RowGrows(db.rows[id], after.rows[id])
  {
    hide RowGrows;
  }

  lemma GrowsKeeps(d: Deployment, e: Deployment)
    requires RowGrows(d, e)
    ensures e.specHash == d.specHash && e.diffHash == d.diffHash
  {
  }

  lemma EngineParts(p: N.Plan, s: Sys, id: Id)
    requires hide *; Engine(p, s) && id < |s.db.rows|
    ensures Basic(s) && CanonicalCluster(s) && AllPinned(p, s) && Copies(s) && FromGit(s.db.rows[id])
  {
    hide CanonicalCluster, AllPinned, Copies, FromGit, Sound, Indexed, Knows, RunInOrder, EventsEarned;
  }

  lemma OwesParts(p: N.Plan, s: Sys, k: Key, id: Id, w: Ledger)
    requires hide *; Owes(p, s, k, w) && LatestOf(s.db.rows, k) == Some(id) && !w.due
    ensures OwesFor(p, s, k, id, w)
    ensures At(s.det, k) && s.det.JobRead? ==> !w.live
    ensures var d := s.db.rows[id];
      && d.key == k && WorldOwes(s.world, d, k, w) && CycleOwes(s.det, d, k) && MarksOwe(s.det, k)
      && (!w.live ==> LiveOwes(p, s.nomad, d, k) && CopiesOwe(p, s, d, k, id))
      && PlanOwes(p, s.nomad, s.det, d, k, w.live, w.overtaken)
  {
    hide WorldOwes, CycleOwes, MarksOwe, LiveOwes, CopiesOwe, PlanOwes;
  }

  /** A deployment is marked retried by a retry of it. */
  lemma RetriedHow(s: Sys, a: Action, k: Key, id: Id)
    requires hide *; id < |s.db.rows| && s.db.rows[id].key == k
    ensures id < |Exec(s.db, CallOf(s, a)).rows|
    ensures Exec(s.db, CallOf(s, a)).rows[id].retriedBy == s.db.rows[id].retriedBy || RetryEvent(s, CallOf(s, a), k)
  {
    MarkedBy(s.db, CallOf(s, a), id);
    hide CallOf, Exec;
  }

  lemma MarkedBy(db: Db, c: Store.Call, id: Id)
    requires id < |db.rows|
    ensures id < |Exec(db, c).rows|
    ensures Exec(db, c).rows[id].retriedBy == db.rows[id].retriedBy || (c.MarkRetried? && c.id == id && Writes(db, c))
  {
  }

  /** At the end of a cycle with nothing due there is nothing to hand over. */
  lemma OwesFrom(p: N.Plan, s: Sys, k: Key, id: Id, n: Ledger, w: Ledger, moved: bool)
    requires hide *; id < |s.db.rows| && !w.due && w == if s.det.Idle? then HandOver(n) else n
    requires moved ==> n.live
    requires var d := s.db.rows[id];
      && WorldOwes(s.world, d, k, n) && CycleOwes(s.det, d, k) && MarksOwe(s.det, k)
      && (!n.live ==> LiveOwes(p, s.nomad, d, k) && CopiesOwe(p, s, d, k, id))
      && PlanOwes(p, s.nomad, s.det, d, k, moved, n.overtaken)
    ensures OwesFor(p, s, k, id, w)
  {
    hide CycleOwes, MarksOwe, LiveOwes, CopiesOwe, WindowFree, InSync;
  }

  // -- a deployment just created ---------------------------------------------------------------------------

  /** The row of a create, in terms of what the cycle read. */
  ghost predicate CreatedRow(det: Detection, k: Key, e: Deployment) {
    && At(det, k) && det.LatestRead? && det.t.hold == None
    && e.specHash == Decisions.HashOf(det.t.g) && e.diffHash == det.o.diff && e.liftedBy == det.t.liftedBy && e.key == k
    && e.retriedBy.None? && e.applied.None? && e.state in {Detected, PendingApproval, Failed}
  }

  lemma CreatedFacts(s: Sys, a: Action, k: Key)
    requires hide *; Creates(s, CallOf(s, a), k)
    ensures a.CreateNow?
    ensures var rows := Exec(s.db, CallOf(s, a)).rows; |rows| == |s.db.rows| + 1 && CreatedRow(s.det, k, rows[|s.db.rows|])
    ensures LatestOf(Exec(s.db, CallOf(s, a)).rows, k) == Some(|s.db.rows|)
  {
    hide CallOf, Exec, Decisions.HashOf, NewDeployment;
    CreateOrigin(s, a);
    CreatedHash(s, a);
    CreatedWith(s, a);
    RowsAppended(s.db, CallOf(s, a));
    Created(s.db, CallOf(s, a));
  }

  lemma CreatedWith(s: Sys, a: Action)
    requires hide *; CallOf(s, a).Create?
    ensures var d := CallOf(s, a).d;
      && s.det.LatestRead? && s.det.t.hold == None && d.diffHash == s.det.o.diff && d.liftedBy == s.det.t.liftedBy && d.key == s.det.t.key
      && d.state in {Detected, PendingApproval, Failed}
  {
    CreateOrigin(s, a);
    hide CallOf, Problem, Frozen, Decisions.HashOf, Blocked, Retried;
  }

  /** A create changes the store, ends the cycle's work on the job, and nothing else. */
  lemma CreateSteps(p: N.Plan, s: Sys, a: Action, k: Key)
    requires hide *; a.CreateNow? && s.det.LatestRead?
    ensures WorldAfter(s.world, a) == s.world && ClusterAfter(p, s, a) == s.nomad && CopiesAfter(s, a) == s.copies && WorkersAfter(p, s, a) == s.workers
    ensures DetectionAfter(p, s, a) == Reconciled(s.det.c, s.det.t)
    ensures !GitEvent(s, WorldAfter(s.world, a), k) && !PauseEvent(s, WorldAfter(s.world, a), k) && !WindowEvent(s, WorldAfter(s.world, a), k)
    ensures !LiveMoved(p, s, a, k)
  {
    hide CallOf, NewDeployment;
  }

  lemma NewWorldOwes(s: Sys, k: Key, w: Ledger, n: Ledger, e: Deployment)
    requires CreatedRow(s.det, k, e)
    requires GitSeen(s.world, s.det, k, w.git) && PauseSeen(s.world, s.det, k, w.pause) && AllSeen(s.world, s.det, w.allPause) && JobSeen(s.world, s.det, k, w.window)
    requires n.git == w.git && n.pause == w.pause && n.allPause == w.allPause && n.window == w.window
    ensures WorldOwes(s.world, e, k, n)
  {
    FreeHold(s.det.c, k, s.det.t.g, k in s.world.closed);
    FreeHold(s.det.c, k, s.det.t.g, true);
    FreeHold(s.det.c, k, s.det.t.g, false);
    assert e.specHash.target == s.det.t.g.job;
    hide HoldOf, Lines;
  }

  /** A job with no hold is not paused, and its window is open or was lifted. */
  lemma FreeHold(c: Cycle, k: Key, g: GitJob, closed: bool)
    ensures HoldOf(c, k, g, closed).0 == None ==>
              k !in c.paused && !c.allPaused && (g.job.cfg.policy == N.Auto && g.job.cfg.windowed && closed ==> HoldOf(c, k, g, closed).1.Some?)
  {
    hide Decisions.HashOf;
  }

  lemma NewCycleOwes(s: Sys, k: Key, moved: bool, e: Deployment)
    requires CreatedRow(s.det, k, e) && JobSeen(s.world, s.det, k, moved)
    ensures CycleOwes(Reconciled(s.det.c, s.det.t), e, k) && MarksOwe(Reconciled(s.det.c, s.det.t), k)
  {
    FreeHold(s.det.c, k, s.det.t.g, true);
    FreeHold(s.det.c, k, s.det.t.g, false);
    hide HoldOf, Decisions.HashOf;
  }

  lemma NewLiveOwes(p: N.Plan, n: Cluster, det: Detection, k: Key, e: Deployment)
    requires CreatedRow(det, k, e) && PlanSeen(p, n, det, k, false, false)
    ensures LiveOwes(p, n, e, k)
  {
    hide N.Fresh, Lines;
    assert e.specHash.target == det.t.g.job;
  }

  lemma NewCopiesOwe(p: N.Plan, s: Sys, after: Sys, k: Key, e: Deployment)
    requires Copies(s) && after.copies == s.copies && after.workers == s.workers
    ensures CopiesOwe(p, after, e, k, |s.db.rows|)
  {
    hide InSync, NeedsSync, RowGrows;
  }

  /** A cycle finds the job it just created a deployment for as it left it. */
  lemma CreatedOwes(p: N.Plan, s: Sys, a: Action, k: Key, w: Ledger)
    requires hide *; Engine(p, s) && Views(p, s, k, w) && Creates(s, CallOf(s, a), k) && !Watch(p, s, a, k, w).due
    ensures var after := Next(p, s, a);
      |after.db.rows| == |s.db.rows| + 1 && OwesFor(p, after, k, |s.db.rows|, Watch(p, s, a, k, w))
  {
    hide *;
    var after, id, n := Next(p, s, a), |s.db.rows|, Note(p, s, a, k, w);
    CreatedFacts(s, a, k);
    EngineCopies(p, s);
    NextParts(p, s, a);
    ViewParts(p, s, k, w);
    NoteFlags(p, s, a, k, w);
    var e := after.db.rows[id];
    AtCreate(s.det, k, e);
    CreateSteps(p, s, a, k);
    NotRetried(s, a, k);
    NewWorldOwes(s, k, w, n, e);
    NewCycleOwes(s, k, w.window, e);
    if !n.live {
      NotOvertaken(s, a, k, w);
      NewLiveOwes(p, s.nomad, s.det, k, e);
    }
    NewCopiesOwe(p, s, after, k, e);
    NotActing(p, after.nomad, s.det.c, s.det.t, e, k, n.live, n.overtaken);
    OwesFrom(p, after, k, id, n, Watch(p, s, a, k, w), n.live);
  }

  lemma AtCreate(det: Detection, k: Key, e: Deployment)
    requires CreatedRow(det, k, e)
    ensures det.LatestRead?
  {
  }

  lemma NotRetried(s: Sys, a: Action, k: Key)
    ensures Creates(s, CallOf(s, a), k) ==> !RetryEvent(s, CallOf(s, a), k)
  {
    hide CallOf;
  }

  lemma NotOvertaken(s: Sys, a: Action, k: Key, w: Ledger)
    requires Creates(s, CallOf(s, a), k) && !CreatesOvertaken(s, a, k, w)
    ensures !w.overtaken
  {
    CreatedFacts(s, a, k);
    hide CallOf, Exec;
  }

  lemma NotActing(p: N.Plan, n: Cluster, c: Cycle, t: Todo, e: Deployment, k: Key, moved: bool, overtaken: bool)
    ensures PlanOwes(p, n, Reconciled(c, t), e, k, moved, overtaken)
  {
  }

  lemma EngineCopies(p: N.Plan, s: Sys)
    requires Engine(p, s)
    ensures Copies(s) && Basic(s) && LatestHeld(s.db.rows, s.det)
  {
    hide CanonicalCluster, AllPinned, Copies, Hooked, Sound, Indexed, LatestHeld;
  }

  // -- the theorem -----------------------------------------------------------------------------------------

  lemma LatestSame(db: Db, c: Store.Call, k: Key)
    requires !(c.Create? && Writes(db, c) && c.d.key == k)
    ensures LatestOf(Exec(db, c).rows, k) == LatestOf(db.rows, k)
  {
    hide Exec;
    var after := Exec(db, c).rows;
    ExecGrows(db, c);
    RowsAppended(db, c);
    var r := LatestOf(db.rows, k);
    if !(c.Create? && Writes(db, c)) { SameRows(db, c); }
    forall i | 0 <= i < |db.rows|
      ensures after[i].key == db.rows[i].key
    {
      assert RowGrows(db.rows[i], after[i]);
    }
    forall i | |db.rows| <= i < |after|
      ensures after[i].key != k
    {
      assert after[i].key == c.d.key;
    }
    if r.Some? {
      LatestIs(after, k, r.value);
    } else {
      NoneIs(after, k);
    }
  }

  lemma NoneIs(rows: seq<Deployment>, k: Key)
    requires forall i :: 0 <= i < |rows| ==> rows[i].key != k
    ensures LatestOf(rows, k) == None
  {
  }

  lemma NextOwes(p: N.Plan, s: Sys, a: Action, k: Key, w: Ledger)
    requires N.Lawful(p) && Engine(p, s) && Views(p, s, k, w) && Owes(p, s, k, w)
    ensures Owes(p, Next(p, s, a), k, Watch(p, s, a, k, w))
  {
    hide *;
    var c, after, v := CallOf(s, a), Next(p, s, a), Watch(p, s, a, k, w);
    NextParts(p, s, a);
    if At(DetectionAfter(p, s, a), k) && DetectionAfter(p, s, a).JobRead? { NextTorn(p, s, a, k, w); }
    CreatesWhat(s, a, k);
    if Creates(s, c, k) {
      CreatedFacts(s, a, k);
      if !v.due { CreatedOwes(p, s, a, k, w); }
      OwesNow(p, after, k, v);
    } else {
      LatestSame(s.db, c, k);
      if LatestOf(s.db.rows, k).Some? && !v.due {
        NextOwesFor(p, s, a, k, w, LatestOf(s.db.rows, k).value);
      }
      if LatestOf(s.db.rows, k).None? && !v.due {
        NothingDue(p, s, a, k, w);
        WasDue(p, s, k, w);
      }
      OwesNow(p, after, k, v);
    }
  }

  lemma CreatesWhat(s: Sys, a: Action, k: Key)
    ensures hide *; var c := CallOf(s, a); Creates(s, c, k) <==> c.Create? && Writes(s.db, c) && c.d.key == k
  {
    hide CallOf;
  }

  lemma OwesNow(p: N.Plan, s: Sys, k: Key, w: Ledger)
    requires hide *; At(s.det, k) && s.det.JobRead? && w.live ==> w.due
    requires !w.due ==> LatestOf(s.db.rows, k).Some? && OwesFor(p, s, k, LatestOf(s.db.rows, k).value, w)
    ensures Owes(p, s, k, w)
  {
    hide OwesFor;
  }

  lemma WasDue(p: N.Plan, s: Sys, k: Key, w: Ledger)
    requires Owes(p, s, k, w) && LatestOf(s.db.rows, k).None?
    ensures w.due
  {
  }

  /** Between the read and the plan of the job, a change of it is due. */
  lemma NextTorn(p: N.Plan, s: Sys, a: Action, k: Key, w: Ledger)
    requires Views(p, s, k, w) && Owes(p, s, k, w)
    requires At(DetectionAfter(p, s, a), k) && DetectionAfter(p, s, a).JobRead?
    ensures Watch(p, s, a, k, w).live ==> Watch(p, s, a, k, w).due
  {
    var race, creates := Race(p, s, a, k, w), Creates(s, CallOf(s, a), k);
    TornFacts(p, s, a, k, w);
    hide *;
    NoteIs(p, s, a, k, w);
    HeardLive(p, s, a, k);
    BooksTorn(w, Heard(p, s, a, k), Known(s.det, k), StrayRegister(p, s, a, k), race, creates, Overtakes(p, s, a, k, w.overtaken));
  }

  /** A live job moves by a step from outside or by a register. */
  lemma MovedBy(p: N.Plan, s: Sys, a: Action, k: Key)
    ensures LiveMoved(p, s, a, k) <==> LiveEvent(p, s, a, k) || StrayRegister(p, s, a, k)
  {
    hide OwnScale, OwnRegister, EffectOf;
  }

  lemma HeardLive(p: N.Plan, s: Sys, a: Action, k: Key)
    ensures (Heard(p, s, a, k).live || StrayRegister(p, s, a, k)) == LiveMoved(p, s, a, k)
  {
    MovedBy(p, s, a, k);
    hide LiveMoved, LiveEvent, StrayRegister, RetryEvent, GitEvent, PauseEvent, WindowEvent, CallOf, WorldAfter;
  }

  /** Live events between the read and the plan are races. */
  lemma BooksTorn(w: Ledger, heard: Parts, known: Parts, stray: bool, race: bool, creates: bool, overtaken: bool)
    requires (w.live ==> w.due) && (heard.live || stray ==> race || !known.live) && !creates
    ensures var n := Book(w, heard, known, stray, race, creates, overtaken); (n.live ==> n.due) && (HandOver(n).live ==> HandOver(n).due)
  {
  }

  lemma TornFacts(p: N.Plan, s: Sys, a: Action, k: Key, w: Ledger)
    requires Views(p, s, k, w) && Owes(p, s, k, w)
    requires At(DetectionAfter(p, s, a), k) && DetectionAfter(p, s, a).JobRead?
    ensures (w.live ==> w.due) && !Creates(s, CallOf(s, a), k)
    ensures LiveMoved(p, s, a, k) ==> Torn(p, s, a, k)
  {
    hide *;
    ReadHow(p, s, a, k);
    NoCreateHere(s, a, k);
    LiveStays(p, s, a, k);
    MovedTorn(p, s, a, k);
    DueBetween(p, s, k, w);
  }

  /** Before the read no change of the live job is later, and from the read to the plan one is due. */
  lemma DueBetween(p: N.Plan, s: Sys, k: Key, w: Ledger)
    requires Views(p, s, k, w) && Owes(p, s, k, w) && At(s.det, k)
    ensures s.det.Begun? ==> !w.live
    ensures s.det.JobRead? && w.live ==> w.due
  {
    hide OwesFor, GitSeen, PauseSeen, AllSeen, PlanSeen, WaitingSeen, UnappliedWait, EndSeen, PolicySeen, LatestOf, HoldOf;
  }

  lemma MovedTorn(p: N.Plan, s: Sys, a: Action, k: Key)
    ensures LiveMoved(p, s, a, k) ==> Changes(p, s, a, k)
    ensures Torn(p, s, a, k) <==> Changes(p, s, a, k) && At(s.det, k) && s.det.JobRead?
  {
    hide Changes, At, OwnScale, OwnRegister;
  }

  lemma ReadHow(p: N.Plan, s: Sys, a: Action, k: Key)
    ensures var det := DetectionAfter(p, s, a);
      At(det, k) && det.JobRead? && det != s.det ==> s.det.Begun? && At(s.det, k) && a.ReadJob?
  {
    hide Review, NewDeployment, DetectCall, HoldOf;
  }

  lemma NoCreateHere(s: Sys, a: Action, k: Key)
    ensures s.det.Begun? || s.det.JobRead? ==> !Creates(s, CallOf(s, a), k)
  {
    if CallOf(s, a).Create? { CreateOrigin(s, a); }
    hide CallOf, NewDeployment;
  }

  // -- the count ---------------------------------------------------------------------------------------------

  ghost predicate Paid(rows: seq<Deployment>, k: Key, w: Ledger) {
    Deployments(rows, k) + One(w.due) + One(w.Later()) <= 1 + w.events + w.strays + 2 * w.races
  }

  lemma {:induction false} DeploymentsSame(rows: seq<Deployment>, after: seq<Deployment>, k: Key)
    requires |rows| == |after| && forall i :: 0 <= i < |rows| ==> after[i].key == rows[i].key
    ensures Deployments(after, k) == Deployments(rows, k)
  {
    if rows != [] { DeploymentsSame(rows[..|rows| - 1], after[..|rows| - 1], k); }
  }

  lemma DeploymentsAfter(db: Db, c: Store.Call, k: Key)
    ensures Deployments(Exec(db, c).rows, k) == Deployments(db.rows, k) + One(c.Create? && Writes(db, c) && c.d.key == k)
  {
    var after := Exec(db, c).rows;
    ExecGrows(db, c);
    RowsAppended(db, c);
    if c.Create? && Writes(db, c) { Created(db, c); } else { SameRows(db, c); }
    hide Exec;
    forall i | 0 <= i < |db.rows|
      ensures after[i].key == db.rows[i].key
    {
      assert RowGrows(db.rows[i], after[i]);
    }
    DeploymentsSame(db.rows, after[..|db.rows|], k);
    if |after| == |db.rows| { assert after[..|db.rows|] == after; }
  }

  lemma NextPaid(p: N.Plan, s: Sys, a: Action, k: Key, w: Ledger)
    requires Engine(p, s) && Views(p, s, k, w) && Owes(p, s, k, w) && Paid(s.db.rows, k, w)
    ensures Paid(Next(p, s, a).db.rows, k, Watch(p, s, a, k, w))
  {
    hide *;
    NextParts(p, s, a);
    DeploymentsAfter(s.db, CallOf(s, a), k);
    CreatesWhat(s, a, k);
    EngineCopies(p, s);
    if Creates(s, CallOf(s, a), k) && !CreatesOvertaken(s, a, k, w) { CreateIsDue(p, s, a, k, w); }
    Balance(p, s, a, k, w, Next(p, s, a).db.rows);
  }

  /** Each flag booked is an event or a race counted, and a create spends what was due. */
  lemma Booked(w: Ledger, heard: Parts, known: Parts, stray: bool, race: bool, creates: bool, overtaken: bool)
    requires creates && !race ==> w.due
    ensures var n := Book(w, heard, known, stray, race, creates, overtaken);
      One(creates) + One(n.due) + One(n.Later()) + w.events + w.strays + 2 * w.races <= One(w.due) + One(w.Later()) + n.events + n.strays + 2 * n.races
  {
  }

  lemma Balance(p: N.Plan, s: Sys, a: Action, k: Key, w: Ledger, rows: seq<Deployment>)
    requires Paid(s.db.rows, k, w) && Deployments(rows, k) == Deployments(s.db.rows, k) + One(Creates(s, CallOf(s, a), k))
    requires Creates(s, CallOf(s, a), k) && !CreatesOvertaken(s, a, k, w) ==> w.due
    ensures Paid(rows, k, Watch(p, s, a, k, w))
  {
    hide *;
    var n := Note(p, s, a, k, w);
    var race, creates := Race(p, s, a, k, w), Creates(s, CallOf(s, a), k);
    NoteIs(p, s, a, k, w);
    RaceIs(p, s, a, k, w);
    Booked(w, Heard(p, s, a, k), Known(s.det, k), StrayRegister(p, s, a, k), race, creates, Overtakes(p, s, a, k, w.overtaken));
    PaidOn(s.db.rows, rows, k, w, n, creates);
  }

  lemma RaceIs(p: N.Plan, s: Sys, a: Action, k: Key, w: Ledger)
    ensures Race(p, s, a, k, w) <==> Torn(p, s, a, k) || CreatesOvertaken(s, a, k, w)
  {
    hide Torn, CreatesOvertaken;
  }

  lemma NoteIs(p: N.Plan, s: Sys, a: Action, k: Key, w: Ledger)
    ensures Note(p, s, a, k, w)
         == Book(w, Heard(p, s, a, k), Known(s.det, k), StrayRegister(p, s, a, k), Race(p, s, a, k, w), Creates(s, CallOf(s, a), k), Overtakes(p, s, a, k, w.overtaken))
    ensures Watch(p, s, a, k, w) == Note(p, s, a, k, w) || Watch(p, s, a, k, w) == HandOver(Note(p, s, a, k, w))
  {
    hide Book, Heard, Known, StrayRegister, Race, Creates, CallOf, Overtakes, HandOver;
  }

  lemma PaidOn(rows: seq<Deployment>, after: seq<Deployment>, k: Key, w: Ledger, n: Ledger, creates: bool)
    requires Paid(rows, k, w) && Deployments(after, k) == Deployments(rows, k) + One(creates)
    requires One(creates) + One(n.due) + One(n.Later()) + w.events + w.strays + 2 * w.races <= One(w.due) + One(w.Later()) + n.events + n.strays + 2 * n.races
    ensures Paid(after, k, n) && Paid(after, k, HandOver(n))
  {
    hide Deployments;
  }

  lemma {:induction false} RunPaid(p: N.Plan, s: Sys, acts: seq<Action>, k: Key)
    requires N.Lawful(p) && Initial(s)
    ensures Views(p, Run(p, s, acts), k, Watched(p, s, acts, k)) && Owes(p, Run(p, s, acts), k, Watched(p, s, acts, k))
    ensures Paid(Run(p, s, acts).db.rows, k, Watched(p, s, acts, k))
  {
    hide *;
    if acts == [] {
      PaidFirst(p, s, k);
    } else {
      var most, last := acts[..|acts| - 1], acts[|acts| - 1];
      hide *;
      RunLast(p, s, acts);
      WatchedLast(p, s, acts, k);
      RunPaid(p, s, most, k);
      RunEngine(p, s, most);
      var now, w := Run(p, s, most), Watched(p, s, most, k);
      EngineIs(p, now);
      NextViews(p, now, last, k, w);
      NextOwes(p, now, last, k, w);
      NextPaid(p, now, last, k, w);
    }
  }

  lemma PaidFirst(p: N.Plan, s: Sys, k: Key)
    requires Initial(s)
    ensures Run(p, s, []) == s && Watched(p, s, [], k) == OPENING
    ensures Views(p, s, k, OPENING) && Owes(p, s, k, OPENING) && Paid(s.db.rows, k, OPENING)
  {
  }

  lemma WatchedLast(p: N.Plan, s: Sys, acts: seq<Action>, k: Key)
    requires hide *; acts != []
    ensures Watched(p, s, acts, k) == Watch(p, Run(p, s, acts[..|acts| - 1]), acts[|acts| - 1], k, Watched(p, s, acts[..|acts| - 1], k))
  {
    hide Watch, Run;
  }

  lemma RunEngine(p: N.Plan, s: Sys, acts: seq<Action>)
    requires N.Lawful(p) && Initial(s)
    ensures Engine(p, Run(p, s, acts))
  {
    hide *;
    RunBasic(p, s, acts);
    RunPinned(p, s, acts);
    RunHooked(p, s, acts);
    RunLined(p, s, acts);
    LinedIs(Run(p, s, acts));
    IsEngine(p, Run(p, s, acts));
  }

  lemma IsEngine(p: N.Plan, s: Sys)
    requires Basic(s) && CanonicalCluster(s) && AllPinned(p, s) && Hooked(s) && LatestHeld(s.db.rows, s.det)
    ensures Engine(p, s)
  {
    hide Basic, CanonicalCluster, AllPinned, Hooked, LatestHeld;
  }

  lemma EngineIs(p: N.Plan, s: Sys)
    requires Engine(p, s)
    ensures CanonicalCluster(s) && AllPinned(p, s) && Copies(s)
  {
    hide CanonicalCluster, AllPinned, Hooked, Copies, Sound, Indexed, LatestHeld;
  }

  /**
   In every run, a job has at most one deployment, plus one for each event from outside, plus
   one for each register of a stale copy, plus two for each race: a live job that changed
   between a cycle's read and its plan, or a create from a plan made before a register or an
   end of a deployment of the job.
  */
  lemma DeploymentsArePaidFor(p: N.Plan, s: Sys, acts: seq<Action>, k: Key)
    requires N.Lawful(p) && Initial(s)
    ensures var w := Watched(p, s, acts, k); Deployments(Run(p, s, acts).db.rows, k) <= 1 + w.events + w.strays + 2 * w.races
  {
    hide *;
    RunPaid(p, s, acts, k);
    PaidIs(Run(p, s, acts).db.rows, k, Watched(p, s, acts, k));
  }

  lemma PaidIs(rows: seq<Deployment>, k: Key, w: Ledger)
    requires Paid(rows, k, w)
    ensures Deployments(rows, k) <= 1 + w.events + w.strays + 2 * w.races
  {
    hide Deployments;
  }
}
