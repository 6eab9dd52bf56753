/**
 The ledger of a job over a run: the events from outside that call for a new deployment,
 the registers of stale copies, and the two races of a detection cycle with the live job.
*/
module JobLedger {
  import opened Options
  import opened Store
  import opened Decisions
  import opened Machine
  import N = Nomad

  // -- the ledger of a job ----------------------------------------------------------------------

  /**
   What a run owes a job. `events`, `strays` and `races` count what happened; the flags say
   what no deployment was created for yet. `due` is for the cycle under way to see, the others came
   after it read what they change: git, the job's pause, the pause of every job, the sync
   window, the live job, the marks of a retry. `overtaken` is about the cycle's plan: since
   it, the job was registered or a deployment of it ended.
  */
  datatype Ledger = Ledger(events: nat, strays: nat, races: nat, due: bool, git: bool, pause: bool, allPause: bool, window: bool, live: bool, retry: bool, overtaken: bool) {
    predicate Later() { git || pause || allPause || window || live || retry }
  }

  /** Before the first deployment one is owed. */
  const OPENING := Ledger(0, 0, 0, true, false, false, false, false, false, false, false)

  function CycleOf(det: Detection): Option<Cycle> {
    match det
    case Idle => None
    case Parsed(_, _) => None
    case PausesRead(_, _, _) => None
    case AllPauseRead(_, _, _, _) => None
    case _ => Some(det.c)
  }

  /** The cycle is at the job. */
  predicate At(det: Detection, k: Key) {
    (det.Begun? || det.JobRead? || det.Planned? || det.Waiting? || det.Moved? || det.Cleared? || det.LatestRead? || det.Reconciled?) && det.t.key == k
  }

  predicate DoneWith(det: Detection, k: Key) {
    CycleOf(det).Some? && k in CycleOf(det).value.done
  }

  predicate HasGit(det: Detection) { !det.Idle? }
  predicate HasPause(det: Detection) { !det.Idle? && !det.Parsed? }
  predicate HasAllPause(det: Detection) { HasPause(det) && !det.PausesRead? }
  predicate HasWindow(det: Detection, k: Key) { DoneWith(det, k) || At(det, k) }
  predicate HasLive(det: Detection, k: Key) { DoneWith(det, k) || (At(det, k) && !det.Begun?) }
  predicate HasMarks(det: Detection, k: Key) { DoneWith(det, k) || (At(det, k) && (det.LatestRead? || det.Reconciled?)) }

  /** From its plan of the job to the create, a cycle acts on what it read. */
  predicate Acting(det: Detection, k: Key) {
    At(det, k) && !det.Begun? && !det.JobRead? && !det.Reconciled?
  }

  /** What git declares of the job: its spec, its policy, the hooks it names. */
  predicate GitEvent(s: Sys, after: World, k: Key) {
    (k in s.world.git) != (k in after.git) || (k in s.world.git && HashOf(s.world.git[k]) != HashOf(after.git[k]))
  }

  predicate PauseEvent(s: Sys, after: World, k: Key) {
    (k in s.world.paused) != (k in after.paused)
  }

  predicate WindowEvent(s: Sys, after: World, k: Key) {
    (k in s.world.closed) != (k in after.closed)
  }

  /** The register of the job's latest deployment, while it is active: its own, not an event. */
  predicate OwnRegister(s: Sys, a: Action, k: Key) {
    a.Step? && LatestOf(s.db.rows, k) == Some(a.id) && IsActive(s.db.rows[a.id].state)
  }

  /** A scale of groups the job's latest deployment scales too, and the spec a cycle is at. */
  ghost predicate OwnScale(s: Sys, a: Action, k: Key) {
    && a.Scale? && a.key == k && k in s.nomad.live
    && (LatestOf(s.db.rows, k).Some? ==>
          N.IsScaleFor(s.db.rows[LatestOf(s.db.rows, k).value].specHash.target, s.nomad.live[k].job, a.job))
    && (At(s.det, k) ==> N.IsScaleFor(s.det.t.g.job, s.nomad.live[k].job, a.job))
  }

  /** The live job of k changes. */
  ghost predicate Changes(p: N.Plan, s: Sys, a: Action, k: Key) {
    Change(p, s, a).Some? && Change(p, s, a).value.0 == k
  }

  /** By anything but the scales and the register a waiting deployment lives with. */
  ghost predicate LiveMoved(p: N.Plan, s: Sys, a: Action, k: Key) {
    Changes(p, s, a, k) && !OwnScale(s, a, k) && !OwnRegister(s, a, k)
  }

  /** From outside: an edit, or a scale of a group git does not leave to the autoscaler. */
  ghost predicate LiveEvent(p: N.Plan, s: Sys, a: Action, k: Key) {
    LiveMoved(p, s, a, k) && IsOutside(a)
  }

  /** By a register of a deployment that is not the job's latest, or that has ended: a stale copy's. */
  ghost predicate StrayRegister(p: N.Plan, s: Sys, a: Action, k: Key) {
    LiveMoved(p, s, a, k) && a.Step?
  }

  predicate RetryEvent(s: Sys, c: Store.Call, k: Key) {
    c.MarkRetried? && Writes(s.db, c) && s.db.rows[c.id].key == k
  }

  /** The live job changes between a cycle's read of it and its plan. */
  ghost predicate Torn(p: N.Plan, s: Sys, a: Action, k: Key) {
    Changes(p, s, a, k) && At(s.det, k) && s.det.JobRead?
  }

  /** A cycle creates a deployment from a plan that was overtaken. */
  predicate CreatesOvertaken(s: Sys, a: Action, k: Key, w: Ledger) {
    Creates(s, CallOf(s, a), k) && w.overtaken
  }

  /** A deployment of the job ends. */
  ghost predicate Ends(db: Db, after: Db, k: Key) {
    exists i :: 0 <= i < |db.rows| && i < |after.rows| && db.rows[i].key == k && IsActive(db.rows[i].state) && !IsActive(after.rows[i].state)
  }

  function One(b: bool): nat {
    if b then 1 else 0
  }

  /** One flag for each thing a cycle reads at a time of its own. */
  datatype Parts = Parts(git: bool, pause: bool, allPause: bool, window: bool, live: bool, retry: bool) {
    function Count(): nat { One(git) + One(pause) + One(allPause) + One(window) + One(live) + One(retry) }
  }

  /** The events of a step. */
  ghost function Heard(p: N.Plan, s: Sys, a: Action, k: Key): Parts {
    var world := WorldAfter(s.world, a);
    Parts(GitEvent(s, world, k), PauseEvent(s, world, k), s.world.allPaused != world.allPaused, WindowEvent(s, world, k),
          LiveEvent(p, s, a, k), RetryEvent(s, CallOf(s, a), k))
  }

  /** What the cycle under way has read already. */
  function Known(det: Detection, k: Key): Parts {
    Parts(HasGit(det), HasPause(det), HasAllPause(det), HasWindow(det, k), HasLive(det, k), HasMarks(det, k))
  }

  /**
   An event, or the register of a stale copy, is due if the cycle has yet to read it, and later
   if not; a race is both; a create spends what is due.
  */
  function Book(w: Ledger, heard: Parts, known: Parts, stray: bool, race: bool, creates: bool, overtaken: bool): Ledger {
    var live := heard.live || stray;
    Ledger(w.events + heard.Count(), w.strays + One(stray), w.races + One(race),
           (w.due || (heard.git && !known.git) || (heard.pause && !known.pause) || (heard.allPause && !known.allPause)
            || (heard.window && !known.window) || (live && !known.live) || (heard.retry && !known.retry) || race) && !creates,
           w.git || (heard.git && known.git), w.pause || (heard.pause && known.pause), w.allPause || (heard.allPause && known.allPause),
           w.window || (heard.window && known.window), w.live || (live && known.live) || race, w.retry || (heard.retry && known.retry),
           overtaken)
  }

  ghost predicate Race(p: N.Plan, s: Sys, a: Action, k: Key, w: Ledger) {
    Torn(p, s, a, k) || CreatesOvertaken(s, a, k, w)
  }

  /** What a step adds, before a cycle's end hands everything to the next. */
  ghost function Note(p: N.Plan, s: Sys, a: Action, k: Key, w: Ledger): Ledger {
    Book(w, Heard(p, s, a, k), Known(s.det, k), StrayRegister(p, s, a, k), Race(p, s, a, k, w), Creates(s, CallOf(s, a), k), Overtakes(p, s, a, k, w.overtaken))
  }

  ghost predicate Overtakes(p: N.Plan, s: Sys, a: Action, k: Key, overtaken: bool) {
    && Acting(s.det, k) && Acting(DetectionAfter(p, s, a), k)
    && (overtaken || (a.Step? && Changes(p, s, a, k)) || (!Acts(a) && Ends(s.db, Exec(s.db, CallOf(s, a)), k)))
  }

  function HandOver(w: Ledger): Ledger {
    Ledger(w.events, w.strays, w.races, w.due || w.Later(), false, false, false, false, false, false, false)
  }

  ghost function Watch(p: N.Plan, s: Sys, a: Action, k: Key, w: Ledger): Ledger {
    if DetectionAfter(p, s, a).Idle? then HandOver(Note(p, s, a, k, w)) else Note(p, s, a, k, w)
  }

  predicate Creates(s: Sys, c: Store.Call, k: Key) {
    c.Create? && Writes(s.db, c) && c.d.key == k
  }

  ghost function Watched(p: N.Plan, s: Sys, acts: seq<Action>, k: Key): Ledger {
    if acts == [] then OPENING
    else
      var most := acts[..|acts| - 1];
      Watch(p, Run(p, s, most), acts[|acts| - 1], k, Watched(p, s, most, k))
  }

  /** How many deployments a job ever had. */
  function Deployments(rows: seq<Deployment>, k: Key): nat {
    if rows == [] then 0
    else
      var n := |rows| - 1;
      Deployments(rows[..n], k) + One(rows[n].key == k)
  }
}
