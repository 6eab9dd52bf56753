/**
 Deploy now: a sync window is lifted for one deployment per request, the one of the job
 and the spec the person saw, and a pause never is.
*/
module Lifts {
  import opened Options
  import opened Store
  import opened Decisions
  import opened Machine
  import opened Base
  import N = Nomad

  // -- counting ----------------------------------------------------------------------------

  /** How many times people asked to deploy a job now. */
  function Requests(acts: seq<Action>, k: Key): nat {
    if acts == [] then 0
    else
      var n := |acts| - 1;
      Requests(acts[..n], k) + if acts[n].DeployNow? && acts[n].key == k then 1 else 0
  }

  /** How many deployments of a job had their window lifted. */
  function Lifted(rows: seq<Deployment>, k: Key): nat {
    if rows == [] then 0
    else
      var n := |rows| - 1;
      Lifted(rows[..n], k) + if rows[n].key == k && rows[n].liftedBy.Some? then 1 else 0
  }

  function Pending(lifts: map<Key, Lift>, k: Key): nat {
    if k in lifts then 1 else 0
  }

  /** Somebody asked for this lift. */
  ghost predicate Asked(acts: seq<Action>, k: Key, l: Lift) {
    exists j, who :: 0 <= j < |acts| && acts[j] == DeployNow(k, l.specHash, who) && l.actor == Person(who)
  }

  ghost predicate AllAsked(acts: seq<Action>, lifts: map<Key, Lift>) {
    forall k :: k in lifts ==> Asked(acts, k, lifts[k])
  }

  // -- what a cycle holds ----------------------------------------------------------------------

  /** The requests a cycle has yet to deal with still wait in the store. */
  predicate StillWaiting(lifts: map<Key, Lift>, c: Cycle, dealt: set<Key>) {
    forall k :: k in c.lifts && k !in dealt ==> k in lifts
  }

  /** A window is lifted for the spec asked, and only a window: the cycle read no pause. */
  predicate LiftsWindow(c: Cycle, t: Todo) {
    t.liftedBy.Some? ==>
      && t.key in c.lifts && c.lifts[t.key] == Lift(Decisions.HashOf(t.g), t.liftedBy.value)
      && t.key !in c.paused && !c.allPaused
      && t.g.job.cfg.windowed && t.g.job.cfg.policy == N.Auto
  }

  ghost predicate CycleHolds(acts: seq<Action>, lifts: map<Key, Lift>, det: Detection) {
    match det
    case Choosing(c) => AllAsked(acts, c.lifts) && StillWaiting(lifts, c, c.done)
    case Begun(c, t) => JobHolds(acts, lifts, c, t)
    case JobRead(c, t, _) => JobHolds(acts, lifts, c, t)
    case Planned(c, t, _) => JobHolds(acts, lifts, c, t)
    case Waiting(c, t, _, _, _) => JobHolds(acts, lifts, c, t)
    case Moved(c, t, _, _, _) => JobHolds(acts, lifts, c, t)
    case Cleared(c, t, _) => JobHolds(acts, lifts, c, t)
    case LatestRead(c, t, _, _, _) => JobHolds(acts, lifts, c, t)
    case Reconciled(c, t) => AllAsked(acts, c.lifts) && StillWaiting(lifts, c, c.done + {t.key})
    case _ => true
  }

  ghost predicate JobHolds(acts: seq<Action>, lifts: map<Key, Lift>, c: Cycle, t: Todo) {
    AllAsked(acts, c.lifts) && StillWaiting(lifts, c, c.done) && t.key !in c.done && LiftsWindow(c, t)
  }

  ghost predicate RowsAsked(acts: seq<Action>, rows: seq<Deployment>) {
    forall i :: 0 <= i < |rows| && rows[i].liftedBy.Some? ==> Asked(acts, rows[i].key, Lift(rows[i].specHash, rows[i].liftedBy.value))
  }

  ghost predicate Conserved(acts: seq<Action>, db: Db) {
    forall k :: Lifted(db.rows, k) + Pending(db.lifts, k) <= Requests(acts, k)
  }

  ghost predicate Kept(acts: seq<Action>, s: Sys) {
    && AllAsked(acts, s.db.lifts) && RowsAsked(acts, s.db.rows) && Conserved(acts, s.db)
    && CycleHolds(acts, s.db.lifts, s.det)
  }

  // -- counting through a call --------------------------------------------------------------------

  lemma {:induction false} LiftedSame(rows: seq<Deployment>, after: seq<Deployment>, k: Key)
    requires |after| == |rows| && forall i :: 0 <= i < |rows| ==> after[i].key == rows[i].key && after[i].liftedBy == rows[i].liftedBy
    ensures Lifted(after, k) == Lifted(rows, k)
  {
    if rows != [] { LiftedSame(rows[..|rows| - 1], after[..|rows| - 1], k); }
  }

  lemma RequestsAppend(acts: seq<Action>, a: Action, k: Key)
    ensures Requests(acts + [a], k) == Requests(acts, k) + if a.DeployNow? && a.key == k then 1 else 0
  {
    assert (acts + [a])[..|acts|] == acts;
  }

  lemma AskedAppend(acts: seq<Action>, a: Action, k: Key, l: Lift)
    requires Asked(acts, k, l)
    ensures Asked(acts + [a], k, l)
  {
    var j, who :| 0 <= j < |acts| && acts[j] == DeployNow(k, l.specHash, who) && l.actor == Person(who);
    assert (acts + [a])[j] == DeployNow(k, l.specHash, who);
  }

  /** What a call does to the rows and to the requests waiting. */
  lemma CallLifts(db: Db, c: Store.Call)
    ensures var after := Exec(db, c);
      && |db.rows| <= |after.rows| <= |db.rows| + 1
      && (forall i :: 0 <= i < |db.rows| ==> after.rows[i].key == db.rows[i].key && after.rows[i].liftedBy == db.rows[i].liftedBy && after.rows[i].specHash == db.rows[i].specHash)
      && (if c.Create? && Writes(db, c)
          then var d := after.rows[|db.rows|];
            && |after.rows| == |db.rows| + 1
            && d.key == c.d.key && d.liftedBy == c.d.liftedBy && d.specHash == c.d.specHash
            && after.lifts == if c.d.liftedBy.Some? then Without(db.lifts, c.d.key) else db.lifts
          else
            && |after.rows| == |db.rows|
            && after.lifts == if c.RequestLift? then db.lifts[c.key := Lift(c.specHash, c.actor)]
                              else if c.DropLift? then Without(db.lifts, c.key) else db.lifts)
  {
  }

  /** A request is recorded by a person, and dropped by a cycle for a job it is done with, or that is gone. */
  lemma LiftOrigin(s: Sys, a: Action)
    ensures hide *; CallOf(s, a).RequestLift? <==> a.DeployNow?
    ensures a.DeployNow? ==> CallOf(s, a) == RequestLift(a.key, a.hash, Person(a.who))
    ensures CallOf(s, a).DropLift? ==>
      || (a.FinishJob? && s.det.Reconciled? && CallOf(s, a).key == s.det.t.key)
      || (a.SweepLift? && s.det.Sweeping?)
  {
    hide NewDeployment, Review, Follows, HookCall, HealthCall, RegisterCall;
  }

  /** A deployment whose window is lifted is created with the request still waiting. */
  lemma LiftedCreate(acts: seq<Action>, s: Sys, a: Action)
    requires hide *; Kept(acts, s) && CallOf(s, a).Create? && CallOf(s, a).d.liftedBy.Some?
    ensures var d := CallOf(s, a).d;
      && a.CreateNow? && s.det.LatestRead?
      && d.key in s.det.c.lifts && s.det.c.lifts[d.key] == Lift(d.specHash, d.liftedBy.value)
      && d.key !in s.det.c.paused && !s.det.c.allPaused
      && d.key in s.db.lifts && Asked(acts, d.key, Lift(d.specHash, d.liftedBy.value))
  {
    hide CallOf, Asked, Frozen, Problem, Decisions.HashOf, Conserved, RowsAsked;
    CreateOrigin(s, a);
    assert JobHolds(acts, s.db.lifts, s.det.c, s.det.t);
  }

  lemma NextConserved(acts: seq<Action>, s: Sys, a: Action)
    requires Kept(acts, s)
    ensures Conserved(acts + [a], Exec(s.db, CallOf(s, a)))
  {
    var c := CallOf(s, a);
    var after := Exec(s.db, c);
    CallLifts(s.db, c);
    LiftOrigin(s, a);
    if c.Create? && c.d.liftedBy.Some? { LiftedCreate(acts, s, a); }
    assert Conserved(acts, s.db);
    hide Exec, CallOf, Kept, Lifted, Requests, Asked;
    forall k
      ensures Lifted(after.rows, k) + Pending(after.lifts, k) <= Requests(acts + [a], k)
    {
      RequestsAppend(acts, a, k);
      LiftedSame(s.db.rows, after.rows[..|s.db.rows|], k);
      LiftedAppend(after.rows, |s.db.rows|, k);
      assert Lifted(s.db.rows, k) + Pending(s.db.lifts, k) <= Requests(acts, k);
    }
  }

  lemma LiftedAppend(rows: seq<Deployment>, n: nat, k: Key)
    requires |rows| == n || |rows| == n + 1
    ensures Lifted(rows, k) == Lifted(rows[..n], k) + if |rows| == n + 1 && rows[n].key == k && rows[n].liftedBy.Some? then 1 else 0
  {
    if |rows| == n { assert rows[..n] == rows; }
  }

  lemma AllAskedAppend(acts: seq<Action>, a: Action, lifts: map<Key, Lift>)
    requires AllAsked(acts, lifts)
    ensures AllAsked(acts + [a], lifts)
  {
    forall k | k in lifts { AskedAppend(acts, a, k, lifts[k]); }
  }

  lemma NextAsked(acts: seq<Action>, s: Sys, a: Action)
    requires Kept(acts, s)
    ensures AllAsked(acts + [a], Exec(s.db, CallOf(s, a)).lifts)
    ensures RowsAsked(acts + [a], Exec(s.db, CallOf(s, a)).rows)
  {
    hide *;
    var c := CallOf(s, a);
    var after := Exec(s.db, c);
    CallLifts(s.db, c);
    LiftOrigin(s, a);
    KeptCycle(acts, s);
    AllAskedIs(acts, s.db.lifts);
    RowsAskedIs(acts, s.db.rows);
    WithoutKeeps(s.db.lifts);
    if a.DeployNow? { AsksNow(acts, a); }
    if c.Create? && c.d.liftedBy.Some? { LiftedCreate(acts, s, a); }
    forall k | k in after.lifts
      ensures Asked(acts + [a], k, after.lifts[k])
    {
      if k in s.db.lifts && after.lifts[k] == s.db.lifts[k] { AskedAppend(acts, a, k, after.lifts[k]); }
    }
    AllAskedIs(acts + [a], after.lifts);
    forall i | 0 <= i < |after.rows| && after.rows[i].liftedBy.Some?
      ensures Asked(acts + [a], after.rows[i].key, Lift(after.rows[i].specHash, after.rows[i].liftedBy.value))
    {
      AskedAppend(acts, a, after.rows[i].key, Lift(after.rows[i].specHash, after.rows[i].liftedBy.value));
    }
    RowsAskedIs(acts + [a], after.rows);
  }

  lemma AllAskedIs(acts: seq<Action>, lifts: map<Key, Lift>)
    ensures AllAsked(acts, lifts) <==> forall k :: k in lifts ==> Asked(acts, k, lifts[k])
  {
    hide Asked;
  }

  lemma RowsAskedIs(acts: seq<Action>, rows: seq<Deployment>)
    ensures RowsAsked(acts, rows) <==>
      forall i :: 0 <= i < |rows| && rows[i].liftedBy.Some? ==> Asked(acts, rows[i].key, Lift(rows[i].specHash, rows[i].liftedBy.value))
  {
    hide Asked;
  }

  lemma AsksNow(acts: seq<Action>, a: Action)
    requires a.DeployNow?
    ensures Asked(acts + [a], a.key, Lift(a.hash, Person(a.who)))
  {
    assert (acts + [a])[|acts|] == DeployNow(a.key, a.hash, a.who);
  }

  /** The requests left when one goes waited before. */
  lemma WithoutKeeps(lifts: map<Key, Lift>)
    ensures forall key, k :: k in Without(lifts, key) ==> k in lifts && Without(lifts, key)[k] == lifts[k]
  {
  }

  /** The holds and the lift a cycle works out for a job. */
  lemma BegunLifts(c: Cycle, k: Key, g: GitJob, closed: bool)
    ensures var (hold, liftedBy) := HoldOf(c, k, g, closed); LiftsWindow(c, Todo(k, g, hold, liftedBy))
  {
    hide Decisions.HashOf;
  }

  /** Looking keeps what a cycle holds: it starts by reading the requests waiting. */
  lemma LookHolds(p: N.Plan, acts: seq<Action>, s: Sys, a: Action)
    requires AllAsked(acts, s.db.lifts) && CycleHolds(acts, s.db.lifts, s.det)
    ensures CycleHolds(acts, s.db.lifts, Look(p, s, a))
  {
    hide *;
    if a.Begin? {
      LookBegins(p, acts, s, a);
    } else if a.ReadActive? {
      LookActive(p, acts, s);
    } else if a.SkipJob? {
      LookSkips(p, acts, s);
    } else {
      LookElse(p, acts, s, a);
    }
  }

  lemma LookBegins(p: N.Plan, acts: seq<Action>, s: Sys, a: Action)
    requires a.Begin? && AllAsked(acts, s.db.lifts) && CycleHolds(acts, s.db.lifts, s.det)
    ensures CycleHolds(acts, s.db.lifts, Look(p, s, a))
  {
    hide AllAsked, StillWaiting, LiftsWindow, HoldOf;
    if s.det.Choosing? && a.key in s.det.c.git {
      BegunLifts(s.det.c, a.key, s.det.c.git[a.key], a.key in s.world.closed);
    }
  }

  lemma LookSkips(p: N.Plan, acts: seq<Action>, s: Sys)
    requires CycleHolds(acts, s.db.lifts, s.det)
    ensures CycleHolds(acts, s.db.lifts, Look(p, s, SkipJob))
  {
    hide AllAsked, StillWaiting, LiftsWindow;
    if s.det.Begun? || s.det.JobRead? {
      Fewer(s.db.lifts, s.det.c, s.det.t.key);
    }
  }

  lemma LookElse(p: N.Plan, acts: seq<Action>, s: Sys, a: Action)
    requires AllAsked(acts, s.db.lifts) && CycleHolds(acts, s.db.lifts, s.det) && !a.Begin? && !a.ReadActive? && !a.SkipJob?
    ensures CycleHolds(acts, s.db.lifts, Look(p, s, a))
  {
    hide AllAsked, LiftsWindow, HoldOf, ActiveOf, LatestOf, ActiveRows, Decisions.HashOf;
  }

  lemma Fewer(lifts: map<Key, Lift>, c: Cycle, key: Key)
    requires StillWaiting(lifts, c, c.done)
    ensures var after := c.(done := c.done + {key}); StillWaiting(lifts, after, after.done) && StillWaiting(lifts, c, c.done + {key})
  {
  }

  lemma LookActive(p: N.Plan, acts: seq<Action>, s: Sys)
    requires CycleHolds(acts, s.db.lifts, s.det)
    ensures CycleHolds(acts, s.db.lifts, Look(p, s, ReadActive))
  {
    hide *;
    ActiveLeads(p, s);
    if s.det.Planned? {
      PlacesHold(acts, s.db.lifts, s.det, Look(p, s, ReadActive));
    }
  }

  /** From its plan a cycle waits, goes on, or is done with the job. */
  predicate Onward(det: Detection, to: Detection) {
    det.Planned? && (to.Reconciled? || to.Cleared? || to.Waiting?) && to.c == det.c && to.t == det.t
  }

  lemma ActiveLeads(p: N.Plan, s: Sys)
    ensures var to := Look(p, s, ReadActive); if s.det.Planned? then Onward(s.det, to) else to == s.det
  {
    hide ActiveOf;
  }

  lemma PlacesHold(acts: seq<Action>, lifts: map<Key, Lift>, det: Detection, to: Detection)
    requires CycleHolds(acts, lifts, det) && Onward(det, to)
    ensures CycleHolds(acts, lifts, to)
  {
    assert StillWaiting(lifts, det.c, det.c.done);
    hide AllAsked, LiftsWindow;
    Fewer(lifts, det.c, det.t.key);
    hide StillWaiting;
  }

  lemma ActedHolds(acts: seq<Action>, s: Sys, a: Action, lifts: map<Key, Lift>)
    requires CycleHolds(acts, s.db.lifts, s.det)
    requires forall k :: k in s.db.lifts && !Removes(s, a, k) ==> k in lifts
    ensures CycleHolds(acts, lifts, Acted(s, a))
  {
    if a.CreateNow? && s.det.LatestRead? {
      Dealt(s.db.lifts, lifts, s.det.c, s.det.c.done, s.det.t.key);
    } else if a.FinishJob? && s.det.Reconciled? {
      Dealt(s.db.lifts, lifts, s.det.c, s.det.c.done + {s.det.t.key}, s.det.t.key);
      assert s.det.c.done + {s.det.t.key} + {s.det.t.key} == s.det.c.done + {s.det.t.key};
      DoneIs(lifts, s.det.c, s.det.t.key);
    } else if !(a.SweepLift? && s.det.Sweeping?) {
      HoldsStay(acts, s.db.lifts, lifts, s.det);
      ActedMoves(acts, s, a, lifts);
    }
    hide StillWaiting, AllAsked, LiftsWindow, Review, DetectCall, NewDeployment;
  }

  /** One job more that is dealt with. */
  lemma Dealt(lifts: map<Key, Lift>, after: map<Key, Lift>, c: Cycle, dealt: set<Key>, key: Key)
    requires StillWaiting(lifts, c, dealt) && forall k :: k in lifts && k != key ==> k in after
    ensures StillWaiting(after, c, dealt + {key})
  {
  }

  lemma DoneIs(lifts: map<Key, Lift>, c: Cycle, key: Key)
    requires StillWaiting(lifts, c, c.done + {key})
    ensures var after := c.(done := c.done + {key}); StillWaiting(lifts, after, after.done)
  {
  }

  lemma ActedMoves(acts: seq<Action>, s: Sys, a: Action, lifts: map<Key, Lift>)
    requires CycleHolds(acts, lifts, s.det) && !(a.CreateNow? && s.det.LatestRead?) && !(a.FinishJob? && s.det.Reconciled?)
    ensures CycleHolds(acts, lifts, Acted(s, a))
  {
    hide AllAsked, LiftsWindow, Review, DetectCall, NewDeployment, ErrorOf, Decisions.HashOf, Problem;
  }

  /** The call removes the request waiting for the job: it was used up, or dropped. */
  predicate Removes(s: Sys, a: Action, k: Key) {
    || (a.CreateNow? && s.det.LatestRead? && k == s.det.t.key)
    || (a.FinishJob? && s.det.Reconciled? && k == s.det.t.key)
    || (a.SweepLift? && s.det.Sweeping?)
  }

  lemma RemovedOnly(s: Sys, a: Action, k: Key)
    ensures k in s.db.lifts && !Removes(s, a, k) ==> k in Exec(s.db, CallOf(s, a)).lifts
  {
    hide CallOf, Exec, NewDeployment;
    var c := CallOf(s, a);
    CallLifts(s.db, c);
    LiftOrigin(s, a);
    if c.Create? {
      CreateOrigin(s, a);
      CreatedKey(s, a);
    }
  }

  lemma CreatedKey(s: Sys, a: Action)
    requires hide *; CallOf(s, a).Create? && s.det.LatestRead?
    ensures CallOf(s, a).d.key == s.det.t.key
  {
    CreateOrigin(s, a);
    hide CallOf, Problem, Frozen, Decisions.HashOf;
  }

  /** Any other step leaves the cycle as it is, and removes no request. */
  lemma HoldsStay(acts: seq<Action>, lifts: map<Key, Lift>, after: map<Key, Lift>, det: Detection)
    requires CycleHolds(acts, lifts, det) && forall k :: k in lifts ==> k in after
    ensures CycleHolds(acts, after, det)
  {
    hide AllAsked, LiftsWindow;
  }

  lemma HoldsAppend(acts: seq<Action>, a: Action, lifts: map<Key, Lift>, det: Detection)
    requires CycleHolds(acts, lifts, det)
    ensures CycleHolds(acts + [a], lifts, det)
  {
    if det.Choosing? || det.Begun? || det.JobRead? || det.Planned? || det.Waiting? || det.Moved? || det.Cleared? || det.LatestRead? || det.Reconciled? {
      AllAskedAppend(acts, a, det.c.lifts);
    }
    hide AllAsked, LiftsWindow;
  }

  lemma NextHolds(p: N.Plan, acts: seq<Action>, s: Sys, a: Action)
    requires Kept(acts, s)
    ensures CycleHolds(acts + [a], Exec(s.db, CallOf(s, a)).lifts, DetectionAfter(p, s, a))
  {
    hide *;
    var after := Exec(s.db, CallOf(s, a)).lifts;
    forall k { RemovedOnly(s, a, k); }
    KeptCycle(acts, s);
    LookHolds(p, acts, s, a);
    ActedHolds(acts, s, a, after);
    NoRemoval(s, a);
    if !Acts(a) {
      HoldsStay(acts, s.db.lifts, after, s.det);
      HoldsStay(acts, s.db.lifts, after, Look(p, s, a));
    }
    DetectionIs(p, s, a);
    IdleHolds(acts, after);
    HoldsAppend(acts, a, after, DetectionAfter(p, s, a));
  }

  lemma KeptCycle(acts: seq<Action>, s: Sys)
    requires Kept(acts, s)
    ensures AllAsked(acts, s.db.lifts) && RowsAsked(acts, s.db.rows) && CycleHolds(acts, s.db.lifts, s.det)
  {
    hide AllAsked, CycleHolds, RowsAsked, Conserved;
  }

  lemma NoRemoval(s: Sys, a: Action)
    ensures !Acts(a) ==> forall k :: !Removes(s, a, k)
  {
  }

  lemma IdleHolds(acts: seq<Action>, lifts: map<Key, Lift>)
    ensures CycleHolds(acts, lifts, Idle)
  {
  }

  lemma {:induction false} RunKept(p: N.Plan, s: Sys, acts: seq<Action>)
    requires Initial(s)
    ensures Kept(acts, Run(p, s, acts))
  {
    hide *;
    if acts == [] {
      RunStart(p, s);
      InitialKept(s);
    } else {
      var most, last := acts[..|acts| - 1], acts[|acts| - 1];
      assert acts == most + [last];
      RunKept(p, s, most);
      RunLast(p, s, acts);
      NextParts(p, Run(p, s, most), last);
      NextAsked(most, Run(p, s, most), last);
      NextConserved(most, Run(p, s, most), last);
      NextHolds(p, most, Run(p, s, most), last);
      KeptIs(acts, Run(p, s, acts));
    }
  }

  lemma InitialKept(s: Sys)
    requires Initial(s)
    ensures Kept([], s)
  {
  }

  lemma KeptIs(acts: seq<Action>, s: Sys)
    ensures Kept(acts, s) <==>
      AllAsked(acts, s.db.lifts) && RowsAsked(acts, s.db.rows) && Conserved(acts, s.db) && CycleHolds(acts, s.db.lifts, s.det)
  {
    hide AllAsked, RowsAsked, Conserved, CycleHolds;
  }

  // -- the theorems ------------------------------------------------------------------------------

  /** In every run, deployments with a lifted window and the request still waiting are no more than the requests made. */
  lemma LiftsAreConserved(p: N.Plan, s: Sys, acts: seq<Action>, k: Key)
    requires Initial(s)
    ensures Lifted(Run(p, s, acts).db.rows, k) + Pending(Run(p, s, acts).db.lifts, k) <= Requests(acts, k)
  {
    hide *;
    RunKept(p, s, acts);
    KeptIs(acts, Run(p, s, acts));
    ConservedAt(acts, Run(p, s, acts).db, k);
  }

  lemma ConservedAt(acts: seq<Action>, db: Db, k: Key)
    requires Conserved(acts, db)
    ensures Lifted(db.rows, k) + Pending(db.lifts, k) <= Requests(acts, k)
  {
    hide Lifted, Requests, Pending;
  }

  /** A deployment whose window was lifted by somebody was asked for by them: that job, and exactly that spec hash. */
  lemma LiftedAsAsked(p: N.Plan, s: Sys, acts: seq<Action>, i: nat)
    requires hide *; Initial(s) && i < |Run(p, s, acts).db.rows| && Run(p, s, acts).db.rows[i].liftedBy.Some?
    ensures var d := Run(p, s, acts).db.rows[i];
      exists j, who :: 0 <= j < |acts| && acts[j] == DeployNow(d.key, d.specHash, who) && d.liftedBy == Some(Person(who))
  {
    hide *;
    RunKept(p, s, acts);
    KeptIs(acts, Run(p, s, acts));
    RowsAskedIs(acts, Run(p, s, acts).db.rows);
    var d := Run(p, s, acts).db.rows[i];
    AskedIs(acts, d.key, Lift(d.specHash, d.liftedBy.value));
  }

  lemma AskedIs(acts: seq<Action>, k: Key, l: Lift)
    requires Asked(acts, k, l)
    ensures exists j, who :: 0 <= j < |acts| && acts[j] == DeployNow(k, l.specHash, who) && l.actor == Person(who)
  {
  }

  /**
   The cycle that creates it read that request, for the spec hash it deploys, and no pause;
   the request is still waiting then, and the create deletes it.
  */
  lemma CreatedByTheRequest(p: N.Plan, s: Sys, acts: seq<Action>, a: Action)
    requires hide *; Initial(s)
    requires CallOf(Run(p, s, acts), a).Create? && CallOf(Run(p, s, acts), a).d.liftedBy.Some?
    ensures var now := Run(p, s, acts);
      var d := CallOf(now, a).d;
      && now.det.LatestRead? && d.key in now.det.c.lifts && now.det.c.lifts[d.key] == Lift(d.specHash, d.liftedBy.value)
      && d.key !in now.det.c.paused && !now.det.c.allPaused
      && d.key in now.db.lifts
      && (Writes(now.db, CallOf(now, a)) ==> d.key !in Next(p, now, a).db.lifts)
  {
    hide Run, Initial, CallOf, Exec, Next, Kept;
    var now := Run(p, s, acts);
    RunKept(p, s, acts);
    NextParts(p, now, a);
    CallLifts(now.db, CallOf(now, a));
    LiftedCreate(acts, now, a);
  }

  /** The step ends the wait of a request: its deployment is created, the cycle that read it is done with the job, or git has the job no more. */
  predicate Spends(s: Sys, a: Action, k: Key) {
    || (CallOf(s, a).Create? && Writes(s.db, CallOf(s, a)) && CallOf(s, a).d.key == k && CallOf(s, a).d.liftedBy.Some?)
    || (a == FinishJob && s.det.Reconciled? && s.det.t.key == k && k in s.det.c.lifts)
    || (a == SweepLift(k) && s.det.Sweeping? && k in s.det.c.lifts && k !in s.det.c.git)
  }

  /**
   A request waits from the step a person makes it until another of the same job takes its place
   or one of those three steps: it is never kept past the cycle that read it, and never dropped
   by one that did not.
  */
  lemma RequestWaitsExactly(p: N.Plan, s: Sys, a: Action, k: Key)
    ensures var after := Next(p, s, a).db.lifts;
      && (k in after <==> (a.DeployNow? && a.key == k) || (k in s.db.lifts && !Spends(s, a, k)))
      && (k in after ==> after[k] == if a.DeployNow? && a.key == k then Lift(a.hash, Person(a.who)) else s.db.lifts[k])
  {
    hide *;
    NextParts(p, s, a);
    CallLifts(s.db, CallOf(s, a));
    LiftOrigin(s, a);
    DropsExactly(s, a, k);
    WithoutIs(s.db.lifts, k);
    if CallOf(s, a).Create? { WithoutIs(s.db.lifts, CallOf(s, a).d.key); }
    if CallOf(s, a).DropLift? { WithoutIs(s.db.lifts, CallOf(s, a).key); }
  }

  lemma WithoutIs(m: map<Key, Lift>, k: Key)
    ensures forall j :: (j in Without(m, k) <==> j in m && j != k) && (j in m && j != k ==> Without(m, k)[j] == m[j])
  {
  }

  lemma DropsExactly(s: Sys, a: Action, k: Key)
    ensures var c := CallOf(s, a);
      Spends(s, a, k) <==> (c.Create? && Writes(s.db, c) && c.d.key == k && c.d.liftedBy.Some?) || (c.DropLift? && c.key == k)
    ensures CallOf(s, a).DropLift? || CallOf(s, a).Create? ==> !a.DeployNow?
  {
    hide NewDeployment, Review, Follows, HookCall, HealthCall, RegisterCall, Writes;
  }
}
