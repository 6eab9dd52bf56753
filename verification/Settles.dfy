/**
 What a cycle does with the deployment that waits for its job: superseded, completed or kept,
 each exactly when git, the live job and the holds its cycle read say so.
*/
module Settles {
  import opened Options
  import opened Store
  import opened Decisions
  import opened Machine
  import opened Base
  import opened Births
  import opened JobLedger
  import opened Beats
  import opened Consecutive
  import opened Holds
  import N = Nomad

  // -- what is detected is of an auto job ----------------------------------------------------------

  /** Nothing under approval is left detected. */
  predicate DetectedIsAuto(rows: seq<Deployment>, det: Detection) {
    && (forall i :: 0 <= i < |rows| && rows[i].state == Detected ==> rows[i].policy == DeployPolicy.Auto)
    && ((det.Waiting? || det.Moved?) && det.d.state == Detected ==> det.d.policy == DeployPolicy.Auto)
  }

  lemma NextDetectedRows(s: Sys, a: Action)
    requires Born(s) && DetectedIsAuto(s.db.rows, s.det)
    ensures var rows := Exec(s.db, CallOf(s, a)).rows; forall i :: 0 <= i < |rows| && rows[i].state == Detected ==> rows[i].policy == DeployPolicy.Auto
  {
    hide CallOf, Exec, AsGit, CfgKept, PolicySeen, RowsAsGit;
    var c := CallOf(s, a);
    var after := Exec(s.db, c).rows;
    ExecGrows(s.db, c);
    RowsAppended(s.db, c);
    if c.Create? { CreatedDetected(s, a); }
    forall i | 0 <= i < |after| && after[i].state == Detected
      ensures after[i].policy == DeployPolicy.Auto
    {
      if i < |s.db.rows| {
        assert RowGrows(s.db.rows[i], after[i]);
      }
    }
  }

  lemma CreatedDetected(s: Sys, a: Action)
    requires hide *; CfgKept(s.det) && PolicySeen(s.db.rows, s.det) && CallOf(s, a).Create?
    ensures CallOf(s, a).d.state == Detected ==> CallOf(s, a).d.policy == DeployPolicy.Auto
  {
    hide CallOf, CfgKept, PolicySeen, HooksThere;
    CreatedAsGit(s, a);
  }

  lemma NextDetectedCopy(p: N.Plan, s: Sys, a: Action)
    requires DetectedIsAuto(s.db.rows, s.det)
    ensures var det := DetectionAfter(p, s, a); (det.Waiting? || det.Moved?) && det.d.state == Detected ==> det.d.policy == DeployPolicy.Auto
  {
    hide HoldOf, ActiveRows, Review, DetectCall, LiveOf, N.HashOf, N.Adjusted, LatestOf, ErrorOf;
  }

  lemma {:induction false} RunDetectedIsAuto(p: N.Plan, s: Sys, acts: seq<Action>)
    requires Initial(s)
    ensures DetectedIsAuto(Run(p, s, acts).db.rows, Run(p, s, acts).det)
  {
    hide *;
    if acts == [] {
      RunStart(p, s);
      NoneDetected(s);
    } else {
      var most, a := acts[..|acts| - 1], acts[|acts| - 1];
      RunDetectedIsAuto(p, s, most);
      RunBorn(p, s, most);
      RunLast(p, s, acts);
      var before := Run(p, s, most);
      NextParts(p, before, a);
      NextDetectedRows(before, a);
      NextDetectedCopy(p, before, a);
      DetectedIs(Run(p, s, acts).db.rows, Run(p, s, acts).det);
    }
  }

  lemma DetectedIs(rows: seq<Deployment>, det: Detection)
    requires forall i :: 0 <= i < |rows| && rows[i].state == Detected ==> rows[i].policy == DeployPolicy.Auto
    requires (det.Waiting? || det.Moved?) && det.d.state == Detected ==> det.d.policy == DeployPolicy.Auto
    ensures DetectedIsAuto(rows, det)
  {
  }

  lemma NoneDetected(s: Sys)
    requires Initial(s)
    ensures DetectedIsAuto(s.db.rows, s.det)
  {
  }

  // -- the deployment that waits ---------------------------------------------------------------------

  /** Its spec is not git's any more, or it is of another live job: whatever else, it is superseded. */
  predicate Outdated(d: Deployment, g: GitJob, index: nat) {
    g.job.cfg.policy == N.NoPolicy || d.specHash != Decisions.HashOf(g) || d.cas != index
  }

  /** There is nothing to register, and it is no retry made for that. */
  predicate Done(d: Deployment, diff: Option<N.DiffHash>) {
    diff.None? && (d.retryOf.None? || d.diffHash.Some?)
  }

  /** Nothing started it yet, and its job is paused, or its window is closed and nobody lifted it. */
  predicate Held(d: Deployment, g: GitJob, paused: bool, closed: bool, asked: bool) {
    d.state == Detected && (paused || (g.job.cfg.policy == N.Auto && g.job.cfg.windowed && closed && !asked && d.liftedBy.None?))
  }

  lemma SettleCall(s: Sys, closed: bool)
    requires hide *; s.det.Moved? && s.det.d.state in {Detected, PendingApproval} && (s.det.d.state == Detected ==> s.det.d.policy == DeployPolicy.Auto)
    requires s.det.d.hasPlan <==> s.det.d.diffHash.Some?
    requires (s.det.t.hold, s.det.t.liftedBy) == HoldOf(s.det.c, s.det.t.key, s.det.t.g, closed)
    ensures var c := s.det.c; var k := s.det.t.key; var g := s.det.t.g; var d := s.det.d;
      var held := Held(d, g, k in c.paused || c.allPaused, closed, k in c.lifts && c.lifts[k].specHash == Decisions.HashOf(g));
      var gone, done := Outdated(d, g, s.det.o.index), Done(d, s.det.o.diff);
      && (CallOf(s, Settle) == Transition(s.det.id, d.state, Superseded, Nops, "", false) <==> gone || (!done && held))
      && (CallOf(s, Settle) == Transition(s.det.id, d.state, Completed, Nops, "", false) <==> !gone && done)
      && (CallOf(s, Settle) == NoCall <==> !gone && !done && !held)
      && Acted(s, Settle) == if (gone || done || held) && g.job.cfg.policy != N.NoPolicy then Cleared(c, s.det.t, s.det.o) else Reconciled(c, s.det.t)
  {
    hide Decisions.HashOf, Problem, Follows;
  }

  /**
   One left detected under approval, which no run of these steps leaves, is not for the apply loop:
   unless it is superseded or completed it is failed when a hook it declares is missing or
   invalid, and else waits for a person; the job is left for this cycle.
  */
  lemma LeftUnderApproval(s: Sys)
    requires s.det.Moved? && s.det.d.state == Detected && s.det.d.policy == DeployPolicy.Approval && (s.det.d.hasPlan <==> s.det.d.diffHash.Some?)
    ensures var d := s.det.d; var g := s.det.t.g;
      !Outdated(d, g, s.det.o.index) && !Done(d, s.det.o.diff) ==>
        && Acted(s, Settle) == Reconciled(s.det.c, s.det.t)
        && CallOf(s, Settle) ==
             if HooksThere(Decisions.HashOf(g)) then Transition(s.det.id, Detected, PendingApproval, Nops, "", false)
             else Transition(s.det.id, Detected, Failed, Nops, "failed", false)
  {
    ProblemIs(s.det.t.g);
    hide Decisions.HashOf, Problem, Follows, HooksThere;
  }

  /** The job a cycle is at is as git has it, and held as its window is found. */
  lemma TakesJob(p: N.Plan, s: Sys, a: Action, k: Key, det: Detection)
    requires hide *; det.Moved? && Takes(p, s, a, k, WindowPart, WindowValue(det.c, det.t))
    ensures a == Begin(k) && det.t.key == k && k in det.c.git && det.t.g == det.c.git[k]
    ensures (det.t.hold, det.t.liftedBy) == HoldOf(det.c, k, det.t.g, k in s.world.closed)
  {
    hide HoldOf;
  }

  /** What the cycle holds while it settles. */
  lemma MovedHolds(det: Detection, k: Key)
    requires det.Moved? && det.t.key == k
    ensures ValueOf(det, k, GitPart) == Some(GitValue(det.c.git, det.c.unparsed))
    ensures ValueOf(det, k, PausePart) == Some(PauseValue(det.c.paused)) && ValueOf(det, k, AllPausePart) == Some(AllPauseValue(det.c.allPaused))
    ensures ValueOf(det, k, WindowPart) == Some(WindowValue(det.c, det.t)) && ValueOf(det, k, LivePart) == Some(LiveValue(det.o))
  {
  }

  lemma TakesRest(p: N.Plan, s: Sys, a: Action, k: Key, det: Detection)
    requires hide *; det.Moved?
    ensures Takes(p, s, a, k, GitPart, GitValue(det.c.git, det.c.unparsed)) ==> a.Parse? && s.world.git == det.c.git
    ensures Takes(p, s, a, k, PausePart, PauseValue(det.c.paused)) ==> a.ReadPauses? && s.world.paused == det.c.paused
    ensures Takes(p, s, a, k, AllPausePart, AllPauseValue(det.c.allPaused)) ==> a.ReadAllPause? && s.world.allPaused == det.c.allPaused
    ensures Takes(p, s, a, k, LivePart, LiveValue(det.o)) ==> a.PlanJob? && det.o.diff == N.HashOf(p(det.o.job, JobOf(LiveOf(s.nomad, k))))
  {
    hide N.HashOf, LiveOf;
  }

  /** The step at which the cycle that settles read one of the things it holds. */
  lemma ReadToSettle(p: N.Plan, s: Sys, acts: seq<Action>, n: nat, x: Part, v: Value) returns (r: nat)
    requires hide *; Initial(s) && n <= |acts| && Run(p, s, acts[..n]).det.Moved?
    requires var det := Run(p, s, acts[..n]).det; ValueOf(det, det.t.key, x) == Some(v)
    ensures var k := Run(p, s, acts[..n]).det.t.key;
      CycleStart(BeatsOf(p, s, acts, k), n) <= r < n && Takes(p, Run(p, s, acts[..r]), acts[r], k, x, v)
  {
    hide *;
    var k := Run(p, s, acts[..n]).det.t.key;
    HeldIs(p, s, acts, k, x, n);
    r := ReadSince(p, s, acts, k, x, n);
    ReadIs(p, s, acts, k, x, r, n);
    HeldIs(p, s, acts, k, x, r);
  }

  /**
   In every run, the deployment that waits is superseded exactly when the git its cycle read has
   another spec for the job or none to deploy, or the live index is another, or nothing started
   it and what holds the job was found to hold it; it is completed exactly when there is nothing
   left to register; else it is kept. The cycle looks for a new one exactly when it was not kept
   and git has a policy for the job.
  */
  lemma SettlesExactly(p: N.Plan, s: Sys, acts: seq<Action>, n: nat) returns (m: nat, r: nat, q: nat, h: nat, l: nat)
    requires hide *; Initial(s) && n < |acts| && acts[n] == Settle && Run(p, s, acts[..n]).det.Moved?
    ensures var k := Run(p, s, acts[..n]).det.t.key;
      var from := CycleStart(BeatsOf(p, s, acts, k), n);
      from <= m < n && from <= r < n && from <= q < n && from <= h < n && from <= l < n
    ensures acts[m].Parse? && acts[r].ReadPauses? && acts[q].ReadAllPause? && acts[l].PlanJob?
    ensures var now := Run(p, s, acts[..n]);
      var det, k := now.det, now.det.t.key;
      var d, git := det.d, Run(p, s, acts[..m]).world.git;
      && acts[h] == Begin(k) && k in git && PastOf(now.db.rows, det.id, d)
      && det.o.diff == N.HashOf(p(det.o.job, JobOf(LiveOf(Run(p, s, acts[..l]).nomad, k))))
      && var held := Held(d, git[k], k in Run(p, s, acts[..r]).world.paused || Run(p, s, acts[..q]).world.allPaused,
                          k in Run(p, s, acts[..h]).world.closed, k in det.c.lifts && det.c.lifts[k].specHash == Decisions.HashOf(git[k]));
         var gone, done := Outdated(d, git[k], det.o.index), Done(d, det.o.diff);
         && (CallOf(now, Settle) == Transition(det.id, d.state, Superseded, Nops, "", false) <==> gone || (!done && held))
         && (CallOf(now, Settle) == Transition(det.id, d.state, Completed, Nops, "", false) <==> !gone && done)
         && (CallOf(now, Settle) == NoCall <==> !gone && !done && !held)
         && Next(p, now, Settle).det ==
              if (gone || done || held) && git[k].job.cfg.policy != N.NoPolicy then Cleared(det.c, det.t, det.o) else Reconciled(det.c, det.t)
  {
    hide *;
    var now := Run(p, s, acts[..n]);
    var det, k := now.det, now.det.t.key;
    RunBasic(p, s, acts[..n]);
    BasicParts(now);
    RunDetectedIsAuto(p, s, acts[..n]);
    RunBorn(p, s, acts[..n]);
    MovedIsPast(now);
    MovedHolds(det, k);
    m := ReadToSettle(p, s, acts, n, GitPart, GitValue(det.c.git, det.c.unparsed));
    r := ReadToSettle(p, s, acts, n, PausePart, PauseValue(det.c.paused));
    q := ReadToSettle(p, s, acts, n, AllPausePart, AllPauseValue(det.c.allPaused));
    h := ReadToSettle(p, s, acts, n, WindowPart, WindowValue(det.c, det.t));
    l := ReadToSettle(p, s, acts, n, LivePart, LiveValue(det.o));
    TakesRest(p, Run(p, s, acts[..m]), acts[m], k, det);
    TakesRest(p, Run(p, s, acts[..r]), acts[r], k, det);
    TakesRest(p, Run(p, s, acts[..q]), acts[q], k, det);
    TakesRest(p, Run(p, s, acts[..l]), acts[l], k, det);
    TakesJob(p, Run(p, s, acts[..h]), acts[h], k, det);
    SettleCall(now, k in Run(p, s, acts[..h]).world.closed);
    NextParts(p, now, Settle);
    SettleActs(p, now);
  }

  lemma SettleActs(p: N.Plan, s: Sys)
    ensures DetectionAfter(p, s, Settle) == Acted(s, Settle)
  {
    hide Acted;
  }

  lemma MovedIsPast(s: Sys)
    requires hide *; s.det.Moved? && Copies(s) && Born(s) && DetectedIsAuto(s.db.rows, s.det)
    ensures PastOf(s.db.rows, s.det.id, s.det.d) && s.det.d.state in {Detected, PendingApproval}
    ensures s.det.d.state == Detected ==> s.det.d.policy == DeployPolicy.Auto
    ensures s.det.d.hasPlan <==> s.det.d.diffHash.Some?
  {
    hide CfgKept, PolicySeen, UnappliedWait;
    assert DetectionPast(s.db.rows, s.det);
    assert AsGit(s.db.rows[s.det.id]);
  }

  // -- what a cycle looks at ---------------------------------------------------------------------------

  /**
   In every run, a cycle reviews the deployment of its job that waits, leaves the job while one is
   past waiting, and looks for a new one exactly when none is active and git has a policy for it.
  */
  lemma LooksExactly(p: N.Plan, s: Sys, acts: seq<Action>, id: Id)
    requires hide *; Initial(s) && Run(p, s, acts).det.Planned?
    ensures var now := Run(p, s, acts);
      var det, rows := now.det, now.db.rows;
      var next := Next(p, now, ReadActive).det;
      && (id < |rows| && rows[id].key == det.t.key && IsActive(rows[id].state) ==>
            next == if rows[id].state in {Detected, PendingApproval} then Waiting(det.c, det.t, det.o, id, rows[id]) else Reconciled(det.c, det.t))
      && ((forall i :: 0 <= i < |rows| && rows[i].key == det.t.key ==> !IsActive(rows[i].state)) ==>
            next == if det.t.g.job.cfg.policy == N.NoPolicy then Reconciled(det.c, det.t) else Cleared(det.c, det.t, det.o))
  {
    RunBasic(p, s, acts);
    BasicParts(Run(p, s, acts));
    NextParts(p, Run(p, s, acts), ReadActive);
    LooksAt(p, Run(p, s, acts), id);
    hide *;
  }

  lemma LooksAt(p: N.Plan, s: Sys, id: Id)
    requires Sound(s.db) && s.det.Planned?
    ensures var det, rows := s.det, s.db.rows;
      var next := DetectionAfter(p, s, ReadActive);
      && (id < |rows| && rows[id].key == det.t.key && IsActive(rows[id].state) ==>
            next == if rows[id].state in {Detected, PendingApproval} then Waiting(det.c, det.t, det.o, id, rows[id]) else Reconciled(det.c, det.t))
      && ((forall i :: 0 <= i < |rows| && rows[i].key == det.t.key ==> !IsActive(rows[i].state)) ==>
            next == if det.t.g.job.cfg.policy == N.NoPolicy then Reconciled(det.c, det.t) else Cleared(det.c, det.t, det.o))
  {
    hide LogIsState, ActiveOf, IsActive;
    var found := ActiveOf(s.db.rows, s.det.t.key);
    if found.Some? && id < |s.db.rows| && s.db.rows[id].key == s.det.t.key && IsActive(s.db.rows[id].state) {
      assert OneActive(s.db);
      assert found.value == id;
    }
  }
}
