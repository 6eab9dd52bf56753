/**
 What a deployment is born with: the policy git gives its job, the state that policy asks for,
 the config and the plan of its cycle. Every run keeps it.
*/
module Births {
  import opened Options
  import opened Store
  import opened Decisions
  import opened Machine
  import opened Base
  import N = Nomad

  // -- the cycle --------------------------------------------------------------------------------

  /** The job planned is the target but for counts. */
  predicate CfgKept(det: Detection) {
    match det
    case Planned(c, t, o) => o.job.cfg == t.g.job.cfg
    case Waiting(c, t, o, _, _) => o.job.cfg == t.g.job.cfg
    case Moved(c, t, o, _, _) => o.job.cfg == t.g.job.cfg
    case Cleared(c, t, o) => o.job.cfg == t.g.job.cfg
    case LatestRead(c, t, o, _, _) => o.job.cfg == t.g.job.cfg
    case _ => true
  }

  lemma NextCfgKept(p: N.Plan, s: Sys, a: Action)
    requires CfgKept(s.det)
    ensures CfgKept(DetectionAfter(p, s, a))
  {
    hide HoldOf, ActiveRows, Review, DetectCall, LiveOf, N.HashOf, ActiveOf, LatestOf, ErrorOf;
  }

  // -- the policy of its job ------------------------------------------------------------------------

  /** A deployment is created only for a job with a policy. */
  predicate PolicySeen(rows: seq<Deployment>, det: Detection) {
    && (forall i :: 0 <= i < |rows| ==> rows[i].specHash.target.cfg.policy != N.NoPolicy)
    && (det.Cleared? || det.LatestRead? ==> det.t.g.job.cfg.policy != N.NoPolicy)
  }

  /** The only new row is the one a create was given, less what a later call sets. */
  lemma RowsAppended(db: Db, c: Store.Call)
    ensures var after := Exec(db, c).rows;
      forall i :: |db.rows| <= i < |after| ==>
        c.Create? && i == |db.rows| && after[i] == c.d.(applied := None, version := None, decidedBy := None, retriedBy := None, waiting := false, promoted := false)
  {
  }

  lemma NextPolicySeen(p: N.Plan, s: Sys, a: Action)
    requires PolicySeen(s.db.rows, s.det)
    ensures PolicySeen(Exec(s.db, CallOf(s, a)).rows, DetectionAfter(p, s, a))
  {
    hide CallOf, Exec, DetectionAfter;
    var c := CallOf(s, a);
    var after := Exec(s.db, c).rows;
    PolicyMove(p, s, a);
    ExecGrows(s.db, c);
    RowsAppended(s.db, c);
    if c.Create? { CreatedHash(s, a); }
    forall i | 0 <= i < |after|
      ensures after[i].specHash.target.cfg.policy != N.NoPolicy
    {
      if i < |s.db.rows| {
        assert RowGrows(s.db.rows[i], after[i]);
      }
    }
  }

  lemma CreatedHash(s: Sys, a: Action)
    requires hide *; CallOf(s, a).Create?
    ensures s.det.LatestRead? && CallOf(s, a).d.specHash == Decisions.HashOf(s.det.t.g)
  {
    CreateOrigin(s, a);
    hide CallOf, Problem, Frozen, Decisions.HashOf, Blocked, Retried;
  }

  lemma PolicyMove(p: N.Plan, s: Sys, a: Action)
    requires hide *; s.det.Cleared? || s.det.LatestRead? ==> s.det.t.g.job.cfg.policy != N.NoPolicy
    ensures var det := DetectionAfter(p, s, a); det.Cleared? || det.LatestRead? ==> det.t.g.job.cfg.policy != N.NoPolicy
  {
    hide Review, NewDeployment, DetectCall, HoldOf;
  }

  // -- the register is recorded while applying ------------------------------------------------------------

  /** What waits has no applied index. */
  predicate UnappliedWait(rows: seq<Deployment>) {
    forall i :: 0 <= i < |rows| && rows[i].state in {Detected, PendingApproval} ==> rows[i].applied.None?
  }

  lemma NextUnappliedWait(db: Db, c: Store.Call)
    requires UnappliedWait(db.rows)
    ensures UnappliedWait(Exec(db, c).rows)
  {
    var after := Exec(db, c).rows;
    ExecGrows(db, c);
    RowsAppended(db, c);
    forall i | 0 <= i < |after| && after[i].state in {Detected, PendingApproval}
      ensures after[i].applied.None?
    {
      if i < |db.rows| {
        RowStep(db, c, i);
        assert RowGrows(db.rows[i], after[i]);
        assert db.rows[i].state in {Detected, PendingApproval};
      }
    }
  }

  // -- the row ----------------------------------------------------------------------------------------

  /**
   The policy stored is the one of the job its hash is of, and its config that job's; it has no
   diff only when it retries, with nothing to register.
  */
  predicate AsGit(d: Deployment) {
    && (d.policy == DeployPolicy.Auto <==> d.specHash.target.cfg.policy == N.Auto)
    && d.spec.cfg == d.specHash.target.cfg
    && (d.hasPlan <==> d.diffHash.Some?)
    && (d.diffHash.None? ==> d.retryOf.Some?)
  }

  predicate RowsAsGit(rows: seq<Deployment>) {
    forall i :: 0 <= i < |rows| ==> AsGit(rows[i])
  }

  ghost predicate Born(s: Sys) {
    CfgKept(s.det) && PolicySeen(s.db.rows, s.det) && RowsAsGit(s.db.rows) && UnappliedWait(s.db.rows)
  }

  lemma BornIs(s: Sys)
    ensures Born(s) <==> CfgKept(s.det) && PolicySeen(s.db.rows, s.det) && RowsAsGit(s.db.rows) && UnappliedWait(s.db.rows)
  {
    hide CfgKept, PolicySeen, RowsAsGit, UnappliedWait;
  }

  /** What a cycle creates is as git has it, and waits for a person exactly under approval. */
  lemma CreatedAsGit(s: Sys, a: Action)
    requires hide *; CfgKept(s.det) && PolicySeen(s.db.rows, s.det) && CallOf(s, a).Create?
    ensures AsGit(CallOf(s, a).d) && BornRight(CallOf(s, a).d)
  {
    CreateOrigin(s, a);
    ProblemIs(s.det.t.g);
    hide CallOf, Frozen, Lines, Blocked, Retried, Problem;
  }

  lemma ProblemIs(g: GitJob)
    ensures Problem(g) <==> !HooksThere(Decisions.HashOf(g))
  {
    hide PhaseLines;
    var lines := Decisions.HashOf(g).lines;
    if Problem(g) {
      var i :| 0 <= i < |Lines(g)| && !Lines(g)[i].mark.Spec?;
      assert lines[i] in lines;
    }
  }

  /** Every hook the hash covers is there, with a spec. */
  predicate HooksThere(h: SpecHash) {
    forall l :: l in h.lines ==> l.mark.Spec?
  }

  /** The state a new deployment is in. */
  predicate BornRight(d: Deployment) {
    && (d.state == Failed <==> !HooksThere(d.specHash))
    && (d.state == PendingApproval <==> HooksThere(d.specHash) && d.specHash.target.cfg.policy == N.Approval)
    && (d.state == Detected <==> HooksThere(d.specHash) && d.specHash.target.cfg.policy == N.Auto)
  }

  lemma AsGitStays(d: Deployment, e: Deployment)
    requires AsGit(d) && e.policy == d.policy && e.specHash == d.specHash && e.spec == d.spec
    requires e.hasPlan == d.hasPlan && e.diffHash == d.diffHash && e.retryOf == d.retryOf
    ensures AsGit(e)
  {
  }

  lemma NextRowsAsGit(s: Sys, a: Action)
    requires Born(s)
    ensures RowsAsGit(Exec(s.db, CallOf(s, a)).rows)
  {
    hide *;
    BornIs(s);
    var c := CallOf(s, a);
    var after := Exec(s.db, c).rows;
    ExecGrows(s.db, c);
    RowsAppended(s.db, c);
    if c.Create? { CreatedAsGit(s, a); }
    forall i | 0 <= i < |after|
      ensures AsGit(after[i])
    {
      if i < |s.db.rows| {
        WasAsGit(s.db.rows, i);
        RowGrown(s.db, Exec(s.db, c), i);
        AsGitStays(s.db.rows[i], after[i]);
      } else {
        var e := after[i];
        AsGitStays(c.d, e);
      }
    }
    AllAsGit(after);
  }

  lemma WasAsGit(rows: seq<Deployment>, i: nat)
    requires RowsAsGit(rows) && i < |rows|
    ensures AsGit(rows[i])
  {
    hide AsGit;
  }

  lemma AllAsGit(rows: seq<Deployment>)
    requires forall i :: 0 <= i < |rows| ==> AsGit(rows[i])
    ensures RowsAsGit(rows)
  {
    hide AsGit;
  }

  /** What a row keeps of what it was born with. */
  lemma RowGrown(db: Db, after: Db, i: Id)
    requires Grows(db, after) && i < |db.rows|
    ensures i < |after.rows|
    ensures var d, e := db.rows[i], after.rows[i];
      && e.policy == d.policy && e.specHash == d.specHash && e.spec == d.spec && e.hooks == d.hooks
      && e.hasPlan == d.hasPlan && e.diffHash == d.diffHash && e.retryOf == d.retryOf
  {
    assert RowGrows(db.rows[i], after.rows[i]);
  }

  lemma {:induction false} RunBorn(p: N.Plan, s: Sys, acts: seq<Action>)
    requires Initial(s)
    ensures Born(Run(p, s, acts))
  {
    hide *;
    if acts == [] {
      RunStart(p, s);
      InitialBorn(s);
    } else {
      var most, a := acts[..|acts| - 1], acts[|acts| - 1];
      RunBorn(p, s, most);
      RunLast(p, s, acts);
      var before := Run(p, s, most);
      NextParts(p, before, a);
      BornIs(before);
      NextCfgKept(p, before, a);
      NextPolicySeen(p, before, a);
      NextUnappliedWait(before.db, CallOf(before, a));
      NextRowsAsGit(before, a);
      BornIs(Run(p, s, acts));
    }
  }

  lemma InitialBorn(s: Sys)
    requires Initial(s)
    ensures Born(s)
  {
  }

  /**
   In every run, the policy stored with a deployment is auto exactly when the job its hash is of
   has policy auto, and that job has a policy; it is of that job's config.
  */
  lemma PolicyIsGits(p: N.Plan, s: Sys, acts: seq<Action>, id: Id)
    requires hide *; Initial(s) && id < |Run(p, s, acts).db.rows|
    ensures var d := Run(p, s, acts).db.rows[id];
      && (d.policy == DeployPolicy.Auto <==> d.specHash.target.cfg.policy == N.Auto)
      && d.specHash.target.cfg.policy != N.NoPolicy
      && d.spec.cfg == d.specHash.target.cfg
      && (d.hasPlan <==> d.diffHash.Some?) && (d.diffHash.None? ==> d.retryOf.Some?)
  {
    RunBorn(p, s, acts);
    hide Run, Initial, CfgKept;
    assert AsGit(Run(p, s, acts).db.rows[id]);
  }

  /**
   In every run, what a cycle creates waits for a person exactly when its job is under approval,
   and is detected exactly when it is auto, unless a hook it declares is missing or invalid,
   which is exactly when it is born failed.
  */
  lemma BornAsItsPolicy(p: N.Plan, s: Sys, acts: seq<Action>, a: Action)
    requires hide *; Initial(s) && CallOf(Run(p, s, acts), a).Create?
    ensures var d := CallOf(Run(p, s, acts), a).d;
      && (d.state == Failed <==> exists l :: l in d.specHash.lines && !l.mark.Spec?)
      && (d.state == PendingApproval <==> d.specHash.target.cfg.policy == N.Approval && forall l :: l in d.specHash.lines ==> l.mark.Spec?)
      && (d.state == Detected <==> d.specHash.target.cfg.policy == N.Auto && forall l :: l in d.specHash.lines ==> l.mark.Spec?)
  {
    RunBorn(p, s, acts);
    BornIs(Run(p, s, acts));
    hide Run, Initial, CallOf, CfgKept, PolicySeen, RowsAsGit;
    CreatedAsGit(Run(p, s, acts), a);
  }
}
