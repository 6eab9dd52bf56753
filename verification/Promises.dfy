/** What Retry and Deploy now offer a person, against what the next cycle does; and what a scale does to a deployment that waits. */
module Promises {
  import opened Options
  import opened Store
  import opened Decisions
  import opened Machine
  import N = Nomad

  /**
   Retry is offered exactly when the store takes its mark and the next cycle, for a job with a
   policy and with nothing holding it, then creates the deployment that retries.
  */
  lemma RetryableExactly(db: Db, g: GitJob, id: Id, who: Actor, index: nat, planned: N.Job, diff: Option<N.DiffHash>)
    requires id < |db.rows|
    ensures var k := db.rows[id].key;
      var rows := Exec(db, MarkRetried(id, who)).rows;
      var latestId := LatestOf(rows, k);
      var made := NewDeployment(k, g, None, None, latestId, if latestId.Some? then Some(rows[latestId.value]) else None, index, planned, diff);
      Retryable(db.rows[id], LatestOf(db.rows, k) == Some(id), Some(HashOf(g)), g.job.cfg.policy, diff.Some?)
      <==> ErrorOf(db, MarkRetried(id, who)).None? && g.job.cfg.policy != N.NoPolicy && made.Some? && made.value.retryOf == Some(id)
  {
    MarkKeepsLatest(db, id, who);
    hide HashOf, Frozen, Problem, LatestOf;
  }

  lemma MarkKeepsLatest(db: Db, id: Id, who: Actor)
    requires id < |db.rows|
    ensures LatestOf(Exec(db, MarkRetried(id, who)).rows, db.rows[id].key) == LatestOf(db.rows, db.rows[id].key)
  {
    hide LatestOf;
    var rows := Exec(db, MarkRetried(id, who)).rows;
    assert |rows| == |db.rows| && forall i :: 0 <= i < |rows| ==> rows[i].key == db.rows[i].key;
    var was, now := LatestOf(db.rows, db.rows[id].key), LatestOf(rows, db.rows[id].key);
    assert was.Some? && now.Some? && rows[was.value].key == db.rows[now.value].key == db.rows[id].key;
  }

  /** Until it is retried, a failed or rejected deployment of the spec in git is the last: whatever scales, and whatever moves after its register. */
  lemma BlockedUntilRetried(k: Key, g: GitJob, hold: Option<Hold>, liftedBy: Option<Actor>, id: Id, latest: Deployment,
                            index: nat, planned: N.Job, diff: Option<N.DiffHash>)
    requires Ended(latest.state) && latest.retriedBy.None? && latest.specHash == HashOf(g) && hold.None?
    ensures NewDeployment(k, g, hold, liftedBy, Some(id), Some(latest), index, planned, diff).None?
      <==> diff.None? || AppliedIndex(latest) != 0 || latest.cas == index || diff == latest.diffHash
  {
    hide HashOf, Frozen, Problem;
  }

  /**
   What holds a job this cycle: a pause, whatever the window; else the window, exactly of a job
   git leaves to nops, with a sync window, while it is closed and no request waits for the spec
   git has; a request that does is whose lift it is.
  */
  lemma HeldExactly(c: Cycle, k: Key, g: GitJob, closed: bool)
    ensures var paused, shut, asked :=
        k in c.paused || c.allPaused,
        g.job.cfg.policy == N.Auto && g.job.cfg.windowed && closed,
        k in c.lifts && c.lifts[k].specHash == HashOf(g);
      var (hold, liftedBy) := HoldOf(c, k, g, closed);
      && (hold == Some(Paused) <==> paused)
      && (hold == Some(Window) <==> !paused && shut && !asked)
      && (liftedBy.Some? <==> !paused && shut && asked)
      && (liftedBy.Some? ==> liftedBy == Some(c.lifts[k].actor))
  {
    hide HashOf;
  }

  /** Deploy now as offered: a closed window holds the job, it drifts, nothing blocks it and nothing is active. */
  predicate DeployNowable(hold: Option<Hold>, drift: bool, blocked: bool, active: bool) {
    hold == Some(Window) && drift && !blocked && !active
  }

  /**
   Deploy now is offered exactly when the window it lifts is all that stands between the next
   cycle and a deployment, but for a retry with nothing to register, which is not offered one.
  */
  lemma DeployNowableExactly(c: Cycle, k: Key, g: GitJob, closed: bool, who: Actor, latestId: Option<Id>, latest: Option<Deployment>,
                             index: nat, planned: N.Job, diff: Option<N.DiffHash>)
    requires latestId.Some? <==> latest.Some?
    requires k !in c.lifts && g.job.cfg.policy != N.NoPolicy
    ensures var (hold, _) := HoldOf(c, k, g, closed);
      DeployNowable(hold, true, false, false) <==> k !in c.paused && !c.allPaused && g.job.cfg.policy == N.Auto && g.job.cfg.windowed && closed
    ensures var (hold, _) := HoldOf(c, k, g, closed);
      var (lifted, liftedBy) := HoldOf(c.(lifts := c.lifts[k := Lift(HashOf(g), who)]), k, g, closed);
      var held := NewDeployment(k, g, hold, None, latestId, latest, index, planned, diff);
      var made := NewDeployment(k, g, lifted, liftedBy, latestId, latest, index, planned, diff);
      var blocked := diff.Some? && latest.Some? && Blocked(latest.value, HashOf(g), index, diff);
      (held.None? && made.Some?) <==>
        || DeployNowable(hold, diff.Some?, blocked, false)
        || (hold == Some(Window) && diff.None? && latest.Some? && Retried(latest.value, HashOf(g)) && AppliedIndex(latest.value) != 0)
  {
    hide HashOf, Frozen, Problem, Blocked, Retried;
  }

  /** The row a cycle reviews: at the live index when it follows it. */
  function Reviewed(cfg: N.Config, hash: SpecHash, d: Deployment, index: nat, diff: Option<N.DiffHash>): Deployment {
    if Follows(cfg, hash, d, index, diff) then d.(cas := index) else d
  }

  /**
   A scale moves the live index of a job under a deployment that waits: the next cycle keeps
   the deployment exactly when it recorded a diff. A retry with nothing to register recorded
   none, and is superseded by a mere scale.
  */
  lemma SurvivesAScale(p: N.Plan, g: GitJob, d: Deployment, before: N.Job, after: N.Job, problem: bool, index: nat)
    requires N.Lawful(p) && N.Canonical(g.job) && N.Canonical(before) && N.IsScaleFor(g.job, before, after)
    requires g.job.cfg.policy != N.NoPolicy && d.specHash == HashOf(g) && index != d.cas
    requires d.state == PendingApproval || (d.state == Detected && d.policy == Auto)
    requires d.diffHash == N.Fresh(p, g.job, Some(before))
    ensures var diff := N.Fresh(p, g.job, Some(after));
      Review(g.job.cfg, HashOf(g), problem, None, Reviewed(g.job.cfg, HashOf(g), d, index, diff), index, diff) == Keep
      <==> d.diffHash.Some?
  {
    assert N.Fresh(p, g.job, Some(before)) == N.Fresh(p, g.job, Some(after));
    hide N.Lawful, N.Fresh, N.IsScaleFor, N.Canonical, HashOf;
  }
}
