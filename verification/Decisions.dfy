/** The engine's pure decisions: what blocks, holds, retries or reruns a deployment. */
module Decisions {
  import opened Options
  import opened Store
  import N = Nomad

  /** What git declares for a managed job: the parsed job and the hook jobs of its namespace, by ID. */
  datatype GitJob = GitJob(job: N.Job, hookFiles: map<string, Mark>)

  /** The mark of a declared hook: a hook job of the snapshot, or a missing one. */
  function MarkOf(files: map<string, Mark>, id: string): Mark {
    if id in files then files[id] else Missing
  }

  function PhaseLines(phase: Phase, ids: seq<string>, files: map<string, Mark>): (r: seq<HookLine>)
    ensures |r| == |ids|
    ensures forall i :: 0 <= i < |ids| ==> r[i] == HookLine(phase, ids[i], MarkOf(files, ids[i]))
  {
    seq(|ids|, i requires 0 <= i < |ids| => HookLine(phase, ids[i], MarkOf(files, ids[i])))
  }

  /** The hooks a job declares, pre before post, each in its declared order. */
  function Lines(g: GitJob): seq<HookLine> {
    PhaseLines(Pre, g.job.cfg.pre, g.hookFiles) + PhaseLines(Post, g.job.cfg.post, g.hookFiles)
  }

  function HashOf(g: GitJob): SpecHash {
    SpecHash(g.job, Lines(g))
  }

  /** The hooks of one phase that are in the snapshot, each at its declared position. */
  function FrozenFrom(lines: seq<HookLine>, position: nat): seq<FrozenHook>
    decreases |lines|
  {
    if lines == [] then []
    else
      var rest := FrozenFrom(lines[1..], position + 1);
      match lines[0].mark
      case Spec(text) => [FrozenHook(lines[0].phase, position, lines[0].id, text)] + rest
      case _ => rest
  }

  function Frozen(g: GitJob): seq<FrozenHook> {
    FrozenFrom(PhaseLines(Pre, g.job.cfg.pre, g.hookFiles), 0) + FrozenFrom(PhaseLines(Post, g.job.cfg.post, g.hookFiles), 0)
  }

  /** A declared hook is missing or invalid. */
  predicate Problem(g: GitJob) {
    exists i :: 0 <= i < |Lines(g)| && !Lines(g)[i].mark.Spec?
  }

  // -- holds -----------------------------------------------------------------------

  datatype Hold = Paused | Window

  /** A sync window gates only what nops starts on its own: policy auto. */
  predicate WindowCloses(cfg: N.Config, closed: bool) {
    cfg.policy == N.Auto && cfg.windowed && closed
  }

  function HoldFrom(paused: bool, windowCloses: bool): Option<Hold> {
    if paused then Some(Paused) else if windowCloses then Some(Window) else None
  }

  /** What holds a deployment not started yet: a window a person lifted for it does not. */
  function HoldOn(hold: Option<Hold>, d: Deployment): Option<Hold> {
    if hold == Some(Window) && d.liftedBy.Some? then None else hold
  }

  // -- failures, retries -------------------------------------------------------------

  predicate SameDiff(stored: Option<N.DiffHash>, now: Option<N.DiffHash>) {
    stored.Some? && stored == now
  }

  predicate Ended(s: State) {
    s == Failed || s == Rejected
  }

  /** Whether the latest deployment of a job blocks a new one for its drift. */
  predicate Blocked(latest: Deployment, hash: SpecHash, liveIndex: nat, diff: Option<N.DiffHash>) {
    && Ended(latest.state)
    && latest.retriedBy.None?
    && latest.specHash == hash
    && (AppliedIndex(latest) != 0 || latest.cas == liveIndex || SameDiff(latest.diffHash, diff))
  }

  predicate Retried(latest: Deployment, hash: SpecHash) {
    Ended(latest.state) && latest.retriedBy.Some? && latest.specHash == hash
  }

  /** A retry with nothing to register: it has no plan diff. */
  predicate Rerun(d: Deployment) {
    d.retryOf.Some? && !d.hasPlan
  }

  function StorePolicy(p: N.Policy): DeployPolicy {
    if p == N.Auto then Auto else Approval
  }

  /** Where a deployment goes once it may start. */
  function NextAfterDecision(d: Deployment): State {
    if Rerun(d) then Applying
    else if d.spec.cfg.pre != [] then PreHook
    else Applying
  }

  /** Whether a person may retry a deployment: the latest of its job, at the spec git has. */
  predicate Retryable(d: Deployment, isLatest: bool, observed: Option<SpecHash>, policy: N.Policy, drift: bool) {
    && isLatest && d.retriedBy.None? && Ended(d.state)
    && observed == Some(d.specHash) && policy != N.NoPolicy
    && (drift || AppliedIndex(d) != 0)
  }

  // -- what detection does with a waiting deployment -----------------------------------

  /** Keep it; move it on and look for a new one; or move it on and leave the job for this cycle. */
  datatype Verdict = Keep | Move(to: State) | Leave(to: State)

  /** The cas index follows the live one while the diff stays the one detected. */
  predicate Follows(cfg: N.Config, hash: SpecHash, d: Deployment, liveIndex: nat, diff: Option<N.DiffHash>) {
    cfg.policy != N.NoPolicy && d.specHash == hash && d.cas != liveIndex && SameDiff(d.diffHash, diff)
  }

  function Review(cfg: N.Config, hash: SpecHash, problem: bool, hold: Option<Hold>,
                  d: Deployment, liveIndex: nat, diff: Option<N.DiffHash>): Verdict
  {
    if cfg.policy == N.NoPolicy then Move(Superseded)
    else if d.specHash != hash then Move(Superseded)
    else if d.cas != liveIndex then Move(Superseded)
    else if diff.None? && !Rerun(d) then Move(Completed)
    else if HoldOn(hold, d).Some? && d.state == Detected && d.policy == Auto then Move(Superseded)
    else if d.state == Detected && d.policy == Approval then Leave(if problem then Failed else PendingApproval)
    else Keep
  }

  /** The deployment a cycle creates, if any, given the latest one of the job. */
  function NewDeployment(key: Key, g: GitJob, hold: Option<Hold>, liftedBy: Option<Actor>,
                         latestId: Option<Id>, latest: Option<Deployment>,
                         index: nat, planned: N.Job, diff: Option<N.DiffHash>): Option<Deployment>
    requires latestId.Some? <==> latest.Some?
  {
    var hash := HashOf(g);
    var retrying := latest.Some? && Retried(latest.value, hash);
    if diff.None? && !(retrying && AppliedIndex(latest.value) != 0) then None
    else if diff.Some? && latest.Some? && Blocked(latest.value, hash, index, diff) then None
    else if hold.Some? then None
    else
      var born := if Problem(g) then Failed else if g.job.cfg.policy == N.Approval then PendingApproval else Detected;
      Some(Deployment(key, hash, planned, diff.Some?, diff, StorePolicy(g.job.cfg.policy), born,
                      if born == Failed then "hook not found or invalid" else "", index, None, None, None, None,
                      if retrying then latestId else None, liftedBy, false, false, Frozen(g)))
  }
}
