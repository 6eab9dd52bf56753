/**
 Where a register step ends: what it leaves of the row and of the live job, exactly, whatever
 Nomad answers; and what that means in a run, where the cas index pins the recorded diff.
*/
module RegisterSteps {
  import opened Options
  import opened Store
  import opened Decisions
  import opened Machine
  import opened Base
  import opened AppliedDiff
  import Births
  import N = Nomad

  /** Nomad's answer to a register: it says what came of it, it never got it, or the answer is lost. */
  datatype Reply = Told | NotSent | Unheard

  /**
   What a step meets: the calls Nomad fails to answer, an edit of the job that comes between
   its plan and its register, and whether the apply timeout is past.
  */
  datatype Weather = Weather(read: bool, plan: bool, edit: Option<N.Job>, register: Reply, readBack: bool, late: bool)

  /** Nomad answers everything, and nobody edits the job. */
  predicate Calm(w: Weather) {
    w.read && w.plan && w.register == Told && w.readBack && w.edit.None?
  }

  /** The cluster with a job in place, at a new index. */
  function Put(n: Cluster, k: Key, job: N.Job): Cluster {
    Cluster(n.live[k := LiveJob(job, n.raft + 1, VersionOf(LiveOf(n, k)) + 1)], n.raft + 1)
  }

  // -- the end of a step -------------------------------------------------------------------------

  /** What a step does to the row: moves it, follows a scale, records the register, or leaves it. */
  datatype StepEnd = MovedTo(to: State) | FollowedTo(cas: nat) | Recorded(index: nat, version: nat) | Kept

  /** The store after a step that ends so. */
  function StoreAfter(db: Db, id: Id, d: Deployment, end: StepEnd): Db {
    match end
    case MovedTo(to) => Exec(db, Transition(id, d.state, to, Nops, ErrorText(to), false))
    case FollowedTo(index) => Exec(db, MoveCas(id, d.state, d.cas, index))
    case Recorded(index, version) => Exec(db, SetApplied(id, index, version))
    case Kept => db
  }

  /** After an error: another step tries again, unless the apply timeout is past. */
  function TriedAgain(w: Weather): StepEnd {
    if w.late then MovedTo(Failed) else Kept
  }

  /** The live job read back. */
  function ReadBackEnd(n: Cluster, k: Key, w: Weather): StepEnd {
    var live := LiveOf(n, k);
    if w.readBack && live.Some? then Recorded(live.value.index, live.value.version) else Kept
  }

  /** The register of a planned job, after the edit if there is one. */
  function RegisterEnd(n: Cluster, d: Deployment, job: N.Job, w: Weather): (StepEnd, Cluster) {
    if w.register == NotSent then (TriedAgain(w), n)
    else if IndexOf(LiveOf(n, d.key)) == d.cas then
      var after := Put(n, d.key, job);
      (if w.register == Unheard then TriedAgain(w) else ReadBackEnd(after, d.key, w), after)
    else if w.register == Unheard || d.diffHash.Some? then (TriedAgain(w), n)
    else (MovedTo(Failed), n)
  }

  /** The step once the job is read and planned. */
  function PlannedEnd(p: N.Plan, n: Cluster, d: Deployment, w: Weather): (StepEnd, Cluster) {
    var live := LiveOf(n, d.key);
    var job := N.Adjusted(d.spec, JobOf(live));
    var shown := N.HashOf(p(job, JobOf(live)));
    if IndexOf(live) == d.cas && shown.Some? then RegisterEnd(if w.edit.Some? then Put(n, d.key, w.edit.value) else n, d, job, w)
    else if IndexOf(live) == d.cas && !Rerun(d) then (MovedTo(Completed), n)
    else if shown.None? then (ReadBackEnd(n, d.key, w), n)
    else if SameDiff(d.diffHash, shown) then (FollowedTo(IndexOf(live)), n)
    else (MovedTo(Failed), n)
  }

  function RegisterStepEnd(p: N.Plan, n: Cluster, d: Deployment, w: Weather): (StepEnd, Cluster) {
    if w.read && w.plan then PlannedEnd(p, n, d, w) else (TriedAgain(w), n)
  }

  /**
   A step registers, completes, records, follows, fails or is left to another, each exactly then:
   `asks` is at the cas index with something to register, `quiet` with nothing to, `moved` at
   another index.
  */
  lemma RegisterEndsAs(p: N.Plan, n: Cluster, d: Deployment, w: Weather)
    requires d.cas <= n.raft
    ensures var live := LiveOf(n, d.key);
      var job := N.Adjusted(d.spec, JobOf(live));
      var shown := N.HashOf(p(job, JobOf(live)));
      var planned, moved, rerun := w.read && w.plan, IndexOf(live) != d.cas, d.retryOf.Some? && !d.hasPlan;
      var asks, quiet := planned && !moved && shown.Some?, planned && shown.None? && (moved || rerun);
      var through := asks && w.edit.None? && w.register != NotSent;
      var (end, after) := RegisterStepEnd(p, n, d, w);
      && after == (if through then Put(n, d.key, job) else if asks && w.edit.Some? then Put(n, d.key, w.edit.value) else n)
      && (end == MovedTo(Completed) <==> planned && !moved && shown.None? && !rerun)
      && (forall i, v :: end == Recorded(i, v) <==>
            && w.readBack
            && ((through && w.register == Told && i == n.raft + 1 && v == VersionOf(live) + 1)
                || (quiet && live.Some? && i == live.value.index && v == live.value.version)))
      && (forall i :: end == FollowedTo(i) <==> planned && moved && shown.Some? && shown == d.diffHash && i == IndexOf(live))
      && (end == MovedTo(Failed) <==>
            || (planned && moved && shown.Some? && shown != d.diffHash)
            || (asks && w.register == Told && w.edit.Some? && d.diffHash.None?)
            || (w.late && (!planned || (asks && (w.register != Told || w.edit.Some?)))))
      && (end == Kept <==>
            || (!w.late && (!planned || (asks && (w.register != Told || (w.edit.Some? && d.diffHash.Some?)))))
            || ((through || quiet) && (w.register == Told || quiet) && (!w.readBack || (quiet && live.None?))))
  {
    hide N.Adjusted, N.HashOf;
  }

  // -- in a run -----------------------------------------------------------------------------------

  /**
   In every run, when nothing comes between the calls of a register step, at the cas index it
   registers what was detected and records it, or, for a retry with nothing to register, records
   the live job; elsewhere it registers nothing: it records a live job that is as the spec wants,
   follows one that shows the diff detected, and fails at any other.
  */
  lemma RegistersInCalm(p: N.Plan, s: Sys, acts: seq<Action>, id: Id, w: Weather)
    requires hide *; N.Lawful(p) && Initial(s) && id < |Run(p, s, acts).db.rows| && Calm(w)
    ensures var now := Run(p, s, acts);
      var d := now.db.rows[id];
      var live := LiveOf(now.nomad, d.key);
      var shown := N.Fresh(p, d.spec, JobOf(live));
      RegisterStepEnd(p, now.nomad, d, w) ==
        if IndexOf(live) == d.cas && d.diffHash.Some?
        then (Recorded(now.nomad.raft + 1, VersionOf(live) + 1), Put(now.nomad, d.key, N.Adjusted(d.spec, JobOf(live))))
        else if IndexOf(live) == d.cas || shown.None?
        then (if live.Some? then Recorded(live.value.index, live.value.version) else Kept, now.nomad)
        else (if shown == d.diffHash then FollowedTo(IndexOf(live)) else MovedTo(Failed), now.nomad)
  {
    hide *;
    var now := Run(p, s, acts);
    var d := now.db.rows[id];
    WholeRun(acts);
    EveryCasIndexPins(p, s, acts, |acts|, id);
    Births.PolicyIsGits(p, s, acts, id);
    CalmEnds(p, now.nomad, d, w);
  }

  lemma WholeRun(acts: seq<Action>)
    ensures acts[..|acts|] == acts
  {
  }

  lemma CalmEnds(p: N.Plan, n: Cluster, d: Deployment, w: Weather)
    requires hide *; Calm(w) && d.cas <= n.raft && (d.hasPlan <==> d.diffHash.Some?) && (d.diffHash.None? ==> d.retryOf.Some?)
    requires IndexOf(LiveOf(n, d.key)) == d.cas ==> N.Fresh(p, d.spec, JobOf(LiveOf(n, d.key))) == d.diffHash
    ensures var live := LiveOf(n, d.key);
      var shown := N.Fresh(p, d.spec, JobOf(live));
      RegisterStepEnd(p, n, d, w) ==
        if IndexOf(live) == d.cas && d.diffHash.Some? then (Recorded(n.raft + 1, VersionOf(live) + 1), Put(n, d.key, N.Adjusted(d.spec, JobOf(live))))
        else if IndexOf(live) == d.cas || shown.None? then (if live.Some? then Recorded(live.value.index, live.value.version) else Kept, n)
        else (if shown == d.diffHash then FollowedTo(IndexOf(live)) else MovedTo(Failed), n)
  {
    hide N.Adjusted, N.HashOf;
  }
}
