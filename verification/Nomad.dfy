/**
 Nomad as the engine sees it: jobs, the scaling counts copied from the live job,
 and the plan, a deterministic function of the job and of the live one.
*/
module Nomad {
  import opened Options

  /** What meta.Parse reads from a job's meta; it is part of the job's spec. */
  datatype Policy = Auto | Approval | NoPolicy

  datatype Config = Config(policy: Policy, pre: seq<string>, post: seq<string>, windowed: bool)

  /** A task group. NilGroup is a nil pointer in the list; `body` is everything else. */
  datatype Group = NilGroup | Group(name: Option<string>, count: Option<int>, scaling: bool, body: string) {
    /** The group can take part in a count: it has a name. */
    predicate Named() { Group? && name.Some? }

    /** The autoscaler owns the group's count. */
    predicate Scalable() { Named() && scaling }
  }

  datatype Job = Job(cfg: Config, groups: seq<Group>, body: string)

  // -- the scaling counts ------------------------------------------------------

  /** The counts of the live groups by name; the last group of a name wins. */
  function LiveCounts(groups: seq<Group>): (m: map<string, int>)
    ensures forall n :: n in m ==> exists i :: 0 <= i < |groups| && groups[i].Named() && groups[i].name.value == n && groups[i].count == Some(m[n])
  {
    if groups == [] then map[]
    else
      var g := groups[|groups| - 1];
      var m := LiveCounts(groups[..|groups| - 1]);
      if g.Named() && g.count.Some? then m[g.name.value := g.count.value] else m
  }

  function WithCount(g: Group, counts: map<string, int>): Group {
    if g.Scalable() && g.name.value in counts then g.(count := Some(counts[g.name.value])) else g
  }

  function WithCounts(groups: seq<Group>, counts: map<string, int>): (r: seq<Group>)
    ensures |r| == |groups|
    ensures forall i :: 0 <= i < |groups| ==> r[i] == WithCount(groups[i], counts)
  {
    seq(|groups|, i requires 0 <= i < |groups| => WithCount(groups[i], counts))
  }

  /** What substituteScalingCounts returns: the job with the live counts of its scalable groups. */
  function Substitute(job: Job, live: Job): Job {
    job.(groups := WithCounts(job.groups, LiveCounts(live.groups)))
  }

  /** The job to plan: the live counts only when there is a live job. */
  function Adjusted(job: Job, live: Option<Job>): Job {
    match live
    case None => job
    case Some(l) => Substitute(job, l)
  }

  method CountsOf(groups: seq<Group>) returns (counts: map<string, int>)
    ensures counts == LiveCounts(groups)
  {
    counts := map[];
    for i := 0 to |groups|
      invariant counts == LiveCounts(groups[..i])
    {
      assert groups[..i + 1][..i] == groups[..i];
      var g := groups[i];
      if g.Group? && g.name.Some? && g.count.Some? {
        counts := counts[g.name.value := g.count.value];
      }
    }
    assert groups[..|groups|] == groups;
  }

  /** The loops of the engine: the live counts, whether any applies, and the copy. */
  method SubstituteScalingCounts(job: Job, live: Job) returns (r: Job)
    ensures r == Substitute(job, live)
  {
    var liveCounts := CountsOf(live.groups);
    var needsCopy := false;
    for i := 0 to |job.groups|
      invariant !needsCopy ==> forall j :: 0 <= j < i ==> WithCount(job.groups[j], liveCounts) == job.groups[j]
    {
      var g := job.groups[i];
      if !g.Group? || !g.scaling || g.name.None? {
        continue;
      }
      if g.name.value in liveCounts {
        needsCopy := true;
        break;
      }
    }
    if !needsCopy {
      assert WithCounts(job.groups, liveCounts) == job.groups;
      return job;
    }
    var cp := job.groups;
    for i := 0 to |cp|
      invariant |cp| == |job.groups|
      invariant forall j :: 0 <= j < i ==> cp[j] == WithCount(job.groups[j], liveCounts)
      invariant forall j :: i <= j < |cp| ==> cp[j] == job.groups[j]
    {
      var g := cp[i];
      if !g.Group? || !g.scaling || g.name.None? {
        continue;
      }
      if g.name.value in liveCounts {
        cp := cp[i := g.(count := Some(liveCounts[g.name.value]))];
      }
    }
    assert cp == WithCounts(job.groups, liveCounts);
    r := job.(groups := cp);
  }

  /** A count taken twice from one live job is the count taken once. */
  lemma SubstituteIdempotent(job: Job, live: Job)
    ensures Substitute(Substitute(job, live), live) == Substitute(job, live)
  {
    assert Substitute(Substitute(job, live), live).groups == Substitute(job, live).groups;
  }

  /** Every scalable group whose count came from `before` has one in `after`, or already had that count. */
  ghost predicate CountsCarryOver(job: Job, before: Job, after: Job) {
    forall g :: g in job.groups && g.Scalable() && g.name.value in LiveCounts(before.groups) ==>
      g.name.value in LiveCounts(after.groups) || g.count == Some(LiveCounts(before.groups)[g.name.value])
  }

  /** The register substitutes again in a spec detection already substituted: when that is the same as once. */
  lemma SubstituteComposes(job: Job, before: Job, after: Job)
    ensures Substitute(Substitute(job, before), after) == Substitute(job, after) <==> CountsCarryOver(job, before, after)
  {
    var b, a := LiveCounts(before.groups), LiveCounts(after.groups);
    var twice, once := WithCounts(WithCounts(job.groups, b), a), WithCounts(job.groups, a);
    if CountsCarryOver(job, before, after) {
      forall i | 0 <= i < |twice|
        ensures twice[i] == once[i]
      {
        assert job.groups[i] in job.groups;
      }
      assert twice == once;
    }
    if twice == once {
      forall g | g in job.groups && g.Scalable() && g.name.value in b
        ensures g.name.value in a || g.count == Some(b[g.name.value])
      {
        var i :| 0 <= i < |job.groups| && job.groups[i] == g;
        assert twice[i] == once[i];
      }
    }
  }

  // -- the plan ----------------------------------------------------------------

  datatype CountEdit = CountEdit(name: string, live: int, target: Option<int>)

  /**
   A plan's diff. `changed` is Type != "None"; what the diff shows is the groups it
   adds, the counts it edits and the rest; `updates` is what the scheduler counts.
  */
  datatype PlanDiff = PlanDiff(changed: bool, added: set<Group>, counts: set<CountEdit>, rest: string, updates: string)

  /** The collision-free hash of a diff, its Updates left out. */
  datatype DiffHash = DiffHash(added: set<Group>, counts: set<CountEdit>, rest: string)

  type Plan = (Job, Option<Job>) -> PlanDiff

  /** The hash a deployment records: none without drift. */
  function HashOf(d: PlanDiff): Option<DiffHash> {
    if d.changed then Some(DiffHash(d.added, d.counts, d.rest)) else None
  }

  function Names(live: Option<Job>): set<string> {
    match live
    case None => {}
    case Some(l) => set g | g in l.groups && g.Named() :: g.name.value
  }

  /** The groups of the job the live one has not. */
  function Added(job: Job, live: Option<Job>): set<Group> {
    set g | g in job.groups && g.Named() && g.name.value !in Names(live)
  }

  /** The counts the job would change in the live one. */
  function CountEdits(job: Job, live: Option<Job>): set<CountEdit> {
    match live
    case None => {}
    case Some(l) =>
      var c := LiveCounts(l.groups);
      set g | g in job.groups && g.Named() && g.name.value in c && g.count != Some(c[g.name.value])
        :: CountEdit(g.name.value, c[g.name.value], g.count)
  }

  /** Two lists of groups that differ only in counts, each of a group with a scaling block. */
  ghost predicate OnlyCounts(a: seq<Group>, b: seq<Group>) {
    && |a| == |b|
    && forall i :: 0 <= i < |a| ==>
      || a[i] == b[i]
      || (a[i].Scalable() && a[i].count.Some? && exists n: int :: b[i] == a[i].(count := Some(n)))
  }

  /** A scale: only counts of groups with a scaling block move. */
  ghost predicate IsScale(before: Job, after: Job) {
    before.cfg == after.cfg && before.body == after.body && OnlyCounts(before.groups, after.groups)
  }

  /** A scale of groups the target spec scales too: the autoscaler's counts, which nops does not fight. */
  ghost predicate IsScaleFor(target: Job, before: Job, after: Job) {
    && IsScale(before, after)
    && forall i :: 0 <= i < |before.groups| && before.groups[i] != after.groups[i] ==> ScaledIn(target, before.groups[i].name)
  }

  ghost predicate ScaledIn(target: Job, name: Option<string>) {
    && (exists g :: g in target.groups && g.Group? && g.name == name)
    && (forall g :: g in target.groups && g.Group? && g.name == name ==> g.scaling)
  }

  /** A job as Nomad canonicalizes it: every group has a name of its own and a count. */
  ghost predicate Canonical(job: Job) {
    && (forall i :: 0 <= i < |job.groups| ==> job.groups[i].Named() && job.groups[i].count.Some?)
    && (forall i, j :: 0 <= i < j < |job.groups| ==> job.groups[i].name != job.groups[j].name)
  }

  ghost predicate CanonicalLive(live: Option<Job>) {
    live.Some? ==> Canonical(live.value)
  }

  lemma AdjustedCanonical(job: Job, live: Option<Job>)
    requires Canonical(job)
    ensures Canonical(Adjusted(job, live))
  {
  }

  lemma ScaleCanonical(before: Job, after: Job)
    requires Canonical(before) && IsScale(before, after)
    ensures Canonical(after)
  {
  }

  lemma {:induction false} CountKnown(groups: seq<Group>, i: nat)
    requires i < |groups| && groups[i].Named() && groups[i].count.Some?
    ensures groups[i].name.value in LiveCounts(groups)
  {
    if i < |groups| - 1 {
      assert groups[..|groups| - 1][i] == groups[i];
      CountKnown(groups[..|groups| - 1], i);
    }
  }

  /** In a canonical job a name has one count, its group's. */
  lemma CountOf(job: Job, i: nat)
    requires Canonical(job) && i < |job.groups|
    ensures job.groups[i].name.value in LiveCounts(job.groups)
    ensures Some(LiveCounts(job.groups)[job.groups[i].name.value]) == job.groups[i].count
  {
    CountKnown(job.groups, i);
  }

  // -- counts the autoscaler owns ----------------------------------------------

  /** The live job is the spec, but for the counts of its groups with a scaling block. */
  predicate Quiet(spec: Job, live: Job) {
    Substitute(spec, live) == live
  }

  /** A job with the counts of a live one, put in place, is quiet. */
  lemma AdjustedQuiet(spec: Job, live: Option<Job>)
    requires Canonical(spec)
    ensures Quiet(spec, Adjusted(spec, live))
  {
    var j := Adjusted(spec, live);
    AdjustedCanonical(spec, live);
    QuietByGroup(spec, j);
  }

  /** Group by group: each is the spec's with its own count, if the autoscaler owns it. */
  lemma QuietByGroup(spec: Job, live: Job)
    requires Canonical(live) && |live.groups| == |spec.groups| && live.cfg == spec.cfg && live.body == spec.body
    requires forall i :: 0 <= i < |spec.groups| ==>
               live.groups[i] == spec.groups[i] || (spec.groups[i].Scalable() && live.groups[i] == spec.groups[i].(count := live.groups[i].count))
    requires forall i :: 0 <= i < |spec.groups| ==> live.groups[i].Group?
    ensures Quiet(spec, live)
  {
    var c := LiveCounts(live.groups);
    forall i | 0 <= i < |spec.groups|
      ensures WithCount(spec.groups[i], c) == live.groups[i]
    {
      CountOf(live, i);
    }
    assert Substitute(spec, live).groups == live.groups;
  }

  lemma QuietGroups(spec: Job, live: Job, i: nat)
    requires Quiet(spec, live) && i < |live.groups|
    ensures |spec.groups| == |live.groups| && live.cfg == spec.cfg && live.body == spec.body
    ensures live.groups[i] == spec.groups[i] || (spec.groups[i].Scalable() && live.groups[i] == spec.groups[i].(count := live.groups[i].count))
  {
    assert Substitute(spec, live).groups[i] == WithCount(spec.groups[i], LiveCounts(live.groups));
  }

  /** A scale of a quiet job leaves it quiet. */
  lemma ScaledQuiet(spec: Job, live: Job, after: Job)
    requires Quiet(spec, live) && Canonical(live) && IsScale(live, after)
    ensures Quiet(spec, after)
  {
    ScaleCanonical(live, after);
    if |live.groups| > 0 { QuietGroups(spec, live, 0); }
    forall i | 0 <= i < |after.groups|
      ensures after.groups[i] == spec.groups[i] || (spec.groups[i].Scalable() && after.groups[i] == spec.groups[i].(count := after.groups[i].count))
    {
      QuietGroups(spec, live, i);
    }
    QuietByGroup(spec, after);
  }

  lemma OneOfName(spec: Job, i: nat, h: Group)
    requires Canonical(spec) && i < |spec.groups| && h in spec.groups && h.name == spec.groups[i].name
    ensures h == spec.groups[i]
  {
    var k :| 0 <= k < |spec.groups| && spec.groups[k] == h;
    assert i == k;
  }

  /** A count edited in a plan made with the live counts is of a group without a scaling block. */
  lemma EditedGroup(spec: Job, live: Job, e: CountEdit) returns (i: nat)
    requires e in CountEdits(Substitute(spec, live), Some(live))
    ensures i < |spec.groups| && spec.groups[i].Named() && spec.groups[i].name.value == e.name && !spec.groups[i].scaling
  {
    var j, c := Substitute(spec, live), LiveCounts(live.groups);
    var g :| g in j.groups && g.Named() && g.name.value in c && g.count != Some(c[g.name.value]) && g.name.value == e.name;
    i :| 0 <= i < |j.groups| && j.groups[i] == g;
    assert g == WithCount(spec.groups[i], c);
  }

  // -- the laws of a plan ------------------------------------------------------

  /**
   What is assumed of Nomad's plan, on canonical jobs: a job equal to the live one shows
   no change, a diff shows the groups it adds and the counts it edits (none when there is
   no change), and a scale of groups the job scales changes nothing of the diff planned
   with the live counts.
  */
  ghost predicate Lawful(p: Plan) {
    && (forall j: Job :: Canonical(j) ==> !p(j, Some(j)).changed)
    && (forall j: Job, l: Option<Job> :: Canonical(j) && CanonicalLive(l) ==>
          && p(j, l).added == Added(j, l) && p(j, l).counts == CountEdits(j, l)
          && (!p(j, l).changed ==> p(j, l).added == {} && p(j, l).counts == {}))
    && (forall j: Job, l: Job, m: Job :: Canonical(j) && Canonical(l) && IsScaleFor(j, l, m) ==>
          Fresh(p, j, Some(l)) == Fresh(p, j, Some(m)))
  }

  /** The diff hash of a spec planned against the live job it took its counts from. */
  function Fresh(p: Plan, spec: Job, live: Option<Job>): Option<DiffHash> {
    HashOf(p(Adjusted(spec, live), live))
  }
}
