/** What is assumed of Nomad's plan can be met: a plan of groups added and counts edited meets it. */
module Lawful {
  import opened Options
  import N = Nomad

  /** A plan that shows the groups it adds, the counts it edits, and whether anything differs. */
  function Plain(job: N.Job, live: Option<N.Job>): N.PlanDiff {
    N.PlanDiff(live != Some(job), N.Added(job, live), N.CountEdits(job, live), "", "")
  }

  lemma SelfShowsNothing(job: N.Job)
    requires N.Canonical(job)
    ensures N.Added(job, Some(job)) == {} && N.CountEdits(job, Some(job)) == {}
  {
    forall g | g in job.groups
      ensures g !in N.Added(job, Some(job))
      ensures g.Named() && g.name.value in N.LiveCounts(job.groups) ==> g.count == Some(N.LiveCounts(job.groups)[g.name.value])
    {
      var i :| 0 <= i < |job.groups| && job.groups[i] == g;
      N.CountOf(job, i);
    }
  }

  /** What a scale keeps of the live job. */
  lemma ScaleNames(before: N.Job, after: N.Job)
    requires N.Canonical(before) && N.IsScale(before, after)
    ensures N.Names(Some(before)) == N.Names(Some(after))
  {
    forall i | 0 <= i < |before.groups|
      ensures before.groups[i].name == after.groups[i].name
    {
    }
    forall n
      ensures n in N.Names(Some(before)) <==> n in N.Names(Some(after))
    {
      if n in N.Names(Some(before)) {
        var g :| g in before.groups && g.Named() && g.name.value == n;
        var i :| 0 <= i < |before.groups| && before.groups[i] == g;
        assert after.groups[i] in after.groups;
      }
      if n in N.Names(Some(after)) {
        var g :| g in after.groups && g.Named() && g.name.value == n;
        var i :| 0 <= i < |after.groups| && after.groups[i] == g;
        assert before.groups[i] in before.groups;
      }
    }
  }

  /** A count the target does not leave to the autoscaler is the same after its scale. */
  lemma OtherCountStays(target: N.Job, before: N.Job, after: N.Job, g: N.Group)
    requires N.Canonical(before) && N.IsScaleFor(target, before, after)
    requires g in target.groups && g.Named() && !g.scaling
    ensures g.name.value in N.LiveCounts(before.groups) <==> g.name.value in N.LiveCounts(after.groups)
    ensures g.name.value in N.LiveCounts(before.groups) ==> N.LiveCounts(after.groups)[g.name.value] == N.LiveCounts(before.groups)[g.name.value]
  {
    N.ScaleCanonical(before, after);
    var n := g.name.value;
    if n in N.LiveCounts(before.groups) || n in N.LiveCounts(after.groups) {
      var i :| 0 <= i < |before.groups| && (before.groups[i].name == Some(n) || after.groups[i].name == Some(n));
      assert before.groups[i] == after.groups[i];
      N.CountOf(before, i);
      N.CountOf(after, i);
    }
  }

  lemma Same(target: N.Job, before: N.Job, after: N.Job)
    requires N.Canonical(target) && N.Canonical(before) && N.IsScaleFor(target, before, after)
    ensures N.Added(N.Substitute(target, before), Some(before)) == N.Added(N.Substitute(target, after), Some(after))
    ensures N.CountEdits(N.Substitute(target, before), Some(before)) == N.CountEdits(N.Substitute(target, after), Some(after))
    ensures (N.Substitute(target, before) == before) == (N.Substitute(target, after) == after)
  {
    N.ScaleCanonical(before, after);
    Back(target, before, after);
    ScaleNames(before, after);
    OneWay(target, before, after);
    OneWay(target, after, before);
    if N.Quiet(target, before) { N.ScaledQuiet(target, before, after); }
    if N.Quiet(target, after) { N.ScaledQuiet(target, after, before); }
  }

  /** A scale undone is a scale. */
  lemma Back(target: N.Job, before: N.Job, after: N.Job)
    requires N.Canonical(before) && N.IsScaleFor(target, before, after)
    ensures N.IsScaleFor(target, after, before)
  {
    forall i | 0 <= i < |after.groups|
      ensures after.groups[i] == before.groups[i]
        || (after.groups[i].Scalable() && after.groups[i].count.Some? && exists n: int :: before.groups[i] == after.groups[i].(count := Some(n)))
    {
      if after.groups[i] != before.groups[i] {
        var m: int :| after.groups[i] == before.groups[i].(count := Some(m));
        var n: int := before.groups[i].count.value;
        assert before.groups[i] == after.groups[i].(count := Some(n));
      }
    }
  }

  lemma OneWay(target: N.Job, before: N.Job, after: N.Job)
    requires N.Canonical(target) && N.Canonical(before) && N.Canonical(after) && N.IsScaleFor(target, before, after)
    requires N.Names(Some(before)) == N.Names(Some(after))
    ensures N.Added(N.Substitute(target, before), Some(before)) <= N.Added(N.Substitute(target, after), Some(after))
    ensures N.CountEdits(N.Substitute(target, before), Some(before)) <= N.CountEdits(N.Substitute(target, after), Some(after))
  {
    var b, a := N.Substitute(target, before), N.Substitute(target, after);
    var bc, ac := N.LiveCounts(before.groups), N.LiveCounts(after.groups);
    forall g | g in N.Added(b, Some(before))
      ensures g in N.Added(a, Some(after))
    {
      var i :| 0 <= i < |b.groups| && b.groups[i] == g;
      Uncounted(before, g.name.value);
      Uncounted(after, g.name.value);
      assert a.groups[i] == target.groups[i] == g;
    }
    forall e | e in N.CountEdits(b, Some(before))
      ensures e in N.CountEdits(a, Some(after))
    {
      var i := N.EditedGroup(target, before, e);
      var g := target.groups[i];
      OtherCountStays(target, before, after, g);
      assert a.groups[i] == g && b.groups[i] == g;
      EditIs(target, before, e, i);
      assert g in a.groups;
    }
  }

  lemma EditIs(target: N.Job, live: N.Job, e: N.CountEdit, i: nat)
    requires N.Canonical(target) && i < |target.groups| && target.groups[i].name == Some(e.name) && !target.groups[i].scaling
    requires e in N.CountEdits(N.Substitute(target, live), Some(live))
    ensures var c := N.LiveCounts(live.groups);
      e.name in c && e == N.CountEdit(e.name, c[e.name], target.groups[i].count) && target.groups[i].count != Some(c[e.name])
  {
    var j, c := N.Substitute(target, live), N.LiveCounts(live.groups);
    var g :| g in j.groups && g.Named() && g.name.value in c && g.count != Some(c[g.name.value]) && e == N.CountEdit(g.name.value, c[g.name.value], g.count);
    var k :| 0 <= k < |j.groups| && j.groups[k] == g;
    N.OneOfName(target, i, target.groups[k]);
    assert g == N.WithCount(target.groups[k], c);
  }

  /** A name no live group has has no live count. */
  lemma Uncounted(live: N.Job, n: string)
    requires n !in N.Names(Some(live))
    ensures n !in N.LiveCounts(live.groups)
  {
  }

  /** The laws assumed of Nomad's plan are those of a plan. */
  lemma PlainIsLawful()
    ensures N.Lawful(Plain)
  {
    forall j: N.Job | N.Canonical(j) { SelfShowsNothing(j); }
    forall j: N.Job, l: N.Job, m: N.Job | N.Canonical(j) && N.Canonical(l) && N.IsScaleFor(j, l, m)
      ensures N.Fresh(Plain, j, Some(l)) == N.Fresh(Plain, j, Some(m))
    {
      Same(j, l, m);
    }
    forall j: N.Job, l: Option<N.Job> | N.Canonical(j) && N.CanonicalLive(l)
      ensures Plain(j, l).added == N.Added(j, l) && Plain(j, l).counts == N.CountEdits(j, l)
      ensures !Plain(j, l).changed ==> Plain(j, l).added == {} && Plain(j, l).counts == {}
    {
      if l == Some(j) { SelfShowsNothing(j); }
    }
  }
}
