/** What the fields of a row say of each other, in every run. */
module Records {
  import opened Options
  import opened Store
  import opened Decisions
  import opened Machine
  import opened Base
  import N = Nomad

  /**
   A deployment says why it failed, and only then; its register is recorded with the version it
   made, from applying on; a promotion is of one that waited for it; a retry is of one that ended.
  */
  predicate Recorded(d: Deployment) {
    && (d.error != "" <==> d.state == Failed)
    && (d.applied.Some? <==> d.version.Some?)
    && (d.applied.Some? || d.waiting ==> Rank(d.state) >= Rank(Applying))
    && (d.promoted ==> d.waiting)
    && (d.retriedBy.Some? ==> d.state in {Failed, Rejected})
  }

  predicate AllRecorded(rows: seq<Deployment>) {
    forall i :: 0 <= i < |rows| ==> Recorded(rows[i])
  }

  /** Every call of a move to failed, and no other, carries a reason. */
  lemma TextsRight(s: Sys, a: Action)
    ensures CallOf(s, a).Transition? ==> (CallOf(s, a).error != "" <==> CallOf(s, a).to == Failed)
  {
    assert "failed" != "";
    hide NewDeployment, Follows, HookCall, HealthCall, RegisterCall, HoldOn, Problem, Decisions.HashOf;
  }

  lemma CallRecords(db: Db, c: Store.Call)
    requires AllRecorded(db.rows) && (c.Transition? ==> (c.error != "" <==> c.to == Failed))
    ensures AllRecorded(Exec(db, c).rows)
  {
    hide ActiveOf;
  }

  lemma {:induction false} RunRecorded(p: N.Plan, s: Sys, acts: seq<Action>)
    requires Initial(s)
    ensures AllRecorded(Run(p, s, acts).db.rows)
  {
    hide *;
    if acts == [] {
      RunStart(p, s);
      NoneRecorded(s);
    } else {
      var most, a := acts[..|acts| - 1], acts[|acts| - 1];
      RunRecorded(p, s, most);
      RunLast(p, s, acts);
      var before := Run(p, s, most);
      NextParts(p, before, a);
      TextsRight(before, a);
      CallRecords(before.db, CallOf(before, a));
    }
  }

  lemma NoneRecorded(s: Sys)
    requires Initial(s)
    ensures AllRecorded(s.db.rows)
  {
  }

  /** In every run. */
  lemma RowsAreRecorded(p: N.Plan, s: Sys, acts: seq<Action>, id: Id)
    requires hide *; Initial(s) && id < |Run(p, s, acts).db.rows|
    ensures Recorded(Run(p, s, acts).db.rows[id])
  {
    RunRecorded(p, s, acts);
    hide Run, Initial, Recorded;
  }
}
