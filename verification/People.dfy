/**
 What a person's step writes, exactly: the deployment moved or marked with their name and the
 event of it, or nothing at all. What a crash and the start of a step do to the process.
*/
module People {
  import opened Options
  import opened Store
  import opened Machine
  import opened Base
  import Nomad

  /** The one row written, with its event. */
  predicate Wrote(db: Db, after: Db, id: Id, d: Deployment, who: string) {
    && id < |db.rows|
    && after == db.(rows := db.rows[id := d], events := db.events + [Event(id, Some(db.rows[id].state), d.state, Person(who))])
  }

  /** A decision is of a deployment that waits for it; an approval names the spec hash the person saw. */
  lemma DecisionsWrite(s: Sys, a: Action)
    requires a.Approve? || a.Reject?
    ensures var db, after := s.db, Exec(s.db, CallOf(s, a));
      if a.id < |db.rows| && db.rows[a.id].state == PendingApproval && (a.Approve? ==> db.rows[a.id].specHash == a.hash)
      then
        var d := db.rows[a.id];
        var to := if a.Reject? then Rejected
                  else if d.spec.cfg.pre != [] && (d.retryOf.None? || d.hasPlan) then PreHook
                  else Applying;
        Wrote(db, after, a.id, d.(state := to, decidedBy := Some(Person(a.who))), a.who)
      else after == db
  {
  }

  /** A retry marks a failed or rejected deployment once, and a promotion is asked for while it applies. */
  lemma RequestsWrite(s: Sys, a: Action)
    requires a.Retry? || a.AskPromotion?
    ensures var db, after := s.db, Exec(s.db, CallOf(s, a));
      if a.Retry? && a.id < |db.rows| && db.rows[a.id].state in {Failed, Rejected} && db.rows[a.id].retriedBy.None?
      then Wrote(db, after, a.id, db.rows[a.id].(retriedBy := Some(Person(a.who))), a.who)
      else if a.AskPromotion? && a.id < |db.rows| && db.rows[a.id].state == Applying
      then Wrote(db, after, a.id, db.rows[a.id], a.who)
      else after == db
  {
    if a.id < |s.db.rows| { assert s.db.rows[a.id := s.db.rows[a.id]] == s.db.rows; }
  }

  /** What a person does touches the store and nothing else. */
  lemma PersonWrites(p: Nomad.Plan, s: Sys, a: Action)
    requires IsHuman(a)
    ensures Next(p, s, a) == s.(db := Next(p, s, a).db)
    ensures a.DeployNow? ==> Next(p, s, a).db == s.db.(lifts := s.db.lifts[a.key := Lift(a.hash, Person(a.who))])
    ensures a.Approve? || a.Reject? || a.Retry? || a.AskPromotion? ==> Next(p, s, a).db == Exec(s.db, CallOf(s, a))
  {
  }

  /** A crash loses the locals of both loops and nothing else. */
  lemma CrashForgets(p: Nomad.Plan, s: Sys)
    ensures Next(p, s, Crash) == s.(det := Idle, copies := {}, workers := map[])
  {
    NothingWritten(s.db);
  }

  /** A step is started from a copy the apply loop listed, for a deployment with none in flight; else nothing happens. */
  lemma StartsOneStep(p: Nomad.Plan, s: Sys, id: Id, d: Deployment)
    ensures Next(p, s, Take(id, d)) == if (id, d) in s.copies && id !in s.workers then s.(workers := s.workers[id := Worker(d, Ready)]) else s
  {
    NothingWritten(s.db);
  }
}
