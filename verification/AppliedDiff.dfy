/**
 What was detected is what is applied: whenever Nomad accepts a register, the plan of
 the job registered against the live job at that instant is the diff detection saw,
 whatever ran in between.
*/
module AppliedDiff {
  import opened Options
  import opened Store
  import opened Decisions
  import opened Machine
  import opened Base
  import N = Nomad

  /** While the live job is at index `cas`, the spec planned against it shows the diff `h`. */
  ghost predicate Pin(p: N.Plan, now: Option<LiveJob>, raft: nat, cas: nat, spec: N.Job, h: Option<N.DiffHash>) {
    cas <= raft && (IndexOf(now) == cas ==> N.Fresh(p, spec, JobOf(now)) == h)
  }

  /** A deployment's spec is the target with the counts of some live job, and its hash the diff of a plan of it. */
  ghost predicate Origin(p: N.Plan, d: Deployment) {
    && N.Canonical(d.specHash.target)
    && exists before, at :: N.CanonicalLive(at) && d.spec == N.Adjusted(d.specHash.target, before) && d.diffHash == N.HashOf(p(d.spec, at))
  }

  ghost predicate Pinned(p: N.Plan, n: Cluster, d: Deployment) {
    Pin(p, LiveOf(n, d.key), n.raft, d.cas, d.spec, d.diffHash) && Origin(p, d)
  }

  /** A live job read earlier: it is the live one still, or the index moved past it. */
  ghost predicate Snapshot(n: Cluster, k: Key, live: Option<LiveJob>) {
    IndexOf(live) <= n.raft && (IndexOf(LiveOf(n, k)) == IndexOf(live) ==> LiveOf(n, k) == live)
  }

  ghost predicate PcPinned(p: N.Plan, n: Cluster, d: Deployment, pc: Pc) {
    match pc
    case LiveRead(live) => Snapshot(n, d.key, live)
    case PlannedAt(job) =>
      var live := LiveOf(n, d.key);
      IndexOf(live) == d.cas ==> job == N.Adjusted(d.spec, JobOf(live)) && p(job, JobOf(live)).changed
    case ScaledTo(index) => Pin(p, LiveOf(n, d.key), n.raft, index, d.spec, d.diffHash)
    case _ => true
  }

  /** What a cycle read and planned holds while the live job is at the index it read. */
  ghost predicate Observed(p: N.Plan, n: Cluster, t: Todo, o: Seen) {
    && N.Canonical(t.g.job)
    && o.index <= n.raft
    && exists before, at ::
         && N.CanonicalLive(at) && o.job == N.Adjusted(t.g.job, before) && o.diff == N.HashOf(p(o.job, at))
         && (IndexOf(LiveOf(n, t.key)) == o.index ==> before == at == JobOf(LiveOf(n, t.key)))
  }

  ghost predicate DetectionPinned(p: N.Plan, n: Cluster, det: Detection) {
    && (match det
        case Parsed(git, _) => CanonicalGit(git)
        case PausesRead(git, _, _) => CanonicalGit(git)
        case AllPauseRead(git, _, _, _) => CanonicalGit(git)
        case Idle => true
        case _ => CanonicalGit(det.c.git))
    && match det
    case Begun(c, t) => N.Canonical(t.g.job)
    case JobRead(c, t, live) => N.Canonical(t.g.job) && Snapshot(n, t.key, live)
    case Planned(c, t, o) => Observed(p, n, t, o)
    case Waiting(c, t, o, _, _) => Observed(p, n, t, o)
    case Moved(c, t, o, _, _) => Observed(p, n, t, o)
    case Cleared(c, t, o) => Observed(p, n, t, o)
    case LatestRead(c, t, o, _, _) => Observed(p, n, t, o)
    case _ => true
  }

  ghost predicate RowsPinned(p: N.Plan, n: Cluster, rows: seq<Deployment>) {
    forall i :: 0 <= i < |rows| ==> Pinned(p, n, rows[i])
  }

  ghost predicate CopiesPinned(p: N.Plan, n: Cluster, copies: set<(Id, Deployment)>) {
    forall id, d :: (id, d) in copies ==> Pinned(p, n, d)
  }

  ghost predicate WorkersPinned(p: N.Plan, n: Cluster, workers: map<Id, Worker>) {
    forall id :: id in workers ==> Pinned(p, n, workers[id].d) && PcPinned(p, n, workers[id].d, workers[id].pc)
  }

  ghost predicate AllPinned(p: N.Plan, s: Sys) {
    && RowsPinned(p, s.nomad, s.db.rows)
    && CopiesPinned(p, s.nomad, s.copies)
    && WorkersPinned(p, s.nomad, s.workers)
    && DetectionPinned(p, s.nomad, s.det)
  }

  // -- a step of the cluster keeps every pin -----------------------------------------------

  lemma PinStays(p: N.Plan, n: Cluster, after: Cluster, d: Deployment, pc: Pc)
    requires Moves(n, after)
    ensures Pinned(p, n, d) ==> Pinned(p, after, d)
    ensures Pinned(p, n, d) && PcPinned(p, n, d, pc) ==> PcPinned(p, after, d, pc)
  {
    assert LiveOf(after, d.key) == LiveOf(n, d.key) || IndexOf(LiveOf(after, d.key)) > n.raft;
  }

  lemma DetectionStays(p: N.Plan, n: Cluster, after: Cluster, det: Detection)
    requires Moves(n, after) && DetectionPinned(p, n, det)
    ensures DetectionPinned(p, after, det)
  {
    hide Moves;
    match det
    case JobRead(c, t, live) => MovesAt(n, after, t.key);
    case Planned(c, t, o) => ObservedStays(p, n, after, t, o);
    case Waiting(c, t, o, _, _) => ObservedStays(p, n, after, t, o);
    case Moved(c, t, o, _, _) => ObservedStays(p, n, after, t, o);
    case Cleared(c, t, o) => ObservedStays(p, n, after, t, o);
    case LatestRead(c, t, o, _, _) => ObservedStays(p, n, after, t, o);
    case _ =>
  }

  lemma ObservedStays(p: N.Plan, n: Cluster, after: Cluster, t: Todo, o: Seen)
    requires Moves(n, after) && Observed(p, n, t, o)
    ensures Observed(p, after, t, o)
  {
    assert LiveOf(after, t.key) == LiveOf(n, t.key) || IndexOf(LiveOf(after, t.key)) > n.raft;
    var before, at :| N.CanonicalLive(at) && o.job == N.Adjusted(t.g.job, before) && o.diff == N.HashOf(p(o.job, at))
                      && (IndexOf(LiveOf(n, t.key)) == o.index ==> before == at == JobOf(LiveOf(n, t.key)));
    assert o.job == N.Adjusted(t.g.job, before) && o.diff == N.HashOf(p(o.job, at));
  }

  lemma MovesAt(n: Cluster, after: Cluster, k: Key)
    requires Moves(n, after)
    ensures n.raft <= after.raft && (LiveOf(after, k) == LiveOf(n, k) || IndexOf(LiveOf(after, k)) > n.raft)
  {
  }

  // -- the three ways a cas index comes to be -------------------------------------------------

  /** A created deployment: the plan it was made from was against the job read, or the index moved on. */
  lemma CreatedPinned(p: N.Plan, n: Cluster, t: Todo, o: Seen, latestId: Option<Id>, latest: Option<Deployment>)
    requires Observed(p, n, t, o) && (latestId.Some? <==> latest.Some?)
    requires NewDeployment(t.key, t.g, t.hold, t.liftedBy, latestId, latest, o.index, o.job, o.diff).Some?
    ensures Pinned(p, n, NewDeployment(t.key, t.g, t.hold, t.liftedBy, latestId, latest, o.index, o.job, o.diff).value)
  {
    var d := NewDeployment(t.key, t.g, t.hold, t.liftedBy, latestId, latest, o.index, o.job, o.diff).value;
    var before, at :| N.CanonicalLive(at) && o.job == N.Adjusted(t.g.job, before) && o.diff == N.HashOf(p(o.job, at))
                      && (IndexOf(LiveOf(n, t.key)) == o.index ==> before == at == JobOf(LiveOf(n, t.key)));
    assert d.spec == N.Adjusted(d.specHash.target, before) && d.diffHash == N.HashOf(p(d.spec, at));
    if before.Some? {
      N.SubstituteIdempotent(t.g.job, before.value);
    }
  }

  /** The groups two equal diffs add are the same, so a spec adjusted to one live job adjusts to the other. */
  lemma SameDiffSameSpec(p: N.Plan, target: N.Job, before: Option<N.Job>, at: Option<N.Job>, now: Option<N.Job>)
    requires N.Lawful(p) && N.Canonical(target) && N.CanonicalLive(at) && N.CanonicalLive(now)
    requires N.HashOf(p(N.Adjusted(target, before), at)).Some?
    requires N.HashOf(p(N.Adjusted(target, before), at)) == N.Fresh(p, target, now)
    ensures N.Adjusted(N.Adjusted(target, before), now) == N.Adjusted(target, now)
  {
    var was, new' := N.Adjusted(target, before), N.Adjusted(target, now);
    N.AdjustedCanonical(target, before);
    N.AdjustedCanonical(target, now);
    assert N.Added(was, at) == N.Added(new', now);
    hide *;
    AddedSameSpec(target, before, at, now);
  }

  lemma AddedSameSpec(target: N.Job, before: Option<N.Job>, at: Option<N.Job>, now: Option<N.Job>)
    requires N.Canonical(target) && N.CanonicalLive(now)
    requires N.Added(N.Adjusted(target, before), at) == N.Added(N.Adjusted(target, now), now)
    ensures N.Adjusted(N.Adjusted(target, before), now) == N.Adjusted(target, now)
  {
    if before.None? {
      assert N.Adjusted(target, before) == target;
    } else {
      assert N.Adjusted(target, before) == N.Substitute(target, before.value);
      var b := N.LiveCounts(before.value.groups);
      forall g | g in target.groups && g.Scalable() && g.name.value in b && g.name.value !in N.Names(now)
        ensures g.count == Some(b[g.name.value])
      {
        hide *;
        CountGone(target, before.value, at, now, g);
      }
      match now
      case Some(l) =>
        NamesCounted(l);
        assert N.CountsCarryOver(target, before.value, l);
        hide *;
        N.SubstituteComposes(target, before.value, l);
        AdjustedIs(N.Substitute(target, before.value), l);
        AdjustedIs(target, l);
      case None =>
        assert N.Substitute(target, before.value).groups == target.groups;
    }
  }

  lemma AdjustedIs(job: N.Job, l: N.Job)
    ensures N.Adjusted(job, Some(l)) == N.Substitute(job, l)
  {
  }

  lemma NamesCounted(l: N.Job)
    requires N.Canonical(l)
    ensures forall n :: n in N.Names(Some(l)) ==> n in N.LiveCounts(l.groups)
  {
    forall n | n in N.Names(Some(l))
      ensures n in N.LiveCounts(l.groups)
    {
      var g :| g in l.groups && g.Named() && g.name.value == n;
      var i :| 0 <= i < |l.groups| && l.groups[i] == g;
      N.CountKnown(l.groups, i);
    }
  }

  /** A count copied from a live group that is gone since is the target's own. */
  lemma CountGone(target: N.Job, before: N.Job, at: Option<N.Job>, now: Option<N.Job>, g: N.Group)
    requires N.Added(N.Substitute(target, before), at) == N.Added(N.Adjusted(target, now), now)
    requires g in target.groups && g.Scalable() && g.name.value in N.LiveCounts(before.groups) && g.name.value !in N.Names(now)
    ensures g.count == Some(N.LiveCounts(before.groups)[g.name.value])
  {
    var b := N.LiveCounts(before.groups);
    var i :| 0 <= i < |target.groups| && target.groups[i] == g;
    assert N.Adjusted(target, now).groups[i] == g;
    assert g in N.Added(N.Adjusted(target, now), now);
    var j :| 0 <= j < |target.groups| && N.WithCount(target.groups[j], b) == g;
  }

  /** A cas index a cycle moves on: the diff it saw is the deployment's own spec's. */
  lemma FollowedPin(p: N.Plan, n: Cluster, t: Todo, o: Seen, d: Deployment)
    requires N.Lawful(p) && Observed(p, n, t, o) && Origin(p, d) && d.key == t.key
    requires d.specHash == HashOf(t.g) && SameDiff(d.diffHash, o.diff)
    ensures Pin(p, LiveOf(n, d.key), n.raft, o.index, d.spec, d.diffHash)
  {
    if IndexOf(LiveOf(n, t.key)) == o.index {
      var now := JobOf(LiveOf(n, t.key));
      assert o.diff == N.Fresh(p, t.g.job, now) && N.CanonicalLive(now);
      var before, at :| N.CanonicalLive(at) && d.spec == N.Adjusted(t.g.job, before) && d.diffHash == N.HashOf(p(d.spec, at));
      SameDiffSameSpec(p, t.g.job, before, at, now);
    }
  }

  // -- the diff of a spec, through scales and registers ------------------------------------

  /** After a deployment's own register the target it came from shows nothing to apply. */
  lemma RegisteredInSync(p: N.Plan, target: N.Job, before: Option<N.Job>, live: Option<N.Job>)
    requires N.Lawful(p) && N.Canonical(target)
    ensures N.Fresh(p, target, Some(N.Adjusted(N.Adjusted(target, before), live))) == None
  {
    var spec := N.Adjusted(target, before);
    var now := N.Adjusted(spec, live);
    N.AdjustedCanonical(target, before);
    N.AdjustedCanonical(spec, live);
    assert N.Canonical(now) && !p(now, Some(now)).changed;
    hide N.Lawful, N.Canonical;
    forall i | 0 <= i < |target.groups|
      ensures now.groups[i] == target.groups[i] || (target.groups[i].Scalable() && now.groups[i] == target.groups[i].(count := now.groups[i].count))
    {
      AdjustedGroup(target, before, i);
      AdjustedGroup(spec, live, i);
    }
    CanonicalGroups(now);
    N.QuietByGroup(target, now);
  }

  lemma CanonicalGroups(job: N.Job)
    requires N.Canonical(job)
    ensures forall i :: 0 <= i < |job.groups| ==> job.groups[i].Group?
  {
  }

  lemma AdjustedGroup(job: N.Job, live: Option<N.Job>, i: nat)
    requires i < |job.groups|
    ensures var r := N.Adjusted(job, live);
      && |r.groups| == |job.groups| && r.cfg == job.cfg && r.body == job.body
      && (r.groups[i] == job.groups[i] || (job.groups[i].Scalable() && r.groups[i] == job.groups[i].(count := r.groups[i].count)))
  {
  }

  /** A plan that shows nothing, even one of a spec with counts read earlier, is a live job in sync. */
  lemma NothingIsInSync(p: N.Plan, target: N.Job, before: Option<N.Job>, read: Option<N.Job>, now: Option<N.Job>)
    requires N.Lawful(p) && N.Canonical(target) && N.CanonicalLive(now)
    requires N.HashOf(p(N.Adjusted(N.Adjusted(target, before), read), now)) == None
    ensures N.Fresh(p, target, now) == None
  {
    var spec := N.Adjusted(target, before);
    var job := N.Adjusted(spec, read);
    N.AdjustedCanonical(target, before);
    N.AdjustedCanonical(spec, read);
    assert N.Added(job, now) == {} && N.CountEdits(job, now) == {};
    forall i | 0 <= i < |target.groups|
      ensures job.groups[i] == target.groups[i] || (target.groups[i].Scalable() && job.groups[i] == target.groups[i].(count := job.groups[i].count))
    {
      AdjustedGroup(target, before, i);
      AdjustedGroup(spec, read, i);
    }
    if |target.groups| > 0 {
      AdjustedGroup(target, before, 0);
      AdjustedGroup(spec, read, 0);
    }
    hide N.Lawful;
    SameCounts(target, job, now);
  }

  /** A job with no group to add and no count to edit has the counts of the live one already. */
  lemma SameCounts(target: N.Job, job: N.Job, now: Option<N.Job>)
    requires N.Canonical(job) && N.CanonicalLive(now) && N.Added(job, now) == {} && N.CountEdits(job, now) == {}
    requires |job.groups| == |target.groups| && job.cfg == target.cfg && job.body == target.body
    requires forall i :: 0 <= i < |target.groups| ==>
      job.groups[i] == target.groups[i] || (target.groups[i].Scalable() && job.groups[i] == target.groups[i].(count := job.groups[i].count))
    ensures N.Adjusted(target, now) == job
  {
    forall i | 0 <= i < |job.groups|
      ensures now.Some? && N.WithCount(target.groups[i], N.LiveCounts(now.value.groups)) == job.groups[i]
    {
      AddedOrEdited(job, now, job.groups[i]);
    }
    assert N.Adjusted(target, now).groups == job.groups;
  }

  lemma AddedOrEdited(job: N.Job, now: Option<N.Job>, g: N.Group)
    requires N.CanonicalLive(now) && g in job.groups && g.Named()
    ensures g.name.value !in N.Names(now) ==> g in N.Added(job, now)
    ensures g.name.value in N.Names(now) ==>
      var c := N.LiveCounts(now.value.groups);
      && g.name.value in c
      && (g.count != Some(c[g.name.value]) ==> N.CountEdit(g.name.value, c[g.name.value], g.count) in N.CountEdits(job, now))
  {
    if now.Some? { NamesCounted(now.value); }
  }

  // -- every step keeps every pin ---------------------------------------------------------------

  /** What a store call needs so that the rows stay pinned. */
  ghost predicate CallPinned(p: N.Plan, n: Cluster, db: Db, c: Store.Call) {
    && (c.Create? ==> Pinned(p, n, c.d))
    && (c.MoveCas? && ErrorOf(db, c).None? ==>
          Pin(p, LiveOf(n, db.rows[c.id].key), n.raft, c.casTo, db.rows[c.id].spec, db.rows[c.id].diffHash))
  }

  lemma CallKeepsRows(p: N.Plan, n: Cluster, db: Db, c: Store.Call)
    requires RowsPinned(p, n, db.rows) && CallPinned(p, n, db, c)
    ensures RowsPinned(p, n, Exec(db, c).rows)
  {
    hide N.Fresh;
    var after := Exec(db, c);
    forall i | 0 <= i < |after.rows|
      ensures Pinned(p, n, after.rows[i])
    {
      if i < |db.rows| {
        assert Pinned(p, n, db.rows[i]);
        RowAfter(db, c, i);
        OriginOf(p, db.rows[i], after.rows[i]);
      } else {
        OriginOf(p, c.d, after.rows[i]);
      }
    }
  }

  /** A call changes a row's cas index only by a move that succeeds. */
  lemma RowAfter(db: Db, c: Store.Call, i: nat)
    requires i < |db.rows|
    ensures i < |Exec(db, c).rows| && RowGrows(db.rows[i], Exec(db, c).rows[i])
    ensures Exec(db, c).rows[i].cas == if c.MoveCas? && c.id == i && ErrorOf(db, c).None? then c.casTo else db.rows[i].cas
  {
    ExecGrows(db, c);
  }

  lemma OriginOf(p: N.Plan, d: Deployment, e: Deployment)
    requires e.specHash == d.specHash && e.spec == d.spec && e.diffHash == d.diffHash
    ensures Origin(p, d) ==> Origin(p, e)
  {
    if Origin(p, d) {
      var before, at :| N.CanonicalLive(at) && d.spec == N.Adjusted(d.specHash.target, before) && d.diffHash == N.HashOf(p(d.spec, at));
      assert e.spec == N.Adjusted(e.specHash.target, before) && e.diffHash == N.HashOf(p(e.spec, at));
    }
  }

  lemma RowKeeps(d: Deployment, e: Deployment)
    requires RowGrows(d, e)
    ensures e.key == d.key && e.specHash == d.specHash && e.spec == d.spec && e.diffHash == d.diffHash
  {
  }

  lemma CallsPinned(p: N.Plan, s: Sys, a: Action)
    requires N.Lawful(p) && Copies(s) && CanonicalCluster(s) && AllPinned(p, s)
    ensures CallPinned(p, s.nomad, s.db, CallOf(s, a))
  {
    hide *;
    var c := CallOf(s, a);
    MovesKnown(s.db, c);
    if c.MoveCas? && ErrorOf(s.db, c).None? {
      MovePinned(p, s, a, c);
    } else if c.Create? {
      CreateOrigin(s, a);
      LatestObserved(p, s);
      CreatedPinned(p, s.nomad, s.det.t, s.det.o, s.det.latestId, s.det.latest);
    }
    CallPinnedIs(p, s.nomad, s.db, c);
  }

  lemma MovesKnown(db: Db, c: Store.Call)
    ensures c.MoveCas? && ErrorOf(db, c).None? ==> c.id < |db.rows|
  {
  }

  lemma LatestObserved(p: N.Plan, s: Sys)
    requires AllPinned(p, s) && s.det.LatestRead?
    ensures Observed(p, s.nomad, s.det.t, s.det.o)
  {
    hide Observed, Pin, Origin;
  }

  lemma CallPinnedIs(p: N.Plan, n: Cluster, db: Db, c: Store.Call)
    requires hide *; c.Create? ==> Pinned(p, n, c.d)
    requires c.MoveCas? && ErrorOf(db, c).None? ==> c.id < |db.rows|
    requires c.MoveCas? && ErrorOf(db, c).None? ==>
      Pin(p, LiveOf(n, db.rows[c.id].key), n.raft, c.casTo, db.rows[c.id].spec, db.rows[c.id].diffHash)
    ensures CallPinned(p, n, db, c)
  {
    hide Pinned, Pin, ErrorOf;
  }

  lemma MovePinned(p: N.Plan, s: Sys, a: Action, c: Store.Call)
    requires hide *; N.Lawful(p) && Copies(s) && CanonicalCluster(s) && AllPinned(p, s)
    requires c == CallOf(s, a) && c.MoveCas? && c.id < |s.db.rows| && ErrorOf(s.db, c).None?
    ensures Pin(p, LiveOf(s.nomad, s.db.rows[c.id].key), s.nomad.raft, c.casTo, s.db.rows[c.id].spec, s.db.rows[c.id].diffHash)
  {
    hide *;
    MoveCasOrigin(s, a);
    if a.TryMove? { CycleMoves(p, s, c); } else { StepMoves(p, s, a.id, c); }
  }

  lemma CycleMoves(p: N.Plan, s: Sys, c: Store.Call)
    requires hide *; N.Lawful(p) && Copies(s) && CanonicalCluster(s) && AllPinned(p, s) && s.det.Waiting?
    requires c == MoveCas(s.det.id, s.det.d.state, s.det.d.cas, s.det.o.index) && c.id < |s.db.rows| && ErrorOf(s.db, c).None?
    requires Follows(s.det.t.g.job.cfg, Decisions.HashOf(s.det.t.g), s.det.d, s.det.o.index, s.det.o.diff)
    ensures Pin(p, LiveOf(s.nomad, s.db.rows[c.id].key), s.nomad.raft, c.casTo, s.db.rows[c.id].spec, s.db.rows[c.id].diffHash)
  {
    var d := s.db.rows[c.id];
    RowKeeps(s.det.d, d);
    assert Observed(p, s.nomad, s.det.t, s.det.o) && Origin(p, d) && SameDiff(d.diffHash, s.det.o.diff);
    hide *;
    FollowedPin(p, s.nomad, s.det.t, s.det.o, d);
  }

  lemma StepMoves(p: N.Plan, s: Sys, id: Id, c: Store.Call)
    requires hide *; Copies(s) && AllPinned(p, s) && id in s.workers && s.workers[id].pc.ScaledTo?
    requires c == MoveCas(id, Applying, s.workers[id].d.cas, s.workers[id].pc.index) && id < |s.db.rows| && ErrorOf(s.db, c).None?
    ensures Pin(p, LiveOf(s.nomad, s.db.rows[id].key), s.nomad.raft, c.casTo, s.db.rows[id].spec, s.db.rows[id].diffHash)
  {
    RowKeeps(s.workers[id].d, s.db.rows[id]);
    hide Pin, Origin, Observed, DetectionPast;
  }

  /** A worker's program counter after a step. */
  lemma WorkedPinned(p: N.Plan, s: Sys, id: Id, w: Worker, work: Work)
    requires hide *; Indexed(s.nomad) && Pinned(p, s.nomad, w.d) && PcPinned(p, s.nomad, w.d, w.pc)
    ensures var e := Worked(p, s, id, w, work);
      e.next.Some? ==> Pinned(p, s.nomad, e.next.value.d) && PcPinned(p, s.nomad, e.next.value.d, e.next.value.pc)
  {
    var e := Worked(p, s, id, w, work);
    WorkedKeeps(p, s, id, w, work);
    hide *;
    if e.next.Some? {
      PinnedLike(p, s.nomad, w.d, e.next.value.d);
      RegisterPinned(p, s.nomad, w.d, w.pc, work);
      OtherPc(p, s.nomad, w.d, w.pc, e.next.value);
      HealthPc(p, LiveOf(s.nomad, w.d.key), s.db, id, w.d, w.pc, work);
      HookPc(s.db.runs, id, w.d, w.pc, work);
      WorkedCases(p, s, id, w, work);
      assert e.next.value.pc.Deciding? ==> !RegisterPc(e.next.value.pc) by { NotRegisterPc(e.next.value.pc); }
    }
  }

  lemma NotRegisterPc(pc: Pc)
    ensures pc.Deciding? ==> !RegisterPc(pc)
  {
  }

  lemma WorkedKeeps(p: N.Plan, s: Sys, id: Id, w: Worker, work: Work)
    ensures hide *; var e := Worked(p, s, id, w, work); e.next.Some? ==> e.next.value.d.(applied := w.d.applied) == w.d
    ensures var e := RegisterStep(p, LiveOf(s.nomad, w.d.key), w.d, w.pc, work); e.next.Some? ==> e.next.value.d == w.d
  {
    hide RegisterStep, HealthStep, HookStep;
  }

  lemma PinnedLike(p: N.Plan, n: Cluster, d: Deployment, e: Deployment)
    requires Pinned(p, n, d) && e.(applied := d.applied) == d
    ensures Pinned(p, n, e)
  {
    OriginOf(p, d, e);
  }

  /** The read and the plan of the register step, taken at two instants. */
  lemma RegisterPinned(p: N.Plan, n: Cluster, d: Deployment, pc: Pc, work: Work)
    requires Indexed(n) && PcPinned(p, n, d, pc)
    ensures var e := RegisterStep(p, LiveOf(n, d.key), d, pc, work);
      e.next.Some? ==> PcPinned(p, n, d, e.next.value.pc)
  {
  }

  predicate RegisterPc(pc: Pc) {
    pc.LiveRead? || pc.PlannedAt? || pc.ScaledTo?
  }

  lemma OtherPc(p: N.Plan, n: Cluster, d: Deployment, pc: Pc, next: Worker)
    requires PcPinned(p, n, d, pc) && next.d.(applied := d.applied) == d
    ensures next.pc == pc || !RegisterPc(next.pc) ==> PcPinned(p, n, next.d, next.pc)
  {
  }

  /** Only the register step reaches its own program counters. */
  lemma HookPc(runs: map<RunKey, HookRun>, id: Id, d: Deployment, pc: Pc, work: Work)
    ensures var e := HookStep(runs, id, d, pc, work); e.next.Some? ==> e.next.value.pc == pc || !RegisterPc(e.next.value.pc)
  {
  }

  lemma HealthPc(p: N.Plan, now: Option<LiveJob>, db: Db, id: Id, d: Deployment, pc: Pc, work: Work)
    ensures var e := HealthStep(p, now, db, id, d, pc, work); e.next.Some? ==> e.next.value.pc == pc || !RegisterPc(e.next.value.pc)
  {
    hide ErrorOf;
  }

  lemma CopiesStay(p: N.Plan, s: Sys, a: Action)
    requires AllPinned(p, s)
    ensures CopiesPinned(p, s.nomad, CopiesAfter(s, a))
  {
    hide Pinned, DetectionPinned;
  }

  lemma WorkersStay(p: N.Plan, s: Sys, a: Action)
    requires Indexed(s.nomad) && AllPinned(p, s)
    ensures WorkersPinned(p, s.nomad, WorkersAfter(p, s, a))
  {
    hide Pinned, DetectionPinned, Worked;
    if a.Step? && a.id in s.workers {
      WorkedPinned(p, s, a.id, s.workers[a.id], a.work);
    }
  }

  lemma PlannedObserved(p: N.Plan, n: Cluster, t: Todo, live: Option<LiveJob>)
    requires N.Canonical(t.g.job) && Snapshot(n, t.key, live) && N.CanonicalLive(JobOf(LiveOf(n, t.key)))
    ensures var job := N.Adjusted(t.g.job, JobOf(live));
      Observed(p, n, t, Seen(IndexOf(live), job, N.HashOf(p(job, JobOf(LiveOf(n, t.key))))))
  {
    var job, at := N.Adjusted(t.g.job, JobOf(live)), JobOf(LiveOf(n, t.key));
    assert job == N.Adjusted(t.g.job, JobOf(live)) && N.HashOf(p(job, at)) == N.HashOf(p(job, at));
  }

  /** The live jobs are canonical, as Nomad makes them. */
  ghost predicate CanonicalCluster(s: Sys) {
    CanonicalGit(s.world.git) && forall k :: k in s.nomad.live ==> N.Canonical(s.nomad.live[k].job)
  }

  lemma LookPinned(p: N.Plan, s: Sys, a: Action)
    requires Indexed(s.nomad) && CanonicalCluster(s) && DetectionPinned(p, s.nomad, s.det)
    ensures DetectionPinned(p, s.nomad, Look(p, s, a))
  {
    hide Observed, N.Canonical;
    if a.PlanJob? && s.det.JobRead? {
      PlannedObserved(p, s.nomad, s.det.t, s.det.live);
    }
  }

  lemma ActedPinned(p: N.Plan, s: Sys, a: Action)
    requires DetectionPinned(p, s.nomad, s.det)
    ensures DetectionPinned(p, s.nomad, Acted(s, a))
  {
    hide Observed, Review, DetectCall, N.Canonical;
  }

  lemma DetectionPinnedAfter(p: N.Plan, s: Sys, a: Action)
    requires Indexed(s.nomad) && CanonicalCluster(s) && DetectionPinned(p, s.nomad, s.det)
    ensures DetectionPinned(p, s.nomad, DetectionAfter(p, s, a))
  {
    assert DetectionPinned(p, s.nomad, Idle);
    hide Look, Acted, DetectionPinned;
    LookPinned(p, s, a);
    ActedPinned(p, s, a);
  }

  lemma SpecCanonical(p: N.Plan, d: Deployment)
    requires Origin(p, d)
    ensures N.Canonical(d.spec)
  {
    var before, at :| N.CanonicalLive(at) && d.spec == N.Adjusted(d.specHash.target, before) && d.diffHash == N.HashOf(p(d.spec, at));
    N.AdjustedCanonical(d.specHash.target, before);
  }

  /** A job a register puts in place is canonical: it is the spec with the counts of the live job. */
  lemma NextCanonical(p: N.Plan, s: Sys, a: Action)
    requires CanonicalCluster(s) && AllPinned(p, s)
    ensures CanonicalCluster(Next(p, s, a))
  {
    hide CallOf, Exec, DetectionAfter, CopiesAfter, SentAfter, WorkersAfter, HookStep, HealthStep, DetectionPinned, Origin, N.Canonical, N.IsScale, N.Adjusted, RowsPinned, CopiesPinned, Pin;
    if a.Step? && a.id in s.workers && EffectOf(p, s, a).register.Some? {
      var d := s.workers[a.id].d;
      SpecCanonical(p, d);
      N.AdjustedCanonical(d.spec, JobOf(LiveOf(s.nomad, d.key)));
    }
    if a.Scale? && a.key in s.nomad.live && N.IsScale(s.nomad.live[a.key].job, a.job) {
      N.ScaleCanonical(s.nomad.live[a.key].job, a.job);
    }
  }

  /** A pin held before a step of the cluster is held after it. */
  lemma PinsStay(p: N.Plan, n: Cluster, after: Cluster, rows: seq<Deployment>, copies: set<(Id, Deployment)>, workers: map<Id, Worker>)
    requires Moves(n, after) && RowsPinned(p, n, rows) && CopiesPinned(p, n, copies) && WorkersPinned(p, n, workers)
    ensures RowsPinned(p, after, rows) && CopiesPinned(p, after, copies) && WorkersPinned(p, after, workers)
  {
    hide Pinned, PcPinned, Moves;
    forall d: Deployment { PinStays(p, n, after, d, Ready); }
    forall id | id in workers
      ensures Pinned(p, after, workers[id].d) && PcPinned(p, after, workers[id].d, workers[id].pc)
    {
      PinStays(p, n, after, workers[id].d, workers[id].pc);
    }
  }

  lemma NextPinned(p: N.Plan, s: Sys, a: Action)
    requires N.Lawful(p) && Basic(s) && CanonicalCluster(s) && AllPinned(p, s)
    ensures AllPinned(p, Next(p, s, a))
  {
    var after := Next(p, s, a);
    CallsPinned(p, s, a);
    CallKeepsRows(p, s.nomad, s.db, CallOf(s, a));
    CopiesStay(p, s, a);
    WorkersStay(p, s, a);
    DetectionPinnedAfter(p, s, a);
    NextMoves(p, s, a);
    hide Exec, CallOf, DetectionAfter, CopiesAfter, WorkersAfter, DetectionPinned, RowsPinned, CopiesPinned, WorkersPinned, Moves, Change, SentAfter, WorldAfter, ClusterAfter, Sound, Copies, N.Lawful, CanonicalCluster, CallPinned;
    PinsStay(p, s.nomad, after.nomad, after.db.rows, after.copies, after.workers);
    DetectionStays(p, s.nomad, after.nomad, after.det);
  }

  lemma {:induction false} RunPinned(p: N.Plan, s: Sys, acts: seq<Action>)
    requires N.Lawful(p) && Initial(s)
    ensures CanonicalCluster(Run(p, s, acts)) && AllPinned(p, Run(p, s, acts))
  {
    hide *;
    if acts == [] {
      RunStart(p, s);
      InitialPinned(p, s);
    } else {
      var most := acts[..|acts| - 1];
      RunPinned(p, s, most);
      RunBasic(p, s, most);
      RunLast(p, s, acts);
      NextPinned(p, Run(p, s, most), acts[|acts| - 1]);
      NextCanonical(p, Run(p, s, most), acts[|acts| - 1]);
    }
  }

  lemma InitialPinned(p: N.Plan, s: Sys)
    requires Initial(s)
    ensures CanonicalCluster(s) && AllPinned(p, s)
  {
  }

  // -- the theorems --------------------------------------------------------------------------------

  /** Nomad accepts the register a step of the deployment's worker asks for now. */
  predicate Accepted(p: N.Plan, s: Sys, id: Id) {
    EffectOf(p, s, Step(id, Register)).register.Some?
  }

  /**
   In every run, a register Nomad accepts for a deployment registers its spec with the live
   counts, and the plan of that job against the live job it replaces is the diff recorded when
   the deployment was detected. That plan shows drift: a register that would change nothing is
   never made, and so none for a deployment that recorded no diff, which only runs again.
  */
  lemma RegistersTheDetectedDiff(p: N.Plan, s: Sys, acts: seq<Action>, id: Id)
    requires N.Lawful(p) && Initial(s)
    requires Accepted(p, Run(p, s, acts), id)
    ensures id < |Run(p, s, acts).db.rows|
    ensures var now := Run(p, s, acts);
      var d := now.db.rows[id];
      var live := JobOf(LiveOf(now.nomad, d.key));
      var job := EffectOf(p, now, Step(id, Register)).register.value;
      && job == N.Adjusted(d.spec, live)
      && p(job, live).changed
      && N.HashOf(p(job, live)) == d.diffHash
  {
    hide Run, Initial, N.Lawful;
    RunPinned(p, s, acts);
    RunBasic(p, s, acts);
    var now := Run(p, s, acts);
    RowKeeps(now.workers[id].d, now.db.rows[id]);
    AcceptedAtPin(p, now, id);
  }

  /** A register Nomad accepts is at an index the copy was pinned at. */
  lemma AcceptedAtPin(p: N.Plan, s: Sys, id: Id)
    requires WorkersPinned(p, s.nomad, s.workers) && Accepted(p, s, id)
    ensures id in s.workers
    ensures var d := s.workers[id].d;
      var live := LiveOf(s.nomad, d.key);
      var job := EffectOf(p, s, Step(id, Register)).register.value;
      && s.workers[id].pc.PlannedAt? && IndexOf(live) == d.cas
      && job == N.Adjusted(d.spec, JobOf(live)) && p(job, JobOf(live)).changed
      && N.HashOf(p(job, JobOf(live))) == d.diffHash
  {
    hide Origin, HealthStep, HookStep;
    assert s.workers[id].pc.PlannedAt?;
  }

  /** Every cas index a deployment ever held was such an index, and is one as long as the live job is at it. */
  lemma EveryCasIndexPins(p: N.Plan, s: Sys, acts: seq<Action>, i: nat, id: Id)
    requires hide *; N.Lawful(p) && Initial(s) && i <= |acts| && id < |Run(p, s, acts[..i]).db.rows|
    ensures id < |Run(p, s, acts).db.rows|
    ensures var held := Run(p, s, acts[..i]).db.rows[id].cas;
      var now := Run(p, s, acts);
      var d := now.db.rows[id];
      var live := LiveOf(now.nomad, d.key);
      held <= now.nomad.raft && (IndexOf(live) == held ==> N.Fresh(p, d.spec, JobOf(live)) == d.diffHash)
  {
    RunPinned(p, s, acts[..i]);
    Base.RunGrows(p, s, acts, i);
    RunMoves(p, s, acts, i);
    var was, now := Run(p, s, acts[..i]), Run(p, s, acts);
    assert Pinned(p, was.nomad, was.db.rows[id]);
    PinStays(p, was.nomad, now.nomad, was.db.rows[id], Ready);
    assert RowGrows(was.db.rows[id], now.db.rows[id]);
  }

  lemma {:induction false} RunMoves(p: N.Plan, s: Sys, acts: seq<Action>, i: nat)
    requires hide *; Initial(s) && i <= |acts|
    ensures Moves(Run(p, s, acts[..i]).nomad, Run(p, s, acts).nomad)
  {
    hide *;
    if i == |acts| {
      assert acts[..i] == acts;
      MovesReflexive(Run(p, s, acts).nomad);
    } else {
      var most := acts[..|acts| - 1];
      assert most[..i] == acts[..i];
      RunMoves(p, s, most, i);
      RunBasic(p, s, most);
      BasicParts(Run(p, s, most));
      RunLast(p, s, acts);
      NextMoves(p, Run(p, s, most), acts[|acts| - 1]);
      MovesTransitive(Run(p, s, acts[..i]).nomad, Run(p, s, most).nomad, Run(p, s, acts).nomad);
    }
  }

  lemma MovesReflexive(n: Cluster)
    ensures Moves(n, n)
  {
  }

  lemma MovesTransitive(a: Cluster, b: Cluster, c: Cluster)
    requires Moves(a, b) && Moves(b, c)
    ensures Moves(a, c)
  {
    forall k
      ensures LiveOf(c, k) == LiveOf(a, k) || (LiveOf(c, k).Some? && LiveOf(c, k).value.index > a.raft)
    {
      assert LiveOf(b, k) == LiveOf(a, k) || LiveOf(b, k).value.index > a.raft;
      assert LiveOf(c, k) == LiveOf(b, k) || LiveOf(c, k).value.index > b.raft;
    }
  }
}
