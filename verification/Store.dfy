/**
 The store: deployments, their audit log, hook runs and window lifts. Each store call
 is one transaction, written as a function on the rows (`Db`); module Database performs
 them in place.
*/
module Store {
  import opened Options
  import Nomad

  // -- rows ----------------------------------------------------------------------

  datatype State =
    | Detected | PendingApproval | PreHook | Applying | PostHook
    | Completed | Failed | Rejected | Superseded

  predicate IsActive(s: State) {
    s in {Detected, PendingApproval, PreHook, Applying, PostHook}
  }

  /** The legal moves; terminal states have no exits. */
  function Allowed(from: State): set<State> {
    match from
    case Detected => {PendingApproval, PreHook, Applying, Completed, Failed, Superseded}
    case PendingApproval => {PreHook, Applying, Rejected, Superseded, Completed}
    case PreHook => {Applying, Failed}
    case Applying => {PostHook, Completed, Failed}
    case PostHook => {Completed, Failed}
    case _ => {}
  }

  type Id = nat

  datatype Key = Key(namespace: string, job: string)

  datatype Actor = Nops | Person(name: string)

  datatype DeployPolicy = Auto | Approval

  datatype Phase = Pre | Post

  /** What a job's combined hash covers: the target spec and a line for each declared hook. */
  datatype Mark = Missing | Invalid | Spec(text: string)

  datatype HookLine = HookLine(phase: Phase, id: string, mark: Mark)

  /** The collision-free combined hash (see module HookRev for its text). */
  datatype SpecHash = SpecHash(target: Nomad.Job, lines: seq<HookLine>)

  datatype FrozenHook = FrozenHook(phase: Phase, position: nat, id: string, spec: string)

  datatype Deployment = Deployment(
    key: Key, specHash: SpecHash, spec: Nomad.Job, hasPlan: bool, diffHash: Option<Nomad.DiffHash>,
    policy: DeployPolicy, state: State, error: string, cas: nat, applied: Option<nat>, version: Option<nat>,
    decidedBy: Option<Actor>, retriedBy: Option<Actor>, retryOf: Option<Id>, liftedBy: Option<Actor>,
    waiting: bool, promoted: bool, hooks: seq<FrozenHook>)

  datatype Event = Event(dep: Id, from: Option<State>, to: State, actor: Actor)

  datatype RunState = Dispatching | Running | RunSucceeded | RunFailed | RunTimedOut

  predicate Terminal(s: RunState) {
    s in {RunSucceeded, RunFailed, RunTimedOut}
  }

  datatype RunKey = RunKey(dep: Id, phase: Phase, position: nat)

  datatype HookRun = HookRun(state: RunState, child: Option<string>)

  datatype Lift = Lift(specHash: SpecHash, actor: Actor)

  /** Deployments in the order they were created: an ID is a place in `rows`. */
  datatype Db = Db(rows: seq<Deployment>, events: seq<Event>, runs: map<RunKey, HookRun>, lifts: map<Key, Lift>)

  const EMPTY := Db([], [], map[], map[])

  datatype Error = Refused | InvalidTransition | StateConflict | NotFound | ActiveExists | AlreadyRetried

  // -- reads ---------------------------------------------------------------------

  /** AppliedIndex as the engine reads it: zero until the register is recorded. */
  function AppliedIndex(d: Deployment): nat {
    d.applied.GetOr(0)
  }

  /** The active deployment of a job: the last one, were there more than the lock allows. */
  function ActiveOf(rows: seq<Deployment>, k: Key): (r: Option<Id>)
    ensures r.Some? ==> r.value < |rows| && rows[r.value].key == k && IsActive(rows[r.value].state)
    ensures r.None? ==> forall i :: 0 <= i < |rows| ==> !(rows[i].key == k && IsActive(rows[i].state))
  {
    if rows == [] then None
    else
      var n := |rows| - 1;
      if rows[n].key == k && IsActive(rows[n].state) then Some(n) else ActiveOf(rows[..n], k)
  }

  /** The most recently created deployment of a job. */
  function LatestOf(rows: seq<Deployment>, k: Key): (r: Option<Id>)
    ensures r.Some? ==> r.value < |rows| && rows[r.value].key == k
    ensures r.Some? ==> forall i :: r.value < i < |rows| ==> rows[i].key != k
    ensures r.None? ==> forall i :: 0 <= i < |rows| ==> rows[i].key != k
  {
    if rows == [] then None
    else
      var n := |rows| - 1;
      if rows[n].key == k then Some(n) else LatestOf(rows[..n], k)
  }

  // -- writes --------------------------------------------------------------------

  /** One store call. */
  datatype Call =
    | Create(d: Deployment)
    | Transition(id: Id, from: State, to: State, actor: Actor, error: string, decided: bool)
    | SetApplied(id: Id, index: nat, version: nat)
    | MoveCas(id: Id, state: State, casFrom: nat, casTo: nat)
    | MoveApplied(id: Id, appliedFrom: nat, appliedTo: nat)
    | MarkRetried(id: Id, actor: Actor)
    | MarkWaiting(id: Id)
    | MarkPromoted(id: Id)
    | RequestPromotion(id: Id, actor: Actor)
    | EnsureRun(run: RunKey)
    | UpdateRun(run: RunKey, state': RunState, child: Option<string>)
    | RequestLift(key: Key, specHash: SpecHash, actor: Actor)
    | DropLift(key: Key)
    | NoCall

  /** Why a call writes nothing, if it does not. */
  function ErrorOf(db: Db, c: Call): Option<Error> {
    match c
    case Create(d) =>
      if d.state !in {Detected, PendingApproval, Failed} || (d.state == Failed) != (d.error != "") then Some(Refused)
      else if IsActive(d.state) && ActiveOf(db.rows, d.key).Some? then Some(ActiveExists)
      else None
    case Transition(id, from, to, _, _, _) =>
      if to !in Allowed(from) then Some(InvalidTransition)
      else if id >= |db.rows| then Some(NotFound)
      else if db.rows[id].state != from then Some(StateConflict)
      else None
    case SetApplied(id, index, _) =>
      if index == 0 then Some(Refused)
      else if id >= |db.rows| then Some(NotFound)
      else if db.rows[id].state != Applying then Some(StateConflict)
      else None
    case MoveCas(id, state, from, _) =>
      if state !in {Detected, PendingApproval, Applying} then Some(Refused)
      else if id >= |db.rows| then Some(NotFound)
      else if db.rows[id].state != state || db.rows[id].cas != from || db.rows[id].applied.Some? then Some(StateConflict)
      else None
    case MoveApplied(id, from, _) =>
      if id >= |db.rows| then Some(NotFound)
      else if db.rows[id].state != Applying || db.rows[id].applied != Some(from) then Some(StateConflict)
      else None
    case MarkRetried(id, _) =>
      if id >= |db.rows| then Some(NotFound)
      else if db.rows[id].state in {Failed, Rejected} && db.rows[id].retriedBy.None? then None
      else if db.rows[id].retriedBy.Some? then Some(AlreadyRetried)
      else Some(StateConflict)
    case MarkWaiting(id) => PromotionError(db, id)
    case MarkPromoted(id) => PromotionError(db, id)
    case RequestPromotion(id, _) => PromotionError(db, id)
    case UpdateRun(run, _, _) => if run in db.runs then None else Some(NotFound)
    case _ => None
  }

  function PromotionError(db: Db, id: Id): Option<Error> {
    if id >= |db.rows| then Some(NotFound)
    else if db.rows[id].state != Applying then Some(StateConflict)
    else None
  }

  /** Whether a call writes at all: one already recorded does not. */
  predicate Writes(db: Db, c: Call) {
    && ErrorOf(db, c).None?
    && match c
       case MarkWaiting(id) => !db.rows[id].waiting
       case MarkPromoted(id) => db.rows[id].waiting && !db.rows[id].promoted
       case EnsureRun(run) => run !in db.runs
       case NoCall => false
       case _ => true
  }

  function SetRow(db: Db, id: Id, d: Deployment): Db
    requires id < |db.rows|
  {
    db.(rows := db.rows[id := d])
  }

  function Log(db: Db, e: Event): Db {
    db.(events := db.events + [e])
  }

  /** The events a deployment is born with: the ones of one created detected and moved on. */
  function BirthEvents(id: Id, d: Deployment): seq<Event> {
    [Event(id, None, Detected, Nops)]
    + (if d.liftedBy.Some? then [Event(id, Some(Detected), Detected, d.liftedBy.value)] else [])
    + (if d.state == Detected then [] else [Event(id, Some(Detected), d.state, Nops)])
  }

  function Without<K, V>(m: map<K, V>, k: K): map<K, V> {
    map j | j in m && j != k :: m[j]
  }

  /** The rows after a call that writes. */
  function Written(db: Db, c: Call): Db
    requires Writes(db, c)
  {
    match c
    case Create(d) =>
      var id := |db.rows|;
      Db(db.rows + [d.(applied := None, version := None, decidedBy := None, retriedBy := None, waiting := false, promoted := false)],
         db.events + BirthEvents(id, d), db.runs,
         if d.liftedBy.Some? then Without(db.lifts, d.key) else db.lifts)
    case Transition(id, from, to, actor, error, decided) =>
      var d := db.rows[id];
      Log(SetRow(db, id, d.(state := to, error := if error != "" then error else d.error,
                            decidedBy := if decided then Some(actor) else d.decidedBy)),
          Event(id, Some(from), to, actor))
    case SetApplied(id, index, version) =>
      SetRow(db, id, db.rows[id].(applied := Some(index), version := Some(version)))
    case MoveCas(id, state, _, to) =>
      Log(SetRow(db, id, db.rows[id].(cas := to)), Event(id, Some(state), state, Nops))
    case MoveApplied(id, _, to) =>
      Log(SetRow(db, id, db.rows[id].(applied := Some(to))), Event(id, Some(Applying), Applying, Nops))
    case MarkRetried(id, actor) =>
      var st := db.rows[id].state;
      Log(SetRow(db, id, db.rows[id].(retriedBy := Some(actor))), Event(id, Some(st), st, actor))
    case MarkWaiting(id) =>
      Log(SetRow(db, id, db.rows[id].(waiting := true)), Event(id, Some(Applying), Applying, Nops))
    case MarkPromoted(id) =>
      Log(SetRow(db, id, db.rows[id].(promoted := true)), Event(id, Some(Applying), Applying, Nops))
    case RequestPromotion(id, actor) => Log(db, Event(id, Some(Applying), Applying, actor))
    case EnsureRun(run) => db.(runs := db.runs[run := HookRun(Dispatching, None)])
    case UpdateRun(run, st, child) =>
      db.(runs := db.runs[run := HookRun(st, if child.Some? then child else db.runs[run].child)])
    case RequestLift(k, h, actor) => db.(lifts := db.lifts[k := Lift(h, actor)])
    case DropLift(k) => db.(lifts := Without(db.lifts, k))
  }

  function Exec(db: Db, c: Call): Db {
    if Writes(db, c) then Written(db, c) else db
  }

  lemma NothingWritten(db: Db)
    ensures Exec(db, NoCall) == db
  {
  }

  function ExecAll(db: Db, cs: seq<Call>): Db {
    if cs == [] then db else Exec(ExecAll(db, cs[..|cs| - 1]), cs[|cs| - 1])
  }

  // -- the event log is the state --------------------------------------------------

  /** How far along a state is: every legal move goes strictly up. */
  function Rank(s: State): nat {
    match s
    case Detected => 0
    case PendingApproval => 1
    case PreHook => 2
    case Applying => 3
    case PostHook => 4
    case _ => 5
  }

  /** One event followed from the state before it, if it continues from there legally. */
  function Follow(st: Option<State>, e: Event): (r: Option<State>) {
    if st.None? then if e.from.None? && e.to == Detected then Some(Detected) else None
    else if e.from == st && (e.to == st.value || e.to in Allowed(st.value)) then Some(e.to)
    else None
  }

  /** Whether a deployment's events, in order, are a chain of legal moves and self-loops from nothing. */
  predicate Chained(events: seq<Event>, id: Id) {
    events == [] ||
    var n := |events| - 1;
    && Chained(events[..n], id)
    && (events[n].dep == id ==> Follow(Folded(events[..n], id), events[n]).Some?)
  }

  /** The state a deployment's events fold to, none for one without events. */
  function Folded(events: seq<Event>, id: Id): Option<State> {
    if events == [] then None
    else
      var n := |events| - 1;
      if events[n].dep == id then Some(events[n].to) else Folded(events[..n], id)
  }

  /** How many times a deployment's events enter a state from another. */
  function Entries(events: seq<Event>, id: Id, s: State): nat {
    if events == [] then 0
    else
      var n := |events| - 1;
      Entries(events[..n], id, s) + if events[n].dep == id && events[n].to == s && events[n].from != Some(s) then 1 else 0
  }

  ghost predicate LogIsState(db: Db) {
    forall id: Id ::
      && Chained(db.events, id)
      && Folded(db.events, id) == if id < |db.rows| then Some(db.rows[id].state) else None
  }

  /** The per-job lock. */
  ghost predicate OneActive(db: Db) {
    forall i, j ::
      (0 <= i < |db.rows| && 0 <= j < |db.rows| && db.rows[i].key == db.rows[j].key
       && IsActive(db.rows[i].state) && IsActive(db.rows[j].state))
      ==> i == j
  }

  ghost predicate Sound(db: Db) {
    LogIsState(db) && OneActive(db)
  }

  lemma {:induction false} AppendChained(events: seq<Event>, e: Event, id: Id)
    ensures Chained(events + [e], id) <==> Chained(events, id) && (e.dep == id ==> Follow(Folded(events, id), e).Some?)
    ensures Folded(events + [e], id) == if e.dep == id then Some(e.to) else Folded(events, id)
    ensures forall s :: Entries(events + [e], id, s) == Entries(events, id, s) + if e.dep == id && e.to == s && e.from != Some(s) then 1 else 0
  {
    assert (events + [e])[..|events|] == events;
  }

  /** A move logged with its row keeps the log in step with the rows. */
  lemma LoggedMove(db: Db, id: Id, d: Deployment, actor: Actor)
    requires LogIsState(db) && id < |db.rows|
    requires d.state == db.rows[id].state || d.state in Allowed(db.rows[id].state)
    ensures LogIsState(Log(SetRow(db, id, d), Event(id, Some(db.rows[id].state), d.state, actor)))
  {
    var e := Event(id, Some(db.rows[id].state), d.state, actor);
    forall i: Id {
      AppendChained(db.events, e, i);
    }
  }

  /** The events of a birth, one after the other. */
  lemma BirthChained(events: seq<Event>, id: Id, d: Deployment, i: Id)
    requires Chained(events, i) && Folded(events, id) == None && ErrorOf(EMPTY, Create(d)).None?
    ensures Chained(events + BirthEvents(id, d), i)
    ensures Folded(events + BirthEvents(id, d), i) == if i == id then Some(d.state) else Folded(events, i)
  {
    var e1 := Event(id, None, Detected, Nops);
    var e2 := if d.liftedBy.Some? then [Event(id, Some(Detected), Detected, d.liftedBy.value)] else [];
    var e3 := if d.state == Detected then [] else [Event(id, Some(Detected), d.state, Nops)];
    var l1 := events + [e1];
    assert BirthEvents(id, d) == [e1] + e2 + e3 && d.state in {Detected, PendingApproval, Failed};
    assert Follow(None, e1).Some? && (e2 != [] ==> Follow(Some(Detected), e2[0]).Some?) && (e3 != [] ==> Follow(Some(Detected), e3[0]).Some?);
    hide *;
    assert events + BirthEvents(id, d) == (l1 + e2) + e3;
    AppendChained(events, e1, i);
    if e2 != [] { AppendChained(l1, e2[0], i); } else { assert l1 + e2 == l1; }
    if e3 != [] { AppendChained(l1 + e2, e3[0], i); } else { assert (l1 + e2) + e3 == l1 + e2; }
  }

  lemma BornLogged(db: Db, d: Deployment)
    requires LogIsState(db) && ErrorOf(db, Create(d)).None?
    ensures LogIsState(Written(db, Create(d)))
  {
    forall i: Id { BirthChained(db.events, |db.rows|, d, i); }
    hide BirthEvents, Chained, Folded;
  }

  /** Every store call keeps the log in step with the rows. */
  lemma ExecKeepsLog(db: Db, c: Call)
    requires LogIsState(db)
    ensures LogIsState(Exec(db, c))
  {
    if Writes(db, c) {
      var after := Written(db, c);
      match c
      case Create(d) => BornLogged(db, d);
      case Transition(id, from, to, actor, error, decided) => LoggedMove(db, id, after.rows[id], actor);
      case MoveCas(id, _, _, _) => LoggedMove(db, id, after.rows[id], Nops);
      case MoveApplied(id, _, _) => LoggedMove(db, id, after.rows[id], Nops);
      case MarkRetried(id, actor) => LoggedMove(db, id, after.rows[id], actor);
      case MarkWaiting(id) => LoggedMove(db, id, after.rows[id], Nops);
      case MarkPromoted(id) => LoggedMove(db, id, after.rows[id], Nops);
      case RequestPromotion(id, actor) =>
        LoggedMove(db, id, db.rows[id], actor);
        assert db.rows[id := db.rows[id]] == db.rows;
      case _ =>
    }
  }

  /** And the per-job lock: a row becomes active only when it is created. */
  lemma ExecKeepsLock(db: Db, c: Call)
    requires OneActive(db)
    ensures OneActive(Exec(db, c))
  {
    hide Folded, Chained;
  }

  lemma ExecKeepsSound(db: Db, c: Call)
    requires Sound(db)
    ensures Sound(Exec(db, c))
  {
    hide Exec, LogIsState, OneActive;
    ExecKeepsLog(db, c);
    ExecKeepsLock(db, c);
  }

  lemma {:induction false} EventLogIsState(cs: seq<Call>)
    ensures Sound(ExecAll(EMPTY, cs))
  {
    if cs != [] {
      EventLogIsState(cs[..|cs| - 1]);
      ExecKeepsSound(ExecAll(EMPTY, cs[..|cs| - 1]), cs[|cs| - 1]);
    }
  }

  /** The states a deployment may come from. */
  function EnteredFrom(to: State): set<State> {
    match to
    case Detected => {}
    case PendingApproval => {Detected}
    case PreHook => {Detected, PendingApproval}
    case Applying => {Detected, PendingApproval, PreHook}
    case PostHook => {Applying}
    case Completed => {Detected, PendingApproval, Applying, PostHook}
    case Failed => {Detected, PreHook, Applying, PostHook}
    case Rejected => {PendingApproval}
    case Superseded => {Detected, PendingApproval}
  }

  /** The moves, told by where they lead: one under approval cannot fail, and only one that waits is rejected or superseded. */
  lemma AllowedFrom(from: State, to: State)
    ensures to in Allowed(from) <==> from in EnteredFrom(to)
    ensures to in Allowed(from) ==> Rank(from) < Rank(to)
  {
  }

  /** A wait and a promotion are each written once, the promotion only after a wait, and only while applying. */
  lemma MarksOnce(db: Db, id: Id)
    ensures Writes(db, MarkWaiting(id)) <==> id < |db.rows| && db.rows[id].state == Applying && !db.rows[id].waiting
    ensures Writes(db, MarkPromoted(id)) <==> id < |db.rows| && db.rows[id].state == Applying && db.rows[id].waiting && !db.rows[id].promoted
    ensures !Writes(Exec(db, MarkWaiting(id)), MarkWaiting(id)) && !Writes(Exec(db, MarkPromoted(id)), MarkPromoted(id))
  {
  }

  /** The actor of a call that writes to one deployment's row or log, with an event of it. */
  function Logs(c: Call): Option<(Id, Actor)> {
    match c
    case Transition(id, _, _, actor, _, _) => Some((id, actor))
    case MoveCas(id, _, _, _) => Some((id, Nops))
    case MoveApplied(id, _, _) => Some((id, Nops))
    case MarkRetried(id, actor) => Some((id, actor))
    case MarkWaiting(id) => Some((id, Nops))
    case MarkPromoted(id) => Some((id, Nops))
    case RequestPromotion(id, actor) => Some((id, actor))
    case _ => None
  }

  /** Each of those adds exactly one event to the log, of the state the row was in and the one it is in now; no other call but a create adds any. */
  lemma LogsEachWrite(db: Db, c: Call)
    requires Writes(db, c) && !c.Create?
    ensures var after := Exec(db, c);
      if Logs(c).None? then after.events == db.events
      else
        var (id, actor) := Logs(c).value;
        id < |db.rows| && after.events == db.events + [Event(id, Some(db.rows[id].state), after.rows[id].state, actor)]
  {
  }

  /** A chain of legal moves enters each state at most once: it only goes up in rank. */
  lemma {:induction false} EntersOnce(events: seq<Event>, id: Id, s: State)
    requires Chained(events, id)
    ensures Entries(events, id, s) <= 1
    ensures Entries(events, id, s) == 1 ==>
              Folded(events, id).Some? && (Rank(s) < Rank(Folded(events, id).value) || Folded(events, id).value == s)
  {
    if events != [] {
      EntersOnce(events[..|events| - 1], id, s);
    }
  }

  // -- what a deployment keeps through every call -----------------------------------

  /** What a later version of a row keeps of an earlier one. */
  ghost predicate RowGrows(d: Deployment, e: Deployment) {
    && e.key == d.key && e.specHash == d.specHash && e.spec == d.spec && e.hasPlan == d.hasPlan && e.diffHash == d.diffHash
    && e.policy == d.policy && e.retryOf == d.retryOf && e.liftedBy == d.liftedBy && e.hooks == d.hooks
    && (e.state == d.state || Rank(d.state) < Rank(e.state))
    && (d.retriedBy.Some? ==> e.retriedBy == d.retriedBy)
    && (d.applied.Some? ==> e.applied.Some?)
    && (!IsActive(d.state) ==> e.state == d.state && e.cas == d.cas && e.applied == d.applied)
  }

  ghost predicate RunGrows(r: HookRun, s: HookRun) {
    r.child.Some? ==> s.child.Some?
  }

  ghost predicate Grows(db: Db, after: Db) {
    && |db.rows| <= |after.rows|
    && (forall i :: 0 <= i < |db.rows| ==> RowGrows(db.rows[i], after.rows[i]))
    && db.events <= after.events
    && (forall k :: k in db.runs ==> k in after.runs && RunGrows(db.runs[k], after.runs[k]))
  }

  lemma ExecGrows(db: Db, c: Call)
    ensures Grows(db, Exec(db, c))
  {
    if Writes(db, c) {
      assert Exec(db, c) == Written(db, c);
      hide *;
      if c.Create? { CreateGrows(db, c); } else if c.Transition? { MoveGrows(db, c); } else { RestGrows(db, c); }
    }
  }

  lemma CreateGrows(db: Db, c: Call)
    requires Writes(db, c) && c.Create?
    ensures Grows(db, Written(db, c))
  {
    hide BirthEvents, Without;
  }

  lemma MoveGrows(db: Db, c: Call)
    requires Writes(db, c) && c.Transition?
    ensures Grows(db, Written(db, c))
  {
  }

  lemma RestGrows(db: Db, c: Call)
    requires Writes(db, c) && !c.Create? && !c.Transition?
    ensures Grows(db, Written(db, c))
  {
    hide Without, Rank;
  }

  lemma GrowsTransitive(a: Db, b: Db, c: Db)
    requires Grows(a, b) && Grows(b, c)
    ensures Grows(a, c)
  {
    forall i | 0 <= i < |a.rows|
      ensures RowGrows(a.rows[i], c.rows[i])
    {
      assert RowGrows(a.rows[i], b.rows[i]) && RowGrows(b.rows[i], c.rows[i]);
    }
  }
}
