/**
 The steps of a run as one job sees them, and what its ledger says of them: two deployments
 of a job, one after the other, have an event between their cycles, or a race.
*/
module Beats {
  import opened Options
  import opened JobLedger

  /** The things of a job a cycle reads, each at a time of its own. */
  datatype Part = GitPart | PausePart | AllPausePart | WindowPart | LivePart | RetryPart

  /**
   A step, as a job sees it: the events it brings, what the cycle under way has read, the
   races, whether it creates a deployment of the job, registers the job or sees a deployment of
   it end otherwise than by the cycle, and whether that cycle acts on its plan of the job, or
   is over after the step.
  */
  datatype Beat = Beat(heard: Parts, known: Parts, stray: bool, torn: bool, creates: bool, registers: bool, ends: bool, acting: bool, over: bool)

  predicate Has(ps: Parts, x: Part) {
    match x
    case GitPart => ps.git
    case PausePart => ps.pause
    case AllPausePart => ps.allPause
    case WindowPart => ps.window
    case LivePart => ps.live
    case RetryPart => ps.retry
  }

  predicate Flag(w: Ledger, x: Part) {
    match x
    case GitPart => w.git
    case PausePart => w.pause
    case AllPausePart => w.allPause
    case WindowPart => w.window
    case LivePart => w.live
    case RetryPart => w.retry
  }

  /** The ledger after a step, before a cycle's end hands everything to the next. */
  function Noted(w: Ledger, b: Beat): Ledger {
    Book(w, b.heard, b.known, b.stray, b.torn || (b.creates && w.overtaken), b.creates, b.acting && (w.overtaken || b.registers || b.ends))
  }

  function Beaten(w: Ledger, b: Beat): Ledger {
    if b.over then HandOver(Noted(w, b)) else Noted(w, b)
  }

  /** The ledger after the first n steps. */
  function Tally(bs: seq<Beat>, n: nat): Ledger
    requires n <= |bs|
  {
    if n == 0 then OPENING else Beaten(Tally(bs, n - 1), bs[n - 1])
  }

  // -- events and races ------------------------------------------------------------------------------

  predicate CreatesAt(bs: seq<Beat>, m: nat)
    requires m < |bs|
  {
    bs[m].creates
  }

  /** The m-th step is an event that calls for a deployment: what it changes of the job. */
  predicate Calls(bs: seq<Beat>, m: nat, x: Part)
    requires m < |bs|
  {
    Has(bs[m].heard, x)
  }

  /** The cycle under way at the m-th step has read that. */
  predicate ReadBy(bs: seq<Beat>, m: nat, x: Part)
    requires m < |bs|
  {
    Has(bs[m].known, x)
  }

  /** Where the cycle under way started, or the next one may. */
  function CycleStart(bs: seq<Beat>, n: nat): (m: nat)
    requires n <= |bs|
    ensures m <= n
  {
    if n == 0 || bs[n - 1].over then n else CycleStart(bs, n - 1)
  }

  /** An event the cycle that created at i did not see, and the one under way at n does not know of yet, or read. */
  predicate EventAt(bs: seq<Beat>, i: nat, n: nat, m: nat, x: Part)
    requires i <= n <= |bs|
  {
    && CycleStart(bs, i) <= m < n && Calls(bs, m, x)
    && (m <= i ==> ReadBy(bs, m, x))
    && (CycleStart(bs, n) <= m ==> !ReadBy(bs, m, x))
  }

  ghost predicate EventBetween(bs: seq<Beat>, i: nat, n: nat)
    requires i <= n <= |bs|
  {
    exists m, x :: EventAt(bs, i, n, m, x)
  }

  predicate IsLive(x: Part) {
    x.LivePart?
  }

  /** The same, of anything but the live job: git, a pause, the window, a retry. */
  ghost predicate CalledBetween(bs: seq<Beat>, i: nat, n: nat)
    requires i <= n <= |bs|
  {
    exists m, x :: !IsLive(x) && EventAt(bs, i, n, m, x)
  }

  /** Between a cycle's plan of the job and its create, the job is registered. */
  predicate RegistersAt(bs: seq<Beat>, r: nat)
    requires r < |bs|
  {
    bs[r].acting && bs[r].registers
  }

  /** Or a deployment of it ends, and not by the cycle: completed, failed, or rejected. */
  predicate EndsAt(bs: seq<Beat>, r: nat)
    requires r < |bs|
  {
    bs[r].acting && bs[r].ends
  }

  predicate OvertakesAt(bs: seq<Beat>, r: nat)
    requires r < |bs|
  {
    RegistersAt(bs, r) || EndsAt(bs, r)
  }

  ghost predicate OvertakenSince(bs: seq<Beat>, n: nat)
    requires n <= |bs|
  {
    exists r :: CycleStart(bs, n) <= r < n && OvertakesAt(bs, r)
  }

  /** The three races: a change of the live job between a cycle's read and its plan, a stale copy's register, a create from an overtaken plan. */
  ghost predicate RaceAt(bs: seq<Beat>, m: nat)
    requires m < |bs|
  {
    bs[m].torn || bs[m].stray || (CreatesAt(bs, m) && OvertakenSince(bs, m))
  }

  ghost predicate RaceBetween(bs: seq<Beat>, i: nat, n: nat)
    requires i <= n <= |bs|
  {
    exists m :: CycleStart(bs, i) <= m < n && RaceAt(bs, m)
  }

  /** The last create of the job before a step. */
  function Last(bs: seq<Beat>, n: nat): (r: Option<nat>)
    requires n <= |bs|
    ensures r.Some? ==> r.value < n && CreatesAt(bs, r.value)
    ensures forall m: nat :: (r.None? || r.value < m) && m < n ==> !CreatesAt(bs, m)
  {
    if n == 0 then None else if CreatesAt(bs, n - 1) then Some(n - 1) else Last(bs, n - 1)
  }

  lemma {:induction false} StartUp(bs: seq<Beat>, i: nat, n: nat)
    requires i <= n <= |bs|
    ensures CycleStart(bs, i) <= CycleStart(bs, n)
    decreases n
  {
    if i < n { StartUp(bs, i, n - 1); }
  }

  // -- what the ledger says of them ------------------------------------------------------------------

  /** A step that leaves a flag: an event the cycle under way had read past, or a race of it. */
  ghost predicate Notes(bs: seq<Beat>, m: nat, x: Part)
    requires m < |bs|
  {
    (Calls(bs, m, x) && ReadBy(bs, m, x)) || (IsLive(x) && RaceAt(bs, m))
  }

  ghost predicate NotedAt(bs: seq<Beat>, n: nat, x: Part)
    requires n <= |bs|
  {
    exists m :: CycleStart(bs, n) <= m < n && Notes(bs, m, x)
  }

  ghost predicate Told(bs: seq<Beat>, n: nat)
    requires n <= |bs|
  {
    var w, last := Tally(bs, n), Last(bs, n);
    && (w.due && last.Some? ==> EventBetween(bs, last.value, n) || RaceBetween(bs, last.value, n))
    && (forall x :: Flag(w, x) ==> NotedAt(bs, n, x))
    && (w.overtaken ==> OvertakenSince(bs, n))
  }

  predicate Unread(b: Beat, x: Part) {
    Has(b.heard, x) && !Has(b.known, x)
  }

  /** What brings a step's due and its flags about. */
  lemma NotedSays(w: Ledger, b: Beat)
    ensures var n, race := Noted(w, b), b.torn || b.stray || (b.creates && w.overtaken);
      && (n.due ==> !b.creates && (w.due || race || exists x :: Unread(b, x)))
      && (forall x :: Flag(n, x) ==> Flag(w, x) || (Has(b.heard, x) && Has(b.known, x)) || (IsLive(x) && race))
      && (n.overtaken ==> b.acting && (w.overtaken || b.registers || b.ends))
  {
    var n := Noted(w, b);
    if n.due && !w.due && !b.torn && !b.stray && !(b.creates && w.overtaken) {
      assert Unread(b, GitPart) || Unread(b, PausePart) || Unread(b, AllPausePart) || Unread(b, WindowPart) || Unread(b, LivePart) || Unread(b, RetryPart);
    }
  }

  lemma HandsOver(n: Ledger)
    ensures var h := HandOver(n); (h.due ==> n.due || exists x :: Flag(n, x)) && (forall x :: !Flag(h, x)) && !h.overtaken
  {
    if n.Later() {
      assert Flag(n, GitPart) || Flag(n, PausePart) || Flag(n, AllPausePart) || Flag(n, WindowPart) || Flag(n, LivePart) || Flag(n, RetryPart);
    }
  }

  /** What a step leaves of an event or a race that came before it. */
  lemma EventLater(bs: seq<Beat>, i: nat, n: nat)
    requires i <= n < |bs|
    ensures EventBetween(bs, i, n) ==> EventBetween(bs, i, n + 1)
    ensures CalledBetween(bs, i, n) ==> CalledBetween(bs, i, n + 1)
    ensures RaceBetween(bs, i, n) ==> RaceBetween(bs, i, n + 1)
  {
    StartUp(bs, n, n + 1);
    hide Calls, ReadBy, RaceAt, CycleStart;
    forall m, x | EventAt(bs, i, n, m, x)
      ensures EventAt(bs, i, n + 1, m, x)
    {
    }
  }

  /** A flag of a step, handed over at the end of the cycle, is of an event or a race since the last create. */
  lemma FlagHanded(bs: seq<Beat>, n: nat, x: Part, i: nat)
    requires i < n < |bs| && Told(bs, n) && bs[n].over && Flag(Noted(Tally(bs, n), bs[n]), x)
    ensures EventBetween(bs, i, n + 1) || RaceBetween(bs, i, n + 1)
    ensures !IsLive(x) ==> CalledBetween(bs, i, n + 1)
  {
    hide *;
    StartUp(bs, i, n);
    NotedHow(bs, n, x);
    StartNext(bs, n);
    var m :| CycleStart(bs, n) <= m <= n && Notes(bs, m, x);
    NotesBetween(bs, i, n + 1, m, x);
  }

  lemma StartNext(bs: seq<Beat>, n: nat)
    requires n < |bs|
    ensures CycleStart(bs, n + 1) == if bs[n].over then n + 1 else CycleStart(bs, n)
  {
  }

  /** A flag after a step is noted at it, or since the cycle started. */
  lemma NotedHow(bs: seq<Beat>, n: nat, x: Part)
    requires n < |bs| && Told(bs, n) && Flag(Noted(Tally(bs, n), bs[n]), x)
    ensures exists m :: CycleStart(bs, n) <= m <= n && Notes(bs, m, x)
  {
    NotedSays(Tally(bs, n), bs[n]);
    hide Noted, EventBetween, RaceBetween, Last, CycleStart;
    if Flag(Tally(bs, n), x) { assert NotedAt(bs, n, x); } else { assert Notes(bs, n, x); }
    hide Tally, Flag;
  }

  /** Noted in a cycle that is over, it is an event or a race since the last create. */
  lemma NotesBetween(bs: seq<Beat>, i: nat, n: nat, m: nat, x: Part)
    requires i <= n <= |bs| && CycleStart(bs, i) <= m < n == CycleStart(bs, n) && Notes(bs, m, x)
    ensures EventBetween(bs, i, n) || RaceBetween(bs, i, n)
    ensures !IsLive(x) ==> CalledBetween(bs, i, n)
  {
    assert EventAt(bs, i, n, m, x) || RaceAt(bs, m);
    hide RaceAt, CycleStart;
  }

  /** What is due after a step that does not create is an event or a race since the last create. */
  lemma DueNext(bs: seq<Beat>, n: nat, i: nat)
    requires i < n < |bs| && Told(bs, n) && Last(bs, n) == Some(i) && Noted(Tally(bs, n), bs[n]).due
    ensures EventBetween(bs, i, n + 1) || RaceBetween(bs, i, n + 1)
  {
    NotedSays(Tally(bs, n), bs[n]);
    assert Tally(bs, n).overtaken ==> OvertakenSince(bs, n);
    assert Tally(bs, n).due ==> EventBetween(bs, i, n) || RaceBetween(bs, i, n);
    hide *;
    StartUp(bs, i, n);
    EventLater(bs, i, n);
    RaceNow(bs, n, i, Tally(bs, n));
    if x :| Unread(bs[n], x) { EventNow(bs, n, i, x); }
  }

  lemma RaceNow(bs: seq<Beat>, n: nat, i: nat, w: Ledger)
    requires i <= n < |bs| && CycleStart(bs, i) <= n && (w.overtaken ==> OvertakenSince(bs, n))
    ensures bs[n].torn || bs[n].stray || (bs[n].creates && w.overtaken) ==> RaceBetween(bs, i, n + 1)
  {
    hide OvertakenSince, CycleStart;
    if bs[n].torn || bs[n].stray || (bs[n].creates && w.overtaken) { assert RaceAt(bs, n); }
  }

  lemma EventNow(bs: seq<Beat>, n: nat, i: nat, x: Part)
    requires i < n < |bs| && CycleStart(bs, i) <= n && Unread(bs[n], x)
    ensures EventBetween(bs, i, n + 1) && (!IsLive(x) ==> CalledBetween(bs, i, n + 1))
  {
    hide CycleStart;
    assert EventAt(bs, i, n + 1, n, x);
  }

  /** A flag that is not handed over is noted for the cycle under way. */
  lemma FlagNext(bs: seq<Beat>, n: nat, x: Part)
    requires n < |bs| && Told(bs, n) && !bs[n].over && Flag(Noted(Tally(bs, n), bs[n]), x)
    ensures NotedAt(bs, n + 1, x)
  {
    hide *;
    StartNext(bs, n);
    NotedHow(bs, n, x);
    NotedOn(bs, n + 1, x);
  }

  lemma NotedOn(bs: seq<Beat>, n: nat, x: Part)
    requires 0 < n <= |bs| && exists m :: CycleStart(bs, n) <= m < n && Notes(bs, m, x)
    ensures NotedAt(bs, n, x)
  {
  }

  lemma OvertakenNext(bs: seq<Beat>, n: nat)
    requires n < |bs| && Told(bs, n) && !bs[n].over
    ensures Noted(Tally(bs, n), bs[n]).overtaken ==> OvertakenSince(bs, n + 1)
  {
    NotedSays(Tally(bs, n), bs[n]);
    assert Tally(bs, n).overtaken ==> OvertakenSince(bs, n);
    assert bs[n].acting && (bs[n].registers || bs[n].ends) ==> OvertakesAt(bs, n);
    hide Tally, Noted, Told, EventBetween, RaceBetween, OvertakesAt;
  }

  lemma TellsNext(bs: seq<Beat>, n: nat)
    requires n < |bs| && Told(bs, n) && (bs[n].creates ==> !bs[n].over) && (bs[n].acting ==> !bs[n].over)
    ensures Told(bs, n + 1)
  {
    hide Noted, Book, EventBetween, RaceBetween, NotedAt, OvertakenSince, CycleStart;
    var b, v, last := bs[n], Noted(Tally(bs, n), bs[n]), Last(bs, n);
    NotedSays(Tally(bs, n), b);
    HandsOver(v);
    if !b.over { OvertakenNext(bs, n); }
    if last.Some? && v.due && !b.creates { DueNext(bs, n, last.value); }
    forall x | Flag(v, x)
      ensures !b.over ==> NotedAt(bs, n + 1, x)
      ensures b.over && last.Some? ==> EventBetween(bs, last.value, n + 1) || RaceBetween(bs, last.value, n + 1)
    {
      if b.over { if last.Some? { FlagHanded(bs, n, x, last.value); } } else { FlagNext(bs, n, x); }
    }
  }

  /** A create goes on with its cycle, and so does one that acts. */
  predicate GoesOn(bs: seq<Beat>) {
    forall m :: 0 <= m < |bs| ==> (bs[m].creates ==> !bs[m].over) && (bs[m].acting ==> !bs[m].over)
  }

  lemma GoesOnWhen(bs: seq<Beat>)
    ensures GoesOn(bs) <==> forall m :: 0 <= m < |bs| ==> (bs[m].creates ==> !bs[m].over) && (bs[m].acting ==> !bs[m].over)
  {
  }

  lemma CallsWhen(bs: seq<Beat>, m: nat, x: Part)
    requires m < |bs|
    ensures Calls(bs, m, x) <==> Has(bs[m].heard, x)
    ensures ReadBy(bs, m, x) <==> Has(bs[m].known, x)
  {
  }

  lemma {:induction false} Tells(bs: seq<Beat>, n: nat)
    requires n <= |bs| && GoesOn(bs)
    ensures Told(bs, n)
    decreases n
  {
    if n > 0 {
      Tells(bs, n - 1);
      TellsNext(bs, n - 1);
    }
  }

  /** Where a create spends what was due, or is from an overtaken plan, two in a row have an event or a race between their cycles. */
  lemma TwoCreates(bs: seq<Beat>, i: nat, j: nat)
    requires i < j < |bs| && GoesOn(bs) && CreatesAt(bs, i) && CreatesAt(bs, j)
    requires forall m: nat :: i < m < j ==> !CreatesAt(bs, m)
    requires Tally(bs, j).due || Tally(bs, j).overtaken
    ensures EventBetween(bs, i, j) || RaceBetween(bs, i, j + 1)
  {
    hide Tally, EventBetween, RaceBetween, CycleStart, Last;
    Tells(bs, j);
    StartUp(bs, i, j);
    EventLater(bs, i, j);
    assert Last(bs, j) == Some(i);
    RaceNow(bs, j, i, Tally(bs, j));
  }

  /** A step that calls for nothing since the last create brings no event the cycle has not read, and leaves no flag at a cycle's end. */
  lemma Uncalled(bs: seq<Beat>, n: nat, i: nat, x: Part)
    requires i < n < |bs| && GoesOn(bs) && !CalledBetween(bs, i, n + 1) && !IsLive(x)
    ensures Has(bs[n].heard, x) ==> Has(bs[n].known, x)
    ensures bs[n].over ==> !Flag(Noted(Tally(bs, n), bs[n]), x)
  {
    Tells(bs, n);
    StartUp(bs, i, n);
    if bs[n].over && Flag(Noted(Tally(bs, n), bs[n]), x) { FlagHanded(bs, n, x, i); }
    if Unread(bs[n], x) { EventNow(bs, n, i, x); }
    hide Tally, CalledBetween, CycleStart, Noted, Told;
  }
}
