/**
 The limit on failed logins: a map of entries and a queue of them by the end of their
 window, and the history of each username it stands for.
*/
module LoginLimit {
  import opened Options

  // -- the history -------------------------------------------------------------------------

  datatype Event = Fail(name: string, at: int) | Clear(name: string)

  /** The failures counted since the first one of the window, and when the window ends. */
  datatype Count = Count(count: nat, until: int)

  /** What the history of one username comes to. */
  function Track(history: seq<Event>, name: string, window: int): Option<Count> {
    if history == [] then None
    else
      var n := |history| - 1;
      Step(Track(history[..n], name, window), history[n], name, window)
  }

  function Step(c: Option<Count>, e: Event, name: string, window: int): Option<Count> {
    if e.name != name then c
    else
      match e
      case Clear(_) => None
      case Fail(_, at) =>
        if c.None? || c.value.until <= at then Some(Count(1, at + window))
        else Some(Count(c.value.count + 1, c.value.until))
  }

  /** Whether a username is locked at a time, and for how long. */
  function Answer(history: seq<Event>, name: string, window: int, max: nat, now: int): (int, bool) {
    var c := Track(history, name, window);
    if c.None? || c.value.until <= now || c.value.count < max then (0, false) else (c.value.until - now, true)
  }

  lemma TrackAppend(history: seq<Event>, e: Event, name: string, window: int)
    ensures Track(history + [e], name, window) == Step(Track(history, name, window), e, name, window)
  {
    assert (history + [e])[..|history|] == history;
  }

  /** The i-th event is a failure that locked the username. */
  ghost predicate Locks(history: seq<Event>, i: nat, name: string, window: int, max: nat)
    requires i < |history|
  {
    && history[i].Fail? && history[i].name == name
    && Track(history[..i + 1], name, window).Some? && Track(history[..i + 1], name, window).value.count == max
  }

  /** Something between two events ends the window: a login, or a failure past its end. */
  ghost predicate Ended(history: seq<Event>, i: nat, j: nat, name: string, until: int)
    requires i < j <= |history|
  {
    exists k :: i < k < j && history[k].name == name && (history[k].Clear? || history[k].at >= until)
  }

  /** From a lock on, to the end of the window, the count is past the limit. */
  lemma {:induction false} StaysPast(history: seq<Event>, i: nat, j: nat, name: string, window: int, max: nat)
    requires i < j <= |history| && Locks(history, i, name, window, max)
    requires !Ended(history, i, j, name, Track(history[..i + 1], name, window).value.until)
    ensures var c := Track(history[..j], name, window);
      && c.Some? && c.value.until == Track(history[..i + 1], name, window).value.until
      && c.value.count >= max
      && (j > i + 1 && history[j - 1].name == name ==> c.value.count > max)
  {
    if j > i + 1 {
      var until := Track(history[..i + 1], name, window).value.until;
      assert !Ended(history, i, j - 1, name, until);
      StaysPast(history, i, j - 1, name, window, max);
      assert history[..j] == history[..j - 1] + [history[j - 1]];
      TrackAppend(history[..j - 1], history[j - 1], name, window);
    }
  }

  /** A username is locked once per window: a second lock comes only after a login, or after the window ended. */
  lemma LocksOncePerWindow(history: seq<Event>, i: nat, j: nat, name: string, window: int, max: nat)
    requires i < j < |history| && Locks(history, i, name, window, max) && Locks(history, j, name, window, max)
    ensures Ended(history, i, j + 1, name, Track(history[..i + 1], name, window).value.until)
  {
    if !Ended(history, i, j + 1, name, Track(history[..i + 1], name, window).value.until) {
      StaysPast(history, i, j + 1, name, window, max);
    }
  }

  // -- the limit -----------------------------------------------------------------------------

  /** An entry, or none, for a username, in terms of its history. */
  ghost predicate Stands(history: seq<Event>, window: int, clock: int, name: string, e: Option<Count>) {
    var c := Track(history, name, window);
    if e.Some? then c == e && e.value.count > 0 else c.None? || c.value.until <= clock
  }

  lemma StandsLater(history: seq<Event>, window: int, clock: int, now: int, name: string, e: Option<Count>)
    requires Stands(history, window, clock, name, e) && clock <= now
    ensures Stands(history, window, now, name, e)
    ensures e.Some? && e.value.until <= now ==> Stands(history, window, now, name, None)
  {
  }

  lemma StandsCount(history: seq<Event>, window: int, clock: int, name: string, e: Option<Count>)
    requires Stands(history, window, clock, name, e)
    ensures e.Some? ==> Track(history, name, window) == e && e.value.count > 0
  {
  }

  /** One failure more of a username whose entry, if any, has not ended. */
  lemma StandsFail(history: seq<Event>, window: int, now: int, name: string, e: Option<Count>, k: string, d: Option<Count>)
    requires Stands(history, window, now, name, e) && (e.Some? ==> e.value.until > now) && Stands(history, window, now, k, d)
    ensures var after := history + [Event.Fail(name, now)];
      && Stands(after, window, now, name, Some(if e.Some? then Count(e.value.count + 1, e.value.until) else Count(1, now + window)))
      && (k != name ==> Stands(after, window, now, k, d))
  {
    TrackAppend(history, Event.Fail(name, now), name, window);
    TrackAppend(history, Event.Fail(name, now), k, window);
  }

  lemma StandsClear(history: seq<Event>, window: int, clock: int, name: string, k: string, d: Option<Count>)
    requires Stands(history, window, clock, k, d)
    ensures Stands(history + [Event.Clear(name)], window, clock, k, if k == name then None else d)
  {
    TrackAppend(history, Event.Clear(name), k, window);
  }

  class Failure {
    const key: string
    const until: int
    var count: nat

    constructor (key: string, until: int)
      ensures this.key == key && this.until == until && count == 0
    {
      this.key, this.until, count := key, until, 0;
    }
  }

  /** The queue is sorted by the end of the windows, and holds each username once. */
  ghost predicate Queued(order: seq<Failure>, bound: int) {
    && (forall i, j :: 0 <= i < j < |order| ==> order[i].key != order[j].key && order[i].until <= order[j].until)
    && (forall i :: 0 <= i < |order| ==> order[i].until <= bound)
  }

  ghost predicate InMap(entries: map<string, Failure>, order: seq<Failure>) {
    forall i :: 0 <= i < |order| ==> order[i].key in entries && entries[order[i].key] == order[i]
  }

  ghost predicate InQueue(entries: map<string, Failure>, order: seq<Failure>) {
    forall k :: k in entries ==> entries[k] in order && entries[k].key == k
  }

  /** The map and the queue hold the same entries. */
  ghost predicate Linked(entries: map<string, Failure>, order: seq<Failure>, bound: int) {
    Queued(order, bound) && InMap(entries, order) && InQueue(entries, order)
  }

  function Removed(entries: map<string, Failure>, k: string): map<string, Failure> {
    map j | j in entries && j != k :: entries[j]
  }

  function Cut<T>(s: seq<T>, i: nat): (r: seq<T>)
    requires i < |s|
    ensures |r| == |s| - 1 && forall j :: 0 <= j < |r| ==> r[j] == s[if j < i then j else j + 1]
  {
    s[..i] + s[i + 1..]
  }

  lemma LinkedDrop(entries: map<string, Failure>, order: seq<Failure>, bound: int, i: nat)
    requires Linked(entries, order, bound) && i < |order|
    ensures Linked(Removed(entries, order[i].key), Cut(order, i), bound)
  {
    var after, left := Cut(order, i), Removed(entries, order[i].key);
    hide Cut;
    assert Queued(after, bound);
    assert InMap(left, after);
    forall k | k in left
      ensures left[k] in after
    {
      var j :| 0 <= j < |order| && order[j] == entries[k];
      assert after[if j < i then j else j - 1] == order[j];
    }
  }

  lemma LinkedAdd(entries: map<string, Failure>, order: seq<Failure>, bound: int, f: Failure)
    requires Linked(entries, order, bound) && f.key !in entries && f.until == bound
    ensures Linked(entries[f.key := f], order + [f], bound)
  {
    var after, more := order + [f], entries[f.key := f];
    assert after[|order|] == f;
    forall k | k in more
      ensures more[k] in after && more[k].key == k
    {
      if k != f.key {
        var j :| 0 <= j < |order| && order[j] == entries[k];
        assert after[j] == order[j];
      }
    }
  }

  lemma LinkedMore(entries: map<string, Failure>, order: seq<Failure>, bound: int, more: int)
    requires Linked(entries, order, bound) && bound <= more
    ensures Linked(entries, order, more)
  {
  }

  /** When the front of the queue has not ended, nothing has. */
  lemma FrontFirst(entries: map<string, Failure>, order: seq<Failure>, bound: int, now: int)
    requires Linked(entries, order, bound) && (order == [] || order[0].until > now)
    ensures forall k :: k in entries ==> entries[k].until > now
  {
    forall k | k in entries
      ensures entries[k].until > now
    {
      var i :| 0 <= i < |order| && order[i] == entries[k];
      assert order[0].until <= order[i].until;
    }
  }

  lemma LinkedFront(entries: map<string, Failure>, order: seq<Failure>, bound: int)
    requires Linked(entries, order, bound) && order != []
    ensures order[0].key in entries && entries[order[0].key] == order[0]
  {
  }

  /** Only ended entries are gone. */
  ghost predicate EndedGone(before: map<string, Failure>, after: map<string, Failure>, now: int) {
    && (forall k :: k in after ==> k in before && after[k] == before[k])
    && (forall k :: k in before && k !in after ==> before[k].until <= now)
  }

  lemma OneMoreGone(before: map<string, Failure>, after: map<string, Failure>, now: int, k: string)
    requires EndedGone(before, after, now) && k in after && after[k].until <= now
    ensures EndedGone(before, Removed(after, k), now)
  {
  }

  ghost predicate Suffix<T>(before: seq<T>, after: seq<T>) {
    |after| <= |before| && after == before[|before| - |after|..]
  }

  lemma NoneGone(entries: map<string, Failure>, order: seq<Failure>, now: int)
    ensures EndedGone(entries, entries, now) && Suffix(order, order)
  {
  }

  lemma SuffixTail<T>(before: seq<T>, after: seq<T>)
    requires Suffix(before, after) && after != []
    ensures Suffix(before, after[1..])
  {
  }

  class FailureLimit {
    const max: nat
    const window: int
    var entries: map<string, Failure>
    /** The entries by the end of their window: the order they were born in. */
    var order: seq<Failure>
    ghost var history: seq<Event>
    ghost var clock: int

    ghost predicate Same()
      reads this
    {
      Linked(entries, order, clock + window)
    }

    ghost function Entry(k: string): Option<Count>
      reads this, order
      requires Same()
    {
      if k in entries then assert entries[k] in order; Some(Count(entries[k].count, entries[k].until)) else None
    }

    /** The entry of a username is what its history comes to; one that is gone has ended. */
    ghost predicate Tracked()
      reads this, order
      requires Same()
    {
      forall k :: Stands(history, window, clock, k, Entry(k))
    }

    ghost predicate Valid()
      reads this, order
    {
      max > 0 && window > 0 && Same() && Tracked()
    }

    constructor (max: nat, window: int)
      requires max > 0 && window > 0
      ensures Valid() && this.max == max && this.window == window && history == [] && order == [] && entries == map[]
    {
      this.max, this.window := max, window;
      entries, order, history, clock := map[], [], [], 0;
    }

    /** Drops an entry from the queue and the map. */
    method Drop(i: nat)
      requires Same() && i < |order|
      modifies this`entries, this`order
      ensures Same() && order == Cut(old(order), i)
      ensures entries == Removed(old(entries), old(order)[i].key)
    {
      LinkedDrop(entries, order, clock + window, i);
      hide Linked;
      var f := order[i];
      order := Cut(order, i);
      entries := Removed(entries, f.key);
    }

    method DropFront()
      requires Same() && order != []
      modifies this`entries, this`order
      ensures Same() && order == old(order)[1..] && entries == Removed(old(entries), old(order)[0].key)
    {
      Drop(0);
    }

    /** The loop of expire: from the front of the queue, while the window has ended. */
    method DropEnded(now: int)
      requires Same() && clock <= now
      modifies this`entries, this`order, this`clock
      ensures Same() && clock == now
      ensures EndedGone(old(entries), entries, now) && forall k :: k in entries ==> entries[k].until > now
      ensures Suffix(old(order), order)
    {
      hide EndedGone, Suffix, Removed, Linked;
      LinkedMore(entries, order, clock + window, now + window);
      NoneGone(entries, order, now);
      clock := now;
      while order != [] && order[0].until <= now
        invariant clock == now && Same() && EndedGone(old(entries), entries, now) && Suffix(old(order), order)
        decreases |order|
      {
        LinkedFront(entries, order, now + window);
        OneMoreGone(old(entries), entries, now, order[0].key);
        SuffixTail(old(order), order);
        DropFront();
      }
      FrontFirst(entries, order, now + window, now);
    }

    /** Drops exactly the entries whose window has ended. */
    method Expire(now: int)
      requires Valid() && clock <= now
      modifies this`entries, this`order, this`clock
      ensures Valid() && clock == now
      ensures forall k :: k in entries <==> k in old(entries) && old(entries)[k].until > now
      ensures forall k :: k in entries ==> entries[k] == old(entries)[k]
      ensures Suffix(old(order), order)
    {
      DropEnded(now);
      forall k
        ensures Stands(history, window, clock, k, Entry(k))
      {
        hide Stands;
        if k in old(entries) { assert old(entries[k] in order); }
        StandsLater(history, window, old(clock), now, k, old(Entry(k)));
      }
    }

    /** Whether username is locked and, if so, for how long: as its history says. */
    method Locked(username: string, now: int) returns (wait: int, locked: bool)
      requires Valid() && clock <= now
      modifies this`entries, this`order, this`clock
      ensures Valid() && clock == now
      ensures (wait, locked) == Answer(history, username, window, max, now)
    {
      Expire(now);
      assert Stands(history, window, clock, username, Entry(username));
      if username !in entries || entries[username].count < max {
        return 0, false;
      }
      wait, locked := entries[username].until - now, true;
    }

    /** Counts a failed login: true when this one locked the username, with the time it stays locked. */
    method Fail(username: string, now: int) returns (wait: int, locked: bool)
      requires Valid() && clock <= now
      modifies this, order
      ensures Valid() && clock == now && history == old(history) + [Event.Fail(username, now)]
      ensures var c := Track(history, username, window); c.Some? && wait == c.value.until - now && (locked <==> c.value.count == max)
    {
      hide Stands, Linked;
      Expire(now);
      ghost var e := Entry(username);
      var f := Born(username, now);
      CountOne(f, username, now, e);
      assert Stands(history, window, clock, username, Entry(username));
      wait, locked := f.until - now, f.count == max;
      StandsCount(history, window, clock, username, Entry(username));
    }

    /** The entry of a username, a new one at the back of the queue if it has none. */
    method Born(username: string, now: int) returns (f: Failure)
      requires Valid() && clock == now && forall k :: k in entries ==> entries[k].until > now
      modifies this`entries, this`order
      ensures Same() && username in entries && entries[username] == f && f.until > now
      ensures forall k :: k != username ==> Entry(k) == old(Entry(k))
      ensures old(Entry(username)) == if f.count == 0 then None else Some(Count(f.count, f.until))
      ensures f.count == 0 ==> f.until == now + window
      ensures f in old(order) || fresh(f)
    {
      hide Stands;
      StandsCount(history, window, clock, username, Entry(username));
      if username in entries {
        f := entries[username];
        assert f in order;
        return;
      }
      f := new Failure(username, now + window);
      LinkedAdd(entries, order, now + window, f);
      order := order + [f];
      entries := entries[username := f];
    }

    /** One failure more. */
    method CountOne(f: Failure, username: string, now: int, ghost e: Option<Count>)
      requires Same() && clock == now && username in entries && entries[username] == f && f.until > now && max > 0 && window > 0
      requires forall k :: k != username ==> Stands(history, window, clock, k, Entry(k))
      requires Stands(history, window, clock, username, e)
      requires e == (if f.count == 0 then None else Some(Count(f.count, f.until))) && (f.count == 0 ==> f.until == now + window)
      modifies f, this`history
      ensures Valid() && history == old(history) + [Event.Fail(username, now)]
      ensures Entry(username) == Some(Count(f.count, f.until))
    {
      hide Stands;
      f.count := f.count + 1;
      history := history + [Event.Fail(username, now)];
      assert entries[username] in order;
      forall k
        ensures Stands(history, window, clock, k, Entry(k))
      {
        if k != username {
          assert k in entries ==> entries[k] in order && entries[k].key == k && entries[k] != f;
          StandsFail(old(history), window, now, username, e, k, old(Entry(k)));
        } else {
          StandsFail(old(history), window, now, username, e, username, e);
        }
      }
    }

    /** Forgets the failures of username, after a successful login. */
    method Clear(username: string)
      requires Valid()
      modifies this`entries, this`order, this`history
      ensures Valid() && history == old(history) + [Event.Clear(username)]
      ensures username !in entries
    {
      if username in entries {
        var i := Place(entries[username]);
        Drop(i);
      }
      history := history + [Event.Clear(username)];
      forall k
        ensures Stands(history, window, clock, k, Entry(k))
      {
        hide Stands;
        StandsClear(old(history), window, clock, username, k, old(Entry(k)));
        assert k in entries ==> entries[k] == old(entries)[k];
      }
    }

    method Place(f: Failure) returns (i: nat)
      requires f in order
      ensures i < |order| && order[i] == f
    {
      i := 0;
      while order[i] != f
        invariant i < |order| && f in order[i..]
        decreases |order| - i
      {
        i := i + 1;
      }
    }
  }
}
