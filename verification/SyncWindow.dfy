/** The sync window of a job: when it is open, when it opens next and when it closes. */
module SyncWindow {
  import opened Options

  /** The next time after t the cron expression matches, if it ever does again. */
  type Next = int -> Option<int>

  /** A window opens at each match and stays open for its duration, the end excluded. */
  datatype Window = Window(next: Next, duration: int)

  /** Next is the least match after t. */
  ghost predicate LeastMatch(next: Next, matches: int -> bool) {
    forall t ::
      match next(t)
      case None => forall u :: u > t ==> !matches(u)
      case Some(m) => m > t && matches(m) && forall u :: t < u < m ==> !matches(u)
  }

  predicate Open(w: Window, t: int) {
    var open := w.next(t - w.duration);
    open.Some? && open.value <= t
  }

  function NextOpen(w: Window, t: int): Option<int> {
    w.next(t)
  }

  /** Open means that a match is less than the duration ago. */
  lemma OpenMeans(w: Window, matches: int -> bool, t: int)
    requires LeastMatch(w.next, matches)
    ensures Open(w, t) <==> exists m :: t - w.duration < m <= t && matches(m)
  {
    var n := w.next(t - w.duration);
    if m :| t - w.duration < m <= t && matches(m) {
      assert n.Some? && n.value <= m;
    }
  }

  /** From a closed instant, the next match is the least later instant that is open. */
  lemma NextOpenIsLeast(w: Window, matches: int -> bool, t: int)
    requires LeastMatch(w.next, matches) && w.duration > 0 && !Open(w, t)
    ensures NextOpen(w, t).Some? ==>
              var u := NextOpen(w, t).value; u > t && Open(w, u) && forall v :: t < v < u ==> !Open(w, v)
    ensures NextOpen(w, t).None? ==> forall v :: v > t ==> !Open(w, v)
  {
    var n := NextOpen(w, t);
    OpenMeans(w, matches, t);
    if n.Some? { OpenMeans(w, matches, n.value); }
    forall v | v > t && (n.Some? ==> v < n.value)
      ensures !Open(w, v)
    {
      OpenMeans(w, matches, v);
      assert forall m :: m <= v && matches(m) ==> m <= t;
    }
  }

  const MAX_CLOSE_STEPS := 10000

  /** n more windows after the one that opens at start run into it and into each other. */
  predicate Overruns(w: Window, start: int, n: nat)
    decreases n
  {
    n == 0 || (w.next(start).Some? && w.next(start).value <= start + w.duration && Overruns(w, w.next(start).value, n - 1))
  }

  /** The start of the last of n windows that run into each other. */
  function After(w: Window, start: int, n: nat): int
    requires Overruns(w, start, n)
    decreases n
  {
    if n == 0 then start else After(w, w.next(start).value, n - 1)
  }

  lemma {:induction false} OverrunsMore(w: Window, start: int, n: nat)
    requires Overruns(w, start, n)
    ensures var s := After(w, start, n);
      Overruns(w, start, n + 1) <==> w.next(s).Some? && w.next(s).value <= s + w.duration
    ensures Overruns(w, start, n + 1) ==> After(w, start, n + 1) == w.next(After(w, start, n)).value
    decreases n
  {
    if n > 0 { OverrunsMore(w, w.next(start).value, n - 1); }
  }

  lemma {:induction false} OverrunsLess(w: Window, start: int, n: nat, m: nat)
    requires m <= n && Overruns(w, start, n)
    ensures Overruns(w, start, m)
    decreases m
  {
    if m > 0 { OverrunsLess(w, w.next(start).value, n - 1, m - 1); }
  }

  /** The instant is the least at or after t when the window is not open. */
  ghost predicate Closes(w: Window, t: int, end: int) {
    t <= end && !Open(w, end) && forall u :: t <= u < end ==> Open(w, u)
  }

  /** A window that opened at start and covers the instant before. */
  lemma OpenSpan(w: Window, matches: int -> bool, start: int)
    requires LeastMatch(w.next, matches) && matches(start)
    ensures forall u :: start <= u < start + w.duration ==> Open(w, u)
  {
    forall u | start <= u < start + w.duration
      ensures Open(w, u)
    {
      OpenMeans(w, matches, u);
    }
  }

  lemma Starts(w: Window, start: int)
    ensures Overruns(w, start, 0) && After(w, start, 0) == start
  {
  }

  /** The step of the loop that finds the next window past the end, or in time. */
  lemma StepCloses(w: Window, matches: int -> bool, start: int, t: int)
    requires LeastMatch(w.next, matches) && matches(start) && w.duration > 0 && t < start + w.duration
    ensures var next := w.next(start);
      if next.None? || next.value > start + w.duration then !Open(w, start + w.duration)
      else matches(next.value) && next.value > start && forall u :: next.value <= u < next.value + w.duration ==> Open(w, u)
  {
    OpenMeans(w, matches, start + w.duration);
    var next := w.next(start);
    if next.Some? { OpenSpan(w, matches, next.value); }
  }

  lemma ClosesAt(w: Window, t: int, end: int)
    requires t <= end && !Open(w, end) && forall u :: t <= u < end ==> Open(w, u)
    ensures Closes(w, t, end)
  {
  }

  method CloseWithin(w: Window, ghost matches: int -> bool, t: int, steps: nat) returns (close: Option<int>)
    requires LeastMatch(w.next, matches) && w.duration > 0
    ensures close.Some? ==> Open(w, t) && Closes(w, t, close.value)
    ensures close.None? <==> !Open(w, t) || Overruns(w, w.next(t - w.duration).value, steps)
  {
    if !Open(w, t) {
      return None;
    }
    var first := w.next(t - w.duration).value;
    var start := first;
    var end := start + w.duration;
    OpenSpan(w, matches, start);
    Starts(w, first);
    for i := 0 to steps
      invariant Overruns(w, first, i) && start == After(w, first, i)
      invariant matches(start) && end == start + w.duration && t < end
      invariant forall u :: t <= u < end ==> Open(w, u)
    {
      OverrunsMore(w, first, i);
      var next := w.next(start);
      StepCloses(w, matches, start, t);
      if next.None? || next.value > end {
        ClosesAt(w, t, end);
        if Overruns(w, first, steps) { OverrunsLess(w, first, steps, i + 1); }
        return Some(end);
      }
      start, end := next.value, next.value + w.duration;
    }
    return None;
  }

  /** As many windows as NextClose looks at run into each other from the one that covers t. */
  predicate OverrunsAll(w: Window, t: int) {
    Open(w, t) && Overruns(w, w.next(t - w.duration).value, MAX_CLOSE_STEPS)
  }

  /** When the window open at t closes: exact when there is an answer, and none only for a closed t or after that many windows. */
  method NextClose(w: Window, ghost matches: int -> bool, t: int) returns (close: Option<int>)
    requires LeastMatch(w.next, matches) && w.duration > 0
    ensures close.Some? ==> Open(w, t) && Closes(w, t, close.value)
    ensures close.None? <==> !Open(w, t) || OverrunsAll(w, t)
  {
    hide Overruns;
    close := CloseWithin(w, matches, t, MAX_CLOSE_STEPS);
  }

  // -- a window that closes and gets no answer ---------------------------------------------------

  /** Matches at every instant from zero to the last, as each minute of a month does. */
  function Through(last: nat): Next {
    t => if t < 0 then Some(0) else if t < last then Some(t + 1) else None
  }

  lemma {:induction false} ThroughOverruns(last: nat, start: nat, n: nat)
    requires start + n <= last
    ensures Overruns(Window(Through(last), 1), start, n)
    decreases n
  {
    if n > 0 { ThroughOverruns(last, start + 1, n - 1); }
  }

  /** Windows of one instant, one after the other: it closes after the last, too late for NextClose to say so. */
  lemma ClosesWithoutAnAnswer(last: nat)
    ensures var w := Window(Through(last), 1);
      && LeastMatch(w.next, m => 0 <= m <= last)
      && Closes(w, 0, last + 1)
      && (last >= MAX_CLOSE_STEPS ==> OverrunsAll(w, 0))
  {
    hide Overruns;
    if last >= MAX_CLOSE_STEPS { ThroughOverruns(last, 0, MAX_CLOSE_STEPS); }
    ClosesAt(Window(Through(last), 1), 0, last + 1);
  }
}
