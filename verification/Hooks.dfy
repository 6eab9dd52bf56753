/**
 The hook runner: what the allocations of a dispatched hook say of its run, the wait for
 an outcome, and a whole run of a hook, whatever Nomad answers.
*/
module Hooks {
  import opened Options
  import opened Store
  import opened Machine
  import N = Nomad
  import Database
  import Engine
  import opened HookRuns

  // -- the outcome of a dispatched job -----------------------------------------------------------

  datatype Alloc = Alloc(client: string, desired: string)

  /** The child job: its status, and whether it was stopped; either may be missing. */
  datatype Child = Child(status: Option<string>, stop: Option<bool>)

  datatype Verdict = StillRunning | Succeeded | FailedHook | Stopped

  predicate Broken(a: Alloc) {
    a.client == "failed" || a.client == "lost"
  }

  predicate StoppedOutside(a: Alloc) {
    a.client == "complete" && a.desired != "run"
  }

  /** The verdict depends on which allocations there are, not on their order. */
  function VerdictOf(child: Child, allocs: seq<Alloc>): Verdict {
    if exists a :: a in allocs && Broken(a) then FailedHook
    else if exists a :: a in allocs && StoppedOutside(a) then Stopped
    else if child.status != Some("dead") then StillRunning
    else if allocs == [] then FailedHook
    else if forall a :: a in allocs ==> a.client == "complete" then Succeeded
    else StillRunning
  }

  method Evaluate(child: Child, allocs: seq<Alloc>) returns (v: Verdict)
    ensures v == VerdictOf(child, allocs)
    ensures v == FailedHook <==>
      || (exists a :: a in allocs && Broken(a))
      || (allocs == [] && child.status == Some("dead"))
    ensures v == Stopped <==> (forall a :: a in allocs ==> !Broken(a)) && exists a :: a in allocs && StoppedOutside(a)
    ensures v == Succeeded <==> child.status == Some("dead") && allocs != [] && forall a :: a in allocs ==> a.client == "complete" && a.desired == "run"
  {
    for i := 0 to |allocs|
      invariant forall j :: 0 <= j < i ==> !Broken(allocs[j])
    {
      if Broken(allocs[i]) {
        return FailedHook;
      }
    }
    for i := 0 to |allocs|
      invariant forall j :: 0 <= j < i ==> !StoppedOutside(allocs[j])
    {
      if StoppedOutside(allocs[i]) {
        return Stopped;
      }
    }
    if child.status != Some("dead") {
      return StillRunning;
    }
    if |allocs| == 0 {
      return FailedHook;
    }
    for i := 0 to |allocs|
      invariant forall j :: 0 <= j < i ==> allocs[j].client == "complete"
    {
      if allocs[i].client != "complete" {
        assert allocs[i] in allocs;
        return StillRunning;
      }
    }
    return Succeeded;
  }

  // -- waiting for it ------------------------------------------------------------------------------

  /**
   What one poll finds: no such job any more, or the job, its allocations, whether the deadline
   is past, and whether Nomad takes a stop of the job.
  */
  datatype Poll = Gone | Seen(child: Child, allocs: seq<Alloc>, expired: bool, stops: bool)

  /** What a poll decides: a stop past the deadline is nops' own, an outcome is one however late it is seen. */
  function Decides(poll: Poll): (r: Option<RunState>)
    ensures r.Some? ==> Terminal(r.value)
    ensures r == Some(RunSucceeded) <==> poll.Seen? && VerdictOf(poll.child, poll.allocs) == Succeeded
    ensures r == Some(RunTimedOut) ==> poll.Seen? && poll.expired
    ensures r.None? <==> poll.Seen? && !poll.expired && VerdictOf(poll.child, poll.allocs) == StillRunning
  {
    match poll
    case Gone => Some(RunFailed)
    case Seen(child, allocs, expired, _) =>
      match VerdictOf(child, allocs)
      case Succeeded => Some(RunSucceeded)
      case FailedHook => Some(RunFailed)
      case Stopped => Some(if expired then RunTimedOut else RunFailed)
      case StillRunning => if expired then Some(RunTimedOut) else None
  }

  /**
   The first poll that decides, if any does before Nomad fails to answer or nops stops. A
   time-out stops the job first, and is no outcome while Nomad does not take the stop.
  */
  method Await(polls: seq<Poll>) returns (result: Option<RunState>, at: nat, stopped: bool)
    ensures at <= |polls| && forall j :: 0 <= j < at ==> Decides(polls[j]).None?
    ensures stopped <==> at < |polls| && Decides(polls[at]) == Some(RunTimedOut)
    ensures result == if at == |polls| || (stopped && !polls[at].stops) then None else Decides(polls[at])
    ensures at < |polls| ==> Decides(polls[at]).Some?
  {
    for i := 0 to |polls|
      invariant forall j :: 0 <= j < i ==> Decides(polls[j]).None?
    {
      var poll := polls[i];
      if poll.Gone? {
        return Some(RunFailed), i, false;
      }
      var v := Evaluate(poll.child, poll.allocs);
      if v == Succeeded {
        return Some(RunSucceeded), i, false;
      } else if v == FailedHook {
        return Some(RunFailed), i, false;
      } else if v == Stopped && !poll.expired {
        return Some(RunFailed), i, false;
      } else if poll.expired {
        if !poll.stops {
          return None, i, true;
        }
        return Some(RunTimedOut), i, true;
      }
    }
    return None, |polls|, false;
  }

  // -- what a run comes to ---------------------------------------------------------------------------

  /** How far a run got. */
  datatype Progress = OnItsWay | Over(result: RunState) | LeftForLater

  /** Where the polls of a sent run lead: to what the first that decides says, a time-out only once the job is stopped. */
  function Polled(polls: seq<Poll>): (to: Progress)
    ensures !to.OnItsWay?
  {
    if polls == [] then LeftForLater
    else match Decides(polls[0])
      case None => Polled(polls[1..])
      case Some(r) => if r == RunTimedOut && !polls[0].stops then LeftForLater else Over(r)
  }

  /** The polls before i decide nothing, and i is the first that does, or past the last of them. */
  predicate Undecided(polls: seq<Poll>, i: nat) {
    && i <= |polls|
    && (forall j :: 0 <= j < i ==> Decides(polls[j]).None?)
    && (i < |polls| ==> Decides(polls[i]).Some?)
  }

  lemma {:induction false} FirstDecision(polls: seq<Poll>) returns (i: nat)
    ensures Undecided(polls, i)
  {
    if polls == [] || Decides(polls[0]).Some? {
      return 0;
    }
    i := FirstDecision(polls[1..]);
    i := i + 1;
  }

  lemma {:induction false} PolledAt(polls: seq<Poll>, i: nat)
    requires Undecided(polls, i)
    ensures Polled(polls) ==
      if i == |polls| || (Decides(polls[i]) == Some(RunTimedOut) && !polls[i].stops) then LeftForLater else Over(Decides(polls[i]).value)
  {
    if i > 0 {
      assert polls[1..][..i - 1] == polls[1..i];
      PolledAt(polls[1..], i - 1);
    }
  }

  /**
   What one hook meets: whether Nomad takes its revision and, if not, whether the hook's timeout is
   past; whether the deadline of its run is; whether Nomad fails the read before a dispatch or a
   search; whether the hook job is missing or not one to dispatch; the answer to the dispatch; the
   child the token finds; and the polls.
  */
  datatype Answers = Answers(
    registered: bool, late: bool, expired: bool, down: bool, unfit: bool,
    dispatch: Answer, found: Option<string>, polls: seq<Poll>)

  /** The dispatch is sent to Nomad. */
  predicate Sends(run: HookRun, nomad: Answers) {
    Unsent(run) && !nomad.expired && !nomad.down && !nomad.unfit
  }

  /** The run before its job is polled: how far it is, and what is stored of it. */
  function Launched(run: HookRun, nomad: Answers): (Progress, HookRun) {
    if Terminal(run.state) then (Over(run.state), run)
    else if run.child.Some? then (OnItsWay, run)
    else if run.state == Running then
      if nomad.down then (LeftForLater, run)
      else if nomad.found.Some? then (OnItsWay, HookRun(Running, nomad.found))
      else (Over(RunFailed), HookRun(RunFailed, None))
    else if nomad.expired then (Over(RunTimedOut), HookRun(RunTimedOut, None))
    else if nomad.down then (LeftForLater, run)
    else if nomad.unfit then (Over(RunFailed), HookRun(RunFailed, None))
    else WhenAnswered(nomad.dispatch)
  }

  /** What the answer to a dispatch leaves: the run was saved as running before it. */
  function WhenAnswered(answer: Answer): (Progress, HookRun) {
    match answer
    case Sent(child) => (OnItsWay, HookRun(Running, Some(child)))
    case TurnedDown => (Over(RunFailed), HookRun(RunFailed, None))
    case Lost => (LeftForLater, HookRun(Running, None))
  }

  /** The whole run: how it ended, if it did, and what is stored of it. */
  function RunAfter(run: HookRun, nomad: Answers): (Progress, HookRun) {
    var (to, launched) := Launched(run, nomad);
    if !to.OnItsWay? then (to, launched)
    else
      var last := Polled(nomad.polls);
      (last, if last.Over? then launched.(state := last.result) else launched)
  }

  /** The child whose allocations are polled: the one recorded, the one found, the one dispatched. */
  function PolledChild(run: HookRun, nomad: Answers): Option<string> {
    if Terminal(run.state) then None
    else if run.child.Some? then run.child
    else if run.state == Running then if nomad.down then None else nomad.found
    else if Sends(run, nomad) && nomad.dispatch.Sent? then Some(nomad.dispatch.child)
    else None
  }

  /** A run ends in each way exactly when this happens, and what is stored of it says so. */
  lemma RunEndsAs(run: HookRun, nomad: Answers, i: nat)
    requires Undecided(nomad.polls, i)
    ensures var (to, after) := RunAfter(run, nomad);
      var polled := PolledChild(run, nomad).Some?;
      var seen := if polled && i < |nomad.polls| then Decides(nomad.polls[i]) else None;
      && (to == Over(RunSucceeded) <==> run.state == RunSucceeded || seen == Some(RunSucceeded))
      && (to == Over(RunTimedOut) <==>
            run.state == RunTimedOut || (Unsent(run) && nomad.expired) || (seen == Some(RunTimedOut) && nomad.polls[i].stops))
      && (to == Over(RunFailed) <==>
            || run.state == RunFailed || seen == Some(RunFailed)
            || (Unsent(run) && !nomad.expired && !nomad.down && nomad.unfit)
            || (Sends(run, nomad) && nomad.dispatch.TurnedDown?)
            || (run.state == Running && run.child.None? && !nomad.down && nomad.found.None?))
      && (to == LeftForLater <==>
            || (polled && i == |nomad.polls|)
            || (seen == Some(RunTimedOut) && !nomad.polls[i].stops)
            || (Unsent(run) && !nomad.expired && nomad.down)
            || (Sends(run, nomad) && nomad.dispatch.Lost?)
            || (run.state == Running && run.child.None? && nomad.down))
      && (to.Over? ==> after.state == to.result)
      && (to.LeftForLater? ==> !Terminal(after.state))
      && (Unsent(after) <==> Unsent(run) && !nomad.expired && nomad.down)
      && after.child == (if run.child.Some? then run.child else PolledChild(run, nomad))
  {
    PolledAt(nomad.polls, i);
    hide Polled;
  }

  /** What is stored of a run, or what a new one is stored as. */
  function StoredRun(runs: map<RunKey, HookRun>, k: RunKey): HookRun {
    if k in runs then runs[k] else HookRun(Dispatching, None)
  }

  /** How a phase went: through, stopped by a hook, or left at one for a later step. */
  datatype PhaseEnd = Through | StoppedAt(i: nat) | LeftAt(i: nat)

  /** The hooks of a phase from one on, each after the one before it succeeded. */
  function PhaseFrom(runs: map<RunKey, HookRun>, id: Id, d: Deployment, answers: seq<Answers>, i: nat): (PhaseEnd, map<RunKey, HookRun>)
    requires |answers| == |HooksOf(d.hooks, PhaseOf(d))| && i <= |answers|
    decreases |answers| - i
  {
    if i == |answers| then (Through, runs)
    else if !answers[i].registered then (if answers[i].late then StoppedAt(i) else LeftAt(i), runs)
    else
      var k := KeyOf(id, d, i);
      var (to, run) := RunAfter(StoredRun(runs, k), answers[i]);
      match to
      case Over(RunSucceeded) => PhaseFrom(runs[k := run], id, d, answers, i + 1)
      case Over(_) => (StoppedAt(i), runs[k := run])
      case _ => (LeftAt(i), runs[k := run])
  }

  /** How the run of a hook of a phase ends, told from what is stored of it before the phase. */
  function RunEnd(runs: map<RunKey, HookRun>, id: Id, d: Deployment, answers: seq<Answers>, i: nat): Progress
    requires |answers| == |HooksOf(d.hooks, PhaseOf(d))| && i < |answers|
  {
    RunAfter(StoredRun(runs, KeyOf(id, d, i)), answers[i]).0
  }

  /** How a hook of a phase ends, told from what is stored of it before the phase. */
  function HookEnd(runs: map<RunKey, HookRun>, id: Id, d: Deployment, answers: seq<Answers>, i: nat): Progress
    requires |answers| == |HooksOf(d.hooks, PhaseOf(d))| && i < |answers|
  {
    if answers[i].registered then RunEnd(runs, id, d, answers, i)
    else if answers[i].late then Over(RunTimedOut)
    else LeftForLater
  }

  /** The hooks from one up to another succeed. */
  predicate Succeed(runs: map<RunKey, HookRun>, id: Id, d: Deployment, answers: seq<Answers>, i: nat, n: nat)
    requires |answers| == |HooksOf(d.hooks, PhaseOf(d))| && n <= |answers|
  {
    forall j :: i <= j < n ==> HookEnd(runs, id, d, answers, j) == Over(RunSucceeded)
  }

  /** The hooks before one succeed, and it does not, or there is none. */
  predicate EndsAt(runs: map<RunKey, HookRun>, id: Id, d: Deployment, answers: seq<Answers>, i: nat, n: nat)
    requires |answers| == |HooksOf(d.hooks, PhaseOf(d))|
  {
    && i <= n <= |answers| && Succeed(runs, id, d, answers, i, n)
    && (n < |answers| ==> HookEnd(runs, id, d, answers, n) != Over(RunSucceeded))
  }

  lemma {:induction false} FirstToEnd(runs: map<RunKey, HookRun>, id: Id, d: Deployment, answers: seq<Answers>, i: nat) returns (n: nat)
    requires |answers| == |HooksOf(d.hooks, PhaseOf(d))| && i <= |answers|
    ensures EndsAt(runs, id, d, answers, i, n)
    decreases |answers| - i
  {
    hide HookEnd;
    if i == |answers| || HookEnd(runs, id, d, answers, i) != Over(RunSucceeded) {
      return i;
    }
    n := FirstToEnd(runs, id, d, answers, i + 1);
  }

  predicate EndOf(runs: map<RunKey, HookRun>, id: Id, d: Deployment, answers: seq<Answers>, i: nat)
    requires |answers| == |HooksOf(d.hooks, PhaseOf(d))| && i < |answers|
  {
    && !RunEnd(runs, id, d, answers, i).OnItsWay?
    && (answers[i].registered ==> HookEnd(runs, id, d, answers, i) == RunEnd(runs, id, d, answers, i))
    && (!answers[i].registered ==> HookEnd(runs, id, d, answers, i) == if answers[i].late then Over(RunTimedOut) else LeftForLater)
  }

  lemma HookEndIs(runs: map<RunKey, HookRun>, id: Id, d: Deployment, answers: seq<Answers>, i: nat)
    requires |answers| == |HooksOf(d.hooks, PhaseOf(d))| && i < |answers|
    ensures EndOf(runs, id, d, answers, i)
  {
    hide HooksOf, KeyOf, StoredRun;
  }

  lemma PhaseFromIs(runs: map<RunKey, HookRun>, id: Id, d: Deployment, answers: seq<Answers>, i: nat)
    requires |answers| == |HooksOf(d.hooks, PhaseOf(d))| && i < |answers|
    ensures var k := KeyOf(id, d, i); var (to, run) := RunAfter(StoredRun(runs, k), answers[i]);
      PhaseFrom(runs, id, d, answers, i) ==
        if !answers[i].registered then (if answers[i].late then StoppedAt(i) else LeftAt(i), runs)
        else if to == Over(RunSucceeded) then PhaseFrom(runs[k := run], id, d, answers, i + 1)
        else (if to.Over? then StoppedAt(i) else LeftAt(i), runs[k := run])
  {
    hide RunAfter, HooksOf, KeyOf, StoredRun;
  }

  lemma PhaseFromEnd(runs: map<RunKey, HookRun>, id: Id, d: Deployment, answers: seq<Answers>)
    requires |answers| == |HooksOf(d.hooks, PhaseOf(d))|
    ensures PhaseFrom(runs, id, d, answers, |answers|) == (Through, runs)
  {
    hide RunAfter, HooksOf, KeyOf, StoredRun;
  }

  /** The phase ends at a hook that does not succeed, with what is stored of it. */
  lemma PhaseEndsHere(runs: map<RunKey, HookRun>, id: Id, d: Deployment, answers: seq<Answers>, i: nat)
    requires |answers| == |HooksOf(d.hooks, PhaseOf(d))| && i <= |answers| && EndsAt(runs, id, d, answers, i, i)
    ensures PhaseFrom(runs, id, d, answers, i).0 ==
      if i == |answers| then Through else if HookEnd(runs, id, d, answers, i).Over? then StoppedAt(i) else LeftAt(i)
    ensures PhaseFrom(runs, id, d, answers, i).1 ==
      if i < |answers| && answers[i].registered
      then var k := KeyOf(id, d, i); runs[k := RunAfter(StoredRun(runs, k), answers[i]).1] else runs
  {
    assert i < |answers| ==> HookEnd(runs, id, d, answers, i) != Over(RunSucceeded);
    hide *;
    if i < |answers| {
      PhaseFromIs(runs, id, d, answers, i);
      HookEndIs(runs, id, d, answers, i);
      EndOfIs(runs, id, d, answers, i);
    } else {
      PhaseFromEnd(runs, id, d, answers);
    }
  }

  lemma EndOfIs(runs: map<RunKey, HookRun>, id: Id, d: Deployment, answers: seq<Answers>, i: nat)
    requires |answers| == |HooksOf(d.hooks, PhaseOf(d))| && i < |answers|
    ensures RunEnd(runs, id, d, answers, i) == RunAfter(StoredRun(runs, KeyOf(id, d, i)), answers[i]).0
    ensures EndOf(runs, id, d, answers, i) ==>
      && !RunEnd(runs, id, d, answers, i).OnItsWay?
      && HookEnd(runs, id, d, answers, i) ==
           if answers[i].registered then RunEnd(runs, id, d, answers, i) else if answers[i].late then Over(RunTimedOut) else LeftForLater
  {
    hide HooksOf, KeyOf, StoredRun, RunAfter;
  }

  /** After the first hook succeeded the phase goes on from what it left, and the others end as before. */
  lemma PhaseGoesOn(runs: map<RunKey, HookRun>, id: Id, d: Deployment, answers: seq<Answers>, i: nat, n: nat) returns (after: map<RunKey, HookRun>)
    requires InOrder(HooksOf(d.hooks, PhaseOf(d))) && |answers| == |HooksOf(d.hooks, PhaseOf(d))|
    requires EndsAt(runs, id, d, answers, i, n) && i < n
    ensures var k := KeyOf(id, d, i);
      answers[i].registered && after == runs[k := RunAfter(StoredRun(runs, k), answers[i]).1]
    ensures PhaseFrom(runs, id, d, answers, i) == PhaseFrom(after, id, d, answers, i + 1)
    ensures EndsAt(after, id, d, answers, i + 1, n)
    ensures forall j :: i < j < |answers| ==> OtherHook(runs, after, id, d, answers, i, j)
  {
    var k := KeyOf(id, d, i);
    assert HookEnd(runs, id, d, answers, i) == Over(RunSucceeded);
    after := runs[k := RunAfter(StoredRun(runs, k), answers[i]).1];
    forall j | i < j < |answers|
      ensures OtherHook(runs, after, id, d, answers, i, j)
    {
      hide RunAfter, HooksOf;
    }
    hide HookEnd, RunAfter, KeyOf, HooksOf, StoredRun, OtherHook, PhaseFrom;
    forall j | i < j < |answers|
      ensures HookEnd(after, id, d, answers, j) == HookEnd(runs, id, d, answers, j)
    {
      OtherHookIs(runs, after, id, d, answers, i, j);
    }
  }

  predicate OtherHook(runs: map<RunKey, HookRun>, after: map<RunKey, HookRun>, id: Id, d: Deployment, answers: seq<Answers>, i: nat, j: nat)
    requires |answers| == |HooksOf(d.hooks, PhaseOf(d))| && i < |answers| && j < |answers|
  {
    && KeyOf(id, d, j) != KeyOf(id, d, i) && StoredRun(after, KeyOf(id, d, j)) == StoredRun(runs, KeyOf(id, d, j))
    && HookEnd(after, id, d, answers, j) == HookEnd(runs, id, d, answers, j)
  }

  /** A phase is through when all its hooks succeed; else it stops at the first that does not, or is left there. */
  lemma {:induction false} PhaseEndsAt(runs: map<RunKey, HookRun>, id: Id, d: Deployment, answers: seq<Answers>, i: nat, n: nat)
    requires hide *; InOrder(HooksOf(d.hooks, PhaseOf(d))) && |answers| == |HooksOf(d.hooks, PhaseOf(d))| && i <= n <= |answers|
    requires EndsAt(runs, id, d, answers, i, n)
    ensures PhaseFrom(runs, id, d, answers, i).0 ==
      if n == |answers| then Through else if HookEnd(runs, id, d, answers, n).Over? then StoppedAt(n) else LeftAt(n)
    decreases |answers| - i
  {
    hide *;
    EndsAtIs(runs, id, d, answers, i, n);
    if i < n {
      var after := PhaseGoesOn(runs, id, d, answers, i, n);
      PhaseEndsAt(after, id, d, answers, i + 1, n);
      if n < |answers| {
        OtherHookIs(runs, after, id, d, answers, i, n);
      }
    } else {
      PhaseEndsHere(runs, id, d, answers, i);
    }
  }

  lemma EndsAtIs(runs: map<RunKey, HookRun>, id: Id, d: Deployment, answers: seq<Answers>, i: nat, n: nat)
    requires |answers| == |HooksOf(d.hooks, PhaseOf(d))|
    ensures EndsAt(runs, id, d, answers, i, n) ==> i <= n <= |answers|
  {
    hide HooksOf, HookEnd, Succeed;
  }

  lemma CameIs(answers: seq<Answers>, n: nat, i: nat)
    ensures Came(answers, n, i) <==> i < |answers| && (i < n || (i == n && answers[i].registered))
  {
  }

  lemma OtherHookIs(runs: map<RunKey, HookRun>, after: map<RunKey, HookRun>, id: Id, d: Deployment, answers: seq<Answers>, i: nat, j: nat)
    requires |answers| == |HooksOf(d.hooks, PhaseOf(d))| && i < |answers| && j < |answers|
    requires OtherHook(runs, after, id, d, answers, i, j)
    ensures KeyOf(id, d, j) != KeyOf(id, d, i) && StoredRun(after, KeyOf(id, d, j)) == StoredRun(runs, KeyOf(id, d, j))
    ensures HookEnd(after, id, d, answers, j) == HookEnd(runs, id, d, answers, j)
  {
    hide HooksOf, KeyOf, HookEnd, StoredRun;
  }

  /** The phase came to a hook, and its revision was taken. */
  predicate Came(answers: seq<Answers>, n: nat, j: nat) {
    j < |answers| && (j < n || (j == n && answers[j].registered))
  }

  /** No run is written but those of the hooks the phase came to. */
  lemma {:induction false} PhaseKeeps(runs: map<RunKey, HookRun>, id: Id, d: Deployment, answers: seq<Answers>, i: nat, n: nat, k: RunKey)
    requires hide *; InOrder(HooksOf(d.hooks, PhaseOf(d))) && |answers| == |HooksOf(d.hooks, PhaseOf(d))| && i <= n <= |answers|
    requires EndsAt(runs, id, d, answers, i, n)
    requires forall j :: i <= j < |answers| && Came(answers, n, j) ==> k != KeyOf(id, d, j)
    ensures var after := PhaseFrom(runs, id, d, answers, i).1; (k in after <==> k in runs) && (k in runs ==> after[k] == runs[k])
    decreases |answers| - i
  {
    hide *;
    EndsAtIs(runs, id, d, answers, i, n);
    CameIs(answers, n, i);
    if i < n {
      var after := PhaseGoesOn(runs, id, d, answers, i, n);
      PhaseKeeps(after, id, d, answers, i + 1, n, k);
    } else {
      PhaseEndsHere(runs, id, d, answers, i);
    }
  }

  /** What is stored of each of those is what its run came to. */
  lemma {:induction false} PhaseStores(runs: map<RunKey, HookRun>, id: Id, d: Deployment, answers: seq<Answers>, i: nat, n: nat, j: nat)
    requires hide *; InOrder(HooksOf(d.hooks, PhaseOf(d))) && |answers| == |HooksOf(d.hooks, PhaseOf(d))| && i <= n <= |answers| && j < |answers|
    requires EndsAt(runs, id, d, answers, i, n) && i <= j && Came(answers, n, j)
    ensures var (k, after) := (KeyOf(id, d, j), PhaseFrom(runs, id, d, answers, i).1);
      k in after && after[k] == RunAfter(StoredRun(runs, k), answers[j]).1
    decreases |answers| - i
  {
    hide *;
    EndsAtIs(runs, id, d, answers, i, n);
    CameIs(answers, n, j);
    if i < n {
      var after := PhaseGoesOn(runs, id, d, answers, i, n);
      if j == i {
        CameLater(answers, n);
        forall l | i < l < |answers| ensures KeyOf(id, d, l) != KeyOf(id, d, i) { OtherHookIs(runs, after, id, d, answers, i, l); }
        PhaseKeeps(after, id, d, answers, i + 1, n, KeyOf(id, d, i));
      } else {
        OtherHookIs(runs, after, id, d, answers, i, j);
        PhaseStores(after, id, d, answers, i + 1, n, j);
      }
    } else {
      PhaseEndsHere(runs, id, d, answers, i);
    }
  }

  lemma CameLater(answers: seq<Answers>, n: nat)
    ensures forall j: nat :: Came(answers, n, j) ==> j < |answers|
  {
  }

  // -- a whole run ----------------------------------------------------------------------------------

  predicate OfWorker(a: Action, id: Id) {
    (a.Step? || a.Drop?) && a.id == id
  }

  /** A worker is at a place of its hooks, after some steps from a state. */
  ghost predicate At(p: N.Plan, s: Sys, id: Id, d: Deployment, acts: seq<Action>, pc: Pc, db: Db, sent: seq<RunKey>) {
    && d.state in {PreHook, PostHook}
    && Run(p, s, acts) == s.(db := db, workers := s.workers[id := Worker(d, pc)], sent := sent)
    && (forall a :: a in acts ==> OfWorker(a, id))
  }

  lemma OfStep(id: Id, work: Work)
    ensures OfWorker(Step(id, work), id) && OfWorker(Drop(id), id)
  {
  }

  lemma AtIs(p: N.Plan, s: Sys, id: Id, d: Deployment, acts: seq<Action>, pc: Pc, db: Db, sent: seq<RunKey>)
    ensures At(p, s, id, d, acts, pc, db, sent) <==>
      && d.state in {PreHook, PostHook}
      && Run(p, s, acts) == s.(db := db, workers := s.workers[id := Worker(d, pc)], sent := sent)
      && (forall a :: a in acts ==> OfWorker(a, id))
  {
    hide Run;
  }

  /** Where a step of the hooks leads. */
  lemma HookWorkerStep(p: N.Plan, s: Sys, id: Id, d: Deployment, pc: Pc, work: Work)
    requires hide *; id in s.workers && s.workers[id] == Worker(d, pc) && d.state in {PreHook, PostHook} && !work.Move?
    ensures var e := HookStep(s.db.runs, id, d, pc, work);
      Next(p, s, Step(id, work)) == s.(
        db := Exec(s.db, HookCall(id, d, pc, work)),
        workers := if e.next.Some? then s.workers[id := e.next.value] else Without(s.workers, id),
        sent := if e.dispatch.Some? then s.sent + [e.dispatch.value] else s.sent)
  {
    hide Exec, HookStep, HookCall;
  }

  lemma AtNext(p: N.Plan, s: Sys, id: Id, d: Deployment, acts: seq<Action>, pc: Pc, db: Db, sent: seq<RunKey>, work: Work, next: Pc)
    requires hide *; At(p, s, id, d, acts, pc, db, sent) && !work.Move?
    requires HookStep(db.runs, id, d, pc, work).next == Some(Worker(d, next))
    ensures var e := HookStep(db.runs, id, d, pc, work);
      At(p, s, id, d, acts + [Step(id, work)], next, Exec(db, HookCall(id, d, pc, work)), if e.dispatch.Some? then sent + [e.dispatch.value] else sent)
  {
    hide *;
    OfStep(id, work);
    var g := Run(p, s, acts);
    var e := HookStep(db.runs, id, d, pc, work);
    AtIs(p, s, id, d, acts, pc, db, sent);
    HookWorkerStep(p, g, id, d, pc, work);
    Engine.RunNext(p, s, acts, Step(id, work));
    AtIs(p, s, id, d, acts + [Step(id, work)], next, Exec(db, HookCall(id, d, pc, work)), if e.dispatch.Some? then sent + [e.dispatch.value] else sent);
    assert s.workers[id := Worker(d, pc)][id := Worker(d, next)] == s.workers[id := Worker(d, next)];
  }

  /** The worker is gone: the step is left to a later one. */
  ghost predicate Left(p: N.Plan, s: Sys, id: Id, acts: seq<Action>, db: Db, sent: seq<RunKey>) {
    && Run(p, s, acts) == s.(db := db, workers := Without(s.workers, id), sent := sent)
    && (forall a :: a in acts ==> OfWorker(a, id))
  }

  lemma LeftIs(p: N.Plan, s: Sys, id: Id, acts: seq<Action>, db: Db, sent: seq<RunKey>)
    ensures Left(p, s, id, acts, db, sent) <==>
      && Run(p, s, acts) == s.(db := db, workers := Without(s.workers, id), sent := sent)
      && (forall a :: a in acts ==> OfWorker(a, id))
  {
    hide Run, Without;
  }

  /** An error of Nomad or of the store, or nops stopping, leaves the run as it is. */
  lemma AtLeft(p: N.Plan, s: Sys, id: Id, d: Deployment, acts: seq<Action>, pc: Pc, db: Db, sent: seq<RunKey>)
    requires At(p, s, id, d, acts, pc, db, sent)
    ensures Left(p, s, id, acts + [Drop(id)], db, sent)
  {
    var g := Run(p, s, acts);
    hide *;
    OfStep(id, Start);
    DropStep(p, g, id);
    AtIs(p, s, id, d, acts, pc, db, sent);
    Engine.RunNext(p, s, acts, Drop(id));
    Engine.WithoutSet(s.workers, id, Worker(d, pc));
    LeftIs(p, s, id, acts + [Drop(id)], db, sent);
  }

  lemma DropStep(p: N.Plan, s: Sys, id: Id)
    ensures Next(p, s, Drop(id)) == s.(workers := Without(s.workers, id))
  {
    hide Exec, Without;
    NothingWritten(s.db);
  }

  /** A dispatch whose answer is lost leaves the run to be recovered. */
  lemma AtLost(p: N.Plan, s: Sys, id: Id, d: Deployment, acts: seq<Action>, i: nat, db: Db, sent: seq<RunKey>)
    requires hide *; At(p, s, id, d, acts, Sending(i), db, sent) && i < |HooksOf(d.hooks, PhaseOf(d))|
    ensures Left(p, s, id, acts + [Step(id, Send(Lost))], db, sent + [KeyOf(id, d, i)])
  {
    hide *;
    LostPlace(db.runs, id, d, i);
    NothingWritten(db);
    var g := Run(p, s, acts);
    OfStep(id, Send(Lost));
    AtIs(p, s, id, d, acts, Sending(i), db, sent);
    HookWorkerStep(p, g, id, d, Sending(i), Send(Lost));
    Engine.RunNext(p, s, acts, Step(id, Send(Lost)));
    Engine.WithoutSet(s.workers, id, Worker(d, Sending(i)));
    LeftIs(p, s, id, acts + [Step(id, Send(Lost))], db, sent + [KeyOf(id, d, i)]);
  }

  lemma LostPlace(runs: map<RunKey, HookRun>, id: Id, d: Deployment, i: nat)
    requires i < |HooksOf(d.hooks, PhaseOf(d))|
    ensures HookStep(runs, id, d, Sending(i), Send(Lost)) == Effect(None, None, Some(KeyOf(id, d, i)))
    ensures HookCall(id, d, Sending(i), Send(Lost)) == NoCall
  {
    hide HooksOf, KeyOf;
  }

  ghost predicate Reached(p: N.Plan, s: Sys, id: Id, d: Deployment, i: nat, acts: seq<Action>, to: Progress, db: Db, sent: seq<RunKey>) {
    match to
    case OnItsWay => At(p, s, id, d, acts, Awaiting(i), db, sent)
    case Over(result) => Terminal(result) && At(p, s, id, d, acts, AfterRun(i, result), db, sent)
    case LeftForLater => Left(p, s, id, acts, db, sent)
  }

  /** The places of a run not sent yet, and the calls made there. */
  lemma SendPlaces(runs: map<RunKey, HookRun>, id: Id, d: Deployment, i: nat, run: HookRun, result: RunState)
    requires i < |HooksOf(d.hooks, PhaseOf(d))| && Unsent(run)
    ensures result in {RunFailed, RunTimedOut} ==> HookStep(runs, id, d, RunRead(i, run), GiveUp(result)) == Goto(d, Finishing(i, result))
    ensures HookCall(id, d, RunRead(i, run), GiveUp(result)) == NoCall
    ensures HookStep(runs, id, d, RunRead(i, run), MarkRunning) == Goto(d, Sending(i))
    ensures HookCall(id, d, RunRead(i, run), MarkRunning) == UpdateRun(KeyOf(id, d, i), Running, None)
  {
    hide HooksOf, KeyOf;
  }

  lemma AnswerPlaces(runs: map<RunKey, HookRun>, id: Id, d: Deployment, i: nat, child: string)
    requires i < |HooksOf(d.hooks, PhaseOf(d))|
    ensures HookStep(runs, id, d, Sending(i), Send(Sent(child))) == Effect(Some(Worker(d, HasChild(i, child))), None, Some(KeyOf(id, d, i)))
    ensures HookStep(runs, id, d, Sending(i), Send(TurnedDown)) == Effect(Some(Worker(d, Finishing(i, RunFailed))), None, Some(KeyOf(id, d, i)))
    ensures forall answer :: HookCall(id, d, Sending(i), Send(answer)) == NoCall
  {
    hide HooksOf, KeyOf;
  }

  /** The places of a run that was sent, or may have been. */
  lemma ResumePlaces(runs: map<RunKey, HookRun>, id: Id, d: Deployment, i: nat, run: HookRun, child: string)
    requires i < |HooksOf(d.hooks, PhaseOf(d))|
    ensures Terminal(run.state) ==> HookStep(runs, id, d, RunRead(i, run), Reuse) == Goto(d, AfterRun(i, run.state))
    ensures run.state == Running && run.child.None? ==> HookStep(runs, id, d, RunRead(i, run), Find(Some(child))) == Goto(d, HasChild(i, child))
    ensures run.state == Running && run.child.None? ==> HookStep(runs, id, d, RunRead(i, run), Find(None)) == Goto(d, Finishing(i, RunFailed))
    ensures !Terminal(run.state) && run.child.Some? ==> HookStep(runs, id, d, RunRead(i, run), Resume) == Goto(d, Awaiting(i))
    ensures HookCall(id, d, RunRead(i, run), Reuse) == HookCall(id, d, RunRead(i, run), Resume) == NoCall
    ensures HookCall(id, d, RunRead(i, run), Find(Some(child))) == HookCall(id, d, RunRead(i, run), Find(None)) == NoCall
  {
    hide HooksOf, AfterRun, KeyOf;
  }

  lemma SavePlaces(runs: map<RunKey, HookRun>, id: Id, d: Deployment, i: nat, child: string)
    requires i < |HooksOf(d.hooks, PhaseOf(d))|
    ensures HookStep(runs, id, d, HasChild(i, child), SaveChild) == Goto(d, Awaiting(i))
    ensures HookCall(id, d, HasChild(i, child), SaveChild) == UpdateRun(KeyOf(id, d, i), Running, Some(child))
  {
    hide HooksOf, KeyOf;
  }

  lemma FinishPlaces(runs: map<RunKey, HookRun>, id: Id, d: Deployment, i: nat, result: RunState)
    requires i < |HooksOf(d.hooks, PhaseOf(d))| && Terminal(result)
    ensures HookStep(runs, id, d, Awaiting(i), Outcome(result)) == Goto(d, Finishing(i, result))
    ensures HookCall(id, d, Awaiting(i), Outcome(result)) == NoCall
    ensures HookStep(runs, id, d, Finishing(i, result), Work.Finish) == Goto(d, AfterRun(i, result))
    ensures HookCall(id, d, Finishing(i, result), Work.Finish) == UpdateRun(KeyOf(id, d, i), result, None)
  {
    hide HooksOf, AfterRun, KeyOf;
  }

  lemma EnsurePlace(runs: map<RunKey, HookRun>, id: Id, d: Deployment, i: nat)
    requires i < |HooksOf(d.hooks, PhaseOf(d))|
    ensures HookCall(id, d, AtHook(i), Ensure) == EnsureRun(KeyOf(id, d, i))
    ensures var k := KeyOf(id, d, i);
      HookStep(runs, id, d, AtHook(i), Ensure) == Goto(d, RunRead(i, if k in runs then runs[k] else HookRun(Dispatching, None)))
  {
    hide HooksOf, KeyOf;
  }

  lemma Went(d: Deployment, pc: Pc)
    ensures Goto(d, pc) == Effect(Some(Worker(d, pc)), None, None)
  {
  }

  /** The store is as it was but for the run at a key, which is this one. */
  predicate Stores(was: Db, db: Db, k: RunKey, run: HookRun) {
    db == was.(runs := was.runs[k := run])
  }

  lemma StoresIs(was: Db, db: Db, k: RunKey, run: HookRun)
    requires Stores(was, db, k, run)
    ensures k in db.runs && db.runs[k] == run && db == was.(runs := was.runs[k := run])
  {
  }

  lemma StoresUpdate(was: Db, db: Db, k: RunKey, run: HookRun, state: RunState, child: Option<string>)
    requires Stores(was, db, k, run)
    ensures Stores(was, Exec(db, UpdateRun(k, state, child)), k, HookRun(state, if child.Some? then child else run.child))
  {
    assert was.runs[k := run][k := HookRun(state, if child.Some? then child else run.child)]
        == was.runs[k := HookRun(state, if child.Some? then child else run.child)];
  }

  method Finish(store: Database.Rows, id: Id, d: Deployment, i: nat, result: RunState, ghost run: HookRun, ghost was: Db,
                ghost p: N.Plan, ghost s: Sys, ghost before: seq<Action>, ghost sent: seq<RunKey>)
    returns (ghost acts: seq<Action>)
    requires hide *; i < |HooksOf(d.hooks, PhaseOf(d))| && Terminal(result)
    requires At(p, s, id, d, before, Finishing(i, result), store.Value(), sent) && Stores(was, store.Value(), KeyOf(id, d, i), run)
    modifies store
    ensures Reached(p, s, id, d, i, acts, Over(result), store.Value(), sent)
    ensures Stores(was, store.Value(), KeyOf(id, d, i), HookRun(result, run.child))
  {
    hide *;
    StoresUpdate(was, store.Value(), KeyOf(id, d, i), run, result, None);
    FinishPlaces(store.Value().runs, id, d, i, result);
    ReachedIs(p, s, id, d, i, before + [Step(id, Work.Finish)], Exec(store.Value(), UpdateRun(KeyOf(id, d, i), result, None)), sent);
    Went(d, AfterRun(i, result));
    AtNext(p, s, id, d, before, Finishing(i, result), store.Value(), sent, Work.Finish, AfterRun(i, result));
    acts := before + [Step(id, Work.Finish)];
    var _ := store.UpdateHookRun(KeyOf(id, d, i), result, None);
  }

  method SaveChildOf(store: Database.Rows, id: Id, d: Deployment, i: nat, child: string, ghost run: HookRun, ghost was: Db,
                     ghost p: N.Plan, ghost s: Sys, ghost before: seq<Action>, ghost sent: seq<RunKey>)
    returns (ghost acts: seq<Action>)
    requires hide *; i < |HooksOf(d.hooks, PhaseOf(d))|
    requires At(p, s, id, d, before, HasChild(i, child), store.Value(), sent) && Stores(was, store.Value(), KeyOf(id, d, i), run)
    modifies store
    ensures At(p, s, id, d, acts, Awaiting(i), store.Value(), sent)
    ensures Stores(was, store.Value(), KeyOf(id, d, i), HookRun(Running, Some(child)))
  {
    hide *;
    StoresUpdate(was, store.Value(), KeyOf(id, d, i), run, Running, Some(child));
    SavePlaces(store.Value().runs, id, d, i, child);
    Went(d, Awaiting(i));
    AtNext(p, s, id, d, before, HasChild(i, child), store.Value(), sent, SaveChild, Awaiting(i));
    acts := before + [Step(id, SaveChild)];
    var _ := store.UpdateHookRun(KeyOf(id, d, i), Running, Some(child));
  }

  lemma ReachedIs(p: N.Plan, s: Sys, id: Id, d: Deployment, i: nat, acts: seq<Action>, db: Db, sent: seq<RunKey>)
    ensures Reached(p, s, id, d, i, acts, OnItsWay, db, sent) <==> At(p, s, id, d, acts, Awaiting(i), db, sent)
    ensures Reached(p, s, id, d, i, acts, LeftForLater, db, sent) <==> Left(p, s, id, acts, db, sent)
    ensures forall r :: Reached(p, s, id, d, i, acts, Over(r), db, sent) <==> Terminal(r) && At(p, s, id, d, acts, AfterRun(i, r), db, sent)
  {
    hide At, Left, AfterRun, Terminal;
  }

  /** The run goes no further without anything sent to Nomad. */
  method GiveUpOn(store: Database.Rows, id: Id, d: Deployment, i: nat, run: HookRun, result: RunState, ghost was: Db,
                  ghost p: N.Plan, ghost s: Sys, ghost before: seq<Action>, ghost sent: seq<RunKey>)
    returns (ghost acts: seq<Action>)
    requires hide *; i < |HooksOf(d.hooks, PhaseOf(d))| && Unsent(run) && result in {RunFailed, RunTimedOut}
    requires At(p, s, id, d, before, RunRead(i, run), store.Value(), sent) && Stores(was, store.Value(), KeyOf(id, d, i), run)
    modifies store
    ensures Reached(p, s, id, d, i, acts, Over(result), store.Value(), sent)
    ensures Stores(was, store.Value(), KeyOf(id, d, i), HookRun(result, run.child))
  {
    assert Terminal(result);
    hide *;
    SendPlaces(store.Value().runs, id, d, i, run, result);
    Went(d, Finishing(i, result));
    NothingWritten(store.Value());
    AtNext(p, s, id, d, before, RunRead(i, run), store.Value(), sent, GiveUp(result), Finishing(i, result));
    acts := Finish(store, id, d, i, result, run, was, p, s, before + [Step(id, GiveUp(result))], sent);
  }

  /** dispatch: the run is saved as running before anything is sent. */
  method Dispatch(store: Database.Rows, id: Id, d: Deployment, i: nat, run: HookRun, nomad: Answers, ghost was: Db,
                  ghost p: N.Plan, ghost s: Sys, ghost before: seq<Action>, ghost sentBefore: seq<RunKey>)
    returns (to: Progress, ghost acts: seq<Action>, ghost sent: seq<RunKey>)
    requires hide *; i < |HooksOf(d.hooks, PhaseOf(d))| && Unsent(run)
    requires At(p, s, id, d, before, RunRead(i, run), store.Value(), sentBefore) && Stores(was, store.Value(), KeyOf(id, d, i), run)
    modifies store
    ensures Reached(p, s, id, d, i, acts, to, store.Value(), sent)
    ensures sent == if Sends(run, nomad) then sentBefore + [KeyOf(id, d, i)] else sentBefore
    ensures to == Launched(run, nomad).0 && Stores(was, store.Value(), KeyOf(id, d, i), Launched(run, nomad).1)
  {
    UnsentIs(run);
    LaunchedIs(run, nomad);
    hide *;
    sent := sentBefore;
    if nomad.expired {
      acts := GiveUpOn(store, id, d, i, run, RunTimedOut, was, p, s, before, sent);
      return Over(RunTimedOut), acts, sent;
    }
    if nomad.down {
      AtLeft(p, s, id, d, before, RunRead(i, run), store.Value(), sent);
      acts := before + [Drop(id)];
      ReachedIs(p, s, id, d, i, acts, store.Value(), sent);
      return LeftForLater, acts, sent;
    }
    if nomad.unfit {
      acts := GiveUpOn(store, id, d, i, run, RunFailed, was, p, s, before, sent);
      return Over(RunFailed), acts, sent;
    }
    SendPlaces(store.Value().runs, id, d, i, run, RunFailed);
    Went(d, Sending(i));
    AtNext(p, s, id, d, before, RunRead(i, run), store.Value(), sent, MarkRunning, Sending(i));
    acts := before + [Step(id, MarkRunning)];
    StoresUpdate(was, store.Value(), KeyOf(id, d, i), run, Running, None);
    var _ := store.UpdateHookRun(KeyOf(id, d, i), Running, None);
    to, acts, sent := Answered(store, id, d, i, nomad.dispatch, was, p, s, acts, sent);
  }

  /** What is known of a run without a child before its job is polled. */
  lemma LaunchedIs(run: HookRun, nomad: Answers)
    requires run.child.None?
    ensures run.state == Dispatching ==>
      (Launched(run, nomad) ==
         if nomad.expired then (Over(RunTimedOut), HookRun(RunTimedOut, None))
         else if nomad.down then (LeftForLater, run)
         else if nomad.unfit then (Over(RunFailed), HookRun(RunFailed, None))
         else WhenAnswered(nomad.dispatch))
    ensures run.state == Running ==>
      (Launched(run, nomad) ==
         if nomad.down then (LeftForLater, run)
         else if nomad.found.Some? then (OnItsWay, HookRun(Running, nomad.found))
         else (Over(RunFailed), HookRun(RunFailed, None)))
    ensures Sends(run, nomad) <==> run.state == Dispatching && !nomad.expired && !nomad.down && !nomad.unfit
  {
  }

  /** Nomad's answer to the dispatch. */
  method Answered(store: Database.Rows, id: Id, d: Deployment, i: nat, answer: Answer, ghost was: Db,
                  ghost p: N.Plan, ghost s: Sys, ghost before: seq<Action>, ghost sentBefore: seq<RunKey>)
    returns (to: Progress, ghost acts: seq<Action>, ghost sent: seq<RunKey>)
    requires hide *; i < |HooksOf(d.hooks, PhaseOf(d))| && At(p, s, id, d, before, Sending(i), store.Value(), sentBefore)
    requires Stores(was, store.Value(), KeyOf(id, d, i), HookRun(Running, None))
    modifies store
    ensures Reached(p, s, id, d, i, acts, to, store.Value(), sent)
    ensures sent == sentBefore + [KeyOf(id, d, i)]
    ensures to == WhenAnswered(answer).0 && Stores(was, store.Value(), KeyOf(id, d, i), WhenAnswered(answer).1)
  {
    ghost var now := WhenAnswered(answer);
    assert now == match answer
      case Sent(child) => (OnItsWay, HookRun(Running, Some(child)))
      case TurnedDown => (Over(RunFailed), HookRun(RunFailed, None))
      case Lost => (LeftForLater, HookRun(Running, None));
    hide *;
    sent := sentBefore + [KeyOf(id, d, i)];
    acts := before + [Step(id, Send(answer))];
    NothingWritten(store.Value());
    match answer {
      case Sent(child) =>
        AnswerPlaces(store.Value().runs, id, d, i, child);
        AtNext(p, s, id, d, before, Sending(i), store.Value(), sentBefore, Send(answer), HasChild(i, child));
        acts := SaveChildOf(store, id, d, i, child, HookRun(Running, None), was, p, s, acts, sent);
        ReachedIs(p, s, id, d, i, acts, store.Value(), sent);
        to := OnItsWay;
      case TurnedDown =>
        AnswerPlaces(store.Value().runs, id, d, i, "");
        AtNext(p, s, id, d, before, Sending(i), store.Value(), sentBefore, Send(answer), Finishing(i, RunFailed));
        TerminalIs();
        acts := Finish(store, id, d, i, RunFailed, HookRun(Running, None), was, p, s, acts, sent);
        to := Over(RunFailed);
      case Lost =>
        AtLost(p, s, id, d, before, i, store.Value(), sentBefore);
        ReachedIs(p, s, id, d, i, acts, store.Value(), sent);
        to := LeftForLater;
    }
  }

  lemma TerminalIs()
    ensures Terminal(RunFailed) && Terminal(RunTimedOut) && Terminal(RunSucceeded) && !Terminal(Running) && !Terminal(Dispatching)
  {
  }

  /** recoverChild: the token finds the child, or the run fails: nothing is sent again. */
  method RecoverChild(store: Database.Rows, id: Id, d: Deployment, i: nat, run: HookRun, nomad: Answers, ghost was: Db,
                      ghost p: N.Plan, ghost s: Sys, ghost before: seq<Action>, ghost sent: seq<RunKey>)
    returns (to: Progress, ghost acts: seq<Action>)
    requires hide *; i < |HooksOf(d.hooks, PhaseOf(d))| && run.state == Running && run.child.None?
    requires At(p, s, id, d, before, RunRead(i, run), store.Value(), sent) && Stores(was, store.Value(), KeyOf(id, d, i), run)
    modifies store
    ensures Reached(p, s, id, d, i, acts, to, store.Value(), sent)
    ensures to == Launched(run, nomad).0 && Stores(was, store.Value(), KeyOf(id, d, i), Launched(run, nomad).1)
  {
    hide *;
    LaunchedIs(run, nomad);
    if nomad.down {
      AtLeft(p, s, id, d, before, RunRead(i, run), store.Value(), sent);
      acts := before + [Drop(id)];
      ReachedIs(p, s, id, d, i, acts, store.Value(), sent);
      return LeftForLater, acts;
    }
    NothingWritten(store.Value());
    acts := before + [Step(id, Find(nomad.found))];
    match nomad.found {
      case None =>
        ResumePlaces(store.Value().runs, id, d, i, run, "");
        Went(d, Finishing(i, RunFailed));
        AtNext(p, s, id, d, before, RunRead(i, run), store.Value(), sent, Find(None), Finishing(i, RunFailed));
        TerminalIs();
        acts := Finish(store, id, d, i, RunFailed, run, was, p, s, acts, sent);
        to := Over(RunFailed);
      case Some(child) =>
        ResumePlaces(store.Value().runs, id, d, i, run, child);
        Went(d, HasChild(i, child));
        AtNext(p, s, id, d, before, RunRead(i, run), store.Value(), sent, Find(Some(child)), HasChild(i, child));
        acts := SaveChildOf(store, id, d, i, child, run, was, p, s, acts, sent);
        ReachedIs(p, s, id, d, i, acts, store.Value(), sent);
        to := OnItsWay;
    }
  }

  /** await, and the outcome recorded: what the first poll that decides says. */
  method AwaitOutcome(store: Database.Rows, id: Id, d: Deployment, i: nat, polls: seq<Poll>, ghost run: HookRun, ghost was: Db,
                      ghost p: N.Plan, ghost s: Sys, ghost before: seq<Action>, ghost sent: seq<RunKey>)
    returns (to: Progress, ghost acts: seq<Action>)
    requires hide *; i < |HooksOf(d.hooks, PhaseOf(d))| && At(p, s, id, d, before, Awaiting(i), store.Value(), sent)
    requires Stores(was, store.Value(), KeyOf(id, d, i), run)
    modifies store
    ensures Reached(p, s, id, d, i, acts, to, store.Value(), sent) && !to.OnItsWay?
    ensures to == Polled(polls)
    ensures Stores(was, store.Value(), KeyOf(id, d, i), if to.Over? then HookRun(to.result, run.child) else run)
  {
    hide *;
    var result, at, _ := Await(polls);
    UndecidedIs(polls, at);
    PolledAt(polls, at);
    if result.None? {
      AtLeft(p, s, id, d, before, Awaiting(i), store.Value(), sent);
      acts := before + [Drop(id)];
      ReachedIs(p, s, id, d, i, acts, store.Value(), sent);
      return LeftForLater, acts;
    }
    var r := result.value;
    FinishPlaces(store.Value().runs, id, d, i, r);
    Went(d, Finishing(i, r));
    NothingWritten(store.Value());
    AtNext(p, s, id, d, before, Awaiting(i), store.Value(), sent, Outcome(r), Finishing(i, r));
    acts := Finish(store, id, d, i, r, run, was, p, s, before + [Step(id, Outcome(r))], sent);
    return Over(r), acts;
  }

  lemma UndecidedIs(polls: seq<Poll>, i: nat)
    ensures Undecided(polls, i) <==>
      i <= |polls| && (forall j :: 0 <= j < i ==> Decides(polls[j]).None?) && (i < |polls| ==> Decides(polls[i]).Some?)
  {
    hide Decides;
  }

  /** Run: the hook driven to a terminal state, or left for a later step. */
  method RunHook(store: Database.Rows, id: Id, d: Deployment, i: nat, nomad: Answers,
                 ghost p: N.Plan, ghost s: Sys, ghost before: seq<Action>, ghost sentBefore: seq<RunKey>)
    returns (to: Progress, ghost acts: seq<Action>, ghost sent: seq<RunKey>)
    requires hide *; i < |HooksOf(d.hooks, PhaseOf(d))| && At(p, s, id, d, before, AtHook(i), store.Value(), sentBefore)
    modifies store
    ensures Reached(p, s, id, d, i, acts, to, store.Value(), sent) && !to.OnItsWay?
    ensures var k := KeyOf(id, d, i); var run := StoredRun(old(store.runs), k);
      && to == RunAfter(run, nomad).0 && Stores(old(store.Value()), store.Value(), k, RunAfter(run, nomad).1)
      && sent == if Sends(run, nomad) then sentBefore + [k] else sentBefore
  {
    ghost var was := store.Value();
    ghost var k := KeyOf(id, d, i);
    assert was.runs == store.runs;
    var run;
    run, acts := ReadRun(store, id, d, i, p, s, before, sentBefore);
    sent := sentBefore;
    TerminalIs();
    UnsentIs(run);
    RunAfterIs(run, nomad);
    hide *;
    if run.state != Dispatching && run.state != Running {
      ResumePlaces(store.Value().runs, id, d, i, run, "");
      Went(d, AfterRun(i, run.state));
      NothingWritten(store.Value());
      AtNext(p, s, id, d, acts, RunRead(i, run), store.Value(), sent, Reuse, AfterRun(i, run.state));
      acts := acts + [Step(id, Reuse)];
      ReachedIs(p, s, id, d, i, acts, store.Value(), sent);
      return Over(run.state), acts, sent;
    }
    ghost var launched := run;
    if run.child.None? {
      if run.state == Dispatching {
        to, acts, sent := Dispatch(store, id, d, i, run, nomad, was, p, s, acts, sent);
      } else {
        to, acts := RecoverChild(store, id, d, i, run, nomad, was, p, s, acts, sent);
      }
      if !to.OnItsWay? {
        return;
      }
      launched := Launched(run, nomad).1;
      ReachedIs(p, s, id, d, i, acts, store.Value(), sent);
    } else {
      ResumePlaces(store.Value().runs, id, d, i, run, "");
      Went(d, Awaiting(i));
      NothingWritten(store.Value());
      AtNext(p, s, id, d, acts, RunRead(i, run), store.Value(), sent, Resume, Awaiting(i));
      acts := acts + [Step(id, Resume)];
    }
    to, acts := AwaitOutcome(store, id, d, i, nomad.polls, launched, was, p, s, acts, sent);
  }

  lemma UnsentIs(run: HookRun)
    ensures Unsent(run) <==> run.state == Dispatching && run.child.None?
    ensures Terminal(run.state) <==> run.state != Dispatching && run.state != Running
  {
  }

  lemma RunAfterIs(run: HookRun, nomad: Answers)
    ensures var (to, launched) := Launched(run, nomad);
      && (Terminal(run.state) ==> to == Over(run.state) && launched == run)
      && (!Terminal(run.state) && run.child.Some? ==> to == OnItsWay && launched == run)
      && RunAfter(run, nomad) ==
           if to.OnItsWay? then (Polled(nomad.polls), if Polled(nomad.polls).Over? then HookRun(Polled(nomad.polls).result, launched.child) else launched)
           else (to, launched)
    ensures Sends(run, nomad) ==> Unsent(run)
  {
    hide Polled;
  }

  /** EnsureHookRun: the run recorded earlier, or a new one. */
  method ReadRun(store: Database.Rows, id: Id, d: Deployment, i: nat,
                 ghost p: N.Plan, ghost s: Sys, ghost before: seq<Action>, ghost sent: seq<RunKey>)
    returns (run: HookRun, ghost acts: seq<Action>)
    requires hide *; i < |HooksOf(d.hooks, PhaseOf(d))| && At(p, s, id, d, before, AtHook(i), store.Value(), sent)
    modifies store
    ensures At(p, s, id, d, acts, RunRead(i, run), store.Value(), sent)
    ensures run == StoredRun(old(store.runs), KeyOf(id, d, i)) && Stores(old(store.Value()), store.Value(), KeyOf(id, d, i), run)
  {
    ghost var db := store.Value();
    assert db.runs == store.runs;
    hide *;
    EnsurePlace(db.runs, id, d, i);
    EnsureRunIs(db, KeyOf(id, d, i));
    var stored, _ := store.EnsureHookRun(KeyOf(id, d, i));
    run := stored;
    RunsOf(store);
    Went(d, RunRead(i, run));
    AtNext(p, s, id, d, before, AtHook(i), db, sent, Ensure, RunRead(i, run));
    acts := before + [Step(id, Ensure)];
  }

  lemma RunsOf(store: Database.Rows)
    ensures store.Value().runs == store.runs
  {
  }

  lemma EnsureRunIs(db: Db, k: RunKey)
    ensures var (run, after) := (StoredRun(db.runs, k), Exec(db, EnsureRun(k)));
      && run == (if k in db.runs then db.runs[k] else HookRun(Dispatching, None))
      && k in after.runs && after.runs[k] == run && Stores(db, after, k, run)
  {
    if k in db.runs { assert db.runs[k := db.runs[k]] == db.runs; }
  }

  // -- a phase --------------------------------------------------------------------------------------------

  lemma PhasePlaces(runs: map<RunKey, HookRun>, id: Id, d: Deployment)
    ensures var n := |HooksOf(d.hooks, PhaseOf(d))|;
      && HookStep(runs, id, d, Ready, EnterPhase) == Goto(d, if n == 0 then Deciding(Failed) else AtHook(0))
      && HookStep(runs, id, d, AtHook(n), PhaseDone) == Goto(d, Deciding(if d.state == PreHook then Applying else Completed))
    ensures HookCall(id, d, Ready, EnterPhase) == NoCall && forall i: nat :: HookCall(id, d, AtHook(i), PhaseDone) == NoCall
  {
    hide HooksOf, KeyOf;
  }

  /** The step moves the deployment on, and ends. */
  method MoveOn(store: Database.Rows, id: Id, d: Deployment, to: State, text: string,
                ghost p: N.Plan, ghost s: Sys, ghost before: seq<Action>, ghost sent: seq<RunKey>)
    returns (ghost acts: seq<Action>)
    requires hide *; At(p, s, id, d, before, Deciding(to), store.Value(), sent) && text == ErrorText(to)
    modifies store
    ensures Left(p, s, id, acts, store.Value(), sent)
    ensures store.Value() == Exec(old(store.Value()), Transition(id, d.state, to, Nops, text, false))
  {
    hide *;
    ghost var g := Run(p, s, before);
    AtIs(p, s, id, d, before, Deciding(to), store.Value(), sent);
    Engine.MoveStep(p, g, id, d, to);
    Engine.RunNext(p, s, before, Step(id, Work.Move));
    Engine.WithoutSet(s.workers, id, Worker(d, Deciding(to)));
    OfStep(id, Work.Move);
    acts := before + [Step(id, Work.Move)];
    var _ := store.Transition(id, d.state, to, Nops, text, false);
    LeftIs(p, s, id, acts, store.Value(), sent);
  }

  /** A hook whose revision Nomad does not take: the deployment fails once the hook's timeout is past. */
  method NotRegistered(store: Database.Rows, id: Id, d: Deployment, i: nat, late: bool,
                       ghost p: N.Plan, ghost s: Sys, ghost before: seq<Action>, ghost sent: seq<RunKey>)
    returns (end: PhaseEnd, ghost acts: seq<Action>)
    requires hide *; i < |HooksOf(d.hooks, PhaseOf(d))| && At(p, s, id, d, before, AtHook(i), store.Value(), sent)
    modifies store
    ensures EndsPhase(p, s, id, d, acts, end, store.Value(), sent) && store.Value() == old(store.Value())
    ensures end == if late then StoppedAt(i) else LeftAt(i)
  {
    hide *;
    if late {
      LatePlace(store.Value().runs, id, d, i);
      NothingWritten(store.Value());
      Went(d, Deciding(Failed));
      AtNext(p, s, id, d, before, AtHook(i), store.Value(), sent, HookTimeOut, Deciding(Failed));
      acts := before + [Step(id, HookTimeOut)];
      end := StoppedAt(i);
    } else {
      AtLeft(p, s, id, d, before, AtHook(i), store.Value(), sent);
      acts := before + [Drop(id)];
      end := LeftAt(i);
    }
    EndsPhaseIs(p, s, id, d, acts, end, store.Value(), sent);
  }

  lemma LatePlace(runs: map<RunKey, HookRun>, id: Id, d: Deployment, i: nat)
    requires i < |HooksOf(d.hooks, PhaseOf(d))|
    ensures HookStep(runs, id, d, AtHook(i), HookTimeOut) == Goto(d, Deciding(Failed))
    ensures HookCall(id, d, AtHook(i), HookTimeOut) == NoCall
  {
    hide HooksOf, KeyOf;
  }

  /** Where the steps lead when a phase ends so. */
  ghost predicate EndsPhase(p: N.Plan, s: Sys, id: Id, d: Deployment, acts: seq<Action>, end: PhaseEnd, db: Db, sent: seq<RunKey>) {
    match end
    case Through => At(p, s, id, d, acts, AtHook(|HooksOf(d.hooks, PhaseOf(d))|), db, sent)
    case StoppedAt(_) => At(p, s, id, d, acts, Deciding(Failed), db, sent)
    case LeftAt(_) => Left(p, s, id, acts, db, sent)
  }

  lemma EndsPhaseIs(p: N.Plan, s: Sys, id: Id, d: Deployment, acts: seq<Action>, end: PhaseEnd, db: Db, sent: seq<RunKey>)
    ensures EndsPhase(p, s, id, d, acts, end, db, sent) <==>
      match end
      case Through => At(p, s, id, d, acts, AtHook(|HooksOf(d.hooks, PhaseOf(d))|), db, sent)
      case StoppedAt(_) => At(p, s, id, d, acts, Deciding(Failed), db, sent)
      case LeftAt(_) => Left(p, s, id, acts, db, sent)
  {
    hide At, Left, HooksOf;
  }

  /** The hooks of a phase in order, each after the one before it succeeded. */
  method RunHooks(store: Database.Rows, id: Id, d: Deployment, answers: seq<Answers>,
                  ghost p: N.Plan, ghost s: Sys, ghost before: seq<Action>, ghost sentBefore: seq<RunKey>)
    returns (end: PhaseEnd, ghost acts: seq<Action>, ghost sent: seq<RunKey>)
    requires hide *; |answers| == |HooksOf(d.hooks, PhaseOf(d))|
    requires At(p, s, id, d, before, AtHook(0), store.Value(), sentBefore)
    modifies store
    ensures EndsPhase(p, s, id, d, acts, end, store.Value(), sent)
    ensures var (e, runs) := PhaseFrom(old(store.Value()).runs, id, d, answers, 0);
      end == e && store.Value() == old(store.Value()).(runs := runs)
  {
    hide *;
    ghost var was := store.Value();
    acts, sent := before, sentBefore;
    for i := 0 to |answers|
      invariant At(p, s, id, d, acts, AtHook(i), store.Value(), sent)
      invariant store.Value() == was.(runs := store.Value().runs)
      invariant PhaseFrom(store.Value().runs, id, d, answers, i) == PhaseFrom(was.runs, id, d, answers, 0)
    {
      PhaseFromIs(store.Value().runs, id, d, answers, i);
      if !answers[i].registered {
        end, acts := NotRegistered(store, id, d, i, answers[i].late, p, s, acts, sent);
        return;
      }
      ghost var db := store.Value();
      RunsOf(store);
      var to;
      to, acts, sent := RunHook(store, id, d, i, answers[i], p, s, acts, sent);
      StoresIs(db, store.Value(), KeyOf(id, d, i), RunAfter(StoredRun(db.runs, KeyOf(id, d, i)), answers[i]).1);
      ReachedIs(p, s, id, d, i, acts, store.Value(), sent);
      if to != Over(RunSucceeded) {
        end := if to.Over? then StoppedAt(i) else LeftAt(i);
        if to.Over? {
          AfterRunIs(i, to.result);
        }
        EndsPhaseIs(p, s, id, d, acts, end, store.Value(), sent);
        return;
      }
      AfterRunIs(i, RunSucceeded);
    }
    PhaseFromEnd(store.Value().runs, id, d, answers);
    EndsPhaseIs(p, s, id, d, acts, Through, store.Value(), sent);
    end := Through;
  }

  /** Where a phase that ended so moves the deployment, if anywhere: a phase without a hook fails it. */
  function MovedTo(d: Deployment, hooks: nat, end: PhaseEnd): Option<State> {
    if hooks == 0 || end.StoppedAt? then Some(Failed)
    else if end.LeftAt? then None
    else Some(if d.state == PreHook then Applying else Completed)
  }

  /** The deployment moved from the state of its copy, if the row is still in it. */
  function MovedDb(db: Db, id: Id, d: Deployment, to: Option<State>): Db {
    match to
    case None => db
    case Some(st) => Exec(db, Transition(id, d.state, st, Nops, ErrorText(st), false))
  }

  /** stepHook, whatever Nomad answers, with nothing in between its calls. */
  method StepHook(store: Database.Rows, id: Id, d: Deployment, answers: seq<Answers>, ghost p: N.Plan, ghost s: Sys)
    returns (end: PhaseEnd, ghost acts: seq<Action>, ghost sent: seq<RunKey>)
    requires hide *; |answers| == |HooksOf(d.hooks, PhaseOf(d))|
    requires At(p, s, id, d, [], Ready, store.Value(), s.sent)
    modifies store
    ensures Left(p, s, id, acts, store.Value(), sent)
    ensures var (e, runs) := PhaseFrom(old(store.Value()).runs, id, d, answers, 0);
      end == e && store.Value() == MovedDb(old(store.Value()).(runs := runs), id, d, MovedTo(d, |answers|, end))
  {
    Engine.ErrorTexts();
    hide *;
    var n := |answers|;
    sent := s.sent;
    PhasePlaces(store.Value().runs, id, d);
    NothingWritten(store.Value());
    var first := if n == 0 then Deciding(Failed) else AtHook(0);
    Went(d, first);
    AtNext(p, s, id, d, [], Ready, store.Value(), sent, EnterPhase, first);
    acts := [] + [Step(id, EnterPhase)];
    if n == 0 {
      PhaseFromEnd(store.Value().runs, id, d, answers);
      MovedIs(store.Value(), id, d, n, Through);
      end := Through;
      acts := MoveOn(store, id, d, Failed, "failed", p, s, acts, sent);
      return;
    }
    end, acts, sent := RunHooks(store, id, d, answers, p, s, acts, sent);
    EndsPhaseIs(p, s, id, d, acts, end, store.Value(), sent);
    MovedIs(store.Value(), id, d, n, end);
    if end.StoppedAt? {
      acts := MoveOn(store, id, d, Failed, "failed", p, s, acts, sent);
    } else if end.Through? {
      acts := PhaseEnds(store, id, d, n, p, s, acts, sent);
    }
  }

  lemma MovedIs(db: Db, id: Id, d: Deployment, n: nat, end: PhaseEnd)
    ensures n == 0 || end.StoppedAt? ==> MovedDb(db, id, d, MovedTo(d, n, end)) == Exec(db, Transition(id, d.state, Failed, Nops, "failed", false))
    ensures n > 0 && end.LeftAt? ==> MovedDb(db, id, d, MovedTo(d, n, end)) == db
    ensures n > 0 && end.Through? ==>
      MovedDb(db, id, d, MovedTo(d, n, end)) == Exec(db, Transition(id, d.state, if d.state == PreHook then Applying else Completed, Nops, "", false))
  {
    hide Exec;
  }

  /** Every hook of the phase succeeded: the deployment moves on. */
  method PhaseEnds(store: Database.Rows, id: Id, d: Deployment, n: nat, ghost p: N.Plan, ghost s: Sys, ghost before: seq<Action>, ghost sent: seq<RunKey>)
    returns (ghost acts: seq<Action>)
    requires hide *; n == |HooksOf(d.hooks, PhaseOf(d))| && At(p, s, id, d, before, AtHook(n), store.Value(), sent)
    modifies store
    ensures Left(p, s, id, acts, store.Value(), sent)
    ensures store.Value() == Exec(old(store.Value()), Transition(id, d.state, if d.state == PreHook then Applying else Completed, Nops, "", false))
  {
    assert ErrorText(Applying) == ErrorText(Completed) == "";
    hide *;
    var next := if d.state == PreHook then Applying else Completed;
    PhasePlaces(store.Value().runs, id, d);
    NothingWritten(store.Value());
    Went(d, Deciding(next));
    AtNext(p, s, id, d, before, AtHook(n), store.Value(), sent, PhaseDone, Deciding(next));
    acts := MoveOn(store, id, d, next, "", p, s, before + [Step(id, PhaseDone)], sent);
  }

  /**
   A step of a phase moves the deployment on exactly when there are hooks and all of them succeed,
   fails it exactly when there are none or the first not to succeed ended otherwise, and keeps it
   where it is exactly when that one was left for later. Nothing moves if the row has moved already.
  */
  lemma StepMoves(db: Db, id: Id, d: Deployment, answers: seq<Answers>, n: nat)
    requires d.state in {PreHook, PostHook} && InOrder(HooksOf(d.hooks, PhaseOf(d))) && |answers| == |HooksOf(d.hooks, PhaseOf(d))|
    requires EndsAt(db.runs, id, d, answers, 0, n)
    ensures var (end, runs) := PhaseFrom(db.runs, id, d, answers, 0);
      var after := MovedDb(db.(runs := runs), id, d, MovedTo(d, |answers|, end)).rows;
      && |after| == |db.rows| && (forall j :: 0 <= j < |after| && j != id ==> after[j] == db.rows[j])
      && (id < |db.rows| && db.rows[id].state == d.state ==>
            && (after[id].state == (if d.state == PreHook then Applying else Completed) <==>
                  answers != [] && forall j :: 0 <= j < |answers| ==> answers[j].registered && RunEnd(db.runs, id, d, answers, j) == Over(RunSucceeded))
            && (after[id].state == Failed <==>
                  answers == [] || (n < |answers| && if answers[n].registered then RunEnd(db.runs, id, d, answers, n).Over? else answers[n].late))
            && (after[id].state == d.state <==>
                  n < |answers| && if answers[n].registered then RunEnd(db.runs, id, d, answers, n).LeftForLater? else !answers[n].late))
      && (id < |db.rows| && db.rows[id].state != d.state ==> after == db.rows)
  {
    var (end, runs) := PhaseFrom(db.runs, id, d, answers, 0);
    assert (forall j :: 0 <= j < n ==> HookEnd(db.runs, id, d, answers, j) == Over(RunSucceeded)) && n <= |answers|
        && (n < |answers| ==> HookEnd(db.runs, id, d, answers, n) != Over(RunSucceeded)) by { hide HooksOf, HookEnd; }
    hide *;
    PhaseEndsAt(db.runs, id, d, answers, 0, n);
    forall j | 0 <= j < |answers|
      ensures HookEnd(db.runs, id, d, answers, j) ==
        if answers[j].registered then RunEnd(db.runs, id, d, answers, j) else if answers[j].late then Over(RunTimedOut) else LeftForLater
      ensures !RunEnd(db.runs, id, d, answers, j).OnItsWay?
    {
      HookEndIs(db.runs, id, d, answers, j);
      EndOfIs(db.runs, id, d, answers, j);
    }
    RowMoves(db, runs, id, d, |answers|, end);
  }

  /** Where the row is after a phase that ended so. */
  lemma RowMoves(db: Db, runs: map<RunKey, HookRun>, id: Id, d: Deployment, n: nat, end: PhaseEnd)
    requires d.state in {PreHook, PostHook}
    ensures var after := MovedDb(db.(runs := runs), id, d, MovedTo(d, n, end)).rows;
      && |after| == |db.rows| && (forall j :: 0 <= j < |after| && j != id ==> after[j] == db.rows[j])
      && (id < |db.rows| && db.rows[id].state == d.state ==>
            after[id].state ==
              if n == 0 || end.StoppedAt? then Failed
              else if end.LeftAt? then d.state
              else if d.state == PreHook then Applying else Completed)
      && (id < |db.rows| && db.rows[id].state != d.state ==> after == db.rows)
  {
  }

  lemma AfterRunIs(i: nat, result: RunState)
    ensures AfterRun(i, result) == if result == RunSucceeded then AtHook(i + 1) else Deciding(Failed)
  {
  }
}