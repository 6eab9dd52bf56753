/** Whether the version nops registered is healthy: by its allocations, or by its canaries. */
module Health {
  import opened Options

  datatype Verdict = Waiting | Healthy | Unhealthy | AwaitingPromotion | Promoted

  datatype Alloc = Alloc(version: nat, client: string, next: string, followup: string, failure: string)

  /** The allocations of the registered version and of the scales after it. */
  predicate Ours(a: Alloc, version: nat) {
    a.version >= version
  }

  predicate Ended(a: Alloc) {
    a.client == "failed" || a.client == "lost"
  }

  /** Ended for good: neither replaced nor to be rescheduled. */
  predicate Down(a: Alloc) {
    Ended(a) && a.next == "" && a.followup == ""
  }

  predicate Settled(a: Alloc) {
    a.next != "" || a.client == "running" || a.client == "complete"
  }

  lemma EndedNotSettled(a: Alloc)
    requires Ended(a) && a.next == ""
    ensures !Settled(a)
  {
    assert |"failed"| == 6 && |"lost"| == 4 && |"running"| == 7 && |"complete"| == 8;
  }

  method OursOf(allocs: seq<Alloc>, version: nat) returns (ours: seq<Alloc>)
    ensures forall a :: a in ours <==> a in allocs && Ours(a, version)
  {
    ours := [];
    for i := 0 to |allocs|
      invariant forall a :: a in ours <==> a in allocs[..i] && Ours(a, version)
    {
      assert allocs[..i + 1] == allocs[..i] + [allocs[i]];
      if allocs[i].version >= version {
        ours := ours + [allocs[i]];
      }
    }
    assert allocs[..|allocs|] == allocs;
  }

  /** The verdict of the allocations: unfinished says Nomad has an evaluation left that may still reschedule one. */
  method AllocsHealth(allocs: seq<Alloc>, version: nat, unfinished: bool) returns (h: Verdict)
    ensures h == Unhealthy <==> !unfinished && exists a :: a in allocs && Ours(a, version) && Down(a)
    ensures h == Healthy <==>
      && (exists a :: a in allocs && Ours(a, version))
      && (forall a :: a in allocs && Ours(a, version) ==> Settled(a))
    ensures h in {Healthy, Unhealthy, Waiting}
  {
    var ours := OursOf(allocs, version);
    if |ours| == 0 {
      return Waiting;
    }
    assert ours[0] in ours;
    var rescheduling := 0;
    var down := false;
    for i := 0 to |ours|
      invariant down <==> exists j :: 0 <= j < i && Down(ours[j])
      invariant rescheduling >= 0 && (rescheduling > 0 <==> exists j :: 0 <= j < i && Ended(ours[j]) && ours[j].next == "" && ours[j].followup != "")
    {
      var a := ours[i];
      if a.client != "failed" && a.client != "lost" {
        continue;
      }
      if a.next != "" {
      } else if a.followup != "" {
        rescheduling := rescheduling + 1;
      } else {
        down := true;
      }
    }
    forall j | 0 <= j < |ours| && Ended(ours[j]) && ours[j].next == ""
      ensures ours[j] in ours && !Settled(ours[j])
    {
      EndedNotSettled(ours[j]);
    }
    if down {
      return if unfinished then Waiting else Unhealthy;
    }
    if rescheduling > 0 {
      return Waiting;
    }
    for i := 0 to |ours|
      invariant forall j :: 0 <= j < i ==> Settled(ours[j])
    {
      if ours[i].next == "" && ours[i].client != "running" && ours[i].client != "complete" {
        assert ours[i] in ours && !Settled(ours[i]);
        return Waiting;
      }
    }
    return Healthy;
  }

  /** A group of the job, with what the Nomad deployment says of it, if anything. */
  datatype Canaries = Canaries(desired: nat, promoted: bool, placed: nat, healthy: nat)

  datatype Group = Group(name: Option<string>, auto: bool, state: Option<Canaries>)

  /** The group has canaries a person has to promote. */
  predicate Manual(g: Group) {
    g.name.Some? && g.state.Some? && g.state.value.desired != 0 && !g.auto
  }

  predicate IsPromoted(g: Group) {
    g.state.Some? && g.state.value.promoted
  }

  predicate Ready(g: Group) {
    g.state.Some? && g.state.value.placed >= g.state.value.desired && g.state.value.healthy >= g.state.value.desired
  }

  /** Promoted when every manual group is; waiting for a person when every one is promoted or all its canaries are ready. */
  method CanaryHealth(groups: seq<Group>) returns (h: Verdict)
    ensures h == Promoted <==> (exists g :: g in groups && Manual(g)) && forall g :: g in groups && Manual(g) ==> IsPromoted(g)
    ensures h == AwaitingPromotion <==>
      && (exists g :: g in groups && Manual(g) && !IsPromoted(g))
      && (forall g :: g in groups && Manual(g) ==> IsPromoted(g) || Ready(g))
    ensures h in {Promoted, AwaitingPromotion, Waiting}
  {
    var manual, promoted, ready: int := 0, 0, 0;
    for i := 0 to |groups|
      invariant 0 <= promoted && 0 <= ready && promoted + ready <= manual
      invariant manual > 0 <==> exists j :: 0 <= j < i && Manual(groups[j])
      invariant promoted == manual <==> forall j :: 0 <= j < i && Manual(groups[j]) ==> IsPromoted(groups[j])
      invariant promoted + ready == manual <==> forall j :: 0 <= j < i && Manual(groups[j]) ==> IsPromoted(groups[j]) || Ready(groups[j])
    {
      var g := groups[i];
      if g.name.None? || g.state.None? || g.state.value.desired == 0 || g.auto {
        continue;
      }
      manual := manual + 1;
      if g.state.value.promoted {
        promoted := promoted + 1;
      } else if g.state.value.placed >= g.state.value.desired && g.state.value.healthy >= g.state.value.desired {
        ready := ready + 1;
      }
    }
    assert forall g :: g in groups <==> exists j :: 0 <= j < |groups| && groups[j] == g;
    if manual == 0 {
      return Waiting;
    } else if promoted == manual {
      return Promoted;
    } else if ready + promoted == manual {
      return AwaitingPromotion;
    }
    return Waiting;
  }
}
