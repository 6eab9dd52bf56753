/** What a plan diff comes to at a glance: the fields it adds, edits and deletes, and where. */
module DiffSummary {
  import opened Options
  import opened Diff

  datatype Where = TheJob | AGroup | ATask

  datatype Place = Place(place: Where, name: string, kind: Kind, changes: nat)

  /** A summary as a value. */
  datatype Totals = Totals(added: nat, edited: nat, deleted: nat, places: seq<Place>)

  // -- counting -------------------------------------------------------------------------

  /** How many of the fields have a kind. */
  function FieldTally(fields: Fields, k: Kind): nat {
    if fields == [] then 0
    else
      var n := |fields| - 1;
      FieldTally(fields[..n], k) + if fields[n].Some? && fields[n].value.kind == k then 1 else 0
  }

  /** How many fields of the objects, at any depth, have a kind. */
  function Below(objects: Objects, k: Kind): nat
    decreases objects, 0
  {
    if objects == [] then 0
    else
      var n := |objects| - 1;
      Below(objects[..n], k) + OneTally(objects[n], k)
  }

  function OneTally(o: Object, k: Kind): nat
    decreases o, 1
  {
    if o.NilObject? then 0 else FieldTally(o.fields, k) + Below(o.objects, k)
  }

  function Tally(fields: Fields, objects: Objects, k: Kind): nat {
    FieldTally(fields, k) + Below(objects, k)
  }

  /** The field changes of a part: what Nomad adds, edits and deletes, and nothing of another kind. */
  function Changes(fields: Fields, objects: Objects): nat {
    Tally(fields, objects, Added) + Tally(fields, objects, Edited) + Tally(fields, objects, Deleted)
  }

  function PartPlace(place: Where, name: string, kind: Kind, n: nat): seq<Place> {
    if n > 0 || kind == Added || kind == Deleted then [Place(place, name, kind, n)] else []
  }

  function TaskPlaces(group: string, tasks: Tasks): seq<Place> {
    if tasks == [] then []
    else
      var n := |tasks| - 1;
      TaskPlaces(group, tasks[..n]) + TaskPlace(group, tasks[n])
  }

  function TaskPlace(group: string, task: Option<Task>): seq<Place> {
    match task
    case None => []
    case Some(t) => PartPlace(ATask, group + "/" + t.name, t.kind, Changes(t.fields, t.objects))
  }

  function GroupPlace(group: Option<Group>): seq<Place> {
    match group
    case None => []
    case Some(g) => PartPlace(AGroup, g.name, g.kind, Changes(g.fields, g.objects)) + TaskPlaces(g.name, g.tasks)
  }

  function GroupPlaces(groups: Groups): seq<Place> {
    if groups == [] then []
    else
      var n := |groups| - 1;
      GroupPlaces(groups[..n]) + GroupPlace(groups[n])
  }

  function TaskTally(task: Option<Task>, k: Kind): nat {
    match task case None => 0 case Some(t) => Tally(t.fields, t.objects, k)
  }

  function TasksTally(tasks: Tasks, k: Kind): nat {
    if tasks == [] then 0 else TasksTally(tasks[..|tasks| - 1], k) + TaskTally(tasks[|tasks| - 1], k)
  }

  function GroupTally(group: Option<Group>, k: Kind): nat {
    match group case None => 0 case Some(g) => Tally(g.fields, g.objects, k) + TasksTally(g.tasks, k)
  }

  function GroupsTally(groups: Groups, k: Kind): nat {
    if groups == [] then 0 else GroupsTally(groups[..|groups| - 1], k) + GroupTally(groups[|groups| - 1], k)
  }

  function DiffTally(d: JobDiff, k: Kind): nat {
    Tally(d.fields, d.objects, k) + GroupsTally(d.groups, k)
  }

  function Places(d: JobDiff): seq<Place> {
    var n := Changes(d.fields, d.objects);
    (if n > 0 then [Place(TheJob, "", d.kind, n)] else []) + GroupPlaces(d.groups)
  }

  function Summarized(d: Option<JobDiff>): Totals {
    match d
    case None => Totals(0, 0, 0, [])
    case Some(j) => Totals(DiffTally(j, Added), DiffTally(j, Edited), DiffTally(j, Deleted), Places(j))
  }

  class Summary {
    var added: nat
    var edited: nat
    var deleted: nat
    var places: seq<Place>

    constructor ()
      ensures Value() == Totals(0, 0, 0, [])
    {
      added, edited, deleted, places := 0, 0, 0, [];
    }

    function Value(): Totals
      reads this
    {
      Totals(added, edited, deleted, places)
    }

    /** Adds the changed fields of a level, and of the objects below it. */
    method Count(fields: Fields, objects: Objects) returns (n: nat)
      modifies `added, `edited, `deleted
      ensures added == old(added) + Tally(fields, objects, Added)
      ensures edited == old(edited) + Tally(fields, objects, Edited)
      ensures deleted == old(deleted) + Tally(fields, objects, Deleted)
      ensures n == Changes(fields, objects)
      decreases objects
    {
      n := 0;
      for i := 0 to |fields|
        invariant added == old(added) + FieldTally(fields[..i], Added)
        invariant edited == old(edited) + FieldTally(fields[..i], Edited)
        invariant deleted == old(deleted) + FieldTally(fields[..i], Deleted)
        invariant n == added - old(added) + edited - old(edited) + deleted - old(deleted)
      {
        assert fields[..i + 1][..i] == fields[..i];
        if fields[i].None? {
          continue;
        }
        match fields[i].value.kind {
          case Added => added := added + 1;
          case Edited => edited := edited + 1;
          case Deleted => deleted := deleted + 1;
          case _ => continue;
        }
        n := n + 1;
      }
      assert fields[..|fields|] == fields;
      for i := 0 to |objects|
        invariant added == old(added) + FieldTally(fields, Added) + Below(objects[..i], Added)
        invariant edited == old(edited) + FieldTally(fields, Edited) + Below(objects[..i], Edited)
        invariant deleted == old(deleted) + FieldTally(fields, Deleted) + Below(objects[..i], Deleted)
        invariant n == added - old(added) + edited - old(edited) + deleted - old(deleted)
      {
        BelowNext(objects, i);
        if objects[i].Object? {
          var m := Count(objects[i].fields, objects[i].objects);
          n := n + m;
        }
      }
      assert objects[..|objects|] == objects;
    }

    method AddPlace(place: Where, name: string, kind: Kind, n: nat)
      modifies `places
      ensures places == old(places) + PartPlace(place, name, kind, n)
    {
      if n > 0 || kind == Added || kind == Deleted {
        places := places + [Place(place, name, kind, n)];
      }
    }

    method CountTasks(group: string, tasks: Tasks)
      modifies this
      ensures added == old(added) + TasksTally(tasks, Added)
      ensures edited == old(edited) + TasksTally(tasks, Edited)
      ensures deleted == old(deleted) + TasksTally(tasks, Deleted)
      ensures places == old(places) + TaskPlaces(group, tasks)
    {
      for i := 0 to |tasks|
        invariant added == old(added) + TasksTally(tasks[..i], Added)
        invariant edited == old(edited) + TasksTally(tasks[..i], Edited)
        invariant deleted == old(deleted) + TasksTally(tasks[..i], Deleted)
        invariant places == old(places) + TaskPlaces(group, tasks[..i])
      {
        assert tasks[..i + 1][..i] == tasks[..i];
        if tasks[i].None? {
          continue;
        }
        var t := tasks[i].value;
        var n := Count(t.fields, t.objects);
        AddPlace(ATask, group + "/" + t.name, t.kind, n);
      }
      assert tasks[..|tasks|] == tasks;
    }

    method CountGroup(g: Group)
      modifies this
      ensures added == old(added) + GroupTally(Some(g), Added)
      ensures edited == old(edited) + GroupTally(Some(g), Edited)
      ensures deleted == old(deleted) + GroupTally(Some(g), Deleted)
      ensures places == old(places) + GroupPlace(Some(g))
    {
      hide TasksTally, TaskPlaces, Tally, Changes;
      var n := Count(g.fields, g.objects);
      AddPlace(AGroup, g.name, g.kind, n);
      CountTasks(g.name, g.tasks);
    }

    method CountGroups(groups: Groups)
      modifies this
      ensures added == old(added) + GroupsTally(groups, Added)
      ensures edited == old(edited) + GroupsTally(groups, Edited)
      ensures deleted == old(deleted) + GroupsTally(groups, Deleted)
      ensures places == old(places) + GroupPlaces(groups)
    {
      NoGroups(groups[..0]);
      Assoc(places, [], []);
      hide *;
      for i := 0 to |groups|
        invariant added == old(added) + GroupsTally(groups[..i], Added)
        invariant edited == old(edited) + GroupsTally(groups[..i], Edited)
        invariant deleted == old(deleted) + GroupsTally(groups[..i], Deleted)
        invariant places == old(places) + GroupPlaces(groups[..i])
      {
        GroupNext(groups, i);
        Assoc(old(places), GroupPlaces(groups[..i]), []);
        if groups[i].None? {
          continue;
        }
        Assoc(old(places), GroupPlaces(groups[..i]), GroupPlace(groups[i]));
        CountGroup(groups[i].value);
      }
      assert groups[..|groups|] == groups;
    }
  }

  lemma NoGroups(groups: Groups)
    requires groups == []
    ensures forall k :: GroupsTally(groups, k) == 0
    ensures GroupPlaces(groups) == []
  {
  }

  lemma GroupNext(groups: Groups, i: nat)
    requires i < |groups|
    ensures forall k :: GroupsTally(groups[..i + 1], k) == GroupsTally(groups[..i], k) + GroupTally(groups[i], k)
    ensures GroupPlaces(groups[..i + 1]) == GroupPlaces(groups[..i]) + GroupPlace(groups[i])
    ensures groups[i].None? ==> GroupPlace(groups[i]) == [] && forall k :: GroupTally(groups[i], k) == 0
  {
    assert groups[..i + 1][..i] == groups[..i];
  }

  lemma Assoc(a: seq<Place>, b: seq<Place>, c: seq<Place>)
    ensures (a + b) + c == a + (b + c) && a + [] == a
  {
  }

  lemma BelowNext(objects: Objects, i: nat)
    requires i < |objects|
    ensures forall k :: Below(objects[..i + 1], k) == Below(objects[..i], k) + OneTally(objects[i], k)
  {
    assert objects[..i + 1][..i] == objects[..i];
    hide OneTally;
  }

  lemma DiffParts(d: JobDiff)
    ensures forall k :: DiffTally(d, k) == Tally(d.fields, d.objects, k) + GroupsTally(d.groups, k)
  {
    hide Tally, GroupsTally;
  }

  method Summarize(d: Option<JobDiff>) returns (s: Summary)
    ensures fresh(s) && s.Value() == Summarized(d)
  {
    hide DiffTally, GroupsTally, GroupPlaces, Tally, Changes;
    s := new Summary();
    if d.None? {
      return;
    }
    DiffParts(d.value);
    var n := s.Count(d.value.fields, d.value.objects);
    if n > 0 {
      s.places := s.places + [Place(TheJob, "", d.value.kind, n)];
    }
    s.CountGroups(d.value.groups);
  }

  // -- the normalized diff says the same ----------------------------------------------------

  /** Objects marked None show no change below them, at any depth. */
  predicate Honest(objects: Objects)
    decreases objects, 0
  {
    forall i :: 0 <= i < |objects| ==> HonestOne(objects[i])
  }

  predicate HonestOne(o: Object)
    decreases o, 1
  {
    o.Object? ==> Honest(o.objects) && (o.kind == Same ==> Changes(o.fields, o.objects) == 0)
  }

  predicate HonestDiff(d: JobDiff) {
    Honest(d.objects) && forall i :: 0 <= i < |d.groups| && d.groups[i].Some? ==> HonestGroup(d.groups[i].value)
  }

  predicate HonestGroup(g: Group) {
    Honest(g.objects) && forall i :: 0 <= i < |g.tasks| && g.tasks[i].Some? ==> Honest(g.tasks[i].value.objects)
  }

  lemma {:induction false} BelowConcat(a: Objects, b: Objects, k: Kind)
    ensures Below(a + b, k) == Below(a, k) + Below(b, k)
  {
    if b == [] {
      assert a + b == a;
    } else {
      var n := |b| - 1;
      assert (a + b)[..|a + b| - 1] == a + b[..n] && (a + b)[|a + b| - 1] == b[n];
      BelowConcat(a, b[..n], k);
    }
  }

  lemma BelowOne(o: Object, k: Kind)
    ensures Below([o], k) == OneTally(o, k)
  {
    assert [o][..0] == [];
  }

  lemma {:induction false} SilentFields(fields: Fields, k: Kind)
    requires !AnyField(fields) && k != Same
    ensures FieldTally(fields, k) == 0
  {
    if fields != [] {
      var n := |fields| - 1;
      assert forall i :: 0 <= i < n ==> fields[..n][i] == fields[i];
      SilentFields(fields[..n], k);
    }
  }

  /** Honest objects none of which is a change show none. */
  lemma {:induction false} SilentObjects(objects: Objects, k: Kind)
    requires Honest(objects) && !AnyObject(objects) && k in {Added, Edited, Deleted}
    ensures Below(objects, k) == 0
  {
    if objects != [] {
      var n := |objects| - 1;
      assert forall i :: 0 <= i < n ==> objects[..n][i] == objects[i];
      SilentObjects(objects[..n], k);
      assert HonestOne(objects[n]) && !objects[n].IsChange();
    }
  }

  /** Dropping the empty edits of honest objects leaves them honest, with the same fields to count. */
  lemma {:induction false} KeptCounts(objects: Objects)
    requires Honest(objects)
    ensures Honest(Kept(objects))
    ensures forall k :: k in {Added, Edited, Deleted} ==> Below(Kept(objects), k) == Below(objects, k)
    decreases objects, 0
  {
    if objects != [] {
      var n := |objects| - 1;
      HonestLast(objects);
      KeptCounts(objects[..n]);
      OneCounts(objects[n]);
      KeptNext(objects, n);
      assert objects[..n + 1] == objects;
      HonestConcat(Kept(objects[..n]), KeptOne(objects[n]));
      forall k | k in {Added, Edited, Deleted}
        ensures Below(Kept(objects), k) == Below(objects, k)
      {
        BelowConcat(Kept(objects[..n]), KeptOne(objects[n]), k);
        BelowNext(objects, n);
      }
    }
  }

  lemma HonestLast(objects: Objects)
    requires Honest(objects) && objects != []
    ensures Honest(objects[..|objects| - 1]) && HonestOne(objects[|objects| - 1])
  {
    hide HonestOne;
  }

  lemma HonestConcat(a: Objects, b: Objects)
    requires Honest(a) && Honest(b)
    ensures Honest(a + b)
  {
    hide HonestOne;
  }

  lemma {:induction false} OneCounts(o: Object)
    requires HonestOne(o)
    ensures Honest(KeptOne(o))
    ensures forall k :: k in {Added, Edited, Deleted} ==> Below(KeptOne(o), k) == OneTally(o, k)
    decreases o, 1
  {
    if o.Object? {
      KeptCounts(o.objects);
      if KeptOne(o) == [] {
        forall k | k in {Added, Edited, Deleted}
          ensures OneTally(o, k) == 0
        {
          SilentFields(o.fields, k);
          SilentObjects(Kept(o.objects), k);
        }
      } else {
        forall k | k in {Added, Edited, Deleted}
          ensures OneTally(Inner(o), k) == OneTally(o, k) && Below([Inner(o)], k) == OneTally(o, k)
        {
          BelowOne(Inner(o), k);
        }
        assert HonestOne(Inner(o));
      }
    }
  }

  /** A part that is settled to None had nothing to count. */
  lemma PartCounts(fields: Fields, objects: Objects)
    requires Honest(objects)
    ensures forall k :: k in {Added, Edited, Deleted} ==> Tally(fields, Kept(objects), k) == Tally(fields, objects, k)
    ensures Changes(fields, Kept(objects)) == Changes(fields, objects)
    ensures !AnyField(fields) && !AnyObject(Kept(objects)) ==> Changes(fields, objects) == 0
  {
    KeptCounts(objects);
    assert forall k :: k in {Added, Edited, Deleted} ==> Tally(fields, Kept(objects), k) == Tally(fields, objects, k);
    if !AnyField(fields) && !AnyObject(Kept(objects)) {
      forall k | k in {Added, Edited, Deleted}
        ensures Tally(fields, objects, k) == 0
      {
        SilentFields(fields, k);
        SilentObjects(Kept(objects), k);
      }
    }
    hide Honest, Kept, AnyField, AnyObject, Tally;
  }

  // -- exactly when it says the same ------------------------------------------------------------

  predicate Counted(k: Kind) {
    k == Added || k == Edited || k == Deleted
  }

  /** No object that is dropped, at any depth, holds a field the summary counts. */
  predicate Clean(objects: Objects)
    decreases objects, 0
  {
    forall i :: 0 <= i < |objects| ==> CleanOne(objects[i])
  }

  predicate CleanOne(o: Object)
    decreases o, 1
  {
    o.Object? ==> if KeptOne(o) == [] then Changes(o.fields, o.objects) == 0 else Clean(o.objects)
  }

  /** A part that is settled to None had no place in the summary. */
  predicate Unplaced(before: Kind, after: Kind, fields: Fields, objects: Objects) {
    before != after ==> Changes(fields, objects) == 0
  }

  predicate CleanTask(t: Task) {
    Clean(t.objects) && Unplaced(t.kind, DropTask(t).kind, t.fields, t.objects)
  }

  predicate CleanGroup(g: Group) {
    && Clean(g.objects) && Unplaced(g.kind, DropGroup(g).kind, g.fields, g.objects)
    && forall i :: 0 <= i < |g.tasks| && g.tasks[i].Some? ==> CleanTask(g.tasks[i].value)
  }

  predicate CleanDiff(d: JobDiff) {
    && Clean(d.objects) && Unplaced(d.kind, Drop(d).kind, d.fields, d.objects)
    && forall i :: 0 <= i < |d.groups| && d.groups[i].Some? ==> CleanGroup(d.groups[i].value)
  }

  lemma CleanLast(objects: Objects)
    requires objects != []
    ensures Clean(objects) <==> Clean(objects[..|objects| - 1]) && CleanOne(objects[|objects| - 1])
  {
    hide CleanOne;
    var n := |objects| - 1;
    assert forall i :: 0 <= i < n ==> objects[..n][i] == objects[i];
  }

  /** Dropping loses fields to count exactly when something dropped holds one. */
  lemma {:induction false} KeptConserves(objects: Objects)
    ensures forall k :: Below(Kept(objects), k) <= Below(objects, k)
    ensures (forall k :: Counted(k) ==> Below(Kept(objects), k) == Below(objects, k)) <==> Clean(objects)
    decreases objects, 0
  {
    if objects != [] {
      var n := |objects| - 1;
      var most, one := Kept(objects[..n]), KeptOne(objects[n]);
      KeptConserves(objects[..n]);
      OneConserves(objects[n]);
      KeptNext(objects, n);
      BelowNext(objects, n);
      CleanLast(objects);
      assert objects[..n + 1] == objects;
      hide *;
      forall k
        ensures Below(Kept(objects), k) == Below(most, k) + Below(one, k)
      {
        BelowConcat(most, one, k);
      }
    }
  }

  lemma {:induction false} OneConserves(o: Object)
    ensures forall k :: Below(KeptOne(o), k) <= OneTally(o, k)
    ensures (forall k :: Counted(k) ==> Below(KeptOne(o), k) == OneTally(o, k)) <==> CleanOne(o)
    decreases o, 1
  {
    if o.Object? {
      KeptConserves(o.objects);
      forall k ensures Below([Inner(o)], k) == OneTally(Inner(o), k) { BelowOne(Inner(o), k); }
      assert Counted(Added) && Counted(Edited) && Counted(Deleted);
      hide Kept, Clean, FieldTally, AnyField, AnyObject;
    }
  }

  lemma PartConserves(fields: Fields, objects: Objects)
    ensures forall k :: Tally(fields, Kept(objects), k) <= Tally(fields, objects, k)
    ensures (forall k :: Counted(k) ==> Tally(fields, Kept(objects), k) == Tally(fields, objects, k)) <==> Clean(objects)
    ensures Clean(objects) ==> Changes(fields, Kept(objects)) == Changes(fields, objects)
  {
    KeptConserves(objects);
    assert Counted(Added) && Counted(Edited) && Counted(Deleted);
    hide Kept, Clean, FieldTally, Below;
  }

  predicate AllClean(tasks: Tasks) {
    forall i :: 0 <= i < |tasks| && tasks[i].Some? ==> Clean(tasks[i].value.objects)
  }

  lemma {:induction false} TasksConserve(tasks: Tasks)
    ensures forall k :: TasksTally(DropTasks(tasks), k) <= TasksTally(tasks, k)
    ensures (forall k :: Counted(k) ==> TasksTally(DropTasks(tasks), k) == TasksTally(tasks, k)) <==> AllClean(tasks)
  {
    if tasks != [] {
      var n := |tasks| - 1;
      TasksConserve(tasks[..n]);
      assert DropTasks(tasks)[..n] == DropTasks(tasks[..n]);
      assert AllClean(tasks) <==> AllClean(tasks[..n]) && (tasks[n].Some? ==> Clean(tasks[n].value.objects)) by {
        assert forall i :: 0 <= i < n ==> tasks[..n][i] == tasks[i];
      }
      if tasks[n].Some? { PartConserves(tasks[n].value.fields, tasks[n].value.objects); }
      hide Kept, Clean, Tally, AllClean, AnyField, AnyObject;
    }
  }

  predicate GroupClean(g: Group) {
    Clean(g.objects) && AllClean(g.tasks)
  }

  lemma GroupConserves(g: Group)
    ensures forall k :: GroupTally(Some(DropGroup(g)), k) <= GroupTally(Some(g), k)
    ensures (forall k :: Counted(k) ==> GroupTally(Some(DropGroup(g)), k) == GroupTally(Some(g), k)) <==> GroupClean(g)
  {
    PartConserves(g.fields, g.objects);
    TasksConserve(g.tasks);
    hide Kept, Clean, Tally, TasksTally, DropTasks, AllClean, AnyField, AnyObject, AnyTask;
  }

  predicate GroupsClean(groups: Groups) {
    forall i :: 0 <= i < |groups| && groups[i].Some? ==> GroupClean(groups[i].value)
  }

  lemma {:induction false} GroupsConserve(groups: Groups)
    ensures forall k :: GroupsTally(DropGroups(groups), k) <= GroupsTally(groups, k)
    ensures (forall k :: Counted(k) ==> GroupsTally(DropGroups(groups), k) == GroupsTally(groups, k)) <==> GroupsClean(groups)
  {
    if groups != [] {
      var n := |groups| - 1;
      GroupsConserve(groups[..n]);
      assert DropGroups(groups)[..n] == DropGroups(groups[..n]);
      assert GroupsClean(groups) <==> GroupsClean(groups[..n]) && (groups[n].Some? ==> GroupClean(groups[n].value)) by {
        assert forall i :: 0 <= i < n ==> groups[..n][i] == groups[i];
      }
      if groups[n].Some? { GroupConserves(groups[n].value); }
      hide DropGroup, GroupTally, GroupsClean, GroupClean;
    }
  }

  /** With the same fields to count, a part is listed the same unless it was settled and had a place. */
  lemma SamePlace(place: Where, name: string, before: Kind, after: Kind, n: nat)
    requires after == before || (before == Edited && after == Same)
    ensures |PartPlace(place, name, after, n)| == |PartPlace(place, name, before, n)|
    ensures PartPlace(place, name, after, n) == PartPlace(place, name, before, n) <==> (before != after ==> n == 0)
  {
    if before != after && n > 0 { assert PartPlace(place, name, after, n)[0] != PartPlace(place, name, before, n)[0]; }
  }

  lemma SameSplit(a: seq<Place>, b: seq<Place>, c: seq<Place>, d: seq<Place>)
    requires |a| == |c|
    ensures a + b == c + d <==> a == c && b == d
  {
    if a + b == c + d {
      assert (a + b)[..|a|] == a && (c + d)[..|c|] == c && (a + b)[|a|..] == b && (c + d)[|c|..] == d;
    }
  }

  lemma TaskPlaced(group: string, t: Task)
    requires Clean(t.objects)
    ensures |TaskPlace(group, Some(DropTask(t)))| == |TaskPlace(group, Some(t))|
    ensures TaskPlace(group, Some(DropTask(t))) == TaskPlace(group, Some(t)) <==> CleanTask(t)
  {
    PartConserves(t.fields, t.objects);
    SamePlace(ATask, group + "/" + t.name, t.kind, DropTask(t).kind, Changes(t.fields, t.objects));
    hide Kept, Clean, AnyField, AnyObject, Changes, PartPlace;
  }

  predicate TasksPlace(tasks: Tasks) {
    forall i :: 0 <= i < |tasks| && tasks[i].Some? ==> CleanTask(tasks[i].value)
  }

  lemma NoPlace(group: string)
    ensures TaskPlace(group, None) == [] && GroupPlace(None) == []
  {
  }

  lemma TasksPlaceLast(group: string, tasks: Tasks)
    requires tasks != []
    ensures TaskPlaces(group, tasks) == TaskPlaces(group, tasks[..|tasks| - 1]) + TaskPlace(group, tasks[|tasks| - 1])
  {
    hide TaskPlace;
  }

  lemma TasksCleanLast(tasks: Tasks)
    requires tasks != []
    ensures var n := |tasks| - 1;
      && DropTasks(tasks)[..n] == DropTasks(tasks[..n])
      && DropTasks(tasks)[n] == (if tasks[n].Some? then Some(DropTask(tasks[n].value)) else None)
      && (AllClean(tasks) <==> AllClean(tasks[..n]) && (tasks[n].Some? ==> Clean(tasks[n].value.objects)))
      && (TasksPlace(tasks) <==> TasksPlace(tasks[..n]) && (tasks[n].Some? ==> CleanTask(tasks[n].value)))
    ensures |DropTasks(tasks)| == |tasks|
  {
    hide DropTask, CleanTask, Clean;
    var n := |tasks| - 1;
    assert forall i :: 0 <= i < n ==> tasks[..n][i] == tasks[i];
  }

  lemma {:induction false} TasksPlaced(group: string, tasks: Tasks)
    requires AllClean(tasks)
    ensures |TaskPlaces(group, DropTasks(tasks))| == |TaskPlaces(group, tasks)|
    ensures TaskPlaces(group, DropTasks(tasks)) == TaskPlaces(group, tasks) <==> TasksPlace(tasks)
  {
    if tasks != [] {
      hide *;
      var n := |tasks| - 1;
      TasksPlaceLast(group, tasks);
      TasksCleanLast(tasks);
      TasksPlaceLast(group, DropTasks(tasks));
      NoPlace(group);
      TasksPlaced(group, tasks[..n]);
      if tasks[n].Some? { TaskPlaced(group, tasks[n].value); }
      SameSplit(TaskPlaces(group, DropTasks(tasks[..n])), TaskPlace(group, DropTasks(tasks)[n]), TaskPlaces(group, tasks[..n]), TaskPlace(group, tasks[n]));
    }
  }

  lemma GroupPlaced(g: Group)
    requires GroupClean(g)
    ensures |GroupPlace(Some(DropGroup(g)))| == |GroupPlace(Some(g))|
    ensures GroupPlace(Some(DropGroup(g))) == GroupPlace(Some(g)) <==> CleanGroup(g)
  {
    hide Kept, Clean, AnyField, AnyObject, AnyTask, Changes, PartPlace, TaskPlaces, DropTasks, CleanTask, AllClean;
    PartConserves(g.fields, g.objects);
    TasksPlaced(g.name, g.tasks);
    var n := Changes(g.fields, g.objects);
    SamePlace(AGroup, g.name, g.kind, DropGroup(g).kind, n);
    SameSplit(PartPlace(AGroup, g.name, DropGroup(g).kind, n), TaskPlaces(g.name, DropTasks(g.tasks)), PartPlace(AGroup, g.name, g.kind, n), TaskPlaces(g.name, g.tasks));
  }

  predicate GroupsPlace(groups: Groups) {
    forall i :: 0 <= i < |groups| && groups[i].Some? ==> CleanGroup(groups[i].value)
  }

  lemma GroupsPlaceLast(groups: Groups)
    requires groups != []
    ensures GroupPlaces(groups) == GroupPlaces(groups[..|groups| - 1]) + GroupPlace(groups[|groups| - 1])
  {
    hide GroupPlace;
  }

  lemma GroupsCleanLast(groups: Groups)
    requires groups != []
    ensures var n := |groups| - 1;
      && DropGroups(groups)[..n] == DropGroups(groups[..n])
      && DropGroups(groups)[n] == (if groups[n].Some? then Some(DropGroup(groups[n].value)) else None)
      && (GroupsClean(groups) <==> GroupsClean(groups[..n]) && (groups[n].Some? ==> GroupClean(groups[n].value)))
      && (GroupsPlace(groups) <==> GroupsPlace(groups[..n]) && (groups[n].Some? ==> CleanGroup(groups[n].value)))
    ensures |DropGroups(groups)| == |groups|
  {
    var n := |groups| - 1;
    assert forall i :: 0 <= i < n ==> groups[..n][i] == groups[i];
    hide DropGroup, CleanGroup, GroupClean;
  }

  lemma {:induction false} GroupsPlaced(groups: Groups)
    requires GroupsClean(groups)
    ensures |GroupPlaces(DropGroups(groups))| == |GroupPlaces(groups)|
    ensures GroupPlaces(DropGroups(groups)) == GroupPlaces(groups) <==> GroupsPlace(groups)
  {
    if groups != [] {
      hide *;
      var n := |groups| - 1;
      GroupsPlaceLast(groups);
      GroupsCleanLast(groups);
      GroupsPlaceLast(DropGroups(groups));
      NoPlace("");
      GroupsPlaced(groups[..n]);
      if groups[n].Some? { GroupPlaced(groups[n].value); }
      SameSplit(GroupPlaces(DropGroups(groups[..n])), GroupPlace(DropGroups(groups)[n]), GroupPlaces(groups[..n]), GroupPlace(groups[n]));
    }
  }

  lemma TotalsConserve(d: JobDiff)
    ensures (forall k :: Counted(k) ==> DiffTally(Drop(d), k) == DiffTally(d, k)) <==> Clean(d.objects) && GroupsClean(d.groups)
  {
    PartConserves(d.fields, d.objects);
    GroupsConserve(d.groups);
    hide Kept, Clean, Tally, GroupsTally, DropGroups, GroupsClean, AnyField, AnyObject, AnyGroup;
  }

  lemma PlacesAgree(d: JobDiff)
    requires Clean(d.objects) && GroupsClean(d.groups)
    ensures Places(Drop(d)) == Places(d) <==> CleanDiff(d)
  {
    PartConserves(d.fields, d.objects);
    GroupsPlaced(d.groups);
    var n, after := Changes(d.fields, d.objects), Drop(d).kind;
    var a, b := if n > 0 then [Place(TheJob, "", after, n)] else [], if n > 0 then [Place(TheJob, "", d.kind, n)] else [];
    SameSplit(a, GroupPlaces(DropGroups(d.groups)), b, GroupPlaces(d.groups));
    if n > 0 && after != d.kind { assert a[0] != b[0]; }
    hide Kept, Clean, AnyField, AnyObject, AnyGroup, Changes, GroupPlaces, DropGroups, CleanGroup, GroupsClean;
  }

  /** Normalizing a diff leaves its summary as it was if and only if no object it drops holds a field to count and no part it settles had a place. */
  lemma DropKeepsTheSummaryIff(d: JobDiff)
    ensures Summarized(Some(Drop(d))) == Summarized(Some(d)) <==> CleanDiff(d)
  {
    hide Drop, DiffTally, Places, CleanDiff, Clean, GroupsClean;
    TotalsConserve(d);
    CleanParts(d);
    assert Counted(Added) && Counted(Edited) && Counted(Deleted);
    if Clean(d.objects) && GroupsClean(d.groups) { PlacesAgree(d); }
  }

  lemma CleanParts(d: JobDiff)
    ensures CleanDiff(d) ==> Clean(d.objects) && GroupsClean(d.groups)
  {
    hide Clean, Unplaced, DropGroup, DropTask, Drop;
  }

  /** The diffs whose None objects hide no change are such. */
  lemma HonestIsClean(fields: Fields, objects: Objects)
    requires Honest(objects)
    ensures Clean(objects)
    ensures !AnyField(fields) && !AnyObject(Kept(objects)) ==> Changes(fields, objects) == 0
  {
    KeptCounts(objects);
    KeptConserves(objects);
    PartCounts(fields, objects);
    hide Honest, Clean, Kept, AnyField, AnyObject, Changes;
  }

  lemma HonestGroupClean(g: Group)
    requires HonestGroup(g)
    ensures CleanGroup(g)
  {
    HonestIsClean(g.fields, g.objects);
    forall i | 0 <= i < |g.tasks| && g.tasks[i].Some?
      ensures CleanTask(g.tasks[i].value)
    {
      HonestIsClean(g.tasks[i].value.fields, g.tasks[i].value.objects);
    }
    hide Honest, Clean, Kept, AnyField, AnyObject, AnyTask, Changes, CleanTask, DropTasks;
  }

  /** A diff whose None objects hide no change comes to the same with its empty edits dropped. */
  lemma DropKeepsTheSummary(d: JobDiff)
    requires HonestDiff(d)
    ensures Summarized(Some(Drop(d))) == Summarized(Some(d))
  {
    HonestIsClean(d.fields, d.objects);
    forall i | 0 <= i < |d.groups| && d.groups[i].Some? ensures CleanGroup(d.groups[i].value) { HonestGroupClean(d.groups[i].value); }
    assert CleanDiff(d) by { hide Honest, Clean, Kept, AnyField, AnyObject, AnyGroup, Changes, CleanGroup, DropGroups, HonestGroup; }
    hide *;
    DropKeepsTheSummaryIff(d);
  }

  /** Without that it need not: a change below a None object below an empty edit goes with the edit. */
  lemma HiddenChangeIsLost()
    ensures exists d: JobDiff :: Summarized(Some(Drop(d))) != Summarized(Some(d))
  {
    var hidden := Object(Same, "", [Some(Field(Added, ""))], []);
    var d := JobDiff(Edited, [], [Object(Edited, "", [], [hidden])], []);
    BelowOne(hidden, Added);
    BelowOne(d.objects[0], Added);
    assert FieldTally(hidden.fields, Added) == 1 by { assert hidden.fields[..0] == []; }
    assert DiffTally(d, Added) == 1;
    KeptNext([hidden], 0);
    KeptNext(d.objects, 0);
    assert [hidden][..1] == [hidden] && d.objects[..1] == d.objects;
    assert Kept([hidden]) == [Inner(hidden)] && !AnyObject([Inner(hidden)]);
    assert Kept(d.objects) == [];
    assert DiffTally(Drop(d), Added) == 0;
  }
}
