/**
 A plan's diff as Nomad sends it: the empty edits dropped from it, and its summary.
 Lists may hold nil pointers (None), and a kind may be any text.
*/
module Diff {
  import opened Options

  datatype Kind = Same | Added | Edited | Deleted | Other(text: string)

  datatype Field = Field(kind: Kind, name: string)

  type Fields = seq<Option<Field>>

  /** Objects nest without a bound. */
  datatype Object = NilObject | Object(kind: Kind, name: string, fields: Fields, objects: seq<Object>) {
    predicate IsChange() { Object? && kind != Same }
  }

  type Objects = seq<Object>

  datatype Task = Task(kind: Kind, name: string, fields: Fields, objects: Objects)

  type Tasks = seq<Option<Task>>

  datatype Group = Group(kind: Kind, name: string, fields: Fields, objects: Objects, tasks: Tasks)

  type Groups = seq<Option<Group>>

  datatype JobDiff = JobDiff(kind: Kind, fields: Fields, objects: Objects, groups: Groups)

  predicate AnyField(fields: Fields) {
    exists i :: 0 <= i < |fields| && fields[i].Some? && fields[i].value.kind != Same
  }

  predicate AnyObject(objects: Objects) {
    exists i :: 0 <= i < |objects| && objects[i].IsChange()
  }

  predicate AnyTask(tasks: Tasks) {
    exists i :: 0 <= i < |tasks| && tasks[i].Some? && tasks[i].value.kind != Same
  }

  predicate AnyGroup(groups: Groups) {
    exists i :: 0 <= i < |groups| && groups[i].Some? && groups[i].value.kind != Same
  }

  // -- the empty edits dropped -----------------------------------------------------------

  /** An object with the empty edits below it dropped. */
  function Inner(o: Object): Object
    requires o.Object?
    decreases o, 0
  {
    o.(objects := Kept(o.objects))
  }

  /** An object as it is kept: none when it is an edit with nothing changed in it. */
  function KeptOne(o: Object): Objects
    decreases o, 1
  {
    if o.NilObject? || (o.kind == Edited && !AnyObject(Kept(o.objects)) && !AnyField(o.fields)) then [] else [Inner(o)]
  }

  function Kept(objects: Objects): Objects
    decreases objects, 0
  {
    if objects == [] then []
    else
      var n := |objects| - 1;
      Kept(objects[..n]) + KeptOne(objects[n])
  }

  function Settled(kind: Kind, changed: bool): Kind {
    if kind == Edited && !changed then Same else kind
  }

  function DropTask(t: Task): Task {
    t.(objects := Kept(t.objects), kind := Settled(t.kind, AnyObject(Kept(t.objects)) || AnyField(t.fields)))
  }

  function DropTasks(tasks: Tasks): (r: Tasks)
    ensures |r| == |tasks|
    ensures forall i :: 0 <= i < |r| ==> r[i] == if tasks[i].None? then None else Some(DropTask(tasks[i].value))
  {
    seq(|tasks|, i requires 0 <= i < |tasks| => if tasks[i].None? then None else Some(DropTask(tasks[i].value)))
  }

  function DropGroup(g: Group): Group {
    var objects, tasks := Kept(g.objects), DropTasks(g.tasks);
    g.(objects := objects, tasks := tasks, kind := Settled(g.kind, AnyObject(objects) || AnyField(g.fields) || AnyTask(tasks)))
  }

  function DropGroups(groups: Groups): (r: Groups)
    ensures |r| == |groups|
    ensures forall i :: 0 <= i < |r| ==> r[i] == if groups[i].None? then None else Some(DropGroup(groups[i].value))
  {
    seq(|groups|, i requires 0 <= i < |groups| => if groups[i].None? then None else Some(DropGroup(groups[i].value)))
  }

  /** The diff dropEmptyEdits leaves. */
  function Drop(d: JobDiff): JobDiff {
    var objects, groups := Kept(d.objects), DropGroups(d.groups);
    d.(objects := objects, groups := groups, kind := Settled(d.kind, AnyObject(objects) || AnyField(d.fields) || AnyGroup(groups)))
  }

  // -- the loops ---------------------------------------------------------------------------

  method AnyChanged(fields: Fields) returns (any: bool)
    ensures any <==> AnyField(fields)
  {
    for i := 0 to |fields|
      invariant forall j :: 0 <= j < i ==> fields[j].None? || fields[j].value.kind == Same
    {
      if fields[i].Some? && fields[i].value.kind != Same {
        return true;
      }
    }
    return false;
  }

  lemma AnyObjectAppend(a: Objects, x: Object)
    ensures AnyObject(a + [x]) <==> AnyObject(a) || x.IsChange()
  {
    if AnyObject(a) {
      var i :| 0 <= i < |a| && a[i].IsChange();
      assert (a + [x])[i] == a[i];
    }
    if x.IsChange() { assert (a + [x])[|a|] == x; }
  }

  lemma KeptNext(objects: Objects, i: nat)
    requires i < |objects|
    ensures Kept(objects[..i + 1]) == Kept(objects[..i]) + KeptOne(objects[i])
  {
    assert objects[..i + 1][..i] == objects[..i];
    hide KeptOne;
  }

  method KeepChangedObjects(objects: Objects) returns (kept: Objects, changed: bool)
    ensures kept == Kept(objects) && (changed <==> AnyObject(kept))
    decreases objects
  {
    kept, changed := [], false;
    for i := 0 to |objects|
      invariant kept == Kept(objects[..i]) && (changed <==> AnyObject(kept))
    {
      KeptNext(objects, i);
      var o := objects[i];
      if o.NilObject? {
        continue;
      }
      var below, inner := KeepChangedObjects(o.objects);
      o := o.(objects := below);
      var fields := AnyChanged(o.fields);
      if o.kind == Edited && !inner && !fields {
        continue;
      }
      AnyObjectAppend(kept, o);
      kept := kept + [o];
      changed := changed || o.kind != Same;
    }
    assert objects[..|objects|] == objects;
  }

  lemma AnyTaskAppend(a: Tasks, x: Option<Task>)
    ensures AnyTask(a + [x]) <==> AnyTask(a) || (x.Some? && x.value.kind != Same)
  {
    if AnyTask(a) {
      var i :| 0 <= i < |a| && a[i].Some? && a[i].value.kind != Same;
      assert (a + [x])[i] == a[i];
    }
    if x.Some? && x.value.kind != Same { assert (a + [x])[|a|] == x; }
  }

  lemma AnyGroupAppend(a: Groups, x: Option<Group>)
    ensures AnyGroup(a + [x]) <==> AnyGroup(a) || (x.Some? && x.value.kind != Same)
  {
    if AnyGroup(a) {
      var i :| 0 <= i < |a| && a[i].Some? && a[i].value.kind != Same;
      assert (a + [x])[i] == a[i];
    }
    if x.Some? && x.value.kind != Same { assert (a + [x])[|a|] == x; }
  }

  method Settle(kind: Kind, changed: bool) returns (k: Kind)
    ensures k == Settled(kind, changed)
  {
    k := kind;
    if k == Edited && !changed {
      k := Same;
    }
  }

  method DropEmptyTask(task: Task) returns (t: Task)
    ensures t == DropTask(task)
  {
    var objects, changed := KeepChangedObjects(task.objects);
    var fields := AnyChanged(task.fields);
    var kind := Settle(task.kind, changed || fields);
    t := task.(objects := objects, kind := kind);
  }

  method DropEmptyTasks(before: Tasks) returns (tasks: Tasks, any: bool)
    ensures tasks == DropTasks(before) && (any <==> AnyTask(tasks))
  {
    hide DropTask;
    tasks, any := before, false;
    for i := 0 to |tasks|
      invariant |tasks| == |before|
      invariant forall j :: 0 <= j < i ==> tasks[j] == DropTasks(before)[j]
      invariant forall j :: i <= j < |tasks| ==> tasks[j] == before[j]
      invariant any <==> AnyTask(tasks[..i])
    {
      AnyTaskAppend(tasks[..i], tasks[i]);
      assert tasks[..i + 1] == tasks[..i] + [tasks[i]];
      if tasks[i].None? {
        continue;
      }
      var t := DropEmptyTask(tasks[i].value);
      AnyTaskAppend(tasks[..i], Some(t));
      tasks := tasks[i := Some(t)];
      assert tasks[..i + 1] == tasks[..i] + [Some(t)];
      any := any || t.kind != Same;
    }
    assert tasks == DropTasks(before) && tasks[..|tasks|] == tasks;
  }

  method DropEmptyGroup(group: Group) returns (g: Group)
    ensures g == DropGroup(group)
  {
    var objects, changed := KeepChangedObjects(group.objects);
    var fields := AnyChanged(group.fields);
    var tasks, any := DropEmptyTasks(group.tasks);
    var kind := Settle(group.kind, changed || fields || any);
    g := group.(objects := objects, tasks := tasks, kind := kind);
  }

  method DropEmptyGroups(before: Groups) returns (groups: Groups, any: bool)
    ensures groups == DropGroups(before) && (any <==> AnyGroup(groups))
  {
    hide DropGroup;
    groups, any := before, false;
    for i := 0 to |groups|
      invariant |groups| == |before|
      invariant forall j :: 0 <= j < i ==> groups[j] == DropGroups(before)[j]
      invariant forall j :: i <= j < |groups| ==> groups[j] == before[j]
      invariant any <==> AnyGroup(groups[..i])
    {
      AnyGroupAppend(groups[..i], groups[i]);
      assert groups[..i + 1] == groups[..i] + [groups[i]];
      if groups[i].None? {
        continue;
      }
      var g := DropEmptyGroup(groups[i].value);
      AnyGroupAppend(groups[..i], Some(g));
      groups := groups[i := Some(g)];
      assert groups[..i + 1] == groups[..i] + [Some(g)];
      any := any || g.kind != Same;
    }
    assert groups == DropGroups(before) && groups[..|groups|] == groups;
  }

  method DropEmptyEdits(diff: Option<JobDiff>) returns (d: Option<JobDiff>)
    ensures d == if diff.None? then None else Some(Drop(diff.value))
  {
    if diff.None? {
      return None;
    }
    var objects, changed := KeepChangedObjects(diff.value.objects);
    var fields := AnyChanged(diff.value.fields);
    var groups, any := DropEmptyGroups(diff.value.groups);
    var kind := Settle(diff.value.kind, changed || fields || any);
    return Some(diff.value.(objects := objects, groups := groups, kind := kind));
  }

  // -- nothing empty is left, and nothing else goes ---------------------------------------------

  /** No empty edit is in the list, at any depth, and no nil. */
  predicate TidyObjects(objects: Objects) {
    forall i :: 0 <= i < |objects| ==> TidyObject(objects[i])
  }

  predicate TidyObject(o: Object) {
    o.Object? && TidyObjects(o.objects) && (o.kind == Edited ==> AnyObject(o.objects) || AnyField(o.fields))
  }

  predicate TidyTask(t: Task) {
    TidyObjects(t.objects) && (t.kind == Edited ==> AnyObject(t.objects) || AnyField(t.fields))
  }

  predicate TidyGroup(g: Group) {
    && TidyObjects(g.objects) && (forall i :: 0 <= i < |g.tasks| && g.tasks[i].Some? ==> TidyTask(g.tasks[i].value))
    && (g.kind == Edited ==> AnyObject(g.objects) || AnyField(g.fields) || AnyTask(g.tasks))
  }

  /** Every part still marked edited has a changed field or a changed part right below it. */
  predicate Tidy(d: JobDiff) {
    && TidyObjects(d.objects) && (forall i :: 0 <= i < |d.groups| && d.groups[i].Some? ==> TidyGroup(d.groups[i].value))
    && (d.kind == Edited ==> AnyObject(d.objects) || AnyField(d.fields) || AnyGroup(d.groups))
  }

  lemma TidyConcat(a: Objects, b: Objects)
    ensures TidyObjects(a + b) <==> TidyObjects(a) && TidyObjects(b)
  {
    hide TidyObject;
    assert forall i :: 0 <= i < |a| ==> (a + b)[i] == a[i];
    assert forall i :: 0 <= i < |b| ==> (a + b)[|a| + i] == b[i];
  }

  lemma OneIsTidy(o: Object)
    requires o.Object? ==> TidyObjects(Kept(o.objects))
    ensures TidyObjects(KeptOne(o))
  {
    hide Kept;
    if KeptOne(o) != [] { assert TidyObject(Inner(o)); }
  }

  lemma {:induction false} KeptIsTidy(objects: Objects)
    ensures TidyObjects(Kept(objects))
    decreases objects
  {
    if objects != [] {
      var n := |objects| - 1;
      KeptIsTidy(objects[..n]);
      if objects[n].Object? { KeptIsTidy(objects[n].objects); }
      OneIsTidy(objects[n]);
      TidyConcat(Kept(objects[..n]), KeptOne(objects[n]));
    }
  }

  /** Nothing is dropped of a list in which nothing is empty. */
  lemma {:induction false} KeptWhenTidy(objects: Objects)
    requires TidyObjects(objects)
    ensures Kept(objects) == objects
    decreases objects
  {
    if objects != [] {
      var n := |objects| - 1;
      assert TidyObject(objects[n]) && TidyObjects(objects[..n]);
      KeptWhenTidy(objects[..n]);
      KeptWhenTidy(objects[n].objects);
      OneWhenTidy(objects[n]);
      KeptNext(objects, n);
      hide *;
      assert objects[..n + 1] == objects == objects[..n] + [objects[n]];
    }
  }

  lemma OneWhenTidy(o: Object)
    requires TidyObject(o) && Kept(o.objects) == o.objects
    ensures KeptOne(o) == [o]
  {
    hide Kept, TidyObjects;
  }

  lemma DropIsTidy(d: JobDiff)
    ensures Tidy(Drop(d))
  {
    KeptIsTidy(d.objects);
    forall i | 0 <= i < |d.groups| && d.groups[i].Some?
      ensures TidyGroup(DropGroup(d.groups[i].value))
    {
      GroupIsTidy(d.groups[i].value);
    }
    hide Kept, DropGroup, TidyGroup, TidyObjects;
  }

  lemma GroupIsTidy(g: Group)
    ensures TidyGroup(DropGroup(g))
  {
    KeptIsTidy(g.objects);
    forall i | 0 <= i < |g.tasks| && g.tasks[i].Some?
      ensures TidyTask(DropTask(g.tasks[i].value))
    {
      KeptIsTidy(g.tasks[i].value.objects);
    }
    hide Kept, DropTask, TidyTask, TidyObjects;
  }

  lemma GroupWhenTidy(g: Group)
    requires TidyGroup(g)
    ensures DropGroup(g) == g
  {
    KeptWhenTidy(g.objects);
    forall i | 0 <= i < |g.tasks| && g.tasks[i].Some?
      ensures DropTask(g.tasks[i].value) == g.tasks[i].value
    {
      KeptWhenTidy(g.tasks[i].value.objects);
    }
    hide Kept, DropTask, TidyTask, TidyObjects;
    assert DropTasks(g.tasks) == g.tasks;
  }

  /** A diff is left as it is exactly when every edit in it shows a change. */
  lemma DropFixesTheTidy(d: JobDiff)
    ensures Drop(d) == d <==> Tidy(d)
  {
    DropIsTidy(d);
    if Tidy(d) {
      KeptWhenTidy(d.objects);
      forall i | 0 <= i < |d.groups| && d.groups[i].Some?
        ensures DropGroup(d.groups[i].value) == d.groups[i].value
      {
        GroupWhenTidy(d.groups[i].value);
      }
      hide Kept, DropGroup, TidyGroup, TidyObjects;
      assert DropGroups(d.groups) == d.groups;
    }
  }

  lemma DropIdempotent(d: JobDiff)
    ensures Drop(Drop(d)) == Drop(d)
  {
    DropIsTidy(d);
    DropFixesTheTidy(Drop(d));
    hide *;
  }

  /** A way from an object through edits to a changed field, or to a part added or deleted. */
  ghost predicate Shows(o: Object, path: seq<nat>)
    decreases |path|
  {
    && o.Object?
    && if path == [] then o.kind != Same && (o.kind == Edited ==> AnyField(o.fields))
       else o.kind == Edited && path[0] < |o.objects| && Shows(o.objects[path[0]], path[1..])
  }

  ghost predicate ShowsSome(o: Object) {
    exists path :: Shows(o, path)
  }

  ghost predicate OneShows(objects: Objects) {
    exists i: nat :: i < |objects| && ShowsSome(objects[i])
  }

  /** What is kept of a list holds a change exactly when some object of the list shows one. */
  lemma {:induction false} AnyKept(objects: Objects)
    ensures AnyObject(Kept(objects)) <==> OneShows(objects)
    decreases objects, 0
  {
    if objects != [] {
      var n := |objects| - 1;
      AnyKept(objects[..n]);
      KeptIff(objects[n]);
      AnyObjectConcat(Kept(objects[..n]), KeptOne(objects[n]));
      OneShowsLast(objects);
      hide Shows, OneShows, AnyObject, ShowsSome;
    }
  }

  lemma AnyObjectConcat(a: Objects, b: Objects)
    ensures AnyObject(a + b) <==> AnyObject(a) || AnyObject(b)
  {
    assert forall i :: 0 <= i < |a| ==> (a + b)[i] == a[i];
    assert forall i :: 0 <= i < |b| ==> (a + b)[|a| + i] == b[i];
  }

  lemma OneShowsLast(objects: Objects)
    requires objects != []
    ensures OneShows(objects) <==> OneShows(objects[..|objects| - 1]) || ShowsSome(objects[|objects| - 1])
  {
    var n := |objects| - 1;
    hide ShowsSome;
    if OneShows(objects[..n]) {
      var i: nat :| i < n && ShowsSome(objects[..n][i]);
      assert ShowsSome(objects[i]);
    }
    if i: nat :| i < |objects| && ShowsSome(objects[i]) {
      if i < n { assert ShowsSome(objects[..n][i]); }
    }
  }

  /** An edit is kept exactly when some way down it, through edits, shows a change. */
  lemma {:induction false} KeptIff(o: Object)
    ensures AnyObject(KeptOne(o)) <==> ShowsSome(o)
    ensures o.Object? && o.kind == Edited ==> (KeptOne(o) != [] <==> AnyObject(KeptOne(o)))
    decreases o, 1
  {
    if o.Object? {
      if KeptOne(o) != [] { assert AnyObject(KeptOne(o)) <==> KeptOne(o)[0].IsChange(); }
      if o.kind == Edited {
        AnyKept(o.objects);
        EditShows(o);
      } else if o.kind != Same {
        assert Shows(o, []);
      }
    }
  }

  lemma EditShows(o: Object)
    requires o.Object? && o.kind == Edited
    ensures ShowsSome(o) <==> AnyField(o.fields) || OneShows(o.objects)
  {
    if AnyField(o.fields) { assert Shows(o, []); }
    if i: nat :| i < |o.objects| && ShowsSome(o.objects[i]) {
      var path :| Shows(o.objects[i], path);
      assert ([i] + path)[1..] == path;
      assert Shows(o, [i] + path);
    }
    if ShowsSome(o) && !AnyField(o.fields) {
      var path :| Shows(o, path);
      assert Shows(o.objects[path[0]], path[1..]);
      assert ShowsSome(o.objects[path[0]]);
    }
  }

  /** The same of a task, a group and the job: what stays marked edited shows a change. */
  ghost predicate TaskShows(t: Task) {
    t.kind != Same && (t.kind == Edited ==> AnyField(t.fields) || OneShows(t.objects))
  }

  ghost predicate GroupShows(g: Group) {
    && g.kind != Same
    && (g.kind == Edited ==>
      AnyField(g.fields) || OneShows(g.objects) || exists i :: 0 <= i < |g.tasks| && g.tasks[i].Some? && TaskShows(g.tasks[i].value))
  }

  ghost predicate JobShows(d: JobDiff) {
    && d.kind != Same
    && (d.kind == Edited ==>
      AnyField(d.fields) || OneShows(d.objects) || exists i :: 0 <= i < |d.groups| && d.groups[i].Some? && GroupShows(d.groups[i].value))
  }

  lemma TaskShowsIff(t: Task)
    ensures DropTask(t).kind != Same <==> TaskShows(t)
  {
    AnyKept(t.objects);
    hide Kept, OneShows, AnyObject, AnyField;
  }

  lemma GroupShowsIff(g: Group)
    ensures DropGroup(g).kind != Same <==> GroupShows(g)
  {
    AnyKept(g.objects);
    forall i | 0 <= i < |g.tasks| && g.tasks[i].Some?
      ensures DropTask(g.tasks[i].value).kind != Same <==> TaskShows(g.tasks[i].value)
    {
      TaskShowsIff(g.tasks[i].value);
    }
    hide Kept, OneShows, AnyObject, AnyField, DropTask, TaskShows;
  }

  /** A plan is drift, its diff not None, exactly when some part of it shows a change. */
  lemma DriftIff(d: JobDiff)
    ensures Drop(d).kind != Same <==> JobShows(d)
  {
    AnyKept(d.objects);
    forall i | 0 <= i < |d.groups| && d.groups[i].Some?
      ensures DropGroup(d.groups[i].value).kind != Same <==> GroupShows(d.groups[i].value)
    {
      GroupShowsIff(d.groups[i].value);
    }
    hide Kept, OneShows, AnyObject, AnyField, DropGroup, GroupShows;
  }
}
