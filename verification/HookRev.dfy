/**
 The combined hash of a job and the hooks it runs: the text that is hashed, and when equal
 hashes mean the same target and the same hooks in the same order.
*/
module HookRev {
  import opened Store
  import opened Decisions
  import N = Nomad

  /** A hash of text, and the JSON of a job. */
  type Hash = string -> string
  type Json = N.Job -> string

  predicate IsHex(s: string) {
    |s| == 64 && forall i :: 0 <= i < 64 ==> ('0' <= s[i] <= '9' || 'a' <= s[i] <= 'f')
  }

  /** SHA-256 in hex. */
  ghost predicate HexHash(h: Hash) {
    forall x :: IsHex(h(x))
  }

  ghost predicate JsonOfJobs(json: Json) {
    && (forall j :: |json(j)| > 0 && json(j)[0] == '{')
    && (forall a, b :: json(a) == json(b) ==> a == b)
  }

  // -- the text ----------------------------------------------------------------------------

  function PhaseName(p: Phase): string {
    if p == Pre then "pre" else "post"
  }

  function MarkText(h: Hash, m: Mark): string {
    match m
    case Missing => "missing"
    case Invalid => "invalid"
    case Spec(text) => h(text)
  }

  function Words(h: Hash, l: HookLine): string {
    PhaseName(l.phase) + ":" + l.id + ":" + MarkText(h, l.mark)
  }

  function LineText(h: Hash, l: HookLine): string {
    "\n" + Words(h, l)
  }

  function Body(h: Hash, lines: seq<HookLine>): string {
    if lines == [] then "" else Body(h, lines[..|lines| - 1]) + LineText(h, lines[|lines| - 1])
  }

  function Text(h: Hash, json: Json, g: GitJob): string {
    h(json(g.job)) + Body(h, Lines(g))
  }

  /** What a deployment records as its spec hash: the target's own without hooks. */
  function FreezeHash(h: Hash, json: Json, g: GitJob): string {
    if Lines(g) == [] then h(json(g.job)) else h(Text(h, json, g))
  }

  function ProblemText(l: HookLine): string {
    match l.mark
    case Missing => PhaseName(l.phase) + "-hook \"" + l.id + "\" not found in repo"
    case Invalid => PhaseName(l.phase) + "-hook \"" + l.id + "\" has invalid meta"
    case Spec(_) => ""
  }

  /** The first declared hook that is missing or invalid, in words. */
  function FirstProblem(lines: seq<HookLine>): string {
    if lines == [] then ""
    else
      var before := FirstProblem(lines[..|lines| - 1]);
      if before != "" then before else ProblemText(lines[|lines| - 1])
  }

  lemma {:induction false} FirstProblemIs(lines: seq<HookLine>)
    ensures FirstProblem(lines) != "" <==> exists i :: 0 <= i < |lines| && !lines[i].mark.Spec?
  {
    if lines != [] {
      var n := |lines| - 1;
      FirstProblemIs(lines[..n]);
      if i :| 0 <= i < |lines| && !lines[i].mark.Spec? {
        if i < n { assert lines[..n][i] == lines[i]; }
      }
      if FirstProblem(lines[..n]) != "" {
        var i :| 0 <= i < n && !lines[..n][i].mark.Spec?;
        assert !lines[i].mark.Spec?;
      }
    }
  }

  /** The i-th hook a job declares, pre before post, and its phase. */
  function Nth(cfg: N.Config, i: nat): (Phase, string)
    requires i < |cfg.pre| + |cfg.post|
  {
    if i < |cfg.pre| then (Pre, cfg.pre[i]) else (Post, cfg.post[i - |cfg.pre|])
  }

  /** The repository has a hook job of that ID, with valid meta. */
  predicate Runs(g: GitJob, id: string) {
    id in g.hookFiles && g.hookFiles[id].Spec?
  }

  /** The problem named is that of the first hook declared that is missing or invalid, and says which of the two it is. */
  lemma ProblemNamesTheFirst(g: GitJob, i: nat)
    requires var n := |g.job.cfg.pre| + |g.job.cfg.post|;
      i <= n && (forall j :: 0 <= j < i ==> Runs(g, Nth(g.job.cfg, j).1)) && (i < n ==> !Runs(g, Nth(g.job.cfg, i).1))
    ensures FirstProblem(Lines(g)) ==
      if i == |g.job.cfg.pre| + |g.job.cfg.post| then ""
      else
        var (phase, id) := Nth(g.job.cfg, i);
        PhaseName(phase) + "-hook \"" + id + (if id in g.hookFiles && g.hookFiles[id].Invalid? then "\" has invalid meta" else "\" not found in repo")
  {
    hide FirstProblem, ProblemText, PhaseName, Lines;
    assert |Lines(g)| == |g.job.cfg.pre| + |g.job.cfg.post| by { NthLine(g, 0); }
    forall j | 0 <= j < i
      ensures Lines(g)[j].mark.Spec?
    {
      NthLine(g, j);
    }
    NthLine(g, i);
    FirstProblemAt(Lines(g), i);
    if i < |Lines(g)| { ProblemWords(Lines(g)[i]); }
  }

  lemma NthLine(g: GitJob, i: nat)
    ensures |Lines(g)| == |g.job.cfg.pre| + |g.job.cfg.post|
    ensures i < |Lines(g)| ==>
      var (phase, id) := Nth(g.job.cfg, i);
      Lines(g)[i] == HookLine(phase, id, MarkOf(g.hookFiles, id)) && (Lines(g)[i].mark.Spec? <==> Runs(g, id))
  {
  }

  lemma ProblemWords(l: HookLine)
    requires !l.mark.Spec?
    ensures ProblemText(l) == PhaseName(l.phase) + "-hook \"" + l.id + (if l.mark.Invalid? then "\" has invalid meta" else "\" not found in repo")
  {
    var words := if l.mark.Invalid? then "\" has invalid meta" else "\" not found in repo";
    assert PhaseName(l.phase) + "-hook \"" + l.id + words == (PhaseName(l.phase) + "-hook \"" + l.id) + words;
  }

  lemma {:induction false} FirstProblemAt(lines: seq<HookLine>, i: nat)
    requires i <= |lines| && (forall j :: 0 <= j < i ==> lines[j].mark.Spec?) && (i < |lines| ==> !lines[i].mark.Spec?)
    ensures FirstProblem(lines) == if i < |lines| then ProblemText(lines[i]) else ""
  {
    if lines != [] {
      var n := |lines| - 1;
      FirstProblemAt(lines[..n], if i <= n then i else n);
    }
  }

  lemma {:induction false} BodySplit(h: Hash, a: seq<HookLine>, b: seq<HookLine>)
    ensures Body(h, a + b) == Body(h, a) + Body(h, b)
  {
    hide LineText;
    if b == [] {
      assert a + b == a;
    } else {
      var n := |b| - 1;
      assert (a + b)[..|a + b| - 1] == a + b[..n] && (a + b)[|a + b| - 1] == b[n];
      BodySplit(h, a, b[..n]);
      Append(Body(h, a), Body(h, b[..n]), LineText(h, b[n]));
    }
  }

  lemma {:induction false} ProblemSplit(a: seq<HookLine>, b: seq<HookLine>)
    ensures FirstProblem(a + b) == if FirstProblem(a) != "" then FirstProblem(a) else FirstProblem(b)
  {
    if b == [] {
      assert a + b == a;
    } else {
      assert (a + b)[..|a + b| - 1] == a + b[..|b| - 1];
      ProblemSplit(a, b[..|b| - 1]);
    }
  }

  lemma {:induction false} FrozenSplit(a: seq<HookLine>, b: seq<HookLine>, from: nat)
    ensures FrozenFrom(a + b, from) == FrozenFrom(a, from) + FrozenFrom(b, from + |a|)
  {
    if a == [] {
      assert a + b == b;
    } else {
      assert (a + b)[1..] == a[1..] + b;
      FrozenSplit(a[1..], b, from + 1);
    }
  }

  /** The loop over the hooks of one phase: it writes the text, freezes the specs found, and keeps the first problem. */
  method FreezePhase(h: Hash, phase: Phase, ids: seq<string>, hooks: map<string, Mark>, text: string, frozen: seq<FrozenHook>, problem: string)
    returns (text': string, frozen': seq<FrozenHook>, problem': string)
    ensures var lines := PhaseLines(phase, ids, hooks);
      && text' == text + Body(h, lines)
      && frozen' == frozen + FrozenFrom(lines, 0)
      && problem' == if problem != "" then problem else FirstProblem(lines)
  {
    text', frozen', problem' := text, frozen, problem;
    ghost var lines := PhaseLines(phase, ids, hooks);
    hide *;
    NoLines(h);
    assert lines[..0] == [];
    for pos := 0 to |ids|
      invariant |lines| == |ids|
      invariant text' == text + Body(h, lines[..pos])
      invariant frozen' == frozen + FrozenFrom(lines[..pos], 0)
      invariant problem' == if problem != "" then problem else FirstProblem(lines[..pos])
    {
      var id := ids[pos];
      var mark := MarkOf(hooks, id);
      var l := HookLine(phase, id, mark);
      LineAt(phase, ids, hooks, pos);
      NextLine(h, lines, pos);
      Append(text, Body(h, lines[..pos]), LineText(h, l));
      text' := text' + LineText(h, l);
      if !mark.Spec? {
        if problem' == "" {
          problem' := ProblemText(l);
        }
        continue;
      }
      AppendFrozen(frozen, FrozenFrom(lines[..pos], 0), FrozenHook(phase, pos, id, mark.text));
      frozen' := frozen' + [FrozenHook(phase, pos, id, mark.text)];
    }
    assert lines[..|ids|] == lines;
  }

  lemma NoLines(h: Hash)
    ensures Body(h, []) == "" && FrozenFrom([], 0) == [] && FirstProblem([]) == ""
  {
  }

  lemma LineAt(phase: Phase, ids: seq<string>, hooks: map<string, Mark>, i: nat)
    requires i < |ids|
    ensures PhaseLines(phase, ids, hooks)[i] == HookLine(phase, ids[i], MarkOf(hooks, ids[i]))
  {
  }

  lemma Append(a: string, b: string, c: string)
    ensures (a + b) + c == a + (b + c)
  {
  }

  lemma AppendFrozen(a: seq<FrozenHook>, b: seq<FrozenHook>, c: FrozenHook)
    ensures (a + b) + [c] == a + (b + [c])
  {
  }

  lemma NextLine(h: Hash, lines: seq<HookLine>, i: nat)
    requires i < |lines|
    ensures Body(h, lines[..i + 1]) == Body(h, lines[..i]) + LineText(h, lines[i])
    ensures var l := lines[i];
      FrozenFrom(lines[..i + 1], 0) == FrozenFrom(lines[..i], 0) + if l.mark.Spec? then [FrozenHook(l.phase, i, l.id, l.mark.text)] else []
    ensures FirstProblem(lines[..i + 1]) == if FirstProblem(lines[..i]) != "" then FirstProblem(lines[..i]) else ProblemText(lines[i])
    ensures lines[i].mark.Spec? ==> ProblemText(lines[i]) == ""
  {
    assert lines[..i + 1] == lines[..i] + [lines[i]];
    assert lines[..i + 1][..i] == lines[..i];
    FrozenSplit(lines[..i], [lines[i]], 0);
    assert [lines[i]][1..] == [];
  }

  method FreezeHooks(h: Hash, json: Json, g: GitJob) returns (frozen: seq<FrozenHook>, hash: string, problem: string)
    ensures frozen == Frozen(g) && hash == FreezeHash(h, json, g)
    ensures problem == FirstProblem(Lines(g)) && (problem != "" <==> Problem(g))
  {
    var target := h(json(g.job));
    var text, f, p := FreezePhase(h, Pre, g.job.cfg.pre, g.hookFiles, target, [], "");
    text, f, p := FreezePhase(h, Post, g.job.cfg.post, g.hookFiles, text, f, p);
    FrozenTogether(h, json, g);
    hide *;
    ghost var pre, post := PhaseLines(Pre, g.job.cfg.pre, g.hookFiles), PhaseLines(Post, g.job.cfg.post, g.hookFiles);
    Append(target, Body(h, pre), Body(h, post));
    frozen, problem := f, p;
    hash := if g.job.cfg.pre == [] && g.job.cfg.post == [] then target else h(text);
  }

  lemma FrozenTogether(h: Hash, json: Json, g: GitJob)
    ensures var pre, post := PhaseLines(Pre, g.job.cfg.pre, g.hookFiles), PhaseLines(Post, g.job.cfg.post, g.hookFiles);
      && Text(h, json, g) == h(json(g.job)) + (Body(h, pre) + Body(h, post))
      && Frozen(g) == [] + FrozenFrom(pre, 0) + FrozenFrom(post, 0)
      && FirstProblem(Lines(g)) == (if FirstProblem(pre) != "" then FirstProblem(pre) else FirstProblem(post))
    ensures FirstProblem(Lines(g)) != "" <==> Problem(g)
    ensures FreezeHash(h, json, g) == if g.job.cfg.pre == [] && g.job.cfg.post == [] then h(json(g.job)) else h(Text(h, json, g))
  {
    hide Body, FirstProblem, FrozenFrom, PhaseLines, MarkOf;
    var pre, post := PhaseLines(Pre, g.job.cfg.pre, g.hookFiles), PhaseLines(Post, g.job.cfg.post, g.hookFiles);
    BodySplit(h, pre, post);
    ProblemSplit(pre, post);
    FirstProblemIs(Lines(g));
    assert Lines(g) == [] <==> g.job.cfg.pre == [] && g.job.cfg.post == [];
  }

  // -- equal hashes --------------------------------------------------------------------------

  /** Every string hashed for a job: its JSON, the specs of its hooks, and the combined text. */
  ghost function Hashed(h: Hash, json: Json, g: GitJob): set<string> {
    {json(g.job), Text(h, json, g)} + set l | l in Lines(g) && l.mark.Spec? :: l.mark.text
  }

  /** No two different strings of those have one hash. */
  ghost predicate NoCollision(h: Hash, strings: set<string>) {
    forall x, y :: x in strings && y in strings && h(x) == h(y) ==> x == y
  }

  lemma CutNotBefore(x: string, u: string, y: string, v: string, c: char)
    requires x + [c] + u == y + [c] + v && c !in v
    ensures |v| <= |u|
  {
    var a, b := x + [c] + u, y + [c] + v;
    assert a[|x|] == c;
    assert forall k :: |y| < k < |b| ==> b[k] in v;
  }

  /** Two texts cut at the last occurrence of a separator are cut in the same place. */
  lemma LastCut(x: string, u: string, y: string, v: string, c: char)
    requires x + [c] + u == y + [c] + v && c !in u && c !in v
    ensures x == y && u == v
  {
    var a, b := x + [c] + u, y + [c] + v;
    CutNotBefore(x, u, y, v, c);
    CutNotBefore(y, v, x, u, c);
    assert a[..|x|] == x && b[..|y|] == y;
    assert a[|x| + 1..] == u && b[|y| + 1..] == v;
  }

  lemma MarkTexts(h: Hash, m: Mark)
    requires HexHash(h)
    ensures '\n' !in MarkText(h, m) && ':' !in MarkText(h, m)
    ensures m.Spec? <==> |MarkText(h, m)| == 64
  {
    if m.Spec? { assert IsHex(h(m.text)); }
  }

  ghost predicate OneLine(l: HookLine) {
    '\n' !in l.id
  }

  /** A line of text is of one hook: the phase is before its first colon, the mark after its last. */
  lemma LineUnique(h: Hash, a: HookLine, b: HookLine)
    requires HexHash(h) && Words(h, a) == Words(h, b)
    ensures a.phase == b.phase && a.id == b.id && MarkText(h, a.mark) == MarkText(h, b.mark)
  {
    var s, t := PhaseName(a.phase) + ":" + a.id + ":" + MarkText(h, a.mark), PhaseName(b.phase) + ":" + b.id + ":" + MarkText(h, b.mark);
    assert s[1] == PhaseName(a.phase)[1] && t[1] == PhaseName(b.phase)[1];
    MarkTexts(h, a.mark);
    MarkTexts(h, b.mark);
    LastCut(PhaseName(a.phase) + ":" + a.id, MarkText(h, a.mark), PhaseName(b.phase) + ":" + b.id, MarkText(h, b.mark), ':');
    var p := PhaseName(a.phase) + ":";
    assert (p + a.id)[|p|..] == a.id && (p + b.id)[|p|..] == b.id;
  }

  lemma SameMark(h: Hash, a: Mark, b: Mark, strings: set<string>)
    requires HexHash(h) && MarkText(h, a) == MarkText(h, b) && NoCollision(h, strings)
    requires (a.Spec? ==> a.text in strings) && (b.Spec? ==> b.text in strings)
    ensures a == b
  {
    MarkTexts(h, a);
    MarkTexts(h, b);
    assert "missing"[0] != "invalid"[0];
  }

  ghost predicate SpecsIn(lines: seq<HookLine>, strings: set<string>) {
    forall i :: 0 <= i < |lines| && lines[i].mark.Spec? ==> lines[i].mark.text in strings
  }

  lemma BodyLast(h: Hash, a: seq<HookLine>)
    requires a != []
    ensures Body(h, a) == Body(h, a[..|a| - 1]) + LineText(h, a[|a| - 1]) && |LineText(h, a[|a| - 1])| > 0
  {
    hide Words;
  }

  /** Equal texts of two lists that are not empty, cut at their last newline. */
  lemma CutLast(h: Hash, a: seq<HookLine>, b: seq<HookLine>)
    requires a != [] && b != [] && Body(h, a) == Body(h, b) && HexHash(h) && OneLine(a[|a| - 1]) && OneLine(b[|b| - 1])
    ensures Body(h, a[..|a| - 1]) == Body(h, b[..|b| - 1]) && Words(h, a[|a| - 1]) == Words(h, b[|b| - 1])
  {
    var x, y := a[|a| - 1], b[|b| - 1];
    var s, t := Body(h, a[..|a| - 1]), Body(h, b[..|b| - 1]);
    NoNewline(h, x);
    NoNewline(h, y);
    assert Body(h, a) == s + LineText(h, x) && Body(h, b) == t + LineText(h, y);
    assert LineText(h, x) == ['\n'] + Words(h, x) && LineText(h, y) == ['\n'] + Words(h, y);
    hide *;
    Append(s, ['\n'], Words(h, x));
    Append(t, ['\n'], Words(h, y));
    LastCut(s, Words(h, x), t, Words(h, y), '\n');
  }

  lemma BodyEmpty(h: Hash, a: seq<HookLine>)
    ensures Body(h, a) == "" <==> a == []
  {
    if a != [] { BodyLast(h, a); }
  }

  /** Without a newline in an ID the text alone is read back line by line. */
  lemma {:induction false} LinesUnique(h: Hash, a: seq<HookLine>, b: seq<HookLine>, strings: set<string>)
    requires HexHash(h) && NoCollision(h, strings) && SpecsIn(a, strings) && SpecsIn(b, strings)
    requires forall i :: 0 <= i < |a| ==> OneLine(a[i])
    requires forall i :: 0 <= i < |b| ==> OneLine(b[i])
    requires Body(h, a) == Body(h, b)
    ensures a == b
  {
    hide *;
    BodyEmpty(h, a);
    BodyEmpty(h, b);
    if a != [] && b != [] {
      var x, y := a[|a| - 1], b[|b| - 1];
      var before, before' := a[..|a| - 1], b[..|b| - 1];
      LastIn(a, strings);
      LastIn(b, strings);
      CutLast(h, a, b);
      LineUnique(h, x, y);
      SameMark(h, x.mark, y.mark, strings);
      LinesUnique(h, before, before', strings);
      assert a == before + [x] && b == before' + [y];
    }
  }

  lemma NoNewline(h: Hash, l: HookLine)
    requires HexHash(h) && OneLine(l)
    ensures '\n' !in Words(h, l)
  {
    MarkTexts(h, l.mark);
    var s := PhaseName(l.phase) + ":" + l.id + ":" + MarkText(h, l.mark);
    assert forall c :: c in s ==> c in PhaseName(l.phase) || c == ':' || c in l.id || c in MarkText(h, l.mark);
  }

  /** Lists of the same hooks, whatever their marks. */
  ghost predicate SameHooks(a: seq<HookLine>, b: seq<HookLine>) {
    |a| == |b| && forall i :: 0 <= i < |a| ==> a[i].phase == b[i].phase && a[i].id == b[i].id
  }

  /** The end of a line tells a missing or invalid hook from a hash, and one hash from another. */
  lemma MarkAtEnd(h: Hash, s: string, a: Mark, t: string, b: Mark)
    requires HexHash(h) && s + MarkText(h, a) == t + MarkText(h, b)
    ensures MarkText(h, a) == MarkText(h, b) && s == t
  {
    var u, v := MarkText(h, a), MarkText(h, b);
    MarkTexts(h, a);
    MarkTexts(h, b);
    SameLength(h, s, a, t, b);
    assert (s + u)[|s|..] == u && (t + v)[|t|..] == v && (s + u)[..|s|] == s && (t + v)[..|t|] == t;
  }

  lemma SameLength(h: Hash, s: string, a: Mark, t: string, b: Mark)
    requires HexHash(h) && s + MarkText(h, a) == t + MarkText(h, b)
    ensures a.Spec? <==> b.Spec?
  {
    var u, v := MarkText(h, a), MarkText(h, b);
    var n := |s + u|;
    assert (s + u)[n - 3] == u[|u| - 3] && (t + v)[n - 3] == v[|v| - 3];
    assert (s + u)[n - 6] == u[|u| - 6] && (t + v)[n - 6] == v[|v| - 6];
    if a.Spec? { assert IsHex(u); }
    if b.Spec? { assert IsHex(v); }
    assert "missing"[4] == 'i' && "missing"[1] == 'i' && "invalid"[1] == 'n';
  }

  /** When the hooks are known, the text gives their marks, whatever is in their IDs. */
  lemma {:induction false} MarksUnique(h: Hash, a: seq<HookLine>, b: seq<HookLine>, strings: set<string>)
    requires HexHash(h) && NoCollision(h, strings) && SpecsIn(a, strings) && SpecsIn(b, strings)
    requires SameHooks(a, b) && Body(h, a) == Body(h, b)
    ensures a == b
  {
    hide *;
    SameSize(a, b);
    if a == [] {
    } else {
      LastOf(a, b, strings);
      var x, y := a[|a| - 1], b[|b| - 1];
      var before, before' := a[..|a| - 1], b[..|b| - 1];
      LastMark(h, a, b);
      SameMark(h, x.mark, y.mark, strings);
      MarksUnique(h, before, before', strings);
      SameLine(x, y);
      assert a == before + [x] && b == before' + [y];
    }
  }

  lemma SameSize(a: seq<HookLine>, b: seq<HookLine>)
    requires SameHooks(a, b)
    ensures |a| == |b|
  {
  }

  lemma SameLine(x: HookLine, y: HookLine)
    requires x.phase == y.phase && x.id == y.id && x.mark == y.mark
    ensures x == y
  {
  }

  lemma LastIn(a: seq<HookLine>, strings: set<string>)
    requires a != [] && SpecsIn(a, strings)
    ensures SpecsIn(a[..|a| - 1], strings) && (a[|a| - 1].mark.Spec? ==> a[|a| - 1].mark.text in strings)
  {
  }

  lemma LastOf(a: seq<HookLine>, b: seq<HookLine>, strings: set<string>)
    requires a != [] && SpecsIn(a, strings) && SpecsIn(b, strings) && SameHooks(a, b)
    ensures b != [] && a[|a| - 1].phase == b[|b| - 1].phase && a[|a| - 1].id == b[|b| - 1].id
    ensures SpecsIn(a[..|a| - 1], strings) && SpecsIn(b[..|b| - 1], strings) && SameHooks(a[..|a| - 1], b[..|b| - 1])
    ensures (a[|a| - 1].mark.Spec? ==> a[|a| - 1].mark.text in strings) && (b[|b| - 1].mark.Spec? ==> b[|b| - 1].mark.text in strings)
  {
  }

  lemma LastMark(h: Hash, a: seq<HookLine>, b: seq<HookLine>)
    requires HexHash(h) && a != [] && b != [] && Body(h, a) == Body(h, b)
    requires a[|a| - 1].phase == b[|b| - 1].phase && a[|a| - 1].id == b[|b| - 1].id
    ensures Body(h, a[..|a| - 1]) == Body(h, b[..|b| - 1]) && MarkText(h, a[|a| - 1].mark) == MarkText(h, b[|b| - 1].mark)
  {
    hide *;
    var x, y := a[|a| - 1], b[|b| - 1];
    var s, t := Body(h, a[..|a| - 1]), Body(h, b[..|b| - 1]);
    var name := "\n" + PhaseName(x.phase) + ":" + x.id + ":";
    BodyLast(h, a);
    BodyLast(h, b);
    LineIs(h, x);
    LineIs(h, y);
    Append(s, name, MarkText(h, x.mark));
    Append(t, name, MarkText(h, y.mark));
    MarkAtEnd(h, s + name, x.mark, t + name, y.mark);
    SameStart(s, t, name);
  }

  lemma LineIs(h: Hash, x: HookLine)
    ensures LineText(h, x) == ("\n" + PhaseName(x.phase) + ":" + x.id + ":") + MarkText(h, x.mark)
  {
    hide PhaseName, MarkText;
  }

  lemma SameStart(s: string, t: string, end: string)
    requires s + end == t + end
    ensures s == t
  {
    assert (s + end)[..|s|] == s && (t + end)[..|t|] == t;
  }

  /** The target's hash and the lines, from equal hashes of the whole. */
  lemma SameParts(h: Hash, json: Json, f: GitJob, g: GitJob)
    requires HexHash(h) && JsonOfJobs(json) && NoCollision(h, Hashed(h, json, f) + Hashed(h, json, g))
    requires FreezeHash(h, json, f) == FreezeHash(h, json, g)
    ensures f.job == g.job && Body(h, Lines(f)) == Body(h, Lines(g))
  {
    var s, t := Text(h, json, f), Text(h, json, g);
    assert IsHex(h(json(f.job))) && IsHex(h(json(g.job)));
    assert s[0] == h(json(f.job))[0] && t[0] == h(json(g.job))[0];
    if Lines(f) == [] && Lines(g) == [] {
      assert json(f.job) == json(g.job);
    } else {
      assert Lines(f) != [] && Lines(g) != [];
      assert s == t;
      assert s[..64] == h(json(f.job)) && t[..64] == h(json(g.job));
      assert s[64..] == Body(h, Lines(f)) && t[64..] == Body(h, Lines(g));
    }
  }

  lemma SpecsHashed(h: Hash, json: Json, g: GitJob)
    ensures SpecsIn(Lines(g), Hashed(h, json, g))
  {
    forall i | 0 <= i < |Lines(g)| && Lines(g)[i].mark.Spec?
      ensures Lines(g)[i].mark.text in Hashed(h, json, g)
    {
      assert Lines(g)[i] in Lines(g);
    }
  }

  /** The IDs of the hooks are in the target's spec. */
  lemma SameTargetSameHooks(f: GitJob, g: GitJob)
    requires f.job == g.job
    ensures SameHooks(Lines(f), Lines(g))
  {
  }

  /** A hook is absent from both repositories, or both have the same file of it: the same spec, or both invalid. */
  predicate SameFile(f: GitJob, g: GitJob, id: string) {
    if id in f.hookFiles && f.hookFiles[id] != Missing then id in g.hookFiles && g.hookFiles[id] == f.hookFiles[id]
    else id !in g.hookFiles || g.hookFiles[id] == Missing
  }

  /** The hooks a job declares. */
  predicate Declares(g: GitJob, id: string) {
    id in g.job.cfg.pre || id in g.job.cfg.post
  }

  /**
   Without collisions, equal spec hashes are of the same target with the same files of the hooks
   it declares.
  */
  lemma HashPinsWhatRuns(h: Hash, json: Json, f: GitJob, g: GitJob)
    requires HexHash(h) && JsonOfJobs(json) && NoCollision(h, Hashed(h, json, f) + Hashed(h, json, g))
    ensures FreezeHash(h, json, f) == FreezeHash(h, json, g) <==> Decisions.HashOf(f) == Decisions.HashOf(g)
    ensures FreezeHash(h, json, f) == FreezeHash(h, json, g) <==> f.job == g.job && forall id :: Declares(g, id) ==> SameFile(f, g, id)
  {
    if FreezeHash(h, json, f) == FreezeHash(h, json, g) {
      SameParts(h, json, f, g);
      SpecsHashed(h, json, f);
      SpecsHashed(h, json, g);
      SameTargetSameHooks(f, g);
      MarksUnique(h, Lines(f), Lines(g), Hashed(h, json, f) + Hashed(h, json, g));
    }
    hide *;
    HashIsOfFiles(f, g);
  }

  /** The combined hash is of the target and of each file it declares. */
  lemma HashIsOfFiles(f: GitJob, g: GitJob)
    ensures Decisions.HashOf(f) == Decisions.HashOf(g) <==> f.job == g.job && forall id :: Declares(g, id) ==> SameFile(f, g, id)
  {
    if f.job == g.job {
      hide Lines, MarkOf, PhaseLines, SameFile, Declares;
      LinesTogether(f, g);
    }
  }

  /** Two jobs with one target have the same lines when the files it declares are the same. */
  lemma LinesTogether(f: GitJob, g: GitJob)
    requires f.job == g.job
    ensures Lines(f) == Lines(g) <==> forall id :: Declares(g, id) ==> SameFile(f, g, id)
  {
    hide SameFile, MarkOf;
    var n := |g.job.cfg.pre|;
    if Lines(f) == Lines(g) {
      forall id | Declares(g, id)
        ensures SameFile(f, g, id)
      {
        var i: nat;
        if id in g.job.cfg.pre {
          i :| 0 <= i < n && g.job.cfg.pre[i] == id;
        } else {
          var j: nat :| 0 <= j < |g.job.cfg.post| && g.job.cfg.post[j] == id;
          i := n + j;
        }
        assert Lines(f)[i].mark == Lines(g)[i].mark;
        SameFileIs(f, g, id);
      }
    } else {
      var i :| 0 <= i < |Lines(g)| && Lines(f)[i] != Lines(g)[i];
      SameFileIs(f, g, Lines(g)[i].id);
      assert Declares(g, Lines(g)[i].id);
    }
  }

  lemma SameFileIs(f: GitJob, g: GitJob, id: string)
    ensures SameFile(f, g, id) <==> MarkOf(f.hookFiles, id) == MarkOf(g.hookFiles, id)
  {
  }

  /**
   That the target names its hooks matters: the text after the target's hash does not tell
   one missing hook with a newline in its ID from two missing hooks.
  */
  lemma NewlineInAnIdCollides(h: Hash)
    ensures Body(h, [HookLine(Pre, "x:missing\npre:y", Missing)]) == Body(h, [HookLine(Pre, "x", Missing), HookLine(Pre, "y", Missing)])
  {
    var a := HookLine(Pre, "x:missing\npre:y", Missing);
    var x, y := HookLine(Pre, "x", Missing), HookLine(Pre, "y", Missing);
    hide *;
    BodySplit(h, [x], [y]);
    assert [x] + [y] == [x, y];
    OneLineBody(h, a);
    OneLineBody(h, x);
    OneLineBody(h, y);
    MissingLine(h, a);
    MissingLine(h, x);
    MissingLine(h, y);
    assert "\npre:" + "x:missing\npre:y" + ":missing" == ("\npre:" + "x" + ":missing") + ("\npre:" + "y" + ":missing");
  }

  lemma MissingLine(h: Hash, l: HookLine)
    requires l.phase == Pre && l.mark == Missing
    ensures LineText(h, l) == "\npre:" + l.id + ":missing"
  {
    assert PhaseName(Pre) == "pre" && MarkText(h, Missing) == "missing";
    hide *;
    LineIs(h, l);
    assert "\n" + "pre" + ":" == "\npre:" && ":" + "missing" == ":missing";
    assert ("\n" + "pre" + ":" + l.id + ":") + "missing" == "\npre:" + l.id + ":missing";
  }

  lemma OneLineBody(h: Hash, l: HookLine)
    ensures Body(h, [l]) == LineText(h, l)
  {
    assert [l][..0] == [];
  }
}
