/**
 An ACL compiled for a query: the blocks of every policy grouped by specificity, read
 level by level as the direct evaluation reads them.
*/
module AclScope {
  import opened Acl

  /** The blocks of one specificity: all of them, the ones that deny, and the ones that grant the capability. */
  datatype Level = Level(patterns: seq<string>, deny: seq<string>, grant: seq<string>)

  /** All is a management ACL; the levels are most specific first. */
  datatype Scope = Scope(all: bool, levels: seq<Level>)

  // -- sorting -----------------------------------------------------------------------------

  /** The order of strings by their bytes. */
  predicate Less(a: string, b: string) {
    if b == [] then false
    else if a == [] then true
    else a[0] < b[0] || (a[0] == b[0] && Less(a[1..], b[1..]))
  }

  lemma {:induction false} LessTotal(a: string, b: string)
    ensures Less(a, b) || a == b || Less(b, a)
    ensures !(Less(a, b) && Less(b, a)) && !Less(a, a)
  {
    if a != [] && b != [] && a[0] == b[0] {
      LessTotal(a[1..], b[1..]);
      assert a == [a[0]] + a[1..] && b == [b[0]] + b[1..];
    }
    if a != [] { LessTotal(a[1..], a[1..]); }
  }

  lemma {:induction false} LessTransitive(a: string, b: string, c: string)
    requires Less(a, b) && Less(b, c)
    ensures Less(a, c)
  {
    if a != [] && a[0] == b[0] && b[0] == c[0] {
      LessTransitive(a[1..], b[1..], c[1..]);
    }
  }

  predicate Increasing(s: seq<string>) {
    forall i, j :: 0 <= i < j < |s| ==> Less(s[i], s[j])
  }

  /** One string put in its place, unless it is there. */
  function Insert(s: seq<string>, x: string): (r: seq<string>)
    ensures forall y :: y in r <==> y in s || y == x
  {
    if s == [] then [x]
    else if Less(x, s[0]) then [x] + s
    else if x == s[0] then s
    else [s[0]] + Insert(s[1..], x)
  }

  lemma {:induction false} InsertIncreasing(s: seq<string>, x: string)
    requires Increasing(s)
    ensures Increasing(Insert(s, x))
  {
    if s != [] {
      LessTotal(x, s[0]);
      var r := Insert(s, x);
      if Less(x, s[0]) {
        forall i | 0 < i < |r|
          ensures Less(x, r[i])
        {
          if i > 1 { LessTransitive(x, s[0], s[i - 1]); }
        }
      } else if x != s[0] {
        InsertIncreasing(s[1..], x);
        forall i | 0 < i < |r|
          ensures Less(s[0], r[i])
        {
          assert r[i] in Insert(s[1..], x);
          if r[i] != x {
            var k :| 0 <= k < |s[1..]| && s[1..][k] == r[i];
            assert Less(s[0], s[k + 1]);
          }
        }
      }
    }
  }

  /** slices.Sort and slices.Compact. */
  method SortCompact(s: seq<string>) returns (r: seq<string>)
    ensures forall y :: y in r <==> y in s
    ensures Increasing(r)
  {
    r := [];
    for i := 0 to |s|
      invariant forall y :: y in r <==> y in s[..i]
      invariant Increasing(r)
    {
      InsertIncreasing(r, s[i]);
      assert s[..i + 1] == s[..i] + [s[i]];
      r := Insert(r, s[i]);
    }
    assert s[..|s|] == s;
  }

  /** The keys of a map, ascending. */
  method SortedKeys(keys: set<int>) returns (r: seq<int>)
    ensures forall k :: k in r <==> k in keys
    ensures forall i, j :: 0 <= i < j < |r| ==> r[i] < r[j]
  {
    r := [];
    var left := keys;
    while left != {}
      invariant left <= keys
      invariant forall k :: k in r <==> k in keys && k !in left
      invariant forall i, j :: 0 <= i < j < |r| ==> r[i] < r[j]
      invariant forall k, l :: k in r && l in left ==> k < l
      decreases |left|
    {
      var k := Least(left);
      assert forall i :: 0 <= i < |r| ==> r[i] in r;
      r := r + [k];
      left := left - {k};
    }
  }

  lemma NotEmpty(s: set<int>)
    requires s != {}
    ensures exists k :: k in s
  {
    assert (forall k :: k !in s) ==> s == {};
  }

  method Least(s: set<int>) returns (k: int)
    requires s != {}
    ensures k in s && forall l :: l in s ==> k <= l
  {
    NotEmpty(s);
    k :| k in s;
    var left := s - {k};
    while left != {}
      invariant left <= s && k in s
      invariant forall l :: l in s && l !in left ==> k <= l
      decreases |left|
    {
      NotEmpty(left);
      var l :| l in left;
      left := left - {l};
      if l < k { k := l; }
    }
  }

  // -- compiling ----------------------------------------------------------------------------

  /** The level holds the blocks of that specificity, told apart by what they say of the capability. */
  ghost predicate LevelOf(rules: set<Rule>, c: Capability, s: int, l: Level) {
    && (forall x :: x in l.patterns <==> exists r :: r in rules && Specificity(r.pattern) == s && r.pattern == x)
    && (forall x :: x in l.deny <==> exists r :: r in rules && Specificity(r.pattern) == s && r.pattern == x && r.deny)
    && (forall x :: x in l.grant <==> exists r :: r in rules && Specificity(r.pattern) == s && r.pattern == x && !r.deny && c in r.caps)
  }

  ghost predicate Grouped(rules: set<Rule>, c: Capability, m: map<int, Level>) {
    && (forall s :: s in m <==> exists r :: r in rules && Specificity(r.pattern) == s)
    && (forall s :: s in m ==> LevelOf(rules, c, s, m[s]))
  }

  /** The levels, one for each specificity there is, most specific first, each sorted without repeats. */
  ghost predicate Compiled(rules: set<Rule>, c: Capability, keys: seq<int>, levels: seq<Level>) {
    && |keys| == |levels|
    && (forall s :: s in keys <==> exists r :: r in rules && Specificity(r.pattern) == s)
    && (forall i, j :: 0 <= i < j < |keys| ==> keys[i] > keys[j])
    && (forall i :: 0 <= i < |levels| ==> LevelOf(rules, c, keys[i], levels[i]))
    && (forall i :: 0 <= i < |levels| ==> Increasing(levels[i].patterns) && Increasing(levels[i].deny) && Increasing(levels[i].grant))
  }

  /** One rule added to its level. */
  function Grow(l: Level, r: Rule, c: Capability): Level {
    var m := l.(patterns := l.patterns + [r.pattern]);
    if r.deny then m.(deny := m.deny + [r.pattern])
    else if c in r.caps then m.(grant := m.grant + [r.pattern])
    else m
  }

  lemma GrowLevel(rules: set<Rule>, c: Capability, r: Rule, l: Level)
    requires LevelOf(rules, c, Specificity(r.pattern), l)
    ensures LevelOf(rules + {r}, c, Specificity(r.pattern), Grow(l, r, c))
  {
    var s, g := Specificity(r.pattern), Grow(l, r, c);
    forall x
      ensures x in g.patterns <==> exists q :: q in rules + {r} && Specificity(q.pattern) == s && q.pattern == x
      ensures x in g.deny <==> exists q :: q in rules + {r} && Specificity(q.pattern) == s && q.pattern == x && q.deny
      ensures x in g.grant <==> exists q :: q in rules + {r} && Specificity(q.pattern) == s && q.pattern == x && !q.deny && c in q.caps
    {
      assert x in g.patterns <==> x in l.patterns || x == r.pattern;
      assert x in g.deny <==> x in l.deny || (x == r.pattern && r.deny);
      assert x in g.grant <==> x in l.grant || (x == r.pattern && !r.deny && c in r.caps);
      assert r in rules + {r};
    }
  }

  lemma OtherLevel(rules: set<Rule>, c: Capability, r: Rule, s: int, l: Level)
    requires LevelOf(rules, c, s, l) && s != Specificity(r.pattern)
    ensures LevelOf(rules + {r}, c, s, l)
  {
  }

  lemma NewLevel(rules: set<Rule>, c: Capability, s: int)
    requires forall r :: r in rules ==> Specificity(r.pattern) != s
    ensures LevelOf(rules, c, s, Level([], [], []))
  {
  }

  lemma GroupNext(rules: set<Rule>, c: Capability, r: Rule, m: map<int, Level>, l: Level)
    requires Grouped(rules, c, m)
    requires var s := Specificity(r.pattern); l == if s in m then m[s] else Level([], [], [])
    ensures Grouped(rules + {r}, c, m[Specificity(r.pattern) := Grow(l, r, c)])
  {
    hide LevelOf, Specificity, Grow;
    var s := Specificity(r.pattern);
    var m' := m[s := Grow(l, r, c)];
    if s !in m { NewLevel(rules, c, s); }
    GrowLevel(rules, c, r, l);
    forall t | t in m'
      ensures LevelOf(rules + {r}, c, t, m'[t])
    {
      if t != s { OtherLevel(rules, c, r, t, m[t]); }
    }
    forall t
      ensures t in m' <==> exists q :: q in rules + {r} && Specificity(q.pattern) == t
    {
      if t in m' {
        if t == s { assert r in rules + {r}; } else {
          var q :| q in rules && Specificity(q.pattern) == t;
          assert q in rules + {r};
        }
      }
    }
  }

  /** The blocks of one policy, grouped with those before it. */
  method GroupRules(rules: seq<Rule>, c: Capability, before: map<int, Level>, ghost seen: set<Rule>) returns (byLevel: map<int, Level>)
    requires Grouped(seen, c, before)
    ensures Grouped(seen + Elements(rules), c, byLevel)
  {
    byLevel := before;
    assert seen + Elements(rules[..0]) == seen;
    hide *;
    for j := 0 to |rules|
      invariant Grouped(seen + Elements(rules[..j]), c, byLevel)
    {
      var r := rules[j];
      var s := Specificity(r.pattern);
      var l := if s in byLevel then byLevel[s] else Level([], [], []);
      GroupNext(seen + Elements(rules[..j]), c, r, byLevel, l);
      NextElement(seen, rules, j);
      byLevel := byLevel[s := Grow(l, r, c)];
    }
    assert rules[..|rules|] == rules;
  }

  /** The loops that group the blocks. */
  method Group(policies: seq<Policy>, c: Capability) returns (byLevel: map<int, Level>)
    ensures Grouped(RulesOf(policies), c, byLevel)
  {
    byLevel := map[];
    assert policies[..0] == [];
    for i := 0 to |policies|
      invariant Grouped(RulesOf(policies[..i]), c, byLevel)
    {
      hide *;
      byLevel := GroupRules(policies[i].rules, c, byLevel, RulesOf(policies[..i]));
      NextPolicy(policies, i);
    }
    assert policies[..|policies|] == policies;
  }

  lemma Sorted(rules: set<Rule>, c: Capability, s: int, l: Level, m: Level)
    requires LevelOf(rules, c, s, l)
    requires (forall x :: x in m.patterns <==> x in l.patterns) && (forall x :: x in m.deny <==> x in l.deny) && (forall x :: x in m.grant <==> x in l.grant)
    ensures LevelOf(rules, c, s, m)
  {
  }

  method ScopeOf(a: ACL, c: Capability) returns (sc: Scope, ghost keys: seq<int>)
    ensures sc.all == a.management
    ensures !sc.all ==> Compiled(RulesOf(a.policies), c, keys, sc.levels)
  {
    keys := [];
    if a.management {
      return Scope(true, []), [];
    }
    var byLevel := Group(a.policies, c);
    var ascending := SortedKeys(byLevel.Keys);
    var levels := [];
    for i := |ascending| downto 0
      invariant |keys| == |levels| == |ascending| - i
      invariant forall j :: 0 <= j < |keys| ==> keys[j] == ascending[|ascending| - 1 - j]
      invariant forall j :: 0 <= j < |levels| ==> LevelOf(RulesOf(a.policies), c, keys[j], levels[j])
      invariant forall j :: 0 <= j < |levels| ==> Increasing(levels[j].patterns) && Increasing(levels[j].deny) && Increasing(levels[j].grant)
    {
      assert ascending[i] in ascending;
      var l := byLevel[ascending[i]];
      var patterns := SortCompact(l.patterns);
      var deny := SortCompact(l.deny);
      var grant := SortCompact(l.grant);
      Sorted(RulesOf(a.policies), c, ascending[i], l, Level(patterns, deny, grant));
      keys := keys + [ascending[i]];
      levels := levels + [Level(patterns, deny, grant)];
    }
    hide LevelOf, Increasing, RulesOf;
    forall s
      ensures s in keys <==> s in ascending
    {
      if s in ascending {
        var k :| 0 <= k < |ascending| && ascending[k] == s;
        assert keys[|ascending| - 1 - k] == s;
      }
    }
    sc := Scope(false, levels);
  }

  // -- matching -----------------------------------------------------------------------------

  predicate MatchesAny(patterns: seq<string>, name: string) {
    exists i :: 0 <= i < |patterns| && PathMatch(patterns[i], name)
  }

  predicate MatchLevels(levels: seq<Level>, name: string) {
    if levels == [] then false
    else if MatchesAny(levels[0].patterns, name) then !MatchesAny(levels[0].deny, name) && MatchesAny(levels[0].grant, name)
    else MatchLevels(levels[1..], name)
  }

  predicate Match(sc: Scope, name: string) {
    sc.all || MatchLevels(sc.levels, name)
  }

  /** The first level that matches decides: it holds the most specific of the blocks that match. */
  lemma {:induction false} LevelsDecide(rules: set<Rule>, c: Capability, keys: seq<int>, levels: seq<Level>, n: nat, name: string)
    requires Compiled(rules, c, keys, levels) && n <= |levels|
    requires forall r :: r in rules && PathMatch(r.pattern, name) ==> Specificity(r.pattern) in keys[n..]
    ensures MatchLevels(levels[n..], name) == Decide(rules, name, c)
    decreases |levels| - n
  {
    if n < |levels| {
      var l := levels[n];
      assert levels[n..][0] == l && levels[n..][1..] == levels[n + 1..];
      assert LevelOf(rules, c, keys[n], l);
      if MatchesAny(l.patterns, name) {
        TopLevel(rules, c, keys, n, l, name);
      } else {
        forall r | r in rules && PathMatch(r.pattern, name)
          ensures Specificity(r.pattern) in keys[n + 1..]
        {
          assert keys[n..] == [keys[n]] + keys[n + 1..];
          if Specificity(r.pattern) == keys[n] { MatchesAt(l.patterns, r.pattern, name); }
        }
        LevelsDecide(rules, c, keys, levels, n + 1, name);
      }
    } else {
      assert keys[n..] == [];
    }
  }

  lemma MatchesAt(patterns: seq<string>, x: string, name: string)
    requires x in patterns && PathMatch(x, name)
    ensures MatchesAny(patterns, name)
  {
    var i :| 0 <= i < |patterns| && patterns[i] == x;
  }

  lemma TopLevel(rules: set<Rule>, c: Capability, keys: seq<int>, n: nat, l: Level, name: string)
    requires n < |keys| && LevelOf(rules, c, keys[n], l) && MatchesAny(l.patterns, name)
    requires forall i, j :: 0 <= i < j < |keys| ==> keys[i] > keys[j]
    requires forall r :: r in rules && PathMatch(r.pattern, name) ==> Specificity(r.pattern) in keys[n..]
    ensures Decide(rules, name, c) == (!MatchesAny(l.deny, name) && MatchesAny(l.grant, name))
  {
    var i :| 0 <= i < |l.patterns| && PathMatch(l.patterns[i], name);
    assert l.patterns[i] in l.patterns;
    var g :| g in rules && Specificity(g.pattern) == keys[n] && g.pattern == l.patterns[i];
    forall r | r in rules
      ensures Top(rules, name, r) <==> PathMatch(r.pattern, name) && Specificity(r.pattern) == keys[n]
    {
      AtMost(rules, keys, n, name);
    }
    if MatchesAny(l.deny, name) {
      var j :| 0 <= j < |l.deny| && PathMatch(l.deny[j], name);
      assert l.deny[j] in l.deny;
      var r :| r in rules && Specificity(r.pattern) == keys[n] && r.pattern == l.deny[j] && r.deny;
      assert Top(rules, name, r);
    } else {
      forall r | Top(rules, name, r)
        ensures !r.deny
      {
        if r.deny {
          assert r.pattern in l.deny;
          MatchesAt(l.deny, r.pattern, name);
        }
      }
      GrantTop(rules, c, keys[n], l, name);
    }
  }

  lemma AtMost(rules: set<Rule>, keys: seq<int>, n: nat, name: string)
    requires n < |keys| && forall i, j :: 0 <= i < j < |keys| ==> keys[i] > keys[j]
    requires forall r :: r in rules && PathMatch(r.pattern, name) ==> Specificity(r.pattern) in keys[n..]
    ensures forall r :: r in rules && PathMatch(r.pattern, name) ==> Specificity(r.pattern) <= keys[n]
  {
    forall r | r in rules && PathMatch(r.pattern, name)
      ensures Specificity(r.pattern) <= keys[n]
    {
      var k :| 0 <= k < |keys[n..]| && keys[n..][k] == Specificity(r.pattern);
      assert keys[n + k] == Specificity(r.pattern);
    }
  }

  lemma GrantTop(rules: set<Rule>, c: Capability, s: int, l: Level, name: string)
    requires LevelOf(rules, c, s, l)
    requires forall r :: r in rules ==> (Top(rules, name, r) <==> PathMatch(r.pattern, name) && Specificity(r.pattern) == s)
    requires forall r :: Top(rules, name, r) ==> !r.deny
    ensures MatchesAny(l.grant, name) <==> exists r :: Top(rules, name, r) && c in r.caps
  {
    if MatchesAny(l.grant, name) {
      var j :| 0 <= j < |l.grant| && PathMatch(l.grant[j], name);
      assert l.grant[j] in l.grant;
      var r :| r in rules && Specificity(r.pattern) == s && r.pattern == l.grant[j] && !r.deny && c in r.caps;
      assert Top(rules, name, r);
    }
    if r :| Top(rules, name, r) && c in r.caps {
      assert r.pattern in l.grant;
      MatchesAt(l.grant, r.pattern, name);
    }
  }

  /** The compiled scope answers as the direct evaluation does, on every name. */
  lemma ScopeMatchesAllow(a: ACL, c: Capability, sc: Scope, keys: seq<int>, name: string)
    requires sc.all == a.management && (!sc.all ==> Compiled(RulesOf(a.policies), c, keys, sc.levels))
    ensures Match(sc, name) == Allowed(a, name, c)
  {
    if !sc.all {
      assert keys[0..] == keys && sc.levels[0..] == sc.levels;
      LevelsDecide(RulesOf(a.policies), c, keys, sc.levels, 0, name);
    }
  }
}
