/**
 ACL decisions in three forms: direct evaluation, a compiled list of levels, and a
 compiled SQL condition. All three are one decision on the set of rules.
*/
module Acl {
  datatype Capability = Read | Approve | Promote | Retry | DeployNow | Pause

  /** A namespace block; a label has letters, digits, - and *. */
  datatype Rule = Rule(pattern: string, deny: bool, caps: seq<Capability>)

  datatype Policy = Policy(rules: seq<Rule>)

  datatype ACL = ACL(management: bool, policies: seq<Policy>)

  // -- labels ------------------------------------------------------------------------------

  /** path.Match on labels made of literals and *: a * takes any characters but a slash. */
  predicate PathMatch(pattern: string, name: string)
    decreases |pattern| + |name|
  {
    if pattern == [] then name == []
    else if pattern[0] == '*' then PathMatch(pattern[1..], name) || (name != [] && name[0] != '/' && PathMatch(pattern, name[1..]))
    else name != [] && name[0] == pattern[0] && PathMatch(pattern[1..], name[1..])
  }

  /** GLOB of SQLite on the same labels: a * takes any characters. */
  predicate Glob(pattern: string, name: string)
    decreases |pattern| + |name|
  {
    if pattern == [] then name == []
    else if pattern[0] == '*' then Glob(pattern[1..], name) || (name != [] && Glob(pattern, name[1..]))
    else name != [] && name[0] == pattern[0] && Glob(pattern[1..], name[1..])
  }

  predicate IsLabel(pattern: string) {
    '/' !in pattern
  }

  /** The two agree on a name without a slash. */
  lemma {:induction false} GlobIsPathMatch(pattern: string, name: string)
    requires '/' !in name
    ensures Glob(pattern, name) == PathMatch(pattern, name)
    decreases |pattern| + |name|
  {
    if pattern != [] {
      if pattern[0] == '*' {
        GlobIsPathMatch(pattern[1..], name);
        if name != [] { GlobIsPathMatch(pattern, name[1..]); }
      } else if name != [] {
        GlobIsPathMatch(pattern[1..], name[1..]);
      }
    }
  }

  lemma {:induction false} StarTakesAll(name: string)
    ensures Glob("*", name)
    ensures PathMatch("*", name) <==> '/' !in name
  {
    if name == [] {
      assert Glob([], []) && PathMatch([], []);
    } else {
      StarTakesAll(name[1..]);
      assert "*"[1..] == [];
    }
  }

  /** And only there: the labels tell names with a slash apart. */
  lemma GlobAgreesWithoutSlash(name: string)
    ensures (forall pattern :: IsLabel(pattern) ==> Glob(pattern, name) == PathMatch(pattern, name)) <==> '/' !in name
  {
    if '/' !in name {
      forall pattern | IsLabel(pattern) { GlobIsPathMatch(pattern, name); }
    } else {
      StarTakesAll(name);
      assert IsLabel("*");
    }
  }

  function Stars(pattern: string): nat {
    if pattern == [] then 0 else Stars(pattern[1..]) + if pattern[0] == '*' then 1 else 0
  }

  /** An exact name beats any glob, and a glob another by the characters it spells out. */
  function Specificity(pattern: string): int {
    var literal := |pattern| - Stars(pattern);
    if '*' !in pattern then 0x10_0000 + literal else literal
  }

  lemma {:induction false} NoStars(pattern: string)
    ensures Stars(pattern) <= |pattern| && (Stars(pattern) == 0 <==> '*' !in pattern)
  {
    if pattern != [] { NoStars(pattern[1..]); }
  }

  /** A label spells out no more characters than a name it matches has, and all of them without a *. */
  lemma {:induction false} MatchedLiterals(pattern: string, name: string)
    requires PathMatch(pattern, name)
    ensures |pattern| - Stars(pattern) <= |name|
    ensures '*' !in pattern ==> pattern == name
    decreases |pattern| + |name|
  {
    if pattern != [] {
      if pattern[0] == '*' {
        if PathMatch(pattern[1..], name) { MatchedLiterals(pattern[1..], name); } else { MatchedLiterals(pattern, name[1..]); }
      } else {
        MatchedLiterals(pattern[1..], name[1..]);
      }
    }
  }

  /** Of the labels that match a namespace, its own name is the most specific. */
  lemma ExactNameWins(exact: string, other: string, name: string)
    requires PathMatch(exact, name) && PathMatch(other, name) && '*' !in exact && '*' in other
    ensures Specificity(other) < Specificity(exact)
  {
    NoStars(exact);
    MatchedLiterals(other, name);
    MatchedLiterals(exact, name);
  }

  // -- the decision ------------------------------------------------------------------------

  ghost function RulesOf(policies: seq<Policy>): set<Rule> {
    set p, r | p in policies && r in p.rules :: r
  }

  /** A most specific rule of those that match. */
  ghost predicate Top(rules: set<Rule>, name: string, r: Rule) {
    && r in rules && PathMatch(r.pattern, name)
    && forall q :: q in rules && PathMatch(q.pattern, name) ==> Specificity(q.pattern) <= Specificity(r.pattern)
  }

  /** Some most specific rule grants the capability, and none denies. */
  ghost predicate Decide(rules: set<Rule>, name: string, c: Capability) {
    && (exists r :: Top(rules, name, r) && c in r.caps)
    && (forall r :: Top(rules, name, r) ==> !r.deny)
  }

  ghost predicate Allowed(a: ACL, name: string, c: Capability) {
    a.management || Decide(RulesOf(a.policies), name, c)
  }

  /** The order of policies, and of rules in them, does not matter, nor do repeats. */
  lemma OrderDoesNotMatter(a: seq<Policy>, b: seq<Policy>, name: string, c: Capability)
    requires multiset(a) == multiset(b) || (|a| == |b| && forall i :: 0 <= i < |a| ==> multiset(a[i].rules) == multiset(b[i].rules))
    ensures Decide(RulesOf(a), name, c) == Decide(RulesOf(b), name, c)
  {
    if multiset(a) == multiset(b) {
      forall p
        ensures p in a <==> p in b
      {
        assert p in multiset(a) <==> p in multiset(b);
      }
    } else {
      forall r
        ensures r in RulesOf(a) <==> r in RulesOf(b)
      {
        SameRules(a, b, r);
        SameRules(b, a, r);
      }
    }
    assert RulesOf(a) == RulesOf(b);
  }

  lemma SameRules(a: seq<Policy>, b: seq<Policy>, r: Rule)
    requires |a| == |b| && forall i :: 0 <= i < |a| ==> multiset(a[i].rules) == multiset(b[i].rules)
    ensures r in RulesOf(a) ==> r in RulesOf(b)
  {
    if r in RulesOf(a) {
      var p :| p in a && r in p.rules;
      var i :| 0 <= i < |a| && a[i] == p;
      assert r in multiset(a[i].rules) && r in multiset(b[i].rules);
      assert b[i] in b && r in b[i].rules;
    }
  }

  // -- direct evaluation ---------------------------------------------------------------------

  ghost function Elements(rules: seq<Rule>): set<Rule> {
    set r | r in rules
  }

  /** The rules kept so far: the most specific of those that match, if any does. */
  ghost predicate Kept(seen: set<Rule>, name: string, best: int, rules: seq<Rule>) {
    && (forall r :: r in rules <==> Top(seen, name, r))
    && (best == -1 <==> forall r :: r in seen ==> !PathMatch(r.pattern, name))
    && (forall r :: r in rules ==> Specificity(r.pattern) == best)
    && (best != -1 ==> rules != [])
    && (forall q :: q in seen && PathMatch(q.pattern, name) ==> Specificity(q.pattern) <= best)
    && best >= -1
  }

  lemma KeepNext(seen: set<Rule>, name: string, best: int, rules: seq<Rule>, r: Rule)
    requires Kept(seen, name, best, rules)
    ensures !PathMatch(r.pattern, name) ==> Kept(seen + {r}, name, best, rules)
    ensures PathMatch(r.pattern, name) && Specificity(r.pattern) > best ==> Kept(seen + {r}, name, Specificity(r.pattern), [r])
    ensures PathMatch(r.pattern, name) && Specificity(r.pattern) == best ==> Kept(seen + {r}, name, best, rules + [r])
    ensures PathMatch(r.pattern, name) && Specificity(r.pattern) < best ==> Kept(seen + {r}, name, best, rules)
  {
    NoStars(r.pattern);
    if rules != [] { assert rules[0] in rules; }
    assert forall q :: q in seen + {r} <==> q in seen || q == r;
    assert PathMatch(r.pattern, name) ==> Specificity(r.pattern) >= 0;
  }

  /** The rules of one policy, on top of those seen before it. */
  method Scan(more: seq<Rule>, name: string, best: int, rules: seq<Rule>, ghost seen: set<Rule>) returns (best': int, rules': seq<Rule>)
    requires Kept(seen, name, best, rules)
    ensures Kept(seen + Elements(more), name, best', rules')
  {
    best', rules' := best, rules;
    assert seen + Elements(more[..0]) == seen;
    hide *;
    for j := 0 to |more|
      invariant Kept(seen + Elements(more[..j]), name, best', rules')
    {
      var r := more[j];
      KeepNext(seen + Elements(more[..j]), name, best', rules', r);
      NextElement(seen, more, j);
      if !PathMatch(r.pattern, name) {
        continue;
      }
      var s := Specificity(r.pattern);
      if s > best' {
        best', rules' := s, [r];
      } else if s == best' {
        rules' := rules' + [r];
      }
    }
    assert more[..|more|] == more;
  }

  lemma NextElement(seen: set<Rule>, rules: seq<Rule>, j: nat)
    requires j < |rules|
    ensures seen + Elements(rules[..j]) + {rules[j]} == seen + Elements(rules[..j + 1])
  {
    assert rules[..j + 1] == rules[..j] + [rules[j]];
  }

  /** The loops that look for the most specific blocks that match. */
  method MostSpecific(policies: seq<Policy>, name: string) returns (rules: seq<Rule>)
    ensures forall r :: r in rules <==> Top(RulesOf(policies), name, r)
  {
    var best := -1;
    rules := [];
    assert policies[..0] == [];
    for i := 0 to |policies|
      invariant Kept(RulesOf(policies[..i]), name, best, rules)
    {
      hide *;
      best, rules := Scan(policies[i].rules, name, best, rules, RulesOf(policies[..i]));
      NextPolicy(policies, i);
    }
    assert policies[..|policies|] == policies;
  }

  lemma NextPolicy(policies: seq<Policy>, i: nat)
    requires i < |policies|
    ensures RulesOf(policies[..i]) + Elements(policies[i].rules) == RulesOf(policies[..i + 1])
  {
    assert policies[..i + 1] == policies[..i] + [policies[i]];
    forall r
      ensures r in RulesOf(policies[..i]) + Elements(policies[i].rules) <==> r in RulesOf(policies[..i + 1])
    {
      if r in policies[i].rules { assert policies[i] in policies[..i + 1]; }
    }
  }

  method Allow(a: ACL, name: string, c: Capability) returns (allowed: bool)
    ensures allowed == Allowed(a, name, c)
  {
    if a.management {
      return true;
    }
    var rules := MostSpecific(a.policies, name);
    hide Top, RulesOf, PathMatch;
    allowed := false;
    for i := 0 to |rules|
      invariant allowed <==> exists j :: 0 <= j < i && c in rules[j].caps
      invariant forall j :: 0 <= j < i ==> !rules[j].deny
    {
      if rules[i].deny {
        assert Top(RulesOf(a.policies), name, rules[i]);
        return false;
      }
      allowed := allowed || c in rules[i].caps;
    }
  }
}
