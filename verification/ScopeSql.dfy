/**
 The scope as a condition on a namespace column: a CASE whose arguments are positional.
 The text is tokens, and the engine that runs it is a parser and an evaluator of them.
*/
module ScopeSql {
  import opened Options
  import opened Acl
  import opened AclScope

  /** The words of the condition; GlobArg is `namespace GLOB ?`. */
  datatype Token = Zero | Case | When | Then | Else | End | Not | And | Or | Open | Close | GlobArg

  // -- compiling ----------------------------------------------------------------------------

  function AnyOf(patterns: seq<string>): seq<Token> {
    if patterns == [] then [Zero] else [Open] + Alternatives(|patterns|) + [Close]
  }

  function Alternatives(n: nat): seq<Token> {
    if n == 0 then [] else if n == 1 then [GlobArg] else [GlobArg, Or] + Alternatives(n - 1)
  }

  function LevelTokens(l: Level): seq<Token> {
    [When] + AnyOf(l.patterns) + [Then, Not] + AnyOf(l.deny) + [And] + AnyOf(l.grant)
  }

  function LevelArgs(l: Level): seq<string> {
    l.patterns + l.deny + l.grant
  }

  function LevelsTokens(levels: seq<Level>): seq<Token> {
    if levels == [] then [Else, Zero, End] else LevelTokens(levels[0]) + LevelsTokens(levels[1..])
  }

  function LevelsArgs(levels: seq<Level>): seq<string> {
    if levels == [] then [] else LevelArgs(levels[0]) + LevelsArgs(levels[1..])
  }

  function Condition(levels: seq<Level>): seq<Token> {
    if levels == [] then [Zero] else [Case] + LevelsTokens(levels)
  }

  // The closures of the store: each writes its words and appends its arguments.
  method MatchAny(patterns: seq<string>, args: seq<string>) returns (text: seq<Token>, out: seq<string>)
    ensures text == AnyOf(patterns) && out == args + patterns
  {
    out := args;
    if |patterns| == 0 {
      return [Zero], args;
    }
    var parts: seq<Token> := [];
    for i := 0 to |patterns|
      invariant out == args + patterns[..i]
      invariant i == 0 ==> parts == []
      invariant i > 0 ==> forall n: nat :: n > 0 ==> parts + [Or] + Alternatives(n) == Alternatives(i + n)
      invariant i > 0 ==> parts == Alternatives(i)
    {
      assert patterns[..i + 1] == patterns[..i] + [patterns[i]];
      ghost var was := parts;
      parts := if i == 0 then [GlobArg] else parts + [Or, GlobArg];
      out := out + [patterns[i]];
      forall n: nat | n > 0
        ensures parts + [Or] + Alternatives(n) == Alternatives(i + 1 + n)
      {
        if i > 0 {
          assert parts + [Or] + Alternatives(n) == was + [Or] + ([GlobArg, Or] + Alternatives(n));
          assert Alternatives(n + 1) == [GlobArg, Or] + Alternatives(n);
        }
      }
      assert parts == Alternatives(i + 1) by {
        if i > 0 { assert was + [Or, GlobArg] == was + [Or] + Alternatives(1); }
      }
    }
    assert patterns[..|patterns|] == patterns;
    text := [Open] + parts + [Close];
  }

  lemma {:induction false} LevelsSplit(a: seq<Level>, l: Level)
    ensures LevelsArgs(a + [l]) == LevelsArgs(a) + LevelArgs(l)
    ensures WhenTokens(a + [l]) == WhenTokens(a) + LevelTokens(l)
  {
    if a == [] {
      assert a + [l] == [l];
    } else {
      assert (a + [l])[1..] == a[1..] + [l];
      LevelsSplit(a[1..], l);
    }
  }

  function WhenTokens(levels: seq<Level>): seq<Token> {
    if levels == [] then [] else LevelTokens(levels[0]) + WhenTokens(levels[1..])
  }

  lemma {:induction false} WhenThenElse(levels: seq<Level>)
    ensures LevelsTokens(levels) == WhenTokens(levels) + [Else, Zero, End]
  {
    if levels != [] { WhenThenElse(levels[1..]); }
  }

  method WriteLevel(l: Level, args: seq<string>) returns (text: seq<Token>, out: seq<string>)
    ensures text == LevelTokens(l) && out == args + LevelArgs(l)
  {
    var any, a1 := MatchAny(l.patterns, args);
    var deny, a2 := MatchAny(l.deny, a1);
    var grant, a3 := MatchAny(l.grant, a2);
    text, out := [When] + any + [Then, Not] + deny + [And] + grant, a3;
    assert out == args + LevelArgs(l);
  }

  lemma NextLevel(levels: seq<Level>, i: nat)
    requires i < |levels|
    ensures WhenTokens(levels[..i + 1]) == WhenTokens(levels[..i]) + LevelTokens(levels[i])
    ensures LevelsArgs(levels[..i + 1]) == LevelsArgs(levels[..i]) + LevelArgs(levels[i])
  {
    hide *;
    assert levels[..i + 1] == levels[..i] + [levels[i]];
    LevelsSplit(levels[..i], levels[i]);
  }

  method WriteLevels(levels: seq<Level>) returns (text: seq<Token>, args: seq<string>)
    ensures text == [Case] + WhenTokens(levels) && args == LevelsArgs(levels)
  {
    text, args := [Case], [];
    assert levels[..0] == [];
    for i := 0 to |levels|
      invariant text == [Case] + WhenTokens(levels[..i])
      invariant args == LevelsArgs(levels[..i])
    {
      hide *;
      NextLevel(levels, i);
      var when, out := WriteLevel(levels[i], args);
      Assoc([Case], WhenTokens(levels[..i]), when);
      text, args := text + when, out;
    }
    assert levels[..|levels|] == levels;
  }

  method ScopeSQL(levels: seq<Level>) returns (text: seq<Token>, args: seq<string>)
    ensures text == Condition(levels) && args == LevelsArgs(levels)
  {
    if |levels| == 0 {
      return [Zero], [];
    }
    text, args := WriteLevels(levels);
    hide *;
    WhenThenElse(levels);
    Assoc([Case], WhenTokens(levels), [Else, Zero, End]);
    ConditionIs(levels);
    text := text + [Else, Zero, End];
  }

  lemma Assoc(a: seq<Token>, b: seq<Token>, c: seq<Token>)
    ensures (a + b) + c == a + (b + c)
  {
  }

  lemma ConditionIs(levels: seq<Level>)
    ensures levels != [] ==> Condition(levels) == [Case] + LevelsTokens(levels)
  {
  }

  // -- running ------------------------------------------------------------------------------

  /** A condition as SQLite reads it; a GLOB holds the place of its argument, a CASE is nested Ifs. */
  datatype Expr = False | GlobAt(arg: nat) | NotOf(e: Expr) | AndOf(l: Expr, r: Expr) | OrOf(l: Expr, r: Expr) | If(c: Expr, value: Expr, other: Expr)

  /** What is read, the tokens left, and how many arguments were taken. */
  datatype Parse = Parse(e: Expr, rest: seq<Token>, taken: nat)

  datatype Whens = Whens(whens: seq<(Expr, Expr)>, rest: seq<Token>, taken: nat)

  /** expr := conj (OR conj)*; OR binds least, then AND, then NOT. Arguments are numbered as they are met. */
  function ParseOr(t: seq<Token>, taken: nat): (r: Option<Parse>)
    ensures r.Some? ==> |r.value.rest| < |t|
    decreases |t|, 3
  {
    match ParseAnd(t, taken)
    case None => None
    case Some(p) => OrRest(p, |t|)
  }

  function OrRest(p: Parse, bound: nat): (r: Option<Parse>)
    requires |p.rest| < bound
    ensures r.Some? ==> |r.value.rest| < bound
    decreases |p.rest|, 4
  {
    if p.rest == [] || p.rest[0] != Or then Some(p)
    else
      match ParseAnd(p.rest[1..], p.taken)
      case None => None
      case Some(q) => OrRest(Parse(OrOf(p.e, q.e), q.rest, q.taken), bound)
  }

  function ParseAnd(t: seq<Token>, taken: nat): (r: Option<Parse>)
    ensures r.Some? ==> |r.value.rest| < |t|
    decreases |t|, 2
  {
    match ParseNot(t, taken)
    case None => None
    case Some(p) => AndRest(p, |t|)
  }

  function AndRest(p: Parse, bound: nat): (r: Option<Parse>)
    requires |p.rest| < bound
    ensures r.Some? ==> |r.value.rest| < bound
    decreases |p.rest|, 3
  {
    if p.rest == [] || p.rest[0] != And then Some(p)
    else
      match ParseNot(p.rest[1..], p.taken)
      case None => None
      case Some(q) => AndRest(Parse(AndOf(p.e, q.e), q.rest, q.taken), bound)
  }

  function ParseNot(t: seq<Token>, taken: nat): (r: Option<Parse>)
    ensures r.Some? ==> |r.value.rest| < |t|
    decreases |t|, 1
  {
    if t != [] && t[0] == Not then
      match ParseNot(t[1..], taken)
      case None => None
      case Some(p) => Some(p.(e := NotOf(p.e)))
    else ParseAtom(t, taken)
  }

  function ParseAtom(t: seq<Token>, taken: nat): (r: Option<Parse>)
    ensures r.Some? ==> |r.value.rest| < |t|
    decreases |t|, 0
  {
    if t == [] then None
    else
      match t[0]
      case Zero => Some(Parse(False, t[1..], taken))
      case GlobArg => Some(Parse(GlobAt(taken), t[1..], taken + 1))
      case Open =>
        (match ParseOr(t[1..], taken)
         case None => None
         case Some(p) => if p.rest != [] && p.rest[0] == Close then Some(p.(rest := p.rest[1..])) else None)
      case Case =>
        (match ParseWhens(t[1..], taken)
         case None => None
         case Some(w) =>
           if w.rest != [] && w.rest[0] == Else then
             (match ParseOr(w.rest[1..], w.taken)
              case None => None
              case Some(p) =>
                if p.rest != [] && p.rest[0] == End then Some(Parse(Nest(w.whens, p.e), p.rest[1..], p.taken)) else None)
           else None)
      case _ => None
  }

  function ParseWhens(t: seq<Token>, taken: nat): (r: Option<Whens>)
    ensures r.Some? ==> |r.value.rest| <= |t|
    decreases |t|, 5
  {
    if t == [] || t[0] != When then Some(Whens([], t, taken))
    else
      match ParseOr(t[1..], taken)
      case None => None
      case Some(c) =>
        if c.rest == [] || c.rest[0] != Then then None
        else
          match ParseOr(c.rest[1..], c.taken)
          case None => None
          case Some(v) =>
            match ParseWhens(v.rest, v.taken)
            case None => None
            case Some(w) => Some(w.(whens := [(c.e, v.e)] + w.whens))
  }

  /** The value of a condition on a namespace: a CASE takes its first branch that holds. */
  predicate Eval(e: Expr, args: seq<string>, name: string) {
    match e
    case False => false
    case GlobAt(i) => i < |args| && Glob(args[i], name)
    case NotOf(f) => !Eval(f, args, name)
    case AndOf(l, r) => Eval(l, args, name) && Eval(r, args, name)
    case OrOf(l, r) => Eval(l, args, name) || Eval(r, args, name)
    case If(c, value, other) => if Eval(c, args, name) then Eval(value, args, name) else Eval(other, args, name)
  }

  function Nest(whens: seq<(Expr, Expr)>, other: Expr): Expr {
    if whens == [] then other else If(whens[0].0, whens[0].1, Nest(whens[1..], other))
  }

  // -- what the compiled condition reads as ---------------------------------------------------

  /** The alternatives from one argument on. */
  function AnyExpr(first: nat, n: nat): Expr {
    if n == 0 then False else Chain(GlobAt(first), first + 1, n - 1)
  }

  /** OR associates to the left. */
  function Chain(e: Expr, first: nat, n: nat): Expr
    decreases n
  {
    if n == 0 then e else Chain(OrOf(e, GlobAt(first)), first + 1, n - 1)
  }

  function LevelExpr(l: Level, first: nat): (Expr, Expr) {
    var deny := first + |l.patterns|;
    var grant := deny + |l.deny|;
    (AnyExpr(first, |l.patterns|), AndOf(NotOf(AnyExpr(deny, |l.deny|)), AnyExpr(grant, |l.grant|)))
  }

  function LevelsExpr(levels: seq<Level>, first: nat): seq<(Expr, Expr)> {
    if levels == [] then [] else [LevelExpr(levels[0], first)] + LevelsExpr(levels[1..], first + |LevelArgs(levels[0])|)
  }

  /** A token that ends what comes before it, whatever it is. */
  predicate Stops(t: seq<Token>) {
    t == [] || t[0] in {Then, Else, End, When, Close}
  }

  lemma {:induction false} ReadsChain(e: Expr, first: nat, n: nat, rest: seq<Token>, bound: nat)
    requires n > 0 ==> |Alternatives(n)| + 1 + |rest| < bound
    requires Stops(rest) && |rest| < bound
    ensures n > 0 ==> OrRest(Parse(e, [Or] + Alternatives(n) + rest, first), bound) == Some(Parse(Chain(e, first, n), rest, first + n))
    ensures n == 0 ==> OrRest(Parse(e, rest, first), bound) == Some(Parse(Chain(e, first, n), rest, first + n))
    decreases n
  {
    if n > 0 {
      var t := [Or] + Alternatives(n) + rest;
      var after := if n == 1 then rest else [Or] + Alternatives(n - 1) + rest;
      assert t[1..] == [GlobArg] + after;
      ReadsGlob(first, after);
      ReadsChain(OrOf(e, GlobAt(first)), first + 1, n - 1, rest, bound);
    }
  }

  lemma ReadsGlob(first: nat, after: seq<Token>)
    requires Stops(after) || after[0] == Or
    ensures ParseAnd([GlobArg] + after, first) == Some(Parse(GlobAt(first), after, first + 1))
  {
    var t := [GlobArg] + after;
    assert t[1..] == after;
    assert ParseAtom(t, first) == Some(Parse(GlobAt(first), after, first + 1));
    assert ParseNot(t, first) == ParseAtom(t, first);
  }

  lemma ReadsAlternatives(first: nat, n: nat, rest: seq<Token>)
    requires n > 0 && Stops(rest)
    ensures ParseOr(Alternatives(n) + rest, first) == Some(Parse(AnyExpr(first, n), rest, first + n))
  {
    var t := Alternatives(n) + rest;
    var after := if n == 1 then rest else [Or] + Alternatives(n - 1) + rest;
    assert t == [GlobArg] + after;
    ReadsGlob(first, after);
    ReadsChain(GlobAt(first), first + 1, n - 1, rest, |t|);
  }

  /** Parentheses hold one condition. */
  lemma ReadsParens(inner: seq<Token>, e: Expr, first: nat, taken: nat, rest: seq<Token>)
    requires ParseOr(inner + ([Close] + rest), first) == Some(Parse(e, [Close] + rest, taken))
    ensures ParseAtom([Open] + inner + [Close] + rest, first) == Some(Parse(e, rest, taken))
  {
    var t := [Open] + inner + [Close] + rest;
    assert t[1..] == inner + ([Close] + rest);
    assert ([Close] + rest)[1..] == rest;
    hide ParseOr;
  }

  /** A parenthesised list of alternatives, or 0, is read whole and takes its arguments in order. */
  lemma ReadsAny(patterns: seq<string>, first: nat, rest: seq<Token>)
    ensures ParseAtom(AnyOf(patterns) + rest, first) == Some(Parse(AnyExpr(first, |patterns|), rest, first + |patterns|))
  {
    var n := |patterns|;
    if n == 0 {
      assert ([Zero] + rest)[1..] == rest;
    } else {
      ReadsAlternatives(first, n, [Close] + rest);
      ReadsParens(Alternatives(n), AnyExpr(first, n), first, first + n, rest);
      hide ParseAtom, AnyExpr, Alternatives;
    }
  }

  /** Read where a condition is expected, up to a token that stops it. */
  lemma AnyAsOr(patterns: seq<string>, first: nat, rest: seq<Token>)
    requires Stops(rest)
    ensures ParseOr(AnyOf(patterns) + rest, first) == Some(Parse(AnyExpr(first, |patterns|), rest, first + |patterns|))
  {
    var t := AnyOf(patterns) + rest;
    ReadsAny(patterns, first, rest);
    assert t[0] != Not;
    assert ParseNot(t, first) == ParseAtom(t, first);
    assert ParseAnd(t, first) == ParseAtom(t, first);
  }

  /** An atom read where a NOT may stand. */
  lemma AtomAsNot(t: seq<Token>, taken: nat)
    requires t != [] && t[0] != Not
    ensures ParseNot(t, taken) == ParseAtom(t, taken)
  {
  }

  lemma AnyStarts(patterns: seq<string>, rest: seq<Token>)
    ensures AnyOf(patterns) + rest != [] && (AnyOf(patterns) + rest)[0] in {Zero, Open}
  {
  }

  lemma ReadsNot(t: seq<Token>, p: Parse, taken: nat)
    requires ParseNot(t, taken) == Some(p)
    ensures ParseNot([Not] + t, taken) == Some(p.(e := NotOf(p.e)))
  {
    assert ([Not] + t)[1..] == t;
    hide ParseAtom;
  }

  /** Two operands of an AND, and nothing more of it. */
  lemma ReadsAnd(t: seq<Token>, taken: nat, l: Expr, u: seq<Token>, mid: nat, r: Expr, rest: seq<Token>, end: nat)
    requires ParseNot(t, taken) == Some(Parse(l, [And] + u, mid)) && ParseNot(u, mid) == Some(Parse(r, rest, end)) && Stops(rest)
    ensures ParseOr(t, taken) == Some(Parse(AndOf(l, r), rest, end))
  {
    assert ([And] + u)[1..] == u;
    var both := Parse(AndOf(l, r), rest, end);
    hide ParseNot;
    assert AndRest(Parse(l, [And] + u, mid), |t|) == AndRest(both, |t|);
    assert AndRest(both, |t|) == Some(both);
    assert OrRest(both, |t|) == Some(both);
  }

  lemma ReadsNotAnd(l: Level, first: nat, rest: seq<Token>)
    requires Stops(rest)
    ensures ParseOr([Not] + (AnyOf(l.deny) + ([And] + (AnyOf(l.grant) + rest))), first)
         == Some(Parse(AndOf(NotOf(AnyExpr(first, |l.deny|)), AnyExpr(first + |l.deny|, |l.grant|)), rest, first + |l.deny| + |l.grant|))
  {
    hide *;
    var grant := AnyOf(l.grant) + rest;
    var deny := AnyOf(l.deny) + ([And] + grant);
    ReadsAny(l.deny, first, [And] + grant);
    AnyStarts(l.deny, [And] + grant);
    AtomAsNot(deny, first);
    ReadsNot(deny, Parse(AnyExpr(first, |l.deny|), [And] + grant, first + |l.deny|), first);
    ReadsAny(l.grant, first + |l.deny|, rest);
    AnyStarts(l.grant, rest);
    AtomAsNot(grant, first + |l.deny|);
    ReadsAnd([Not] + deny, first, NotOf(AnyExpr(first, |l.deny|)), grant, first + |l.deny|, AnyExpr(first + |l.deny|, |l.grant|), rest, first + |l.deny| + |l.grant|);
  }

  /** One WHEN and its THEN, before whatever follows. */
  lemma ReadsWhen(u: seq<Token>, first: nat, c: Expr, v: seq<Token>, mid: nat, value: Expr, more: seq<Token>, end: nat, w: Whens)
    requires ParseOr(u, first) == Some(Parse(c, [Then] + v, mid)) && ParseOr(v, mid) == Some(Parse(value, more, end)) && ParseWhens(more, end) == Some(w)
    ensures ParseWhens([When] + u, first) == Some(w.(whens := [(c, value)] + w.whens))
  {
    assert ([When] + u)[1..] == u && ([Then] + v)[1..] == v;
    hide ParseOr;
  }

  lemma LevelSplits(l: Level, more: seq<Token>)
    ensures LevelTokens(l) + more == [When] + (AnyOf(l.patterns) + ([Then] + ([Not] + (AnyOf(l.deny) + ([And] + (AnyOf(l.grant) + more))))))
  {
    hide AnyOf;
  }

  lemma {:induction false} LevelsStop(levels: seq<Level>)
    ensures Stops(LevelsTokens(levels))
  {
    hide AnyOf;
  }

  lemma ThenStops(v: seq<Token>)
    ensures Stops([Then] + v)
  {
  }

  /** The compiled form, unfolded at its first level. */
  lemma FirstLevel(levels: seq<Level>, first: nat)
    requires levels != []
    ensures LevelsTokens(levels) == LevelTokens(levels[0]) + LevelsTokens(levels[1..])
    ensures LevelsExpr(levels, first) == [LevelExpr(levels[0], first)] + LevelsExpr(levels[1..], first + |LevelArgs(levels[0])|)
    ensures LevelsArgs(levels) == LevelArgs(levels[0]) + LevelsArgs(levels[1..])
  {
    hide LevelExpr, LevelTokens;
  }

  lemma ReadsFirst(l: Level, more: seq<Token>, first: nat, end: nat, w: Whens)
    requires Stops(more) && end == first + |LevelArgs(l)| && ParseWhens(more, end) == Some(w)
    ensures ParseWhens(LevelTokens(l) + more, first) == Some(w.(whens := [LevelExpr(l, first)] + w.whens))
  {
    var v := [Not] + (AnyOf(l.deny) + ([And] + (AnyOf(l.grant) + more)));
    LevelSplits(l, more);
    LevelIs(l, first);
    hide *;
    ThenStops(v);
    AnyAsOr(l.patterns, first, [Then] + v);
    ReadsNotAnd(l, first + |l.patterns|, more);
    ReadsWhen(AnyOf(l.patterns) + ([Then] + v), first, LevelExpr(l, first).0, v, first + |l.patterns|, LevelExpr(l, first).1, more, end, w);
  }

  lemma LevelIs(l: Level, first: nat)
    ensures |LevelArgs(l)| == |l.patterns| + |l.deny| + |l.grant|
    ensures LevelExpr(l, first) == (AnyExpr(first, |l.patterns|), AndOf(NotOf(AnyExpr(first + |l.patterns|, |l.deny|)), AnyExpr(first + |l.patterns| + |l.deny|, |l.grant|)))
  {
    hide AnyExpr;
  }

  lemma {:induction false} ReadsLevels(levels: seq<Level>, first: nat)
    ensures ParseWhens(LevelsTokens(levels), first) == Some(Whens(LevelsExpr(levels, first), [Else, Zero, End], first + |LevelsArgs(levels)|))
  {
    hide *;
    if levels == [] {
      ReadsNoLevels(first);
    } else {
      var end := first + |LevelArgs(levels[0])|;
      FirstLevel(levels, first);
      LevelsStop(levels[1..]);
      ReadsLevels(levels[1..], end);
      ReadsFirst(levels[0], LevelsTokens(levels[1..]), first, end,
                 Whens(LevelsExpr(levels[1..], end), [Else, Zero, End], end + |LevelsArgs(levels[1..])|));
    }
  }

  lemma ReadsNoLevels(first: nat)
    ensures ParseWhens(LevelsTokens([]), first) == Some(Whens(LevelsExpr([], first), [Else, Zero, End], first + |LevelsArgs([])|))
  {
  }

  /** A condition with nothing after it. */
  lemma AtomAlone(t: seq<Token>, p: Parse)
    requires t != [] && t[0] != Not && ParseAtom(t, 0) == Some(p) && p.rest == []
    ensures ParseOr(t, 0) == Some(p)
  {
    hide ParseAtom;
    assert ParseNot(t, 0) == Some(p);
    assert ParseAnd(t, 0) == Some(p);
  }

  lemma ReadsCase(u: seq<Token>, w: Whens)
    requires ParseWhens(u, 0) == Some(w) && w.rest == [Else, Zero, End]
    ensures ParseAtom([Case] + u, 0) == Some(Parse(Nest(w.whens, False), [], w.taken))
  {
    assert ([Case] + u)[1..] == u;
    assert w.rest[1..] == [Zero, End] && [Zero, End][1..] == [End] && [End][1..] == [];
    assert AnyOf([]) + [End] == [Zero, End];
    AnyAsOr([], w.taken, [End]);
    hide ParseWhens, ParseOr, Nest;
  }

  /** The whole condition is read, to its last word, and takes exactly the arguments given, in order. */
  lemma ReadsCondition(levels: seq<Level>)
    ensures ParseOr(Condition(levels), 0) == Some(Parse(Nest(LevelsExpr(levels, 0), False), [], |LevelsArgs(levels)|))
  {
    if levels == [] {
      assert [Zero][1..] == [];
      AtomAlone([Zero], Parse(False, [], 0));
    } else {
      ConditionIs(levels);
      hide *;
      ReadsLevels(levels, 0);
      ReadsCase(LevelsTokens(levels), Whens(LevelsExpr(levels, 0), [Else, Zero, End], |LevelsArgs(levels)|));
      AtomAlone([Case] + LevelsTokens(levels), Parse(Nest(LevelsExpr(levels, 0), False), [], |LevelsArgs(levels)|));
    }
  }

  // -- and what it says -------------------------------------------------------------------------

  /** Some pattern of the list matches, by GLOB. */
  predicate GlobsAny(patterns: seq<string>, name: string) {
    exists i :: 0 <= i < |patterns| && Glob(patterns[i], name)
  }

  lemma {:induction false} ChainSays(e: Expr, first: nat, n: nat, args: seq<string>, name: string)
    requires first + n <= |args|
    ensures Eval(Chain(e, first, n), args, name) <==> Eval(e, args, name) || exists i :: first <= i < first + n && Glob(args[i], name)
    decreases n
  {
    if n > 0 { ChainSays(OrOf(e, GlobAt(first)), first + 1, n - 1, args, name); }
  }

  /** The arguments from one place on are those. */
  predicate Holds(args: seq<string>, first: nat, s: seq<string>) {
    first + |s| <= |args| && forall i :: 0 <= i < |s| ==> args[first + i] == s[i]
  }

  lemma HoldsBoth(args: seq<string>, first: nat, a: seq<string>, b: seq<string>)
    requires Holds(args, first, a + b)
    ensures Holds(args, first, a) && Holds(args, first + |a|, b)
  {
    forall i | 0 <= i < |b|
      ensures args[first + |a| + i] == b[i]
    {
      assert (a + b)[|a| + i] == b[i];
    }
    forall i | 0 <= i < |a|
      ensures args[first + i] == a[i]
    {
      assert (a + b)[i] == a[i];
    }
  }

  lemma AnySays(patterns: seq<string>, first: nat, args: seq<string>, name: string)
    requires Holds(args, first, patterns)
    ensures Eval(AnyExpr(first, |patterns|), args, name) == GlobsAny(patterns, name)
  {
    var n := |patterns|;
    if n > 0 {
      ChainSays(GlobAt(first), first + 1, n - 1, args, name);
      hide Glob;
      if GlobsAny(patterns, name) {
        var i :| 0 <= i < n && Glob(patterns[i], name);
        assert Glob(args[first + i], name);
      }
      if i :| first <= i < first + n && Glob(args[i], name) {
        assert Glob(patterns[i - first], name);
      }
    }
  }

  predicate GlobLevels(levels: seq<Level>, name: string) {
    if levels == [] then false
    else if GlobsAny(levels[0].patterns, name) then !GlobsAny(levels[0].deny, name) && GlobsAny(levels[0].grant, name)
    else GlobLevels(levels[1..], name)
  }

  lemma {:induction false} LevelsSay(levels: seq<Level>, first: nat, args: seq<string>, name: string)
    requires Holds(args, first, LevelsArgs(levels))
    ensures Eval(Nest(LevelsExpr(levels, first), False), args, name) == GlobLevels(levels, name)
  {
    hide LevelExpr, GlobsAny, LevelsArgs, LevelArgs, LevelsExpr, Holds;
    if levels == [] {
      NoLevels(first);
    } else {
      var l, end := levels[0], first + |LevelArgs(levels[0])|;
      FirstLevel(levels, first);
      HoldsBoth(args, first, LevelArgs(l), LevelsArgs(levels[1..]));
      LevelSays(l, first, args, name);
      LevelsSay(levels[1..], end, args, name);
    }
  }

  lemma NoLevels(first: nat)
    ensures LevelsExpr([], first) == []
  {
  }

  lemma LevelSays(l: Level, first: nat, args: seq<string>, name: string)
    requires Holds(args, first, LevelArgs(l))
    ensures Eval(LevelExpr(l, first).0, args, name) == GlobsAny(l.patterns, name)
    ensures Eval(LevelExpr(l, first).1, args, name) == (!GlobsAny(l.deny, name) && GlobsAny(l.grant, name))
  {
    hide AnyExpr, GlobsAny, Holds;
    HoldsBoth(args, first, l.patterns + l.deny, l.grant);
    HoldsBoth(args, first, l.patterns, l.deny);
    AnySays(l.patterns, first, args, name);
    AnySays(l.deny, first + |l.patterns|, args, name);
    AnySays(l.grant, first + |l.patterns| + |l.deny|, args, name);
  }

  lemma {:induction false} GlobLevelsMatch(levels: seq<Level>, name: string)
    requires '/' !in name
    ensures GlobLevels(levels, name) == MatchLevels(levels, name)
  {
    if levels != [] {
      SameMatches(levels[0].patterns, name);
      SameMatches(levels[0].deny, name);
      SameMatches(levels[0].grant, name);
      GlobLevelsMatch(levels[1..], name);
    }
  }

  lemma SameMatches(patterns: seq<string>, name: string)
    requires '/' !in name
    ensures GlobsAny(patterns, name) == MatchesAny(patterns, name)
  {
    forall i | 0 <= i < |patterns| { GlobIsPathMatch(patterns[i], name); }
  }

  /**
   The three forms agree on every namespace without a slash: the SQL condition is read to
   its end, takes each of its arguments once, in order, and holds where the ACL allows.
  */
  lemma ConditionIsAllow(a: ACL, c: Capability, sc: Scope, keys: seq<int>, name: string)
    requires !a.management && Compiled(RulesOf(a.policies), c, keys, sc.levels) && !sc.all && '/' !in name
    ensures var read := ParseOr(Condition(sc.levels), 0);
      && read.Some? && read.value.rest == [] && read.value.taken == |LevelsArgs(sc.levels)|
      && Eval(read.value.e, LevelsArgs(sc.levels), name) == Match(sc, name)
      && Match(sc, name) == Allowed(a, name, c)
  {
    var args := LevelsArgs(sc.levels);
    ReadsCondition(sc.levels);
    assert Holds(args, 0, args);
    LevelsSay(sc.levels, 0, args, name);
    GlobLevelsMatch(sc.levels, name);
    ScopeMatchesAllow(a, c, sc, keys, name);
  }
}
