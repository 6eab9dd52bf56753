/**
 The tokens of the ACL and their revocation: the sessions of a person, or what a person or
 a token created together with, in turn, what those created.
*/
module Tokens {
  import opened Options

  datatype Origin = Login | Created

  type Time = int

  datatype Token = Token(accessor: string, origin: Origin, identity: string, expires: Option<Time>,
                         creator: string, creatorIdentity: string)

  /** Exactly one of the three is to be set. */
  datatype Revocation = Revocation(sessionsOf: string, creatorIdentity: string, creatorAccessor: string)

  datatype Change = Change(actor: string, action: string, subject: string)

  predicate Expired(t: Token, now: Time) {
    t.expires.Some? && now >= t.expires.value
  }

  predicate ValidRevocation(r: Revocation) {
    || (r.sessionsOf != "" && r.creatorIdentity == "" && r.creatorAccessor == "")
    || (r.sessionsOf == "" && r.creatorIdentity != "" && r.creatorAccessor == "")
    || (r.sessionsOf == "" && r.creatorIdentity == "" && r.creatorAccessor != "")
  }

  /** Counts the fields that are set. */
  method IsValid(r: Revocation) returns (valid: bool)
    ensures valid <==> ValidRevocation(r)
  {
    var fields := [r.sessionsOf, r.creatorIdentity, r.creatorAccessor];
    var n := 0;
    for i := 0 to |fields|
      invariant n == (if i > 0 && fields[0] != "" then 1 else 0) + (if i > 1 && fields[1] != "" then 1 else 0) + (if i > 2 && fields[2] != "" then 1 else 0)
    {
      if fields[i] != "" {
        n := n + 1;
      }
    }
    return n == 1;
  }

  // -- what a revocation takes ------------------------------------------------------------------

  /** The tokens the search starts from: created ones only, as a session is its own person's creation. */
  predicate Seed(r: Revocation, t: Token) {
    && t.origin == Created
    && if r.creatorAccessor != "" then t.creator == r.creatorAccessor else t.creatorIdentity == r.creatorIdentity
  }

  /** A line of tokens of the table, from a seed, each created with the one before it. */
  ghost predicate Chain(rows: seq<Token>, r: Revocation, chain: seq<Token>) {
    && chain != [] && Seed(r, chain[0])
    && (forall i :: 0 <= i < |chain| ==> chain[i] in rows)
    && (forall i :: 0 < i < |chain| ==> chain[i].creator == chain[i - 1].accessor)
  }

  ghost predicate ChainTo(rows: seq<Token>, r: Revocation, chain: seq<Token>, id: string) {
    Chain(rows, r, chain) && chain[|chain| - 1].accessor == id
  }

  ghost predicate Takes(rows: seq<Token>, r: Revocation, id: string) {
    exists chain :: ChainTo(rows, r, chain, id)
  }

  /** A set of accessors with the seeds in it and closed under "created by". */
  ghost predicate Closed(rows: seq<Token>, r: Revocation, s: set<string>) {
    && (forall t :: t in rows && Seed(r, t) ==> t.accessor in s)
    && (forall t :: t in rows && t.creator in s ==> t.accessor in s)
  }

  lemma TakesSeed(rows: seq<Token>, r: Revocation, t: Token)
    requires t in rows && Seed(r, t)
    ensures Takes(rows, r, t.accessor)
  {
    assert ChainTo(rows, r, [t], t.accessor);
  }

  lemma TakesNext(rows: seq<Token>, r: Revocation, t: Token)
    requires t in rows && Takes(rows, r, t.creator)
    ensures Takes(rows, r, t.accessor)
  {
    var chain :| ChainTo(rows, r, chain, t.creator);
    var longer := chain + [t];
    assert ChainTo(rows, r, longer, t.accessor);
  }

  lemma {:induction false} ChainInClosed(rows: seq<Token>, r: Revocation, chain: seq<Token>, s: set<string>)
    requires Chain(rows, r, chain) && Closed(rows, r, s)
    ensures chain[|chain| - 1].accessor in s
  {
    if |chain| > 1 {
      var m := |chain| - 1;
      assert forall i :: 0 <= i < m ==> chain[..m][i] == chain[i];
      ChainInClosed(rows, r, chain[..m], s);
      assert chain[m] in rows && chain[m].creator == chain[m - 1].accessor;
    }
  }

  /** What is taken is the least closed set. */
  lemma LeastClosed(rows: seq<Token>, r: Revocation, taken: set<string>)
    requires forall id :: id in taken <==> Takes(rows, r, id)
    ensures Closed(rows, r, taken)
    ensures forall s :: Closed(rows, r, s) ==> taken <= s
  {
    forall t | t in rows && Seed(r, t)
      ensures t.accessor in taken
    {
      TakesSeed(rows, r, t);
    }
    forall t | t in rows && t.creator in taken
      ensures t.accessor in taken
    {
      TakesNext(rows, r, t);
    }
    forall s, id | Closed(rows, r, s) && id in taken
      ensures id in s
    {
      TakesInClosed(rows, r, s, id);
    }
    assert forall s :: Closed(rows, r, s) ==> taken <= s;
  }

  function Accessors(rows: seq<Token>): set<string> {
    set i | 0 <= i < |rows| :: rows[i].accessor
  }

  /** Every child of the token is taken. */
  ghost predicate Done(rows: seq<Token>, taken: set<string>, id: string) {
    forall t :: t in rows && t.creator == id ==> t.accessor in taken
  }

  /** The rows of the first select of the query. */
  method Seeds(rows: seq<Token>, r: Revocation) returns (taken: set<string>, queue: seq<string>)
    ensures taken <= Accessors(rows) && forall id :: id in taken <==> id in queue
    ensures forall id :: id in taken ==> Takes(rows, r, id)
    ensures forall t :: t in rows && Seed(r, t) ==> t.accessor in taken
  {
    taken, queue := {}, [];
    for i := 0 to |rows|
      invariant taken <= Accessors(rows) && forall id :: id in taken <==> id in queue
      invariant forall id :: id in taken ==> Takes(rows, r, id)
      invariant forall j :: 0 <= j < i && Seed(r, rows[j]) ==> rows[j].accessor in taken
    {
      if Seed(r, rows[i]) && rows[i].accessor !in taken {
        TakesSeed(rows, r, rows[i]);
        assert rows[i].accessor in Accessors(rows);
        taken, queue := taken + {rows[i].accessor}, queue + [rows[i].accessor];
      }
    }
  }

  /** The recursive query: one row of the queue at a time, its children not taken yet added, on any graph of creators. */
  method Close(rows: seq<Token>, r: Revocation) returns (taken: set<string>)
    ensures forall id :: id in taken <==> Takes(rows, r, id)
  {
    hide *;
    var queue;
    taken, queue := Seeds(rows, r);
    while queue != []
      invariant taken <= Accessors(rows)
      invariant forall id :: id in queue ==> id in taken
      invariant forall id :: id in taken ==> Takes(rows, r, id)
      invariant forall t :: t in rows && Seed(r, t) ==> t.accessor in taken
      invariant forall id :: id in taken ==> id in queue || Done(rows, taken, id)
      decreases Accessors(rows) - taken, |queue|
    {
      taken, queue := Children(rows, r, taken, queue);
    }
    AllDone(rows, r, taken);
    forall id | Takes(rows, r, id)
      ensures id in taken
    {
      TakesInClosed(rows, r, taken, id);
    }
  }

  lemma AllDone(rows: seq<Token>, r: Revocation, taken: set<string>)
    requires forall t :: t in rows && Seed(r, t) ==> t.accessor in taken
    requires forall id :: id in taken ==> Done(rows, taken, id)
    ensures Closed(rows, r, taken)
  {
    hide Seed;
  }

  lemma TakesInClosed(rows: seq<Token>, r: Revocation, s: set<string>, id: string)
    requires Closed(rows, r, s) && Takes(rows, r, id)
    ensures id in s
  {
    var chain :| ChainTo(rows, r, chain, id);
    ChainInClosed(rows, r, chain, s);
  }

  /** One step of the query: the first row of the queue, and its children. */
  method Children(rows: seq<Token>, r: Revocation, before: set<string>, waiting: seq<string>) returns (taken: set<string>, queue: seq<string>)
    requires waiting != [] && before <= Accessors(rows)
    requires forall id :: id in waiting ==> id in before
    requires forall id :: id in before ==> Takes(rows, r, id)
    requires forall id :: id in before ==> id in waiting || Done(rows, before, id)
    ensures before <= taken <= Accessors(rows)
    ensures forall id :: id in queue ==> id in taken
    ensures forall id :: id in taken ==> Takes(rows, r, id)
    ensures forall id :: id in taken ==> id in queue || Done(rows, taken, id)
    ensures taken == before ==> |queue| < |waiting|
  {
    var first := waiting[0];
    taken, queue := before, waiting[1..];
    for i := 0 to |rows|
      invariant before <= taken <= Accessors(rows)
      invariant forall id :: id in queue ==> id in taken
      invariant forall id :: id in taken ==> Takes(rows, r, id)
      invariant forall id :: id in taken ==> id in queue || id == first || Done(rows, taken, id)
      invariant forall j :: 0 <= j < i && rows[j].creator == first ==> rows[j].accessor in taken
      invariant taken == before ==> queue == waiting[1..]
    {
      if rows[i].creator == first && rows[i].accessor !in taken {
        TakesNext(rows, r, rows[i]);
        assert rows[i].accessor in Accessors(rows);
        taken, queue := taken + {rows[i].accessor}, queue + [rows[i].accessor];
      }
    }
  }

  /** The query of a revocation selects the token. */
  ghost predicate Selects(rows: seq<Token>, r: Revocation, t: Token) {
    if r.sessionsOf != "" then t.origin == Login && t.identity == r.sessionsOf
    else Takes(rows, r, t.accessor)
  }

  /** What is revoked now: what the query selects, the expired tokens left out, in its order. */
  ghost function Revoked(rows: seq<Token>, r: Revocation, now: Time): seq<Token> {
    Among(rows, rows, r, now)
  }

  ghost function Among(some: seq<Token>, rows: seq<Token>, r: Revocation, now: Time): seq<Token> {
    if some == [] then []
    else
      var n := |some| - 1;
      Among(some[..n], rows, r, now) + if Selects(rows, r, some[n]) && !Expired(some[n], now) then [some[n]] else []
  }

  lemma {:induction false} AmongIs(some: seq<Token>, rows: seq<Token>, r: Revocation, now: Time, t: Token)
    ensures t in Among(some, rows, r, now) <==> t in some && Selects(rows, r, t) && !Expired(t, now)
  {
    if some != [] {
      AmongIs(some[..|some| - 1], rows, r, now, t);
      assert some == some[..|some| - 1] + [some[|some| - 1]];
    }
    hide Selects;
  }

  /** The rows without those of some accessors. */
  function Without(rows: seq<Token>, ids: seq<string>): seq<Token> {
    if rows == [] then []
    else
      var n := |rows| - 1;
      Without(rows[..n], ids) + if rows[n].accessor in ids then [] else [rows[n]]
  }

  lemma {:induction false} WithoutIs(rows: seq<Token>, ids: seq<string>, t: Token)
    ensures t in Without(rows, ids) <==> t in rows && t.accessor !in ids
  {
    if rows != [] {
      WithoutIs(rows[..|rows| - 1], ids, t);
      assert rows == rows[..|rows| - 1] + [rows[|rows| - 1]];
    }
  }

  lemma {:induction false} WithoutOneMore(rows: seq<Token>, ids: seq<string>, id: string)
    ensures Without(Without(rows, ids), [id]) == Without(rows, ids + [id])
  {
    if rows != [] {
      var n := |rows| - 1;
      WithoutOneMore(rows[..n], ids, id);
      var kept := Without(rows[..n], ids);
      if rows[n].accessor !in ids {
        assert (kept + [rows[n]])[..|kept|] == kept;
      } else {
        assert kept + [] == kept;
      }
    }
  }

  function Ids(tokens: seq<Token>): (ids: seq<string>)
    ensures |ids| == |tokens| && forall i :: 0 <= i < |ids| ==> ids[i] == tokens[i].accessor
  {
    seq(|tokens|, i requires 0 <= i < |tokens| => tokens[i].accessor)
  }

  /** One line of the log for each token. */
  function Logged(actor: string, ids: seq<string>): (log: seq<Change>)
    ensures |log| == |ids| && forall i :: 0 <= i < |ids| ==> log[i] == Change(actor, "revoke", ids[i])
  {
    seq(|ids|, i requires 0 <= i < |ids| => Change(actor, "revoke", ids[i]))
  }

  // -- the table ---------------------------------------------------------------------------------

  /** The accessor is the primary key. */
  ghost predicate Keyed(rows: seq<Token>) {
    forall i, j :: 0 <= i < j < |rows| ==> rows[i].accessor != rows[j].accessor
  }

  class TokenTable {
    /** In the order of the queries: newest first. */
    var rows: seq<Token>
    var log: seq<Change>

    constructor ()
      ensures rows == [] && log == []
    {
      rows, log := [], [];
    }

    method TokensToRevoke(r: Revocation, now: Time) returns (tokens: Option<seq<Token>>)
      ensures tokens == if ValidRevocation(r) then Some(Revoked(rows, r, now)) else None
    {
      var valid := IsValid(r);
      if !valid {
        return None;
      }
      var taken := {};
      if r.sessionsOf == "" {
        taken := Close(rows, r);
      }
      var out := [];
      for i := 0 to |rows|
        invariant out == Among(rows[..i], rows, r, now)
      {
        assert rows[..i + 1][..i] == rows[..i];
        var t := rows[i];
        var selected := if r.sessionsOf != "" then t.origin == Login && t.identity == r.sessionsOf else t.accessor in taken;
        assert selected == Selects(rows, r, t);
        if selected && !Expired(t, now) {
          out := out + [t];
        }
      }
      assert rows[..|rows|] == rows;
      return Some(out);
    }

    /** The transaction: a delete and a line of the log for each token found, whatever the table holds by now. */
    method DeleteAll(tokens: seq<Token>, actor: string) returns (ids: seq<string>)
      modifies this
      ensures ids == Ids(tokens)
      ensures rows == Without(old(rows), ids) && log == old(log) + Logged(actor, ids)
      ensures Keyed(old(rows)) && Keyed(tokens) ==>
        (|log| - |old(log)| == |old(rows)| - |rows| <==> AllThere(old(rows), tokens))
    {
      if Keyed(rows) && Keyed(tokens) { LogsWhatGoes(rows, tokens); }
      hide *;
      ids := [];
      WithoutNone(rows);
      IdsNext(actor, tokens);
      for i := 0 to |tokens|
        invariant ids == Ids(tokens[..i])
        invariant rows == Without(old(rows), ids) && log == old(log) + Logged(actor, ids)
      {
        var id := tokens[i].accessor;
        WithoutOneMore(old(rows), ids, id);
        Append(old(log), Logged(actor, ids), [Change(actor, "revoke", id)]);
        rows := Without(rows, [id]);
        log := log + [Change(actor, "revoke", id)];
        ids := ids + [id];
      }
      assert tokens[..|tokens|] == tokens;
      assert |log| == |old(log)| + |tokens|;
    }

    /** The query, then the transaction, with nothing between them. */
    method RevokeACLTokens(r: Revocation, now: Time, actor: string) returns (ids: Option<seq<string>>)
      modifies this
      ensures actor == "" || !ValidRevocation(r) ==> ids.None? && unchanged(this)
      ensures actor != "" && ValidRevocation(r) ==>
        (&& ids == Some(Ids(Revoked(old(rows), r, now)))
         && rows == Without(old(rows), ids.value)
         && log == old(log) + Logged(actor, ids.value))
    {
      if actor == "" {
        return None;
      }
      var tokens := TokensToRevoke(r, now);
      if tokens.None? {
        return None;
      }
      var deleted := DeleteAll(tokens.value, actor);
      return Some(deleted);
    }

    /** DeleteExpiredTokens: no change of the ACL, so no line of the log. */
    method DeleteExpired(now: Time)
      modifies this`rows
      ensures rows == Alive(old(rows), now)
    {
      var kept := [];
      for i := 0 to |rows|
        invariant kept == Alive(rows[..i], now)
      {
        assert rows[..i + 1][..i] == rows[..i];
        if !Expired(rows[i], now) {
          kept := kept + [rows[i]];
        }
      }
      assert rows[..|rows|] == rows;
      rows := kept;
    }
  }

  lemma Append(a: seq<Change>, b: seq<Change>, c: seq<Change>)
    ensures (a + b) + c == a + (b + c)
  {
  }

  /** One token more is one accessor and one line more. */
  lemma IdsNext(actor: string, tokens: seq<Token>)
    ensures Ids(tokens[..0]) == [] && Logged(actor, []) == []
    ensures forall i: nat :: i < |tokens| ==>
      (&& Ids(tokens[..i + 1]) == Ids(tokens[..i]) + [tokens[i].accessor]
       && Logged(actor, Ids(tokens[..i + 1])) == Logged(actor, Ids(tokens[..i])) + [Change(actor, "revoke", tokens[i].accessor)])
  {
    forall i: nat | i < |tokens|
      ensures Ids(tokens[..i + 1]) == Ids(tokens[..i]) + [tokens[i].accessor]
      ensures Logged(actor, Ids(tokens[..i + 1])) == Logged(actor, Ids(tokens[..i])) + [Change(actor, "revoke", tokens[i].accessor)]
    {
      assert Ids(tokens[..i + 1]) == Ids(tokens[..i]) + [tokens[i].accessor];
    }
  }

  lemma {:induction false} WithoutNone(rows: seq<Token>)
    ensures Without(rows, []) == rows
  {
    if rows != [] { WithoutNone(rows[..|rows| - 1]); }
  }

  function Alive(rows: seq<Token>, now: Time): seq<Token> {
    if rows == [] then []
    else
      var n := |rows| - 1;
      Alive(rows[..n], now) + if Expired(rows[n], now) then [] else [rows[n]]
  }

  lemma {:induction false} AliveIs(rows: seq<Token>, now: Time, t: Token)
    ensures t in Alive(rows, now) <==> t in rows && !Expired(t, now)
  {
    if rows != [] {
      AliveIs(rows[..|rows| - 1], now, t);
      assert rows == rows[..|rows| - 1] + [rows[|rows| - 1]];
    }
  }

  // -- what a revocation leaves -------------------------------------------------------------------

  lemma InIds(tokens: seq<Token>, id: string)
    ensures id in Ids(tokens) <==> exists t :: t in tokens && t.accessor == id
  {
    if t :| t in tokens && t.accessor == id {
      var i :| 0 <= i < |tokens| && tokens[i] == t;
      assert Ids(tokens)[i] == id;
    }
    if id in Ids(tokens) {
      var i :| 0 <= i < |tokens| && Ids(tokens)[i] == id;
      assert tokens[i] in tokens;
    }
  }

  /** Exactly the tokens selected and not expired go; every other one stays. */
  lemma RevokesExactly(rows: seq<Token>, r: Revocation, now: Time, t: Token)
    requires Keyed(rows) && t in rows
    ensures t in Without(rows, Ids(Revoked(rows, r, now))) <==> !Selects(rows, r, t) || Expired(t, now)
  {
    var ids := Ids(Revoked(rows, r, now));
    WithoutIs(rows, ids, t);
    AmongIs(rows, rows, r, now, t);
    InIds(Revoked(rows, r, now), t.accessor);
    if u :| u in Revoked(rows, r, now) && u.accessor == t.accessor {
      AmongIs(rows, rows, r, now, u);
      assert u == t;
    }
    hide Selects;
  }

  lemma FewerTaken(rows: seq<Token>, fewer: seq<Token>, r: Revocation, id: string)
    requires (forall t :: t in fewer ==> t in rows) && Takes(fewer, r, id)
    ensures Takes(rows, r, id)
  {
    var chain :| ChainTo(fewer, r, chain, id);
    assert ChainTo(rows, r, chain, id);
  }

  /** Repeating a revocation, at any later time with no token created in between, revokes nothing. */
  lemma RepeatRevokesNothing(rows: seq<Token>, r: Revocation, now: Time, later: Time)
    requires Keyed(rows) && now <= later
    ensures Revoked(Without(rows, Ids(Revoked(rows, r, now))), r, later) == []
  {
    var left := Without(rows, Ids(Revoked(rows, r, now)));
    var again := Revoked(left, r, later);
    if again != [] {
      var t := again[0];
      AmongIs(left, left, r, later, t);
      forall u | u in left
        ensures u in rows
      {
        WithoutIs(rows, Ids(Revoked(rows, r, now)), u);
      }
      if r.sessionsOf == "" { FewerTaken(rows, left, r, t.accessor); }
      RevokesExactly(rows, r, now, t);
    }
  }

  // -- one line of the log for each token that goes -----------------------------------------------

  /** Every token found is still in the table. */
  ghost predicate AllThere(rows: seq<Token>, tokens: seq<Token>) {
    forall id :: id in Ids(tokens) ==> id in Accessors(rows)
  }

  lemma {:induction false} KeyedCount(rows: seq<Token>)
    requires Keyed(rows)
    ensures |Accessors(rows)| == |rows|
  {
    if rows != [] {
      var n := |rows| - 1;
      KeyedCount(rows[..n]);
      AccessorsLast(rows);
      assert rows[n].accessor !in Accessors(rows[..n]);
    }
  }

  lemma AccessorsLast(rows: seq<Token>)
    requires rows != []
    ensures Accessors(rows) == Accessors(rows[..|rows| - 1]) + {rows[|rows| - 1].accessor}
  {
    var n := |rows| - 1;
    forall id | id in Accessors(rows[..n])
      ensures id in Accessors(rows)
    {
      var i :| 0 <= i < n && rows[..n][i].accessor == id;
      assert rows[i].accessor == id;
    }
    forall id | id in Accessors(rows) && id != rows[n].accessor
      ensures id in Accessors(rows[..n])
    {
      var i :| 0 <= i < |rows| && rows[i].accessor == id;
      assert rows[..n][i].accessor == id;
    }
  }

  lemma {:induction false} WithoutAccessors(rows: seq<Token>, ids: seq<string>)
    requires Keyed(rows)
    ensures Keyed(Without(rows, ids))
    ensures Accessors(Without(rows, ids)) == set id | id in Accessors(rows) && id !in ids
  {
    if rows != [] {
      var n := |rows| - 1;
      WithoutAccessors(rows[..n], ids);
      AccessorsLast(rows);
      var kept := Without(rows[..n], ids);
      if rows[n].accessor !in ids {
        assert rows[n].accessor !in Accessors(rows[..n]);
        assert rows[n].accessor !in Accessors(kept);
        AccessorsLast(kept + [rows[n]]);
        assert (kept + [rows[n]])[..|kept|] == kept;
      } else {
        assert kept + [] == kept;
      }
    }
  }

  lemma SameSize(a: set<string>, b: set<string>)
    ensures |a| - |a - b| <= |b|
    ensures |a| - |a - b| == |b| <==> b <= a
  {
    assert a == (a - b) + (a * b);
    assert b == (b - a) + (a * b);
    if |b - a| == 0 { assert b - a == {}; }
  }

  /** A transaction logs as many tokens as it deletes if and only if every token found is still in the table when it starts. */
  lemma LogsWhatGoes(rows: seq<Token>, tokens: seq<Token>)
    requires Keyed(rows) && Keyed(tokens)
    ensures |rows| - |Without(rows, Ids(tokens))| <= |Ids(tokens)|
    ensures |rows| - |Without(rows, Ids(tokens))| == |Ids(tokens)| <==> AllThere(rows, tokens)
  {
    var ids := Ids(tokens);
    var left := Without(rows, ids);
    WithoutAccessors(rows, ids);
    KeyedCount(rows);
    KeyedCount(left);
    KeyedCount(tokens);
    forall id ensures id in ids <==> id in Accessors(tokens) { InAccessors(tokens, id); }
    assert Accessors(left) == Accessors(rows) - Accessors(tokens);
    SameSize(Accessors(rows), Accessors(tokens));
    assert AllThere(rows, tokens) <==> Accessors(tokens) <= Accessors(rows);
  }

  lemma InAccessors(tokens: seq<Token>, id: string)
    ensures id in Ids(tokens) <==> id in Accessors(tokens)
  {
    if id in Ids(tokens) {
      var i :| 0 <= i < |tokens| && Ids(tokens)[i] == id;
      assert tokens[i].accessor == id;
    }
    if id in Accessors(tokens) {
      var i :| 0 <= i < |tokens| && tokens[i].accessor == id;
      assert Ids(tokens)[i] == id;
    }
  }

  /** What a query finds is of the table, each token once. */
  lemma {:induction false} FoundIn(some: seq<Token>, rows: seq<Token>, r: Revocation, now: Time)
    requires Keyed(some)
    ensures Keyed(Among(some, rows, r, now)) && Accessors(Among(some, rows, r, now)) <= Accessors(some)
  {
    if some != [] {
      var n := |some| - 1;
      FoundIn(some[..n], rows, r, now);
      AccessorsLast(some);
      var found := Among(some[..n], rows, r, now);
      assert some[n].accessor !in Accessors(some[..n]);
      AccessorsLast(found + [some[n]]);
      assert (found + [some[n]])[..|found|] == found;
    }
    hide Selects, Expired;
  }

  /** Alone, a revocation logs exactly as many tokens as it deletes. */
  lemma RevokesAndLogs(rows: seq<Token>, r: Revocation, now: Time)
    requires Keyed(rows)
    ensures |rows| - |Without(rows, Ids(Revoked(rows, r, now)))| == |Revoked(rows, r, now)|
  {
    var found := Revoked(rows, r, now);
    FoundIn(rows, rows, r, now);
    forall id | id in Ids(found) ensures id in Accessors(rows) { InAccessors(found, id); }
    LogsWhatGoes(rows, found);
  }

  /**
   Two revocations whose queries both come before either transaction: the query is not part of
   it. Together they log as many tokens as they delete if and only if no token is of both.
  */
  method RacingRevocations(table: TokenTable, mine: Revocation, theirs: Revocation, now: Time, later: Time, me: string, them: string)
    requires ValidRevocation(mine) && ValidRevocation(theirs) && Keyed(table.rows)
    modifies table
    ensures var a, b := Ids(Revoked(old(table.rows), mine, now)), Ids(Revoked(old(table.rows), theirs, later));
      && table.rows == Without(Without(old(table.rows), b), a) && table.log == old(table.log) + Logged(them, b) + Logged(me, a)
      && (|old(table.rows)| - |table.rows| == |table.log| - |old(table.log)| <==> forall id :: id in a ==> id !in b)
  {
    var found := table.TokensToRevoke(mine, now);
    var foundToo := table.TokensToRevoke(theirs, later);
    ghost var rows := table.rows;
    RevokesAndLogs(rows, theirs, later);
    FoundIn(rows, rows, mine, now);
    WithoutAccessors(rows, Ids(foundToo.value));
    LogsWhatGoes(Without(rows, Ids(foundToo.value)), found.value);
    forall id | id in Ids(found.value) ensures id in Accessors(rows) { InAccessors(found.value, id); }
    var _ := table.DeleteAll(foundToo.value, them);
    var _ := table.DeleteAll(found.value, me);
  }

  predicate NoneExpired(chain: seq<Token>, now: Time) {
    forall i :: 0 <= i < |chain| ==> !Expired(chain[i], now)
  }

  /** Deleting the expired tokens first spares what was created only through one of them. */
  lemma PurgedFirst(rows: seq<Token>, r: Revocation, now: Time, t: Token)
    requires r.sessionsOf == ""
    ensures t in Revoked(Alive(rows, now), r, now) <==>
      (&& t in rows && !Expired(t, now)
       && exists chain :: ChainTo(rows, r, chain, t.accessor) && NoneExpired(chain, now))
  {
    var alive := Alive(rows, now);
    AmongIs(alive, alive, r, now, t);
    AliveIs(rows, now, t);
    forall u ensures u in alive <==> u in rows && !Expired(u, now) { AliveIs(rows, now, u); }
    if chain :| ChainTo(rows, r, chain, t.accessor) && NoneExpired(chain, now) {
      assert ChainTo(alive, r, chain, t.accessor);
    }
    if Takes(alive, r, t.accessor) {
      var chain :| ChainTo(alive, r, chain, t.accessor);
      assert ChainTo(rows, r, chain, t.accessor) && NoneExpired(chain, now);
    }
  }

  /** Deleting the expired tokens, then revoking: a token goes then exactly when a chain of unexpired ones reaches it. */
  method PurgeThenRevoke(table: TokenTable, r: Revocation, now: Time, actor: string) returns (ids: seq<string>)
    requires ValidRevocation(r) && r.sessionsOf == "" && actor != ""
    modifies table
    ensures table.rows == Without(Alive(old(table.rows), now), ids)
    ensures forall t :: t in old(table.rows) && !Expired(t, now) && (exists chain :: ChainTo(old(table.rows), r, chain, t.accessor) && NoneExpired(chain, now)) ==> t.accessor in ids
    ensures forall id :: id in ids ==> exists t, chain :: t in old(table.rows) && t.accessor == id && ChainTo(old(table.rows), r, chain, id) && NoneExpired(chain, now)
  {
    ghost var rows := table.rows;
    table.DeleteExpired(now);
    var deleted := table.RevokeACLTokens(r, now, actor);
    ids := deleted.value;
    ghost var found := Revoked(Alive(rows, now), r, now);
    forall t | t in rows && !Expired(t, now) && exists chain :: ChainTo(rows, r, chain, t.accessor) && NoneExpired(chain, now)
      ensures t.accessor in ids
    {
      PurgedFirst(rows, r, now, t);
      InIds(found, t.accessor);
    }
    forall id | id in ids
      ensures exists t, chain :: t in rows && t.accessor == id && ChainTo(rows, r, chain, id) && NoneExpired(chain, now)
    {
      InIds(found, id);
      var t :| t in found && t.accessor == id;
      PurgedFirst(rows, r, now, t);
    }
  }
}
