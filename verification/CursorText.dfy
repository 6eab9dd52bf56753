/**
 The text of a cursor, before its base64: the list it is of, its direction and the row it
 starts at. A stamp is an instant, parsed from its text and formatted in UTC.
*/
module CursorText {
  import opened Options

  datatype List = Deployments | Jobs

  datatype Cursor<T> =
    | JobCursor(newer: bool, key: string)
    | DeploymentCursor(newer: bool, at: T, id: string)

  function Direction(newer: bool): char {
    if newer then 'n' else 'o'
  }

  function Text<T>(c: Cursor<T>, format: T -> string): string {
    match c
    case JobCursor(newer, key) => ['j', Direction(newer)] + key
    case DeploymentCursor(newer, at, id) => ['d', Direction(newer)] + (format(at) + "|" + id)
  }

  /** strings.Cut at the first bar: what is before it and after it. */
  function Cut(s: string): (r: Option<(string, string)>)
    ensures hide *; r.Some? ==> s == r.value.0 + "|" + r.value.1 && '|' !in r.value.0
    ensures r.None? <==> '|' !in s
  {
    hide *; if s == "" then None
    else if s[0] == '|' then
      assert s == "" + "|" + s[1..];
      Some(("", s[1..]))
    else
      match Cut(s[1..])
      case None => None
      case Some((before, after)) =>
        assert s == [s[0]] + s[1..] == ([s[0]] + before) + "|" + after;
        Some(([s[0]] + before, after))
  }

  lemma {:induction false} CutAt(before: string, after: string)
    requires '|' !in before
    ensures Cut(before + "|" + after) == Some((before, after))
  {
    var s := before + "|" + after;
    if before == "" {
      assert s == ['|'] + after && s[1..] == after;
    } else {
      assert s[1..] == before[1..] + "|" + after && s[0] == before[0] && before[0] in before;
      CutAt(before[1..], after);
      assert [before[0]] + before[1..] == before;
    }
  }

  /** parseCursor: a cursor of the list, and nothing of the other list. */
  function Parse<T>(s: string, list: List, parse: string -> Option<T>): Option<Cursor<T>> {
    if |s| < 3 || s[1] !in "no" then None
    else if s[0] == 'j' && list == Jobs then Some(JobCursor(s[1] == 'n', s[2..]))
    else if s[0] == 'd' && list == Deployments then
      match Cut(s[2..])
      case None => None
      case Some((at, id)) =>
        match parse(at)
        case None => None
        case Some(t) => if id != "" then Some(DeploymentCursor(s[1] == 'n', t, id)) else None
    else None
  }

  /** The text of a stamp reads back as the instant, and holds no bar. */
  ghost predicate Formats<T(!new)>(parse: string -> Option<T>, format: T -> string) {
    forall t: T :: parse(format(t)) == Some(t) && '|' !in format(t)
  }

  /** The cursors a list gives: of its own rows, none of which has an empty key or ID. */
  predicate Of<T>(c: Cursor<T>, list: List) {
    match c
    case JobCursor(_, key) => list == Jobs && key != ""
    case DeploymentCursor(_, _, id) => list == Deployments && id != ""
  }

  /** The text is of the cursor, its stamp written one way or another. */
  predicate Spells<T(==)>(s: string, c: Cursor<T>, at: string, parse: string -> Option<T>) {
    match c
    case JobCursor(newer, key) => s == ['j', Direction(newer)] + key
    case DeploymentCursor(newer, t, id) => '|' !in at && parse(at) == Some(t) && s == ['d', Direction(newer)] + (at + "|" + id)
  }

  lemma Opens(kind: char, newer: bool, rest: string)
    requires rest != ""
    ensures var s := [kind, Direction(newer)] + rest;
      |s| >= 3 && s[0] == kind && s[1] == Direction(newer) && s[2..] == rest && s[1] in "no" && (s[1] == 'n' <==> newer)
  {
    assert "no"[0] == 'n' && "no"[1] == 'o';
  }

  lemma SpellsReads<T>(s: string, list: List, c: Cursor<T>, at: string, parse: string -> Option<T>)
    requires Of(c, list) && Spells(s, c, at, parse)
    ensures Parse(s, list, parse) == Some(c)
  {
    if c.DeploymentCursor? {
      Opens('d', c.newer, at + "|" + c.id);
      CutAt(at, c.id);
    } else {
      Opens('j', c.newer, c.key);
    }
    hide Cut, Direction;
  }

  lemma ReadsSpelled<T>(s: string, list: List, c: Cursor<T>, parse: string -> Option<T>)
    requires Parse(s, list, parse) == Some(c)
    ensures Of(c, list) && exists at :: Spells(s, c, at, parse)
  {
    assert s == [s[0], s[1]] + s[2..];
    assert s[1] == Direction(c.newer);
    if c.DeploymentCursor? {
      var (at, id) := Cut(s[2..]).value;
      assert Spells(s, c, at, parse);
    } else {
      assert Spells(s, c, "", parse);
    }
    hide Cut;
  }

  /** A text reads as a cursor of a list exactly when it is of the list, and its stamp, however written, is the cursor's instant. */
  lemma ReadsWhen<T>(s: string, list: List, c: Cursor<T>, parse: string -> Option<T>)
    ensures Parse(s, list, parse) == Some(c) <==> Of(c, list) && exists at :: Spells(s, c, at, parse)
  {
    hide *;
    if Parse(s, list, parse) == Some(c) { ReadsSpelled(s, list, c, parse); }
    if Of(c, list) && exists at :: Spells(s, c, at, parse) {
      var at :| Spells(s, c, at, parse);
      SpellsReads(s, list, c, at, parse);
    }
  }

  /** What a list gives for a cursor it reads back as that cursor, and the other list refuses it. */
  lemma RoundTrip<T(!new)>(list: List, c: Cursor<T>, parse: string -> Option<T>, format: T -> string)
    requires Formats(parse, format) && Of(c, list)
    ensures Parse(Text(c, format), list, parse) == Some(c)
    ensures forall other :: other != list ==> Parse(Text(c, format), other, parse) == None
  {
    var at := if c.DeploymentCursor? then format(c.at) else "";
    assert Spells(Text(c, format), c, at, parse);
    assert forall other :: other != list ==> Parse(Text(c, format), other, parse) == None;
    hide *;
    SpellsReads(Text(c, format), list, c, at, parse);
  }

  /** So the text a cursor has of its own is one of those that read as it; another spelling of the instant is another. */
  lemma TwoTextsOneCursor<T(!new)>(newer: bool, t: T, id: string, at: string, parse: string -> Option<T>, format: T -> string)
    requires Formats(parse, format) && id != "" && '|' !in at && parse(at) == Some(t)
    ensures var c := DeploymentCursor(newer, t, id);
      var s := ['d', Direction(newer)] + (at + "|" + id);
      Parse(s, Deployments, parse) == Some(c) && (s == Text(c, format) <==> at == format(t))
  {
    var c := DeploymentCursor(newer, t, id);
    var s := ['d', Direction(newer)] + (at + "|" + id);
    assert Spells(s, c, at, parse);
    SpellsReads(s, Deployments, c, at, parse);
    if s == Text(c, format) {
      assert s[2..] == at + "|" + id && Text(c, format)[2..] == format(t) + "|" + id;
      CutAt(at, id);
      CutAt(format(t), id);
    }
    hide Cut, Parse;
  }
}
