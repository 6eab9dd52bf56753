/**
 The command of the next page of a list: quoted for a POSIX shell, split again as the shell
 does, and parsed again as the flags of the command.
*/
module NextPage {
  import opened Options

  // -- quoting -------------------------------------------------------------------------------

  /** The runes a word may hold unquoted. */
  predicate Safe(c: char) {
    'a' <= c <= 'z' || 'A' <= c <= 'Z' || '0' <= c <= '9' || c in "-_./:=@+,"
  }

  predicate AllSafe(s: string) {
    forall i :: 0 <= i < |s| ==> Safe(s[i])
  }

  /** Every single quote ended, escaped and begun again. */
  function Escaped(s: string): string {
    if s == "" then "" else (if s[0] == '\'' then "'\\''" else [s[0]]) + Escaped(s[1..])
  }

  function Quote(s: string): string {
    if s != "" && AllSafe(s) then s else "'" + Escaped(s) + "'"
  }

  // -- how the shell splits a line --------------------------------------------------------------

  /**
   What the shell reads otherwise than as itself outside quotes (IEEE Std 1003.1-2017,
   Shell Command Language, section 2.2), or ends a command with.
  */
  predicate Special(c: char) {
    c in "|&;<>()$`\"*?[]#~%!{}\n" || c == '\0'
  }

  /** The words of a line, the one at hand so far; none when the line is not a plain command. */
  function Lex(s: string, word: Option<string>): Option<seq<string>>
    decreases |s|
  {
    if s == "" then Some(if word.Some? then [word.value] else [])
    else if s[0] == ' ' || s[0] == '\t' then
      match Lex(s[1..], None)
      case None => None
      case Some(words) => Some(if word.Some? then [word.value] + words else words)
    else if s[0] == '\\' then
      // Section 2.2.1: the next character as itself, or a line continued.
      if |s| == 1 || s[1] == '\0' then None
      else if s[1] == '\n' then Lex(s[2..], word)
      else Lex(s[2..], Some(word.GetOr("") + [s[1]]))
    else if s[0] == '\'' then InQuotes(s[1..], word.GetOr(""))
    else if Special(s[0]) then None
    else Lex(s[1..], Some(word.GetOr("") + [s[0]]))
  }

  /** Section 2.2.2: every character as itself, up to the closing quote. */
  function InQuotes(s: string, word: string): Option<seq<string>>
    decreases |s|
  {
    if s == "" || s[0] == '\0' then None
    else if s[0] == '\'' then Lex(s[1..], Some(word))
    else InQuotes(s[1..], word + [s[0]])
  }

  /** Section 2.3: the words of a command line. */
  function Split(line: string): Option<seq<string>> {
    Lex(line, None)
  }

  predicate NulFree(s: string) {
    '\0' !in s
  }

  lemma SafeIsPlain(c: char)
    requires Safe(c)
    ensures c != ' ' && c != '\t' && c != '\\' && c != '\'' && !Special(c) && c != '\0'
  {
  }

  lemma LexOne(c: char, rest: string, word: Option<string>)
    requires Safe(c)
    ensures Lex([c] + rest, word) == Lex(rest, Some(word.GetOr("") + [c]))
  {
    SafeIsPlain(c);
    hide Special, Safe, InQuotes;
    assert ([c] + rest)[0] == c && ([c] + rest)[1..] == rest;
  }

  lemma {:induction false} LexSafe(s: string, rest: string, word: Option<string>)
    requires AllSafe(s) && (s != "" || word.Some?)
    ensures Lex(s + rest, word) == Lex(rest, Some(word.GetOr("") + s))
    decreases |s|
  {
    if s == "" {
      hide Lex, AllSafe;
      assert s + rest == rest && word.value + s == word.value;
    } else {
      SafeTail(s);
      hide *;
      var w := word.GetOr("") + [s[0]];
      LexOne(s[0], s[1..] + rest, word);
      LexSafe(s[1..], rest, Some(w));
      GetOrSome(w);
      assert s + rest == [s[0]] + (s[1..] + rest);
      assert w + s[1..] == word.GetOr("") + s;
    }
  }

  lemma SafeTail(s: string)
    requires AllSafe(s) && s != ""
    ensures Safe(s[0]) && AllSafe(s[1..])
  {
    hide Safe;
  }

  lemma GetOrSome(w: string)
    ensures Some(w).GetOr("") == w
  {
  }

  /** A closed quote, an escaped one and an opened one are a quote in the word. */
  lemma LexQuote(rest: string, word: string)
    ensures InQuotes("'\\''" + rest, word) == InQuotes(rest, word + "'")
  {
    var reopened := "'" + rest;
    var escaped := "\\'" + reopened;
    assert "'\\''" + rest == "'" + escaped;
    assert ("'" + escaped)[0] == '\'' && ("'" + escaped)[1..] == escaped;
    assert escaped[0] == '\\' && escaped[1] == '\'' && escaped[2..] == reopened;
    assert Lex(escaped, Some(word)) == Lex(reopened, Some(word + "'"));
    assert reopened[0] == '\'' && reopened[1..] == rest;
    assert Lex(reopened, Some(word + "'")) == InQuotes(rest, word + "'");
  }

  lemma {:induction false} InQuotesEscaped(s: string, rest: string, word: string)
    ensures InQuotes(Escaped(s) + ("'" + rest), word) == if NulFree(s) then Lex(rest, Some(word + s)) else None
    decreases |s|
  {
    var after := "'" + rest;
    if s == "" {
      assert Escaped(s) + after == after && after[0] == '\'' && after[1..] == rest;
      assert word + s == word;
    } else {
      var tail := Escaped(s[1..]) + after;
      InQuotesEscaped(s[1..], rest, word + [s[0]]);
      assert word + [s[0]] + s[1..] == word + s;
      assert s == [s[0]] + s[1..];
      if s[0] == '\'' {
        assert Escaped(s) + after == "'\\''" + tail;
        LexQuote(tail, word);
      } else {
        assert Escaped(s) + after == [s[0]] + tail;
        assert ([s[0]] + tail)[1..] == tail;
      }
    }
  }

  /** A quoted word, then the rest of the line. */
  lemma LexQuoted(s: string, rest: string)
    ensures Lex(Quote(s) + rest, None) == if NulFree(s) then Lex(rest, Some(s)) else None
  {
    if s != "" && AllSafe(s) {
      LexSafe(s, rest, None);
      assert "" + s == s;
      forall c | c in s ensures Safe(c) {}
    } else {
      var inner := Escaped(s) + ("'" + rest);
      assert Quote(s) + rest == "'" + inner;
      assert ("'" + inner)[0] == '\'' && ("'" + inner)[1..] == inner;
      InQuotesEscaped(s, rest, "");
      assert "" + s == s;
    }
  }

  /** What quote makes of a string is one word of the shell, the string itself, unless no shell word can hold it. */
  lemma QuoteRoundTrip(s: string)
    ensures Split(Quote(s)) == if NulFree(s) then Some([s]) else None
  {
    LexQuoted(s, "");
    assert Quote(s) + "" == Quote(s);
  }

  // -- the command ----------------------------------------------------------------------------------

  function Join(parts: seq<string>): string {
    if parts == [] then ""
    else if |parts| == 1 then parts[0]
    else parts[0] + (" " + Join(parts[1..]))
  }

  function QuoteAll(words: seq<string>): (r: seq<string>)
    ensures |r| == |words| && forall i :: 0 <= i < |r| ==> r[i] == Quote(words[i])
  {
    seq(|words|, i requires 0 <= i < |words| => Quote(words[i]))
  }

  predicate AllNulFree(words: seq<string>) {
    forall i :: 0 <= i < |words| ==> NulFree(words[i])
  }

  function Before(word: string, rest: Option<seq<string>>): Option<seq<string>> {
    match rest
    case None => None
    case Some(words) => Some([word] + words)
  }

  lemma LexBlank(rest: string, word: string)
    ensures Lex(" " + rest, Some(word)) == Before(word, Lex(rest, None))
  {
    assert (" " + rest)[0] == ' ' && (" " + rest)[1..] == rest;
  }

  lemma JoinFirst(words: seq<string>)
    requires |words| > 1
    ensures Join(QuoteAll(words)) == Quote(words[0]) + (" " + Join(QuoteAll(words[1..])))
  {
    assert QuoteAll(words)[1..] == QuoteAll(words[1..]);
    hide Quote;
  }

  lemma NulFreeFirst(words: seq<string>)
    requires words != []
    ensures AllNulFree(words) <==> NulFree(words[0]) && AllNulFree(words[1..])
    ensures words == [words[0]] + words[1..]
  {
    hide NulFree;
  }

  lemma {:induction false} SplitJoined(words: seq<string>)
    ensures Split(Join(QuoteAll(words))) == if AllNulFree(words) then Some(words) else None
  {
    if |words| <= 1 {
      if words != [] {
        assert QuoteAll(words) == [Quote(words[0])] && words == [words[0]];
        hide Quote, Lex;
        QuoteRoundTrip(words[0]);
      }
    } else {
      assert forall s :: Split(s) == Lex(s, None);
      hide *;
      SplitJoined(words[1..]);
      JoinFirst(words);
      LexQuoted(words[0], " " + Join(QuoteAll(words[1..])));
      LexBlank(Join(QuoteAll(words[1..])), words[0]);
      NulFreeFirst(words);
      BeforeIs(words[0], Lex(Join(QuoteAll(words[1..])), None));
    }
  }

  lemma BeforeIs(word: string, rest: Option<seq<string>>)
    ensures Before(word, rest) == if rest.None? then None else Some([word] + rest.value)
  {
  }

  /** A flag of the command line that was set, and its value. */
  datatype Flag = Flag(name: string, value: string)

  /** The flags of a list: of deployments, or of jobs. */
  predicate Listed(jobs: bool, name: string) {
    || name in ["per-page", "page-token", "search", "state", "namespace", "repository", "policy"]
    || (!jobs && name in ["job", "decided-by", "since", "until"])
  }

  /** The words a set flag adds to the command: none for the old token, and none for a flag of no list. */
  function FlagWords(jobs: bool, f: Flag): seq<string> {
    if f.name == "page-token" then []
    else if f.name == "warnings" then ["-warnings"]
    else if Listed(jobs, f.name) then ["-" + f.name, f.value]
    else []
  }

  function AllFlagWords(jobs: bool, flags: seq<Flag>): seq<string> {
    if flags == [] then []
    else AllFlagWords(jobs, flags[..|flags| - 1]) + FlagWords(jobs, flags[|flags| - 1])
  }

  function Command(jobs: bool): string {
    if jobs then "jobs" else "deployments"
  }

  function Args(jobs: bool, flags: seq<Flag>, token: string): seq<string> {
    AllFlagWords(jobs, flags) + ["-page-token", token]
  }

  function Words(jobs: bool, flags: seq<Flag>, token: string): seq<string> {
    ["nops", Command(jobs)] + Args(jobs, flags, token)
  }

  lemma ListedIsSafe(jobs: bool, name: string)
    requires Listed(jobs, name)
    ensures AllSafe("-" + name) && NulFree(name) && |name| > 1 && name[0] != '-' && '=' !in name && name != "warnings"
  {
  }

  method JoinAll(parts: seq<string>) returns (s: string)
    ensures s == Join(parts)
  {
    s := "";
    var i := |parts|;
    assert parts[|parts|..] == [];
    while i > 0
      invariant 0 <= i <= |parts| && s == Join(parts[i..])
    {
      i := i - 1;
      assert parts[i..][1..] == parts[i + 1..];
      s := if i == |parts| - 1 then parts[i] else parts[i] + (" " + s);
    }
  }

  lemma QuoteAllConcat(a: seq<string>, b: seq<string>)
    ensures QuoteAll(a + b) == QuoteAll(a) + QuoteAll(b)
  {
  }

  /** The words the command itself writes need no quotes. */
  lemma PlainWords(jobs: bool)
    ensures QuoteAll(["nops", Command(jobs)]) == ["nops", Command(jobs)]
    ensures QuoteAll(["-warnings"]) == ["-warnings"]
    ensures Quote("-page-token") == "-page-token"
  {
    assert AllSafe("nops") && AllSafe("jobs") && AllSafe("deployments") && AllSafe("-warnings") && AllSafe("-page-token");
  }

  /** The command of the page after this one, over the flags that were set, in the order they are visited. */
  method Next(jobs: bool, flags: seq<Flag>, token: string) returns (line: string)
    ensures Split(line) == if AllNulFree(Words(jobs, flags, token)) then Some(Words(jobs, flags, token)) else None
  {
    hide Quote, AllSafe, Split, Join;
    PlainWords(jobs);
    var parts := ["nops", Command(jobs)];
    ghost var words := parts;
    for i := 0 to |flags|
      invariant parts == QuoteAll(words) && words == ["nops", Command(jobs)] + AllFlagWords(jobs, flags[..i])
    {
      assert flags[..i + 1][..i] == flags[..i];
      var f := flags[i];
      var more := [];
      if f.name == "page-token" {
      } else if f.name == "warnings" {
        more := ["-warnings"];
      } else if Listed(jobs, f.name) {
        ListedIsSafe(jobs, f.name);
        more := ["-" + f.name, Quote(f.value)];
      }
      FlagQuoted(jobs, f);
      assert more == QuoteAll(FlagWords(jobs, f));
      QuoteAllConcat(words, FlagWords(jobs, f));
      words := words + FlagWords(jobs, f);
      parts := parts + more;
    }
    assert flags[..|flags|] == flags;
    assert QuoteAll(["-page-token", token]) == ["-page-token", Quote(token)];
    QuoteAllConcat(words, ["-page-token", token]);
    assert words + ["-page-token", token] == Words(jobs, flags, token);
    SplitJoined(Words(jobs, flags, token));
    line := JoinAll(parts + ["-page-token", Quote(token)]);
  }

  lemma FlagQuoted(jobs: bool, f: Flag)
    ensures QuoteAll(FlagWords(jobs, f)) ==
      if f.name == "page-token" then []
      else if f.name == "warnings" then ["-warnings"]
      else if Listed(jobs, f.name) then ["-" + f.name, Quote(f.value)]
      else []
  {
    PlainWords(jobs);
    if Listed(jobs, f.name) { ListedIsSafe(jobs, f.name); }
    hide Listed, AllSafe;
  }

  // -- the command, run --------------------------------------------------------------------------

  /** How the flag package reads arguments: the flags set, the last value of each; none on an error or a word that is no flag. */
  function Parse(jobs: bool, args: seq<string>): Option<map<string, string>> {
    if args == [] then Some(map[])
    else
      var s := args[0];
      if |s| < 2 || s[0] != '-' then None
      else
        var name := if s[1] == '-' then s[2..] else s[1..];
        if name == "" || name[0] == '-' || '=' in name then None
        else if jobs && name == "warnings" then Over(map[name := "true"], Parse(jobs, args[1..]))
        else if Listed(jobs, name) && |args| > 1 then Over(map[name := args[1]], Parse(jobs, args[2..]))
        else None
  }

  /** Flags set before the others: the last value of a flag wins. */
  function Over(first: map<string, string>, rest: Option<map<string, string>>): Option<map<string, string>> {
    match rest
    case None => None
    case Some(m) => Some(first + m)
  }

  lemma OverTwice(a: map<string, string>, b: map<string, string>, rest: Option<map<string, string>>)
    ensures Over(a, Over(b, rest)) == Over(a + b, rest)
  {
    if rest.Some? { assert a + (b + rest.value) == (a + b) + rest.value; }
  }

  /** What the next command carries over of a flag, and of all of them. */
  function KeptOne(jobs: bool, f: Flag): map<string, string> {
    if f.name == "page-token" then map[]
    else if f.name == "warnings" then map[f.name := "true"]
    else if Listed(jobs, f.name) then map[f.name := f.value]
    else map[]
  }

  function Kept(jobs: bool, flags: seq<Flag>): map<string, string> {
    if flags == [] then map[] else Kept(jobs, flags[..|flags| - 1]) + KeptOne(jobs, flags[|flags| - 1])
  }

  lemma ParseFlag(jobs: bool, name: string, value: string, rest: seq<string>)
    requires Listed(jobs, name)
    ensures Parse(jobs, ["-" + name, value] + rest) == Over(map[name := value], Parse(jobs, rest))
  {
    ListedIsSafe(jobs, name);
    var args := ["-" + name, value] + rest;
    assert args[2..] == rest && args[0] == "-" + name && args[0][1..] == name;
    hide Listed;
  }

  lemma ParseWarnings(rest: seq<string>)
    ensures Parse(true, ["-warnings"] + rest) == Over(map["warnings" := "true"], Parse(true, rest))
  {
    var args := ["-warnings"] + rest;
    assert args[1..] == rest && args[0][1..] == "warnings";
    hide Listed;
  }

  /** The command line has no flag twice, and -warnings is one of the list of jobs. */
  ghost predicate Visited(jobs: bool, flags: seq<Flag>) {
    && (forall i, j :: 0 <= i < j < |flags| ==> flags[i].name != flags[j].name)
    && (forall f :: f in flags && f.name == "warnings" ==> jobs)
  }

  lemma ParseOne(jobs: bool, f: Flag, rest: seq<string>)
    requires f.name == "warnings" ==> jobs
    ensures Parse(jobs, FlagWords(jobs, f) + rest) == Over(KeptOne(jobs, f), Parse(jobs, rest))
  {
    if f.name == "warnings" {
      ParseWarnings(rest);
    } else if f.name != "page-token" && Listed(jobs, f.name) {
      ParseFlag(jobs, f.name, f.value, rest);
    } else {
      assert [] + rest == rest;
      NothingOver(Parse(jobs, rest));
    }
    hide Parse, Listed;
  }

  lemma NothingOver(rest: Option<map<string, string>>)
    ensures Over(map[], rest) == rest
  {
    if rest.Some? { assert map[] + rest.value == rest.value; }
  }

  lemma {:induction false} ParseWords(jobs: bool, flags: seq<Flag>, rest: seq<string>)
    requires Visited(jobs, flags)
    ensures Parse(jobs, AllFlagWords(jobs, flags) + rest) == Over(Kept(jobs, flags), Parse(jobs, rest))
  {
    if flags == [] {
      assert AllFlagWords(jobs, flags) + rest == rest;
      NothingOver(Parse(jobs, rest));
      hide Parse;
    } else {
      var n := |flags| - 1;
      var f := flags[n];
      assert f in flags;
      assert f.name == "warnings" ==> jobs;
      assert Visited(jobs, flags[..n]);
      KeptLast(jobs, flags, rest);
      hide *;
      ParseWords(jobs, flags[..n], FlagWords(jobs, f) + rest);
      ParseOne(jobs, f, rest);
      OverTwice(Kept(jobs, flags[..n]), KeptOne(jobs, f), Parse(jobs, rest));
    }
  }

  lemma KeptLast(jobs: bool, flags: seq<Flag>, rest: seq<string>)
    requires flags != []
    ensures var n := |flags| - 1;
      && AllFlagWords(jobs, flags) + rest == AllFlagWords(jobs, flags[..n]) + (FlagWords(jobs, flags[n]) + rest)
      && Kept(jobs, flags) == Kept(jobs, flags[..n]) + KeptOne(jobs, flags[n])
  {
    hide FlagWords, KeptOne;
  }

  lemma ParseToken(jobs: bool, token: string)
    ensures Parse(jobs, ["-page-token", token]) == Some(map["page-token" := token])
  {
    var args := ["-page-token", token];
    assert args[0][1..] == "page-token" && args[2..] == [];
    assert Listed(jobs, "page-token") && "page-token" != "warnings" && '=' !in "page-token";
    hide Listed;
    assert map["page-token" := token] + map[] == map["page-token" := token];
  }

  /** The next command sets the flags of a list again, with the new token. */
  lemma ArgsSetTheFlags(jobs: bool, flags: seq<Flag>, token: string)
    requires Visited(jobs, flags)
    ensures Parse(jobs, Args(jobs, flags, token)) == Some(Kept(jobs, flags)["page-token" := token])
  {
    var last := ["-page-token", token];
    assert Args(jobs, flags, token) == AllFlagWords(jobs, flags) + last;
    ParseWords(jobs, flags, last);
    ParseToken(jobs, token);
    hide *;
    OverOne(Kept(jobs, flags), "page-token", token);
  }

  lemma OverOne(m: map<string, string>, name: string, value: string)
    ensures Over(m, Some(map[name := value])) == Some(m[name := value])
  {
    assert m + map[name := value] == m[name := value];
  }

  function AsMap(flags: seq<Flag>): map<string, string> {
    if flags == [] then map[]
    else AsMap(flags[..|flags| - 1])[flags[|flags| - 1].name := flags[|flags| - 1].value]
  }

  /** The flag means the same in the next command. */
  predicate Carried(jobs: bool, f: Flag) {
    f.name == "page-token" || (if f.name == "warnings" then f.value == "true" else Listed(jobs, f.name))
  }

  ghost predicate Distinct(flags: seq<Flag>) {
    forall i, j :: 0 <= i < j < |flags| ==> flags[i].name != flags[j].name
  }

  lemma {:induction false} MapsOf(jobs: bool, flags: seq<Flag>, name: string)
    requires Distinct(flags)
    ensures (forall f :: f in flags ==> f.name != name) ==> name !in AsMap(flags) && name !in Kept(jobs, flags)
    ensures forall f :: f in flags && f.name == name ==>
        name in AsMap(flags) && AsMap(flags)[name] == f.value
        && if name in KeptOne(jobs, f) then name in Kept(jobs, flags) && Kept(jobs, flags)[name] == KeptOne(jobs, f)[name] else name !in Kept(jobs, flags)
  {
    if flags != [] {
      var n := |flags| - 1;
      MapsOf(jobs, flags[..n], name);
      assert forall f :: f in flags <==> f in flags[..n] || f == flags[n];
      assert flags[n] in flags;
      KeptOneKey(jobs, flags[n]);
      hide KeptOne;
    }
  }

  lemma KeptOneKey(jobs: bool, f: Flag)
    ensures KeptOne(jobs, f).Keys <= {f.name}
    ensures Carried(jobs, f) <==> f.name == "page-token" || KeptOne(jobs, f) == map[f.name := f.value]
  {
    hide Listed;
    assert f.name in map[f.name := f.value] && map[f.name := f.value][f.name] == f.value;
  }

  lemma SameValue(jobs: bool, flags: seq<Flag>, f: Flag)
    requires Distinct(flags) && f in flags && f.name != "page-token"
    ensures f.name in AsMap(flags) && AsMap(flags)[f.name] == f.value
    ensures Carried(jobs, f) <==> f.name in Kept(jobs, flags) && Kept(jobs, flags)[f.name] == f.value
  {
    MapsOf(jobs, flags, f.name);
    KeptOneKey(jobs, f);
    hide AsMap, Kept, Carried, Distinct;
    assert f.name in map[f.name := f.value] && map[f.name := f.value][f.name] == f.value;
    if f.name in KeptOne(jobs, f) && KeptOne(jobs, f)[f.name] == f.value { assert KeptOne(jobs, f) == map[f.name := f.value]; }
  }

  predicate Named(flags: seq<Flag>, name: string) {
    exists f :: f in flags && f.name == name
  }

  lemma UpdatesAgree(jobs: bool, flags: seq<Flag>, a: map<string, string>, b: map<string, string>, key: string, token: string)
    requires forall f :: f in flags && f.name != key ==> f.name in a && a[f.name] == f.value && (Carried(jobs, f) <==> f.name in b && b[f.name] == f.value)
    requires forall f :: f in flags && f.name == key ==> Carried(jobs, f)
    requires forall name :: !Named(flags, name) ==> name !in a && name !in b
    ensures a[key := token] == b[key := token] <==> forall f :: f in flags ==> Carried(jobs, f)
  {
    var m, n := a[key := token], b[key := token];
    if forall f :: f in flags ==> Carried(jobs, f) {
      forall name
        ensures (name in m <==> name in n) && (name in m ==> m[name] == n[name])
      {
        hide Carried;
        if name != key && Named(flags, name) {
          var f :| f in flags && f.name == name;
          assert name in a && name in b;
        }
      }
      assert m == n;
    }
    if m == n {
      forall f | f in flags
        ensures Carried(jobs, f)
      {
        hide Carried;
        if f.name != key { assert m[f.name] == f.value && n[f.name] == b[f.name]; }
      }
    }
  }

  lemma Unnamed(jobs: bool, flags: seq<Flag>, name: string)
    requires Distinct(flags) && !Named(flags, name)
    ensures name !in AsMap(flags) && name !in Kept(jobs, flags)
  {
    MapsOf(jobs, flags, name);
    hide AsMap, Kept, KeptOne, Distinct;
  }

  /** The next command sets exactly the flags that were set, but for the token, when each is one of the list and -warnings is true. */
  lemma SameFlagsIff(jobs: bool, flags: seq<Flag>, token: string)
    requires Visited(jobs, flags)
    ensures Parse(jobs, Args(jobs, flags, token)) == Some(AsMap(flags)["page-token" := token])
      <==> forall f :: f in flags ==> Carried(jobs, f)
  {
    assert Distinct(flags);
    ArgsSetTheFlags(jobs, flags, token);
    hide *;
    var key := "page-token";
    forall f | f in flags && f.name != key
      ensures f.name in AsMap(flags) && AsMap(flags)[f.name] == f.value
      ensures Carried(jobs, f) <==> f.name in Kept(jobs, flags) && Kept(jobs, flags)[f.name] == f.value
    {
      SameValue(jobs, flags, f);
    }
    forall f | f in flags && f.name == key ensures Carried(jobs, f) { TokenCarried(jobs, f); }
    forall name | !Named(flags, name) ensures name !in AsMap(flags) && name !in Kept(jobs, flags) { Unnamed(jobs, flags, name); }
    UpdatesAgree(jobs, flags, AsMap(flags), Kept(jobs, flags), key, token);
  }

  lemma TokenCarried(jobs: bool, f: Flag)
    requires f.name == "page-token"
    ensures Carried(jobs, f)
  {
  }
}
