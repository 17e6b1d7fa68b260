/** Quoting strings for IMAP commands, and joining folder paths that may already be quoted. */
module ImapQuoting {
  import opened Prelude

  datatype QuoteError = ContainsNewline | EmptyPath

  /** Python's `str.replace` of one character. */
  function Replace(s: string, c: char, with: string): string {
    if s == "" then "" else (if s[0] == c then with else [s[0]]) + Replace(s[1..], c, with)
  }

  predicate HasNewline(s: string) {
    '\n' in s || '\r' in s
  }

  /** `startswith('"') and endswith('"')`: a lone quote does both. */
  predicate Wrapped(s: string) {
    s != "" && s[0] == '"' && s[|s| - 1] == '"'
  }

  function Escaped(s: string): string {
    Replace(Replace(s, '\\', "\\\\"), '"', "\\\"")
  }

  function Wrap(s: string): string {
    "\"" + s + "\""
  }

  function Quote(s: string): Result<string, QuoteError> {
    if HasNewline(s) then Err(ContainsNewline)
    else if Wrapped(s) then Ok(s)
    else Ok(Wrap(Escaped(s)))
  }

  /** `path[1:-1]`. */
  function Inner(s: string): string {
    if |s| >= 2 then s[1..|s| - 1] else ""
  }

  /** The body of a quoted string, read as section 4.3 and 9 of RFC 3501 have it: a backslash takes the
      next character as it is, and may only stand before a backslash or a quote. */
  function Unescape(s: string): Option<string> {
    if s == "" then Some("")
    else if s[0] == '"' then None
    else if s[0] == '\\' then
      if |s| >= 2 && (s[1] == '\\' || s[1] == '"') then
        var rest := Unescape(s[2..]);
        if rest.Some? then Some([s[1]] + rest.value) else None
      else None
    else
      var rest := Unescape(s[1..]);
      if rest.Some? then Some([s[0]] + rest.value) else None
  }

  /** The string a quoted string stands for; `None` when it is not a quoted string. */
  function Unquote(q: string): Option<string> {
    if |q| >= 2 && Wrapped(q) && !HasNewline(q) then Unescape(Inner(q)) else None
  }

  // ---------- escaping ----------

  lemma {:induction false} ReplaceAppend(a: string, b: string, c: char, with: string)
    ensures Replace(a + b, c, with) == Replace(a, c, with) + Replace(b, c, with)
  {
    if a == "" {
      assert a + b == b;
    } else {
      assert (a + b)[0] == a[0] && (a + b)[1..] == a[1..] + b;
      ReplaceAppend(a[1..], b, c, with);
      var head := if a[0] == c then with else [a[0]];
      var x, y := Replace(a[1..], c, with), Replace(b, c, with);
      assert head + (x + y) == (head + x) + y;
    }
  }

  function EscapedChar(c: char): string {
    if c == '\\' then "\\\\" else if c == '"' then "\\\"" else [c]
  }

  /** The two replacements, backslashes first, escape character by character. */
  lemma EscapedCons(s: string)
    requires s != ""
    ensures Escaped(s) == EscapedChar(s[0]) + Escaped(s[1..])
  {
    var first := if s[0] == '\\' then "\\\\" else [s[0]];
    ReplaceAppend(first, Replace(s[1..], '\\', "\\\\"), '"', "\\\"");
    assert Replace("\\\\", '"', "\\\"") == "\\\\" by {
      assert "\\\\"[1..] == "\\" && "\\"[1..] == "";
    }
    assert [s[0]][1..] == "";
  }

  lemma {:induction false} UnescapeInverts(s: string)
    ensures Unescape(Escaped(s)) == Some(s)
  {
    if s != "" {
      EscapedCons(s);
      UnescapeInverts(s[1..]);
      var e := EscapedChar(s[0]);
      assert (e + Escaped(s[1..]))[|e|..] == Escaped(s[1..]);
      assert s == [s[0]] + s[1..];
    }
  }

  predicate NothingToEscape(s: string) {
    '"' !in s && '\\' !in s
  }

  lemma {:induction false} EscapedIsLonger(s: string)
    ensures |Escaped(s)| >= |s|
    ensures Escaped(s) == s <==> NothingToEscape(s)
    ensures |Escaped(s)| == |s| ==> NothingToEscape(s)
    ensures HasNewline(Escaped(s)) <==> HasNewline(s)
  {
    if s != "" {
      EscapedCons(s);
      EscapedIsLonger(s[1..]);
      assert s == [s[0]] + s[1..];
    }
  }

  // ---------- quoting ----------

  lemma UnwrappedRoundTrip(s: string)
    requires !HasNewline(s) && !Wrapped(s)
    ensures Quote(s).Ok? && Unquote(Quote(s).value) == Some(s)
  {
    EscapedIsLonger(s);
    UnescapeInverts(s);
    var q := Wrap(Escaped(s));
    assert Inner(q) == Escaped(s);
    assert q[0] == '"' && q[|q| - 1] == '"';
    assert HasNewline(q) ==> HasNewline(Escaped(s));
  }

  /** Unquoting a quoted string gives it back exactly when it was not already wrapped. */
  lemma QuoteRoundTrip(s: string)
    requires !HasNewline(s)
    ensures Quote(s).Ok?
    ensures Unquote(Quote(s).value) == Some(s) <==> !Wrapped(s)
  {
    if Wrapped(s) {
      UnescapeShrinks(Inner(s));
    } else {
      UnwrappedRoundTrip(s);
    }
  }

  lemma {:induction false} UnescapeShrinks(s: string)
    ensures Unescape(s).Some? ==> |Unescape(s).value| <= |s|
    decreases |s|
  {
    if s != "" {
      if |s| >= 2 { UnescapeShrinks(s[2..]); }
      UnescapeShrinks(s[1..]);
    }
  }

  /** What `quote` returns is quoted already: quoting again changes nothing. */
  lemma QuoteIdempotent(s: string)
    requires !HasNewline(s)
    ensures Quote(Quote(s).value) == Quote(s)
  {
    EscapedIsLonger(s);
    if !Wrapped(s) {
      var q := Wrap(Escaped(s));
      assert q[0] == '"' && q[|q| - 1] == '"';
      assert HasNewline(q) ==> HasNewline(Escaped(s));
    }
  }

  /** The result is a well-formed quoted string unless the input was wrapped without being one. */
  lemma QuoteWellFormed(s: string)
    requires !HasNewline(s)
    ensures Unquote(Quote(s).value).Some? <==> (!Wrapped(s) || Unquote(s).Some?)
  {
    QuoteRoundTrip(s);
  }

  /** A lone quote, and a quote between quotes, pass through unescaped. */
  lemma WrappedPassesThrough()
    ensures Quote("\"") == Ok("\"") && Unquote("\"") == None
    ensures Quote("\"a\"b\"") == Ok("\"a\"b\"") && Unquote("\"a\"b\"") == None
  {
    var q := "\"a\"b\"";
    assert q[0] == '"' && q[4] == '"';
    assert Inner(q) == "a\"b" && "a\"b"[1..] == "\"b";
    assert Unescape("\"b") == None;
  }

  // ---------- joining ----------

  /** The first path without its quotes, when it ends with one. */
  function FirstPart(a: string): string
    requires a != ""
  {
    if a[|a| - 1] == '"' then Inner(a) else a
  }

  /** The second path without its quotes, when it starts with one. */
  function SecondPart(b: string): string
    requires b != ""
  {
    if b[0] == '"' then Inner(b) else b
  }

  function Joined(d: string, a: string, b: string): Result<string, QuoteError> {
    if a == "" || b == "" then Err(EmptyPath) else Quote(FirstPart(a) + d + SecondPart(b))
  }

  method ImapJoinFolders(delimiter: string, firstPath: string, secondPath: string)
    returns (r: Result<string, QuoteError>)
    ensures r == Joined(delimiter, firstPath, secondPath)
  {
    var first, second := firstPath, secondPath;
    if first == "" { return Err(EmptyPath); }
    if first[|first| - 1] == '"' { first := Inner(first); }
    if second == "" { return Err(EmptyPath); }
    if second[0] == '"' { second := Inner(second); }
    return Quote(first + delimiter + second);
  }

  /** A path that carries no quote at either end. */
  predicate Bare(s: string) {
    s != "" && s[0] != '"' && s[|s| - 1] != '"' && !HasNewline(s)
  }

  lemma QuoteInjective(s: string, t: string)
    requires !HasNewline(s) && !HasNewline(t) && !Wrapped(s) && !Wrapped(t)
    ensures Quote(s) == Quote(t) <==> s == t
  {
    QuoteRoundTrip(s);
    QuoteRoundTrip(t);
  }

  lemma NewlinesAdd(a: string, b: string)
    ensures HasNewline(a + b) <==> HasNewline(a) || HasNewline(b)
  {
  }

  lemma EndsBare(x: string, b: string)
    requires Bare(b) && !HasNewline(x)
    ensures !Wrapped(x + b) && !HasNewline(x + b)
  {
    assert (x + b)[|x + b| - 1] == b[|b| - 1];
  }

  lemma StartsBare(a: string, x: string)
    requires Bare(a) && !HasNewline(x)
    ensures !Wrapped(a + x) && !HasNewline(a + x)
  {
    assert (a + x)[0] == a[0];
  }

  lemma CancelRight(x: string, y: string, t: string)
    ensures x + t == y + t <==> x == y
  {
    if x + t == y + t {
      assert |x| == |y|;
      assert x == (x + t)[..|x|] && y == (y + t)[..|y|];
    }
  }

  lemma CancelLeft(t: string, x: string, y: string)
    ensures t + x == t + y <==> x == y
  {
    if t + x == t + y { assert x == (t + x)[|t|..] && y == (t + y)[|t|..]; }
  }

  // ---------- prior quoting ----------

  /** Before a bare second path, only what is left of the first path matters. */
  lemma FirstPartDecides(d: string, x: string, y: string, b: string)
    requires Bare(b) && x != "" && y != "" && !HasNewline(d) && !HasNewline(x) && !HasNewline(y)
    ensures Joined(d, x, b) == Joined(d, y, b) <==> FirstPart(x) == FirstPart(y)
  {
    var u, v := FirstPart(x), FirstPart(y);
    NewlinesAdd(u, d);
    NewlinesAdd(v, d);
    EndsBare(u + d, b);
    EndsBare(v + d, b);
    QuoteInjective(u + d + b, v + d + b);
    CancelRight(u + d, v + d, b);
    CancelRight(u, v, d);
  }

  /** After a bare first path, only what is left of the second path matters. */
  lemma SecondPartDecides(d: string, a: string, x: string, y: string)
    requires Bare(a) && x != "" && y != "" && !HasNewline(d) && !HasNewline(x) && !HasNewline(y)
    ensures Joined(d, a, x) == Joined(d, a, y) <==> SecondPart(x) == SecondPart(y)
  {
    var u, v := SecondPart(x), SecondPart(y);
    NewlinesAdd(d, u);
    NewlinesAdd(d, v);
    StartsBare(a, d + u);
    StartsBare(a, d + v);
    assert a + d + u == a + (d + u) && a + d + v == a + (d + v);
    QuoteInjective(a + (d + u), a + (d + v));
    CancelLeft(a, d + u, d + v);
    CancelLeft(d, u, v);
  }

  lemma PartsOfQuoted(a: string)
    requires a != "" && !HasNewline(a)
    ensures Quote(a).Ok? && Quote(a).value != "" && !HasNewline(Quote(a).value)
    ensures !Wrapped(a) ==> FirstPart(Quote(a).value) == SecondPart(Quote(a).value) == Escaped(a)
    ensures FirstPart(Quote(a).value) == FirstPart(a) <==> Wrapped(a) || NothingToEscape(a)
    ensures SecondPart(Quote(a).value) == SecondPart(a) <==> Wrapped(a) || NothingToEscape(a)
  {
    EscapedIsLonger(a);
    if !Wrapped(a) {
      var q := Wrap(Escaped(a));
      assert q[0] == '"' && q[|q| - 1] == '"' && Inner(q) == Escaped(a);
      NewlinesAdd("\"" + Escaped(a), "\"");
      NewlinesAdd("\"", Escaped(a));
      assert a[0] in a && a[|a| - 1] in a;
    }
  }

  /** Quoting the first path beforehand goes unnoticed exactly when that changes nothing but the quotes:
      when the path was wrapped already, or nothing in it needs escaping. What needs escaping is escaped
      twice. */
  lemma JoinNoticesEscapes(d: string, a: string, b: string)
    requires !HasNewline(d) && a != "" && !HasNewline(a) && Bare(b)
    ensures Quote(a).Ok?
    ensures Joined(d, Quote(a).value, b) == Joined(d, a, b) <==> Wrapped(a) || NothingToEscape(a)
  {
    PartsOfQuoted(a);
    FirstPartDecides(d, Quote(a).value, a, b);
  }

  /** The same for the second path. */
  lemma JoinNoticesEscapesAfter(d: string, a: string, b: string)
    requires !HasNewline(d) && Bare(a) && b != "" && !HasNewline(b)
    ensures Quote(b).Ok?
    ensures Joined(d, a, Quote(b).value) == Joined(d, a, b) <==> Wrapped(b) || NothingToEscape(b)
  {
    PartsOfQuoted(b);
    SecondPartDecides(d, a, Quote(b).value, b);
  }

  lemma PartsOfWrapped(a: string)
    requires a != ""
    ensures FirstPart(Wrap(a)) == SecondPart(Wrap(a)) == a
    ensures FirstPart(a) == a <==> a[|a| - 1] != '"'
    ensures SecondPart(a) == a <==> a[0] != '"'
  {
    var q := Wrap(a);
    assert q[0] == '"' && q[|q| - 1] == '"' && Inner(q) == a;
  }

  /** Bare quotes around either path, or both, never matter when the first does not end and the second
      does not start with one. */
  lemma JoinIgnoresQuoting(d: string, a: string, b: string)
    requires a != "" && a[|a| - 1] != '"' && b != "" && b[0] != '"'
    ensures Joined(d, Wrap(a), b) == Joined(d, a, b) == Joined(d, a, Wrap(b)) == Joined(d, Wrap(a), Wrap(b))
  {
    PartsOfWrapped(a);
    PartsOfWrapped(b);
  }

  /** Beside a bare path that condition is exact, on either side. */
  lemma JoinNoticesQuotes(d: string, a: string, b: string)
    requires !HasNewline(d) && a != "" && b != "" && !HasNewline(a) && !HasNewline(b)
    ensures Bare(b) ==> (Joined(d, Wrap(a), b) == Joined(d, a, b) <==> a[|a| - 1] != '"')
    ensures Bare(a) ==> (Joined(d, a, Wrap(b)) == Joined(d, a, b) <==> b[0] != '"')
  {
    PartsOfWrapped(a);
    PartsOfWrapped(b);
    NewlinesAdd("\"" + a, "\"");
    NewlinesAdd("\"" + b, "\"");
    if Bare(b) { FirstPartDecides(d, Wrap(a), a, b); }
    if Bare(a) { SecondPartDecides(d, a, Wrap(b), b); }
  }

  // ---------- associativity ----------

  lemma EscapedAppend(x: string, y: string)
    ensures Escaped(x + y) == Escaped(x) + Escaped(y)
  {
    ReplaceAppend(x, y, '\\', "\\\\");
    ReplaceAppend(Replace(x, '\\', "\\\\"), Replace(y, '\\', "\\\\"), '"', "\\\"");
  }

  function Backslashes(s: string): nat {
    if s == "" then 0 else (if s[0] == '\\' then 1 else 0) + Backslashes(s[1..])
  }

  lemma {:induction false} BackslashesAdd(a: string, b: string)
    ensures Backslashes(a + b) == Backslashes(a) + Backslashes(b)
  {
    if a == "" {
      assert a + b == b;
    } else {
      assert (a + b)[1..] == a[1..] + b;
      BackslashesAdd(a[1..], b);
    }
  }

  lemma {:induction false} AtMostAllBackslashes(s: string)
    ensures Backslashes(s) <= |s|
    ensures Backslashes(s) == |s| > 0 ==> s[0] == '\\'
  {
    if s != "" { AtMostAllBackslashes(s[1..]); }
  }

  /** Escaping adds backslashes and nothing else. */
  lemma {:induction false} EscapingAddsBackslashes(s: string)
    ensures |Escaped(s)| - |s| == Backslashes(Escaped(s)) - Backslashes(s)
  {
    if s != "" {
      EscapedCons(s);
      EscapingAddsBackslashes(s[1..]);
      BackslashesAdd(EscapedChar(s[0]), Escaped(s[1..]));
      var e := EscapedChar(s[0]);
      assert Backslashes(e) == (if e[0] == '\\' then 1 else 0) + Backslashes(e[1..]);
      if |e| == 2 { assert e[1..][1..] == ""; }
    }
  }

  /** When a string starts its own escape, the escape goes on with a backslash. */
  lemma EscapeGoesOn(a: string)
    requires !NothingToEscape(a) && a <= Escaped(a)
    ensures |a| < |Escaped(a)| && Escaped(a)[|a|] == '\\'
  {
    EscapedIsLonger(a);
    var u := Escaped(a)[|a|..];
    assert Escaped(a) == a + u;
    EscapingAddsBackslashes(a);
    BackslashesAdd(a, u);
    AtMostAllBackslashes(u);
  }

  /** What escaping a first path adds cannot be made up by what escaping a last path adds: a plain
      delimiter stands between. */
  lemma EscapesDoNotMove(a: string, m: string, c: string)
    requires m != "" && m[0] != '\\' && !NothingToEscape(a)
    ensures Escaped(a) + m + c != a + m + Escaped(c)
  {
    var left, right := Escaped(a) + m + c, a + m + Escaped(c);
    EscapedIsLonger(a);
    assert left[..|a|] == Escaped(a)[..|a|] && right[..|a|] == a;
    assert left[|a|] == Escaped(a)[|a|] && right[|a|] == m[0];
    if a <= Escaped(a) { EscapeGoesOn(a); }
  }

  lemma EscapesCancel(a: string, m: string, c: string)
    requires m != "" && m[0] != '\\'
    ensures Escaped(a) + m + c == a + m + Escaped(c) <==> NothingToEscape(a) && NothingToEscape(c)
  {
    EscapedIsLonger(a);
    EscapedIsLonger(c);
    if NothingToEscape(a) { CancelLeft(a + m, c, Escaped(c)); } else { EscapesDoNotMove(a, m, c); }
  }

  lemma EscapedSnoc(s: string, c: char)
    ensures Escaped(s + [c]) == Escaped(s) + EscapedChar(c)
  {
    EscapedAppend(s, [c]);
    EscapedCons([c]);
    assert [c][1..] == "";
  }

  /** Escaping a path without quotes at its ends leaves none there. */
  lemma EscapedIsBare(s: string)
    requires s != "" && !HasNewline(s) && s[0] != '"' && s[|s| - 1] != '"'
    ensures Bare(Escaped(s))
  {
    EscapedIsLonger(s);
    FirstEscaped(s);
    LastEscaped(s);
  }

  lemma FirstEscaped(s: string)
    requires s != "" && s[0] != '"'
    ensures Escaped(s) != "" && Escaped(s)[0] != '"'
  {
    EscapedCons(s);
  }

  lemma LastEscaped(s: string)
    requires s != "" && s[|s| - 1] != '"'
    ensures Escaped(s) != "" && Escaped(s)[|Escaped(s)| - 1] != '"'
  {
    EscapedSnoc(s[..|s| - 1], s[|s| - 1]);
    assert s == s[..|s| - 1] + [s[|s| - 1]];
  }

  lemma JoinOfBare(d: string, a: string, b: string)
    requires Bare(a) && Bare(b) && !HasNewline(d)
    ensures Joined(d, a, b) == Ok(Wrap(Escaped(a + d + b)))
    ensures Bare(Escaped(a + d + b)) && FirstPart(Wrap(Escaped(a + d + b))) == Escaped(a + d + b)
    ensures SecondPart(Wrap(Escaped(a + d + b))) == Escaped(a + d + b)
  {
    NewlinesAdd(a, d);
    NewlinesAdd(a + d, b);
    EndsBare(a + d, b);
    EscapedIsBare(a + d + b);
    PartsOfWrapped(Escaped(a + d + b));
  }

  lemma EscapedOfThree(x: string, d: string, y: string)
    requires Plain(d)
    ensures Escaped(x + d + y) == Escaped(x) + d + Escaped(y)
  {
    EscapedIsLonger(d);
    EscapedAppend(x + d, y);
    EscapedAppend(x, d);
  }

  lemma RegroupLeft(a: string, d: string, b: string, c: string)
    ensures (a + d + b) + d + c == a + (d + b + d) + c
  {
  }

  lemma RegroupRight(a: string, d: string, b: string, c: string)
    ensures a + d + (b + d + c) == a + (d + b + d) + c
  {
  }

  lemma JoinedLeft(d: string, a: string, b: string, c: string)
    requires Plain(d) && Bare(a) && Bare(b) && Bare(c)
    ensures Joined(d, a, b).Ok?
    ensures Joined(d, Joined(d, a, b).value, c) == Quote(Escaped(a) + (d + Escaped(b) + d) + c)
  {
    JoinOfBare(d, a, b);
    EscapedOfThree(a, d, b);
    RegroupLeft(Escaped(a), d, Escaped(b), c);
  }

  lemma JoinedRight(d: string, a: string, b: string, c: string)
    requires Plain(d) && Bare(a) && Bare(b) && Bare(c)
    ensures Joined(d, b, c).Ok?
    ensures Joined(d, a, Joined(d, b, c).value) == Quote(a + (d + Escaped(b) + d) + Escaped(c))
  {
    JoinOfBare(d, b, c);
    EscapedOfThree(b, d, c);
    RegroupRight(a, d, Escaped(b), Escaped(c));
  }

  /** For paths that carry no quotes at their ends and a plain delimiter, joining is associative exactly
      when nothing in the first and the last path needs escaping; the middle one may hold anything. */
  lemma JoinAssociative(d: string, a: string, b: string, c: string)
    requires d != "" && Plain(d) && Bare(a) && Bare(b) && Bare(c)
    ensures Joined(d, a, b).Ok? && Joined(d, b, c).Ok?
    ensures Joined(d, Joined(d, a, b).value, c) == Joined(d, a, Joined(d, b, c).value)
      <==> NothingToEscape(a) && NothingToEscape(c)
  {
    JoinedLeft(d, a, b, c);
    JoinedRight(d, a, b, c);
    var m := d + Escaped(b) + d;
    assert m[0] == d[0] && d[0] in d;
    EscapedIsLonger(b);
    MiddleHasNoNewline(d, b);
    EscapedIsBare(a);
    NewlinesAdd(Escaped(a), m);
    NewlinesAdd(a, m);
    EndsBare(Escaped(a) + m, c);
    EscapedIsBare(c);
    EndsBare(a + m, Escaped(c));
    QuoteInjective(Escaped(a) + m + c, a + m + Escaped(c));
    EscapesCancel(a, m, c);
  }

  lemma MiddleHasNoNewline(d: string, b: string)
    requires Plain(d) && Bare(b)
    ensures !HasNewline(d + Escaped(b) + d)
  {
    EscapedIsLonger(b);
    NewlinesAdd(d, Escaped(b));
    NewlinesAdd(d + Escaped(b), d);
  }

  predicate Plain(s: string) {
    NothingToEscape(s) && !HasNewline(s)
  }

  // ---------- newlines ----------

  /** Quoting fails exactly on strings that hold a CR or an LF, and no result holds either. */
  lemma QuoteRefusesNewlines(s: string)
    ensures Quote(s) == Err(ContainsNewline) <==> '\n' in s || '\r' in s
    ensures Quote(s).Ok? <==> '\n' !in s && '\r' !in s
    ensures Quote(s).Ok? ==> '\n' !in Quote(s).value && '\r' !in Quote(s).value
    ensures Quote(s).Ok? ==> Quote(s).value != "" && Quote(s).value[0] == '"'
  {
    if !HasNewline(s) && s != "" { PartsOfQuoted(s); }
    if s == "" { assert Quote(s) == Ok(Wrap("")); }
  }

  /** A join fails on an empty path, or on a CR or LF in the delimiter or in what it takes of the paths,
      and on nothing else; its result holds neither and starts with a quote. */
  lemma JoinRefusesNewlines(d: string, a: string, b: string)
    ensures Joined(d, a, b) == Err(EmptyPath) <==> a == "" || b == ""
    ensures a != "" && b != "" ==>
      (Joined(d, a, b).Err? <==> HasNewline(FirstPart(a)) || HasNewline(d) || HasNewline(SecondPart(b)))
    ensures Joined(d, a, b).Ok? ==>
      var q := Joined(d, a, b).value;
      '\n' !in q && '\r' !in q && q != "" && q[0] == '"'
  {
    if a != "" && b != "" {
      NewlinesAdd(FirstPart(a), d);
      NewlinesAdd(FirstPart(a) + d, SecondPart(b));
      QuoteRefusesNewlines(FirstPart(a) + d + SecondPart(b));
    }
  }
}
