/** The integer sort key of a string, and what order it puts strings in. */
module SortScore {
  import opened Prelude

  /** Bitwise or on naturals. */
  function BitOr(a: nat, b: nat): nat
    decreases a + b
  {
    if a == 0 && b == 0 then 0
    else (if a % 2 == 1 || b % 2 == 1 then 1 else 0) + 2 * BitOr(a / 2, b / 2)
  }

  /** `score << 8 | ord(char)`, from the left. */
  function Score(s: string): nat {
    if s == "" then 0 else BitOr(Score(s[..|s| - 1]) * 256, s[|s| - 1] as int)
  }

  method StringToSortScore(s: string) returns (score: nat)
    ensures score == Score(s)
  {
    score := 0;
    for i := 0 to |s|
      invariant score == Score(s[..i])
    {
      assert s[..i + 1][..i] == s[..i];
      score := BitOr(score * 256, s[i] as int);
    }
    assert s[..|s|] == s;
  }

  /** Bit k of a natural, the lowest first. */
  predicate Bit(n: nat, k: nat) {
    if k == 0 then n % 2 == 1 else Bit(n / 2, k - 1)
  }

  /** A bit of the or is set exactly when it is set on either side. */
  lemma {:induction false} OrIsBitwise(a: nat, b: nat, k: nat)
    ensures Bit(BitOr(a, b), k) <==> Bit(a, k) || Bit(b, k)
    decreases k
  {
    OrHalves(a, b);
    if k > 0 { OrIsBitwise(a / 2, b / 2, k - 1); }
  }

  lemma OrHalves(a: nat, b: nat)
    ensures BitOr(a, b) % 2 == 1 <==> a % 2 == 1 || b % 2 == 1
    ensures BitOr(a, b) / 2 == BitOr(a / 2, b / 2)
  {
    OrStep(a, b);
    Halve(if a % 2 == 1 || b % 2 == 1 then 1 else 0, BitOr(a / 2, b / 2));
  }

  lemma Halve(bit: nat, n: nat)
    requires bit <= 1
    ensures (bit + 2 * n) / 2 == n && (bit + 2 * n) % 2 == bit
  {
  }

  // ---------- the loop computes a base-256 value ----------

  function Pow2(k: nat): nat {
    if k == 0 then 1 else 2 * Pow2(k - 1)
  }

  lemma Doubling(k: nat, a: nat)
    requires k > 0
    ensures Pow2(k) * a == 2 * (Pow2(k - 1) * a)
  {
  }

  lemma {:induction false} OrZero(a: nat)
    ensures BitOr(a, 0) == a
    decreases a
  {
    if a > 0 { OrZero(a / 2); }
  }

  // ---------- the bytes of a score ----------

  /** Every character fits a byte. */
  predicate Bytes(s: string) {
    forall i | 0 <= i < |s| :: s[i] as int < 256
  }

  /** The value of the digits in base 256. */
  function Base256(s: string): nat {
    if s == "" then 0 else Base256(s[..|s| - 1]) * 256 + s[|s| - 1] as int
  }

  lemma {:induction false} OrOfBytes(k: nat, x: nat, y: nat)
    requires x < Pow2(k) && y < Pow2(k)
    ensures BitOr(x, y) < Pow2(k)
    decreases k
  {
    if k > 0 { OrOfBytes(k - 1, x / 2, y / 2); }
  }

  /** Or works byte by byte. */
  lemma {:induction false} OrSplits(k: nat, a: nat, x: nat, b: nat, y: nat)
    requires x < Pow2(k) && y < Pow2(k)
    ensures Pow2(k) * a >= 0 && Pow2(k) * b >= 0
    ensures BitOr(Pow2(k) * a + x, Pow2(k) * b + y) == Pow2(k) * BitOr(a, b) + BitOr(x, y)
    decreases k
  {
    if k == 0 {
      assert BitOr(0, 0) == 0;
    } else {
      OrSplits(k - 1, a, x / 2, b, y / 2);
      Doubling(k, a);
      Doubling(k, b);
      Doubling(k, BitOr(a, b));
      var p, q := Pow2(k - 1) * a, Pow2(k - 1) * b;
      OrStep(2 * p + x, 2 * q + y);
      OrStep(x, y);
      assert (2 * p + x) / 2 == p + x / 2 && (2 * q + y) / 2 == q + y / 2;
      assert (2 * p + x) % 2 == x % 2 && (2 * q + y) % 2 == y % 2;
    }
  }

  lemma OrStep(a: nat, b: nat)
    ensures BitOr(a, b) == (if a % 2 == 1 || b % 2 == 1 then 1 else 0) + 2 * BitOr(a / 2, b / 2)
  {
  }

  lemma {:induction false} OrWithZero(c: nat)
    ensures BitOr(0, c) == c
    decreases c
  {
    if c > 0 { OrWithZero(c / 2); }
  }

  /** Or with disjoint bits is addition. */
  lemma OrAddsLowBits(k: nat, a: nat, c: nat)
    requires c < Pow2(k)
    ensures Pow2(k) * a >= 0 && BitOr(Pow2(k) * a, c) == Pow2(k) * a + c
  {
    OrSplits(k, a, 0, 0, c);
    OrZero(a);
    OrWithZero(c);
  }

  lemma EightIs256()
    ensures Pow2(8) == 256
  {
    assert Pow2(4) == 16;
    assert Pow2(6) == 64;
  }

  function OrByte(x: char, y: nat): (c: char)
    requires x as int < 256 && y < 256
    ensures c as int < 256 && c as int == BitOr(x as int, y)
  {
    EightIs256();
    OrOfBytes(8, x as int, y);
    BitOr(x as int, y) as char
  }

  /** The bytes of a character, or-ed into the end of a byte string. */
  function OrInto(u: string, c: nat): (v: string)
    requires Bytes(u)
    ensures Bytes(v)
    decreases c, |u|
  {
    if c == 0 then u
    else if u == "" then OrInto("", c / 256) + [(c % 256) as char]
    else OrInto(u[..|u| - 1], c / 256) + [OrByte(u[|u| - 1], c % 256)]
  }

  lemma OrIntoStep(init: string, low: nat, v: string, last: char, c: nat)
    requires low < 256 && Base256(v) == BitOr(Base256(init), c / 256) && last as int == BitOr(low, c % 256)
    ensures Base256(v + [last]) == BitOr(256 * Base256(init) + low, c)
  {
    EightIs256();
    OrSplits(8, Base256(init), low, c / 256, c % 256);
    assert (v + [last])[..|v|] == v;
  }

  lemma {:induction false} OrIntoIsOr(u: string, c: nat)
    requires Bytes(u)
    ensures Base256(OrInto(u, c)) == BitOr(Base256(u), c)
    decreases c
  {
    if c == 0 {
      OrZero(Base256(u));
    } else if u == "" {
      OrIntoIsOr("", c / 256);
      OrWithZero(c % 256);
      OrIntoStep("", 0, OrInto("", c / 256), (c % 256) as char, c);
    } else {
      var init, last := u[..|u| - 1], u[|u| - 1];
      OrIntoIsOr(init, c / 256);
      OrIntoStep(init, last as int, OrInto(init, c / 256), OrByte(last, c % 256), c);
    }
  }

  /** A string as bytes: each wide character spills into the bytes before it. */
  function Spread(s: string): (u: string)
    ensures Bytes(u)
  {
    if s == "" then "" else OrInto(Spread(s[..|s| - 1]) + "\U{00}", s[|s| - 1] as int)
  }

  lemma {:induction false} SpreadKeepsScore(s: string)
    ensures Base256(Spread(s)) == Score(s)
  {
    if s != "" {
      var u := Spread(s[..|s| - 1]);
      SpreadKeepsScore(s[..|s| - 1]);
      OrIntoIsOr(u + "\U{00}", s[|s| - 1] as int);
      assert (u + "\U{00}")[..|u|] == u;
    }
  }

  function DropNulls(u: string): string {
    if u != "" && u[0] == '\U{00}' then DropNulls(u[1..]) else u
  }

  /** Leading nulls dropped, wide characters spread. */
  function Canon(s: string): string {
    DropNulls(Spread(s))
  }

  predicate Canonical(u: string) {
    Bytes(u) && (u == "" || u[0] != '\U{00}')
  }

  lemma {:induction false} NullsAddNothing(u: string)
    requires Bytes(u)
    ensures Canonical(DropNulls(u)) && Base256(DropNulls(u)) == Base256(u)
  {
    if u != "" && u[0] == '\U{00}' {
      Leading(u);
      NullsAddNothing(u[1..]);
    }
  }

  // ---------- order ----------

  function Pow256(n: nat): nat {
    if n == 0 then 1 else 256 * Pow256(n - 1)
  }

  lemma {:induction false} BytesBound(u: string)
    requires Bytes(u)
    ensures Base256(u) < Pow256(|u|)
  {
    if u != "" { BytesBound(u[..|u| - 1]); }
  }

  lemma {:induction false} Leading(s: string)
    requires s != ""
    ensures Base256(s) == (s[0] as int) * Pow256(|s| - 1) + Base256(s[1..])
  {
    if |s| > 1 {
      var init := s[..|s| - 1];
      Leading(init);
      assert s[1..][..|s| - 2] == init[1..];
      assert Base256(s[1..]) == Base256(init[1..]) * 256 + s[|s| - 1] as int;
      assert Pow256(|s| - 1) == 256 * Pow256(|s| - 2);
      Regroup(s[0] as int, Pow256(|s| - 2));
    } else {
      assert s[..0] == "" && s[1..] == "";
    }
  }

  lemma Regroup(c: int, p: int)
    ensures (c * p) * 256 == c * (256 * p)
  {
  }

  /** Shorter first, then lexicographic. */
  predicate ShortLexLeq(a: string, b: string) {
    |a| < |b| || (|a| == |b| && LexLeq(a, b))
  }

  lemma {:induction false} PowersGrow(m: nat, n: nat)
    requires m <= n
    ensures Pow256(m) <= Pow256(n)
  {
    if m < n { PowersGrow(m, n - 1); }
  }

  lemma {:induction false} SameLengthOrder(a: string, b: string)
    requires Bytes(a) && Bytes(b) && |a| == |b| && LexLeq(a, b) && a != b
    ensures Base256(a) < Base256(b)
  {
    Leading(a);
    Leading(b);
    var p := Pow256(|a| - 1);
    BytesBound(a[1..]);
    if a[0] == b[0] {
      assert a == [a[0]] + a[1..] && b == [b[0]] + b[1..];
      SameLengthOrder(a[1..], b[1..]);
    } else {
      StepUp(a[0] as int, b[0] as int, p);
    }
  }

  lemma StepUp(x: int, y: int, p: nat)
    requires x < y
    ensures x * p + p <= y * p
  {
    assert (x + 1) * p <= y * p;
  }

  lemma StrictlyBelow(a: string, b: string)
    requires Canonical(a) && Canonical(b) && ShortLexLeq(a, b) && a != b
    ensures Base256(a) < Base256(b)
  {
    if |a| < |b| {
      BytesBound(a);
      PowersGrow(|a|, |b| - 1);
      Leading(b);
      StepUp(0, b[0] as int, Pow256(|b| - 1));
    } else {
      SameLengthOrder(a, b);
    }
  }

  /** For all strings: the score orders canonical forms by length first and then lexicographically, and
      two strings share a score exactly when they share their canonical form. */
  lemma ScoreIsShortLex(a: string, b: string)
    ensures Score(a) <= Score(b) <==> ShortLexLeq(Canon(a), Canon(b))
    ensures Score(a) == Score(b) <==> Canon(a) == Canon(b)
  {
    SpreadKeepsScore(a);
    SpreadKeepsScore(b);
    NullsAddNothing(Spread(a));
    NullsAddNothing(Spread(b));
    var u, v := Canon(a), Canon(b);
    LexTotal(u, v);
    if ShortLexLeq(u, v) && u != v { StrictlyBelow(u, v); }
    if ShortLexLeq(v, u) && u != v { StrictlyBelow(v, u); }
    if u == v { LexTotal(u, u); }
  }

  // ---------- which strings are their own canonical form ----------

  lemma {:induction false} BytesSpread(s: string)
    requires Bytes(s)
    ensures Spread(s) == s
  {
    if s != "" {
      var init, c := s[..|s| - 1], s[|s| - 1] as int;
      BytesSpread(init);
      var u := init + "\U{00}";
      assert u[..|u| - 1] == init && c / 256 == 0 && c % 256 == c;
      OrWithZero(c);
      assert s == init + [s[|s| - 1]];
      assert c != 0 ==> OrInto(u, c) == OrInto(init, 0) + [OrByte('\U{00}', c)];
    }
  }

  /** A string is its own canonical form exactly when it holds code points up to 255 only and does not
      start with a null. On those the score is injective, and orders by length and then by character. */
  lemma CanonicalForms(s: string)
    ensures Canon(s) == s <==> Canonical(s)
    ensures Canonical(Canon(s)) && Canon(Canon(s)) == Canon(s)
  {
    NullsAddNothing(Spread(s));
    BytesSpread(Canon(s));
    if Canonical(s) { BytesSpread(s); }
  }

  /** The score is the base-256 value of the characters when all of them are bytes. */
  lemma {:induction false} ScoreIsBase256(s: string)
    requires Bytes(s)
    ensures Score(s) == Base256(s)
  {
    BytesSpread(s);
    SpreadKeepsScore(s);
  }

  /** A canonical string of length n scores from 256^(n-1) up to but not including 256^n. */
  lemma ScoreBounds(s: string)
    requires Canonical(s)
    ensures Score(s) < Pow256(|s|)
    ensures s != "" ==> Pow256(|s| - 1) <= Score(s)
  {
    ScoreIsBase256(s);
    BytesBound(s);
    if s != "" {
      Leading(s);
      StepUp(0, s[0] as int, Pow256(|s| - 1));
    }
  }

  /** A leading null never counts. */
  lemma {:induction false} LeadingNullVanishes(s: string)
    ensures Score("\U{00}" + s) == Score(s)
  {
    var led := "\U{00}" + s;
    if s == "" {
      assert led[..0] == "" && led[0] as int == 0;
      OrZero(0);
    } else {
      LeadingNullVanishes(s[..|s| - 1]);
      assert led[..|led| - 1] == "\U{00}" + s[..|s| - 1];
    }
  }

  /** A wide character always spills: its high part is or-ed into what stands before it. */
  lemma WideCharacterSpills(s: string, c: char)
    ensures Score(s + [c]) == BitOr(Score(s), c as int / 256) * 256 + c as int % 256
  {
    EightIs256();
    assert (s + [c])[..|s|] == s;
    OrSplits(8, Score(s), 0, c as int / 256, c as int % 256);
    OrWithZero(c as int % 256);
  }
}
