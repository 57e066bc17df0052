/** Splitting and joining at a separator, trimming, and decimal numerals, as the Go standard library has them. */
module Text {

  // ---- pieces ----

  /** Pieces that a separator can hold apart. */
  predicate Plain(parts: seq<string>, sep: char) {
    forall i :: 0 <= i < |parts| ==> sep !in parts[i]
  }

  function Join(parts: seq<string>, sep: char): string {
    if parts == [] then "" else if |parts| == 1 then parts[0] else parts[0] + [sep] + Join(parts[1..], sep)
  }

  function Split(s: string, sep: char): (parts: seq<string>)
    ensures |parts| >= 1 && Plain(parts, sep)
  {
    if s == "" then [""]
    else
      var rest := Split(s[1..], sep);
      if s[0] == sep then [""] + rest else [[s[0]] + rest[0]] + rest[1..]
  }

  lemma {:induction false} SplitPlain(s: string, sep: char)
    requires sep !in s
    ensures Split(s, sep) == [s]
  {
    if s != "" {
      SplitPlain(s[1..], sep);
      assert s == [s[0]] + s[1..];
    }
  }

  lemma {:induction false} SplitFirst(s: string, rest: string, sep: char)
    requires sep !in s
    ensures Split(s + [sep] + rest, sep) == [s] + Split(rest, sep)
  {
    if s == "" {
      assert ([sep] + rest)[1..] == rest;
      assert s + [sep] + rest == [sep] + rest;
    } else {
      SplitFirst(s[1..], rest, sep);
      assert (s + [sep] + rest)[1..] == s[1..] + [sep] + rest;
      assert s == [s[0]] + s[1..];
    }
  }

  /** Splitting undoes joining. */
  lemma {:induction false} SplitJoin(parts: seq<string>, sep: char)
    requires parts != [] && Plain(parts, sep)
    ensures Split(Join(parts, sep), sep) == parts
  {
    if |parts| == 1 {
      SplitPlain(parts[0], sep);
    } else {
      SplitJoin(parts[1..], sep);
      SplitFirst(parts[0], Join(parts[1..], sep), sep);
    }
  }

  /** The first separator decides where the first piece ends. */
  lemma FirstPiece(a: string, s: string, b: string, t: string, sep: char)
    requires sep !in a && sep !in b && a + [sep] + s == b + [sep] + t
    ensures a == b && s == t
  {
    var u := a + [sep] + s;
    assert u[|a|] == sep && u[|b|] == sep;
    assert a == u[..|a|] && b == u[..|b|];
    assert s == u[|a| + 1..] && t == u[|b| + 1..];
  }

  /** So does the last separator for the last piece. */
  lemma LastPiece(a: string, s: string, b: string, t: string, sep: char)
    requires sep !in s && sep !in t && a + [sep] + s == b + [sep] + t
    ensures a == b && s == t
  {
    var u := a + [sep] + s;
    assert u[|a|] == sep && u[|b|] == sep;
    assert a == u[..|a|] && b == u[..|b|];
    assert s == u[|a| + 1..] && t == u[|b| + 1..];
  }

  /** Pieces joined are told apart again. */
  lemma JoinInjective(xs: seq<string>, ys: seq<string>, sep: char)
    requires xs != [] && ys != [] && Plain(xs, sep) && Plain(ys, sep) && Join(xs, sep) == Join(ys, sep)
    ensures xs == ys
  {
    SplitJoin(xs, sep);
    SplitJoin(ys, sep);
  }

  lemma {:induction false} JoinAppend(ys: seq<string>, zs: seq<string>, sep: char)
    requires ys != [] && zs != []
    ensures Join(ys + zs, sep) == Join(ys, sep) + [sep] + Join(zs, sep)
  {
    if |ys| == 1 {
      assert (ys + zs)[1..] == zs;
    } else {
      JoinAppend(ys[1..], zs, sep);
      assert (ys + zs)[1..] == ys[1..] + zs;
    }
  }

  /** A path lies below another only when its pieces begin with those of the other. */
  lemma {:induction false} PrefixPieces(ys: seq<string>, xs: seq<string>, sep: char)
    requires ys != [] && Plain(xs, sep) && Plain(ys, sep) && Join(ys, sep) + [sep] <= Join(xs, sep)
    ensures |ys| < |xs| && ys == xs[..|ys|]
    decreases |ys|
  {
    var y, x := Join(ys, sep), Join(xs, sep);
    assert x[|y|] == sep;
    assert |xs| > 1;
    var tail := if |ys| == 1 then "" else Join(ys[1..], sep) + [sep];
    assert y + [sep] == ys[0] + [sep] + tail;
    FirstPiece(ys[0], tail + x[|y| + 1..], xs[0], Join(xs[1..], sep), sep);
    if |ys| > 1 {
      assert tail <= Join(xs[1..], sep);
      PrefixPieces(ys[1..], xs[1..], sep);
      assert ys == [ys[0]] + ys[1..] && xs[..|ys|] == [xs[0]] + xs[1..][..|ys| - 1];
    }
  }

  // ---- trimming ----

  function TrimPrefix(s: string, prefix: string): string {
    if prefix <= s then s[|prefix|..] else s
  }

  predicate HasSuffix(s: string, suffix: string) {
    |suffix| <= |s| && s[|s| - |suffix|..] == suffix
  }

  function TrimSuffix(s: string, suffix: string): string {
    if HasSuffix(s, suffix) then s[..|s| - |suffix|] else s
  }

  // ---- numerals ----

  const MAX_INT := 0x7fff_ffff_ffff_ffff

  function Digit(n: nat): char
    requires n < 10
  {
    '0' + n as char
  }

  predicate IsDigit(c: char) {
    '0' <= c <= '9'
  }

  function DigitValue(c: char): nat
    requires IsDigit(c)
  {
    (c - '0') as nat
  }

  function Itoa(n: nat): string {
    if n < 10 then [Digit(n)] else Itoa(n / 10) + [Digit(n % 10)]
  }

  predicate AllDigits(s: string) {
    forall i :: 0 <= i < |s| ==> IsDigit(s[i])
  }

  function Magnitude(s: string): nat
    requires AllDigits(s)
  {
    if s == "" then 0 else 10 * Magnitude(s[..|s| - 1]) + DigitValue(s[|s| - 1])
  }

  predicate Signed(s: string) {
    s != "" && (s[0] == '-' || s[0] == '+')
  }

  predicate IsNumber(s: string) {
    var digits := if Signed(s) then s[1..] else s;
    digits != "" && AllDigits(digits)
  }

  /** What Atoi answers when its error is ignored: 0 for what is no number, the nearest 64-bit value when out of
      range. */
  function Atoi(s: string): (n: int)
    ensures -MAX_INT - 1 <= n <= MAX_INT
  {
    if !IsNumber(s) then 0
    else
      var m := Magnitude(if Signed(s) then s[1..] else s);
      if s[0] == '-' then (if m <= MAX_INT + 1 then 0 - m else -MAX_INT - 1)
      else if m <= MAX_INT then m else MAX_INT
  }

  lemma {:induction false} ItoaDigits(n: nat)
    ensures Itoa(n) != "" && AllDigits(Itoa(n)) && Magnitude(Itoa(n)) == n
  {
    if n >= 10 {
      ItoaDigits(n / 10);
      assert Itoa(n)[..|Itoa(n)| - 1] == Itoa(n / 10);
    }
  }

  /** Reading a numeral gives back the number, for every 64-bit number. */
  lemma AtoiItoa(n: nat)
    requires n <= MAX_INT
    ensures IsNumber(Itoa(n)) && Atoi(Itoa(n)) == n
  {
    ItoaDigits(n);
    assert IsDigit(Itoa(n)[0]);
  }

  /** No numeral holds a separator. */
  lemma ItoaPlain(n: nat, sep: char)
    requires !IsDigit(sep)
    ensures sep !in Itoa(n)
  {
  }
}
