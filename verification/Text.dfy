/** Shared result types, and the text helpers of the encoders: trimming, key order, decimal numerals. */
module Text {

  datatype Option<+T> = None | Some(value: T)

  datatype Result<+T, +E> = Success(value: T) | Failure(error: E)

  /** The white space and line terminators that JavaScript's `trim` removes. */
  predicate IsSpace(c: char) {
    var u := c as int;
    9 <= u <= 13 || u == 32 || u == 0xA0 || u == 0x1680 || 0x2000 <= u <= 0x200A
    || u == 0x2028 || u == 0x2029 || u == 0x202F || u == 0x205F || u == 0x3000 || u == 0xFEFF
  }

  function Trim(s: string): (r: string)
    ensures r == "" || (!IsSpace(r[0]) && !IsSpace(r[|r| - 1]))
    ensures s != "" && !IsSpace(s[0]) && !IsSpace(s[|s| - 1]) ==> r == s
    decreases |s|
  {
    if s == "" then ""
    else if IsSpace(s[0]) then Trim(s[1..])
    else if IsSpace(s[|s| - 1]) then Trim(s[..|s| - 1])
    else s
  }

  /** Trimmed text is left alone by a second trim. */
  predicate Trimmed(s: string) {
    Trim(s) == s
  }

  // ---- the order Array.prototype.sort gives strings ----

  predicate LexLeq(a: string, b: string) {
    a == "" || (b != "" && (a[0] < b[0] || (a[0] == b[0] && LexLeq(a[1..], b[1..]))))
  }

  lemma LexTotal(a: string, b: string)
    ensures LexLeq(a, b) || LexLeq(b, a)
  {
  }

  lemma LexAntisymmetric(a: string, b: string)
    requires LexLeq(a, b) && LexLeq(b, a)
    ensures a == b
  {
    if a != "" && b != "" {
      LexAntisymmetric(a[1..], b[1..]);
      assert a == [a[0]] + a[1..] && b == [b[0]] + b[1..];
    }
  }

  lemma LexTransitive(a: string, b: string, c: string)
    requires LexLeq(a, b) && LexLeq(b, c)
    ensures LexLeq(a, c)
  {
  }

  predicate IsLeast(k: string, s: set<string>) {
    k in s && forall j :: j in s ==> LexLeq(k, j)
  }

  lemma LeastExists(s: set<string>) returns (k: string)
    requires s != {}
    ensures IsLeast(k, s)
  {
    k :| k in s;
    if s != {k} {
      var least := LeastExists(s - {k});
      LexTotal(k, least);
      if LexLeq(k, least) {
        forall j | j in s ensures LexLeq(k, j) {
          if j == k { LexTotal(k, k); } else { LexTransitive(k, least, j); }
        }
      } else {
        k := least;
      }
    } else {
      LexTotal(k, k);
    }
  }

  lemma LeastUnique(s: set<string>)
    requires s != {}
    ensures exists k :: k in s && IsLeast(k, s)
    ensures forall k, l :: IsLeast(k, s) && IsLeast(l, s) ==> k == l
  {
    var k := LeastExists(s);
    forall k, l | IsLeast(k, s) && IsLeast(l, s) ensures k == l {
      LexAntisymmetric(k, l);
    }
  }

  predicate Ascending(keys: seq<string>) {
    forall i, j :: 0 <= i < j < |keys| ==> LexLeq(keys[i], keys[j]) && keys[i] != keys[j]
  }

  lemma LeastFirst(least: string, rest: seq<string>, s: set<string>)
    requires IsLeast(least, s) && Ascending(rest) && forall k :: k in rest <==> k in s - {least}
    ensures Ascending([least] + rest)
  {
    hide LexLeq;
    var keys := [least] + rest;
    forall i, j | 0 <= i < j < |keys| ensures LexLeq(keys[i], keys[j]) && keys[i] != keys[j] {
      assert keys[j] == rest[j - 1] && keys[j] in rest;
      if i > 0 { assert keys[i] == rest[i - 1]; }
    }
  }

  /** The members of `s` in ascending order, each exactly once. */
  function Sorted(s: set<string>): (keys: seq<string>)
    ensures forall k :: k in keys <==> k in s
    ensures Ascending(keys)
    decreases |s|
  {
    if s == {} then []
    else
      LeastUnique(s);
      var least :| least in s && IsLeast(least, s);
      var rest := Sorted(s - {least});
      LeastFirst(least, rest, s);
      [least] + rest
  }

  // ---- decimal numerals ----

  predicate IsDigit(c: char) {
    '0' <= c <= '9'
  }

  function DigitChar(d: nat): (c: char)
    requires d < 10
    ensures IsDigit(c) && DigitValue(c) == d
  {
    ('0' as int + d) as char
  }

  function DigitValue(c: char): (d: nat)
    requires IsDigit(c)
    ensures d < 10
  {
    c as int - '0' as int
  }

  function Decimal(n: nat): (s: string)
    ensures s != "" && forall i :: 0 <= i < |s| ==> IsDigit(s[i])
  {
    if n < 10 then [DigitChar(n)] else Decimal(n / 10) + [DigitChar(n % 10)]
  }

  /** Reads digits as long as there are any; the value continues from `acc`. */
  function ReadDigits(s: string, acc: nat): (r: (nat, string))
    ensures |r.1| <= |s|
    ensures r.1 == "" || !IsDigit(r.1[0])
  {
    if s != "" && IsDigit(s[0]) then ReadDigits(s[1..], 10 * acc + DigitValue(s[0])) else (acc, s)
  }

  lemma {:induction false} ReadDecimal(n: nat, rest: string)
    ensures ReadDigits(Decimal(n) + rest, 0) == ReadDigits(rest, n)
    decreases n
  {
    if n < 10 {
      assert (Decimal(n) + rest)[1..] == rest;
    } else {
      var tail := [DigitChar(n % 10)] + rest;
      assert Decimal(n) + rest == Decimal(n / 10) + tail;
      ReadDecimal(n / 10, tail);
      assert tail[1..] == rest;
    }
  }

  /** A numeral is determined by any text that starts with it and goes on with a non-digit. */
  lemma DecimalPrefixUnique(m: nat, n: nat, a: string, b: string)
    requires Decimal(m) + a == Decimal(n) + b
    requires a == "" || !IsDigit(a[0])
    requires b == "" || !IsDigit(b[0])
    ensures m == n && a == b
  {
    ReadDecimal(m, a);
    ReadDecimal(n, b);
  }

  function Lower(s: string): string {
    seq(|s|, i requires 0 <= i < |s| => if 'A' <= s[i] <= 'Z' then (s[i] as int + 32) as char else s[i])
  }
}
