/** The string operations that job IDs, task IDs, task record keys and election tickets rely on. */
module Text {
  import opened Wrappers

  /** strings.Split for a one-character separator. */
  function Split(s: string, c: char): (chunks: seq<string>)
    ensures |chunks| >= 1
    ensures forall chunk | chunk in chunks :: c !in chunk
  {
    if s == "" then [""]
    else
      var rest := Split(s[1..], c);
      if s[0] == c then [""] + rest else [[s[0]] + rest[0]] + rest[1..]
  }

  function Join(chunks: seq<string>, c: char): string
  {
    if |chunks| == 0 then ""
    else if |chunks| == 1 then chunks[0]
    else chunks[0] + [c] + Join(chunks[1..], c)
  }

  /** Splitting loses nothing: joining the chunks gives the string back. */
  lemma {:induction false} JoinSplit(s: string, c: char)
    ensures Join(Split(s, c), c) == s
  {
    if s != "" {
      JoinSplit(s[1..], c);
      var rest := Split(s[1..], c);
      if s[0] == c {
        assert Split(s, c)[1..] == rest;
      } else {
        assert Split(s, c)[1..] == rest[1..];
        if |rest| > 1 {
          assert Split(s, c)[0] + [c] + Join(rest[1..], c) == [s[0]] + (rest[0] + [c] + Join(rest[1..], c));
        }
      }
    }
  }

  lemma {:induction false} SplitPrefix(a: string, s: string, c: char)
    requires c !in a
    ensures var rest := Split(s, c); Split(a + s, c) == [a + rest[0]] + rest[1..]
  {
    if a == "" {
      assert a + s == s && a + Split(s, c)[0] == Split(s, c)[0];
    } else {
      SplitPrefix(a[1..], s, c);
      assert (a + s)[1..] == a[1..] + s;
      var rest := Split(s, c);
      assert [a[0]] + (a[1..] + rest[0]) == a + rest[0];
    }
  }

  /** Joining loses nothing exactly because no chunk holds the separator. */
  lemma {:induction false} SplitJoin(chunks: seq<string>, c: char)
    requires |chunks| >= 1
    requires forall chunk | chunk in chunks :: c !in chunk
    ensures Split(Join(chunks, c), c) == chunks
  {
    if |chunks| == 1 {
      SplitPrefix(chunks[0], "", c);
      assert chunks[0] + "" == chunks[0];
    } else {
      var tail := Join(chunks[1..], c);
      SplitJoin(chunks[1..], c);
      assert ([c] + tail)[1..] == tail;
      SplitPrefix(chunks[0], [c] + tail, c);
      assert Join(chunks, c) == chunks[0] + ([c] + tail);
      assert chunks[0] + "" == chunks[0];
    }
  }

  /** strings.LastIndex for a one-character needle. */
  function LastIndex(s: string, c: char): (i: int)
    ensures -1 <= i < |s|
    ensures i == -1 <==> c !in s
    ensures i >= 0 ==> s[i] == c && c !in s[i + 1..]
  {
    if s == "" then -1
    else if s[|s| - 1] == c then |s| - 1
    else LastIndex(s[..|s| - 1], c)
  }

  /** strings.SplitN(s, c, 2)[0]: the part of s before the first c, or all of s. */
  function Before(s: string, c: char): string
  {
    if s == "" || s[0] == c then "" else [s[0]] + Before(s[1..], c)
  }

  lemma {:induction false} BeforeOf(a: string, s: string, c: char)
    requires c !in a
    ensures Before(a + [c] + s, c) == a
  {
    if a == "" {
      assert a + [c] + s == [c] + s;
    } else {
      BeforeOf(a[1..], s, c);
      assert (a + [c] + s)[1..] == a[1..] + [c] + s;
    }
  }

  // ---- Decimal numbers ----

  function Digit(d: int): (c: char)
    requires 0 <= d < 10
    ensures IsDigit(c)
  {
    '0' + d as char
  }

  predicate IsDigit(c: char) { '0' <= c <= '9' }

  predicate AllDigits(s: string) { forall c | c in s :: IsDigit(c) }

  function DigitValue(c: char): (d: nat)
    requires IsDigit(c)
    ensures d < 10
  {
    (c - '0') as int
  }

  /** Decimal digits of n, without leading zeros. */
  function Digits(n: nat): (s: string)
    ensures |s| >= 1 && AllDigits(s)
  {
    if n < 10 then [Digit(n)] else Digits(n / 10) + [Digit(n % 10)]
  }

  function Value(s: string): int
    requires AllDigits(s)
  {
    if s == "" then 0 else 10 * Value(s[..|s| - 1]) + DigitValue(s[|s| - 1])
  }

  lemma {:induction false} ValueOfDigits(n: nat)
    ensures Value(Digits(n)) == n
  {
    if n >= 10 {
      ValueOfDigits(n / 10);
      assert Digits(n)[..|Digits(n)| - 1] == Digits(n / 10);
    }
  }

  /** fmt's %d. */
  function FormatInt(n: int): string
  {
    if n < 0 then "-" + Digits(-n) else Digits(n)
  }

  const MAX_INT64: int := 0x7fff_ffff_ffff_ffff
  const MIN_INT64: int := -0x8000_0000_0000_0000

  /** strconv.ParseInt(s, 10, 64): an optional sign, at least one digit, and the value must fit. */
  function ParseInt(s: string): Option<int>
  {
    var signed := s != "" && (s[0] == '-' || s[0] == '+');
    var digits := if signed then s[1..] else s;
    if digits == "" || !AllDigits(digits) then None
    else
      var n: int := if signed && s[0] == '-' then -Value(digits) else Value(digits);
      if MIN_INT64 <= n <= MAX_INT64 then Some(n) else None
  }

  /** Printing then parsing a number gives it back exactly when it fits in 64 bits. */
  lemma ParseFormatInt(n: int)
    ensures ParseInt(FormatInt(n)) == if MIN_INT64 <= n <= MAX_INT64 then Some(n) else None
  {
    var digits := Digits(if n < 0 then -n else n);
    ValueOfDigits(if n < 0 then -n else n);
    assert digits[0] in digits && IsDigit(digits[0]);
    if n < 0 {
      assert FormatInt(n)[1..] == digits;
    }
  }

  // ---- Zero-padded tickets and their string order ----

  /** The last `width` decimal digits of n, padded with zeros: fmt's %0<width>d when n fits. */
  function Pad(n: nat, width: nat): (s: string)
    ensures |s| == width
  {
    if width == 0 then "" else Pad(n / 10, width - 1) + [Digit(n % 10)]
  }

  function Pow10(width: nat): (p: nat)
    ensures p >= 1
  {
    if width == 0 then 1 else 10 * Pow10(width - 1)
  }

  /** Byte-wise order, as Go's < on strings. */
  predicate LexLess(a: string, b: string)
  {
    b != "" && (a == "" || a[0] < b[0] || (a[0] == b[0] && LexLess(a[1..], b[1..])))
  }

  lemma {:induction false} LexLessAppend(a: string, b: string, c: char, d: char)
    requires |a| == |b|
    ensures LexLess(a + [c], b + [d]) <==> LexLess(a, b) || (a == b && c < d)
  {
    if a == "" {
      assert (a + [c])[1..] == "" && (b + [d])[1..] == "";
    } else {
      assert (a + [c])[1..] == a[1..] + [c] && (b + [d])[1..] == b[1..] + [d];
      LexLessAppend(a[1..], b[1..], c, d);
      assert a == [a[0]] + a[1..] && b == [b[0]] + b[1..];
    }
  }

  /** On zero-padded numbers of one width, string order and string equality are numeric ones. */
  lemma {:induction false} PadOrder(n: nat, m: nat, width: nat)
    requires n < Pow10(width) && m < Pow10(width)
    ensures LexLess(Pad(n, width), Pad(m, width)) <==> n < m
    ensures Pad(n, width) == Pad(m, width) <==> n == m
  {
    if width > 0 {
      PadOrder(n / 10, m / 10, width - 1);
      var a, b := Pad(n / 10, width - 1), Pad(m / 10, width - 1);
      LexLessAppend(a, b, Digit(n % 10), Digit(m % 10));
      assert Pad(n, width)[..width - 1] == a && Pad(m, width)[..width - 1] == b;
      assert Pad(n, width)[width - 1] == Digit(n % 10) && Pad(m, width)[width - 1] == Digit(m % 10);
      assert n == 10 * (n / 10) + n % 10 && m == 10 * (m / 10) + m % 10;
    }
  }
}
