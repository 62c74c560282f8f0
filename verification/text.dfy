/** The parts of Go's strings and strconv packages the codecs use, on bytes. */
module Text {
  import opened Wrappers

  /** strings.TrimSpace's ASCII white space. */
  predicate IsSpace(c: char) {
    c == ' ' || c == '\t' || c == '\n' || c == '\r' || c == 11 as char || c == 12 as char
  }

  function TrimLeft(s: string): string {
    if s != "" && IsSpace(s[0]) then TrimLeft(s[1..]) else s
  }

  function TrimRight(s: string): string {
    if s != "" && IsSpace(s[|s| - 1]) then TrimRight(s[..|s| - 1]) else s
  }

  function Trim(s: string): string {
    TrimRight(TrimLeft(s))
  }

  /** Neither end is white space, so trimming has nothing to do. */
  predicate Trimmed(s: string) {
    s == "" || (!IsSpace(s[0]) && !IsSpace(s[|s| - 1]))
  }

  lemma {:induction false} TrimRightAfter(a: string, b: string)
    requires a != "" && !IsSpace(a[|a| - 1])
    ensures TrimRight(a + b) == a + TrimRight(b)
  {
    if b == "" {
      assert a + b == a;
    } else if IsSpace(b[|b| - 1]) {
      TrimRightAfter(a, b[..|b| - 1]);
      assert (a + b)[..|a + b| - 1] == a + b[..|b| - 1];
    }
  }

  lemma {:induction false} TrimRightOfFront(c: char, s: string)
    ensures TrimRight([c] + s) == if TrimRight(s) == "" && IsSpace(c) then "" else [c] + TrimRight(s)
  {
    if s == "" {
      assert [c] + s == [c];
      assert [c][..0] == "";
    } else if IsSpace(s[|s| - 1]) {
      TrimRightOfFront(c, s[..|s| - 1]);
      assert ([c] + s)[..|s|] == [c] + s[..|s| - 1];
    }
  }

  lemma {:induction false} TrimsCommute(s: string)
    ensures TrimLeft(TrimRight(s)) == TrimRight(TrimLeft(s))
  {
    if s != "" {
      var rest := s[1..];
      assert s == [s[0]] + rest;
      TrimRightOfFront(s[0], rest);
      if IsSpace(s[0]) {
        TrimsCommute(rest);
        if TrimRight(rest) != "" {
          assert ([s[0]] + TrimRight(rest))[1..] == TrimRight(rest);
        }
      }
    }
  }

  lemma {:induction false} TrimRightTwice(s: string)
    ensures TrimRight(TrimRight(s)) == TrimRight(s)
    ensures TrimRight(s) != "" ==> !IsSpace(TrimRight(s)[|TrimRight(s)| - 1])
  {
    if s != "" && IsSpace(s[|s| - 1]) {
      TrimRightTwice(s[..|s| - 1]);
    }
  }

  lemma {:induction false} TrimLeftIsClean(s: string)
    ensures TrimLeft(s) != "" ==> !IsSpace(TrimLeft(s)[0])
    ensures |TrimLeft(s)| <= |s|
    ensures forall c :: c in TrimLeft(s) ==> c in s
  {
    if s != "" && IsSpace(s[0]) {
      TrimLeftIsClean(s[1..]);
    }
  }

  lemma {:induction false} TrimRightIsPart(s: string)
    ensures |TrimRight(s)| <= |s| && TrimRight(s) == s[..|TrimRight(s)|]
  {
    if s != "" && IsSpace(s[|s| - 1]) {
      TrimRightIsPart(s[..|s| - 1]);
    }
  }

  /** Trimming leaves a trimmed part of the text, and a trimmed text alone. */
  lemma TrimFacts(s: string)
    ensures Trimmed(Trim(s)) && Trim(Trim(s)) == Trim(s)
    ensures Trimmed(s) ==> Trim(s) == s
    ensures |Trim(s)| <= |s| && forall c :: c in Trim(s) ==> c in s
  {
    TrimLeftIsClean(s);
    TrimRightTwice(TrimLeft(s));
    TrimRightIsPart(TrimLeft(s));
  }

  /** What is cut after a separator trims the same as the value written behind it. */
  lemma TrimOfCutValue(value: string)
    ensures Trim(TrimRight(" " + value)) == Trim(value)
  {
    TrimsCommute(" " + value);
    assert (" " + value)[1..] == value;
    TrimRightTwice(TrimLeft(value));
  }

  /** The first position of c, or the length. */
  function IndexByte(s: string, c: char): (i: nat)
    ensures i <= |s|
    ensures i < |s| ==> s[i] == c
    ensures forall k :: 0 <= k < i ==> s[k] != c
  {
    if s == "" || s[0] == c then 0 else 1 + IndexByte(s[1..], c)
  }

  lemma {:induction false} IndexOfSeparator(a: string, c: char, b: string)
    requires c !in a
    ensures IndexByte(a + [c] + b, c) == |a|
  {
    var s := a + [c] + b;
    assert s[|a|] == c;
    forall k | 0 <= k < |a|
      ensures s[k] != c
    {
      assert s[k] == a[k] && a[k] in a;
    }
  }

  function LowerByte(c: char): char {
    if 'A' <= c <= 'Z' then (c as int + 32) as char else c
  }

  function Lower(s: string): string {
    seq(|s|, i requires 0 <= i < |s| => LowerByte(s[i]))
  }

  /** strings.EqualFold(s, "none"); no non-ASCII letter folds to these. */
  predicate IsNone(s: string) {
    Lower(s) == "none"
  }

  predicate IsDigit(c: char) {
    '0' <= c <= '9'
  }

  function DigitOf(n: nat): char
    requires n < 10
  {
    ('0' as int + n) as char
  }

  function ValueOf(c: char): nat
    requires IsDigit(c)
  {
    c as int - '0' as int
  }

  /** fmt's %d of an unsigned value. */
  function Decimal(n: nat): (s: string)
    ensures s != "" && forall c :: c in s ==> IsDigit(c)
  {
    if n < 10 then [DigitOf(n)] else Decimal(n / 10) + [DigitOf(n % 10)]
  }

  predicate AllDigits(s: string) {
    forall c :: c in s ==> IsDigit(c)
  }

  function DigitsValue(s: string): nat
    requires AllDigits(s)
  {
    if s == "" then 0 else DigitsValue(s[..|s| - 1]) * 10 + ValueOf(s[|s| - 1])
  }

  const MAX_UINT64: nat := 0xFFFF_FFFF_FFFF_FFFF

  type Uint64 = n: nat | n <= MAX_UINT64

  /** strconv.ParseUint(s, 10, 64). */
  function ParseUint(s: string): Option<Uint64> {
    if s == "" || !AllDigits(s) || DigitsValue(s) > MAX_UINT64 then None else Some(DigitsValue(s))
  }

  lemma {:induction false} DecimalIsShort(n: nat, k: nat)
    requires n < Power10(k) && k > 0
    ensures |Decimal(n)| <= k
  {
    if n >= 10 {
      DecimalIsShort(n / 10, k - 1);
    }
  }

  function Power10(k: nat): nat {
    if k == 0 then 1 else 10 * Power10(k - 1)
  }

  lemma {:induction false} DecimalIsParsed(n: nat)
    ensures DigitsValue(Decimal(n)) == n
  {
    if n >= 10 {
      DecimalIsParsed(n / 10);
      assert Decimal(n)[..|Decimal(n)| - 1] == Decimal(n / 10);
    } else {
      assert [DigitOf(n)][..0] == "";
    }
  }

  /** Every 64-bit value survives printing and parsing. */
  lemma ParseUintUndoesDecimal(n: Uint64)
    ensures ParseUint(Decimal(n)) == Some(n)
  {
    DecimalIsParsed(n);
  }
}
