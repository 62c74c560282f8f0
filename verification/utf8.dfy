/** Go's unicode/utf8.Valid: well-formed UTF-8, section 4 of RFC 3629. */
module UTF8 {
  import opened Records

  predicate Between(c: char, low: int, high: int) {
    low <= c as int <= high
  }

  predicate Continuation(c: char) {
    Between(c, 0x80, 0xBF)
  }

  /** What may follow the lead byte of a sequence of more than two bytes. */
  predicate Second(lead: char, c: char) {
    if lead as int == 0xE0 then Between(c, 0xA0, 0xBF)
    else if lead as int == 0xED then Between(c, 0x80, 0x9F)
    else if lead as int == 0xF0 then Between(c, 0x90, 0xBF)
    else if lead as int == 0xF4 then Between(c, 0x80, 0x8F)
    else Continuation(c)
  }

  /** How long a sequence this lead byte starts, and 0 for a byte that starts none. */
  function Announced(lead: char): (n: nat)
    ensures n <= 4
  {
    if Between(lead, 0, 0x7F) then 1
    else if Between(lead, 0xC2, 0xDF) then 2
    else if Between(lead, 0xE0, 0xEF) then 3
    else if Between(lead, 0xF0, 0xF4) then 4
    else 0
  }

  /** A well-formed sequence stands in front. */
  predicate StartsRune(s: Bytes) {
    && s != [] && 0 < Announced(s[0]) <= |s|
    && (Announced(s[0]) > 1 ==> Second(s[0], s[1]))
    && (forall i :: 2 <= i < Announced(s[0]) ==> Continuation(s[i]))
  }

  /** utf8.Valid: one well-formed sequence after the other. */
  predicate ValidUTF8(s: Bytes)
    decreases |s|
  {
    s == [] || (StartsRune(s) && ValidUTF8(s[Announced(s[0])..]))
  }

  /** A sequence that starts in front of an ASCII byte ends in front of it. */
  lemma RuneStopsAtASCII(a: Bytes, b: Bytes)
    requires a != [] && b != [] && b[0] as int < 0x80
    ensures StartsRune(a + b) <==> StartsRune(a)
  {
    var s := a + b;
    assert s[0] == a[0] && s[|a|] == b[0];
    assert forall i :: 0 <= i < |a| ==> s[i] == a[i];
  }

  /** Text in front of an ASCII byte is judged apart from what follows. */
  lemma {:induction false} SplitsAtASCII(a: Bytes, b: Bytes)
    requires b != [] && b[0] as int < 0x80
    ensures ValidUTF8(a + b) <==> ValidUTF8(a) && ValidUTF8(b)
    decreases |a|
  {
    if a == [] {
      assert a + b == b;
    } else {
      RuneStopsAtASCII(a, b);
      assert (a + b)[0] == a[0];
      if StartsRune(a) {
        var n := Announced(a[0]);
        assert (a + b)[n..] == a[n..] + b;
        SplitsAtASCII(a[n..], b);
      }
    }
  }

  lemma {:induction false} Concatenates(a: Bytes, b: Bytes)
    requires ValidUTF8(a) && ValidUTF8(b)
    ensures ValidUTF8(a + b)
    decreases |a|
  {
    if a == [] {
      assert a + b == b;
    } else {
      var n := Announced(a[0]);
      assert forall i :: 0 <= i < |a| ==> (a + b)[i] == a[i];
      assert (a + b)[n..] == a[n..] + b;
      Concatenates(a[n..], b);
    }
  }

  lemma {:induction false} ASCIIIsValid(s: Bytes)
    requires forall c :: c in s ==> c as int < 0x80
    ensures ValidUTF8(s)
  {
    if s != [] {
      assert s[0] in s && forall c :: c in s[1..] ==> c in s;
      ASCIIIsValid(s[1..]);
    }
  }
}
