/** internal/adapter/native.go: which entry files the adapter planners read at all. */
module NativeFiles {
  import opened Wrappers
  import opened Records
  import opened UTF8

  const MAX_NATIVE_BYTES: nat := 0x10_0000

  const NUL: char := 0 as char

  datatype ReadFault = TooLarge | Binary | InvalidUTF8

  /** DiscoverSnapshot's checks of a regular file, in their order. */
  function ReadFaultOf(content: Bytes): Option<ReadFault> {
    if |content| > MAX_NATIVE_BYTES then Some(TooLarge)
    else if NUL in content then Some(Binary)
    else if !ValidUTF8(content) then Some(InvalidUTF8)
    else None
  }

  predicate Readable(content: Bytes) {
    ReadFaultOf(content).None?
  }

  predicate IsText(content: Bytes) {
    NUL !in content && ValidUTF8(content)
  }

  lemma TextJoins(a: Bytes, b: Bytes)
    requires IsText(a) && IsText(b)
    ensures IsText(a + b)
  {
    Concatenates(a, b);
  }

  lemma ASCIIIsText(s: Bytes)
    requires forall c :: c in s ==> 0 < c as int < 0x80
    ensures IsText(s)
  {
    ASCIIIsValid(s);
  }

  /** Text with more text behind it that starts with an ASCII byte. */
  lemma TextBefore(a: Bytes, b: Bytes)
    requires IsText(b) && b != [] && b[0] as int < 0x80
    ensures IsText(a + b) <==> IsText(a)
  {
    SplitsAtASCII(a, b);
    assert NUL in a + b <==> NUL in a;
  }
}
