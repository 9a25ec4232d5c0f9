/**
 * Go strings are byte sequences holding UTF-8 text, and `len(s)` counts bytes.
 * A Dafny `string` is a sequence of Unicode scalar values, so the byte length
 * of the Go string it stands for is the sum of the UTF-8 widths of its characters.
 */
module GoString {

  /** The number of bytes UTF-8 encodes one scalar value in. */
  function Utf8Width(c: char): (n: nat)
    ensures 1 <= n <= 4
    ensures n == 1 <==> c as int < 0x80
  {
    if c as int < 0x80 then 1
    else if c as int < 0x800 then 2
    else if c as int < 0x1_0000 then 3
    else 4
  }

  /** `len(s)`: the length in bytes of the UTF-8 encoding of `s`. */
  function Len(s: string): (n: nat)
    ensures |s| <= n <= 4 * |s|
    decreases |s|
  {
    if s == [] then 0 else Len(s[..|s| - 1]) + Utf8Width(s[|s| - 1])
  }

  /** The byte length of a concatenation is the sum of the byte lengths. */
  lemma {:induction false} LenConcat(a: string, b: string)
    ensures Len(a + b) == Len(a) + Len(b)
    decreases |b|
  {
    if b != [] {
      var init := b[..|b| - 1];
      assert (a + b)[..|a + b| - 1] == a + init;
      assert (a + b)[|a + b| - 1] == b[|b| - 1];
      assert Len(a + b) == Len(a + init) + Utf8Width(b[|b| - 1]);
      LenConcat(a, init);
      assert Len(b) == Len(init) + Utf8Width(b[|b| - 1]);
    } else {
      assert a + b == a;
    }
  }

  /** On ASCII text, and only there, bytes and characters coincide. */
  lemma {:induction false} AsciiLen(s: string)
    ensures Len(s) == |s| <==> forall i :: 0 <= i < |s| ==> s[i] as int < 0x80
    decreases |s|
  {
    if s != [] {
      var init := s[..|s| - 1];
      AsciiLen(init);
      assert forall i :: 0 <= i < |init| ==> init[i] == s[i];
    }
  }

  /** A two-byte and a three-byte character. */
  lemma NonAsciiWidths()
    ensures Len("/é") == 3
    ensures Len("/café") == 6
    ensures Len("€") == 3
  {
    assert "/é"[..1] == "/";
    assert "/café"[..4] == "/caf";
    assert "/caf"[..3] == "/ca";
    assert "/ca"[..2] == "/c";
    assert "/c"[..1] == "/";
    assert "€"[..0] == "";
  }
}
