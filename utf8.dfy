/** Byte lengths of text in UTF-8, the encoding Rust strings use: a
    `String`'s `len()` and the offsets handed out into it count bytes, not
    characters. */
module Utf8 {

  /** The number of bytes of `c` in UTF-8 (`char::len_utf8`). */
  function Utf8Len(c: char): (n: nat)
    ensures 1 <= n <= 4
    ensures (c as int) < 128 <==> n == 1
  {
    if (c as int) < 0x80 then 1
    else if (c as int) < 0x800 then 2
    else if (c as int) < 0x1_0000 then 3
    else 4
  }

  /** The number of bytes of `s` in UTF-8 (`str::len`). */
  function Utf8Size(s: string): (n: nat)
    ensures |s| <= n <= 4 * |s|
  {
    if s == [] then 0 else Utf8Size(s[..|s| - 1]) + Utf8Len(s[|s| - 1])
  }

  predicate IsAscii(s: string) {
    forall i :: 0 <= i < |s| ==> (s[i] as int) < 128
  }

  /** The byte length of a concatenation is the sum of the byte lengths. */
  lemma {:induction false} Utf8SizeAppend(a: string, b: string)
    ensures Utf8Size(a + b) == Utf8Size(a) + Utf8Size(b)
    decreases |b|
  {
    if b == [] {
      assert a + b == a;
    } else {
      var b' := b[..|b| - 1];
      assert (a + b)[..|a + b| - 1] == a + b';
      Utf8SizeAppend(a, b');
    }
  }

  /** Bytes and characters agree exactly on ASCII text. */
  lemma {:induction false} Utf8SizeAscii(s: string)
    ensures IsAscii(s) <==> Utf8Size(s) == |s|
    decreases |s|
  {
    if s != [] {
      var s' := s[..|s| - 1];
      Utf8SizeAscii(s');
      assert IsAscii(s) <==> IsAscii(s') && (s[|s| - 1] as int) < 128 by {
        if IsAscii(s') && (s[|s| - 1] as int) < 128 {
          forall i | 0 <= i < |s|
            ensures (s[i] as int) < 128
          {
            if i < |s| - 1 {
              assert s[i] == s'[i];
            }
          }
        }
        if IsAscii(s) {
          forall i | 0 <= i < |s'|
            ensures (s'[i] as int) < 128
          {
            assert s'[i] == s[i];
          }
        }
      }
    }
  }
}
