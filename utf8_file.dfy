/** The byte-level part of `LoadUtf8FileToUtf16` (AppXLauncher.cpp, lines 4-32): the
    optional UTF-8 byte-order mark in front of the mapped file view is skipped by
    advancing the view pointer and shrinking the size in place. */
module Utf8File {

  newtype byte = x: int | 0 <= x < 256

  /** The UTF-8 encoding of U+FEFF. */
  const Utf8Bom: seq<byte> := [0xEF, 0xBB, 0xBF]

  predicate HasBom(view: seq<byte>) {
    |view| >= 3 && view[..3] == Utf8Bom
  }

  /** The bytes handed to the UTF-8 decoder: the view without its byte-order mark. */
  function WithoutBom(view: seq<byte>): seq<byte> {
    if HasBom(view) then view[3..] else view
  }

  /** The BOM test of line 25, bytes read as unsigned: on a hit the pointer moves 3
      bytes on and the size drops by 3; otherwise both stay. */
  method SkipBom(view: seq<byte>) returns (ptr: nat, size: nat)
    ensures ptr + size == |view|
    ensures HasBom(view) ==> ptr == 3
    ensures !HasBom(view) ==> ptr == 0
    ensures view[ptr..ptr + size] == WithoutBom(view)
  {
    ptr, size := 0, |view|;
    if size >= 3 && view[ptr] == 0xEF && view[ptr + 1] == 0xBB && view[ptr + 2] == 0xBF {
      assert view[..3] == Utf8Bom;
      ptr := ptr + 3;
      size := size - 3;
    }
  }

  /** The value a byte has as a `char` under MSVC, where `char` is signed. */
  function SignedChar(b: byte): int {
    if b < 128 then b as int else b as int - 256
  }

  /** The test of line 25 as compiled with a signed `char`: `ptr[0]` is promoted to an
      int in -128..127 and compared with the int 0xEF (239), so it never holds and the
      byte-order mark is never skipped. */
  method SkipBomAsWritten(view: seq<byte>) returns (ptr: int, size: int)
    ensures ptr == 0 && size == |view|
  {
    // `size.QuadPart` is a signed 64-bit count; the pointer is an offset into the view
    ptr, size := 0, |view|;
    var matches := false;
    if size >= 3 {
      var c0, c1, c2 := SignedChar(view[0]), SignedChar(view[1]), SignedChar(view[2]);
      matches := c0 == 0xEF && c1 == 0xBB && c2 == 0xBF;
    }
    if matches {
      ptr := ptr + 3;
      size := size - 3;
    }
  }

  /** A byte-order mark in front of `rest` is removed, and only the mark. */
  lemma {:induction false} BomPrefixRemoved(rest: seq<byte>)
    ensures HasBom(Utf8Bom + rest)
    ensures WithoutBom(Utf8Bom + rest) == rest
    ensures |WithoutBom(Utf8Bom + rest)| == |Utf8Bom + rest| - 3
  {
    assert (Utf8Bom + rest)[..3] == Utf8Bom;
    assert (Utf8Bom + rest)[3..] == rest;
  }

  /** A view without a mark is passed on unchanged. */
  lemma NoBomUnchanged(view: seq<byte>)
    requires !HasBom(view)
    ensures WithoutBom(view) == view
  {
  }

  /** A view that does begin with the mark, yet the as-written test (signed bytes)
      rejects it: the decoder would be handed U+FEFF in front of the JSON text. */
  lemma AsWrittenMissesBom()
    ensures var view: seq<byte> := Utf8Bom + [0x7B, 0x7D];
      HasBom(view) && WithoutBom(view) == [0x7B, 0x7D] &&
      SignedChar(view[0]) == -17 && SignedChar(view[0]) != 0xEF
  {
    BomPrefixRemoved([0x7B, 0x7D]);
  }
}
