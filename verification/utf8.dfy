/** Text as the bytes of its UTF-8 encoding, and the byte offsets that lie between characters. */
module Utf8 {

  type Byte = b: int | 0 <= b < 256

  /** A byte that does not continue a character. */
  predicate RuneStart(b: Byte) {
    b < 0x80 || b >= 0xC0
  }

  function EncodeChar(c: char): (bytes: seq<Byte>)
    ensures 1 <= |bytes| <= 4 && RuneStart(bytes[0])
    ensures forall i :: 0 < i < |bytes| ==> !RuneStart(bytes[i])
  {
    var n := c as int;
    if n < 0x80 then [n]
    else if n < 0x800 then [0xC0 + n / 0x40, 0x80 + n % 0x40]
    else if n < 0x1_0000 then [0xE0 + n / 0x1000, 0x80 + n / 0x40 % 0x40, 0x80 + n % 0x40]
    else [0xF0 + n / 0x4_0000, 0x80 + n / 0x1000 % 0x40, 0x80 + n / 0x40 % 0x40, 0x80 + n % 0x40]
  }

  /** The code point the bytes of one character stand for: the payload bits of the first byte and
      six bits of every further one. */
  function CodePoint(bytes: seq<int>): int
    requires 1 <= |bytes| <= 4
  {
    match |bytes|
    case 1 => bytes[0]
    case 2 => (bytes[0] - 0xC0) * 0x40 + (bytes[1] - 0x80)
    case 3 => (bytes[0] - 0xE0) * 0x1000 + (bytes[1] - 0x80) * 0x40 + (bytes[2] - 0x80)
    case _ => (bytes[0] - 0xF0) * 0x4_0000 + (bytes[1] - 0x80) * 0x1000 + (bytes[2] - 0x80) * 0x40 + (bytes[3] - 0x80)
  }

  lemma SixBits(n: nat)
    ensures n == n / 0x40 * 0x40 + n % 0x40
    ensures n / 0x40 == n / 0x1000 * 0x40 + n / 0x40 % 0x40
    ensures n / 0x1000 == n / 0x4_0000 * 0x40 + n / 0x1000 % 0x40
  {
    assert n / 0x40 / 0x40 == n / 0x1000;
    assert n / 0x1000 / 0x40 == n / 0x4_0000;
  }

  /** Encoding loses nothing, and the length tells the range of the code point. */
  lemma EncodeCharExactly(c: char)
    ensures CodePoint(EncodeChar(c)) == c as int
    ensures |EncodeChar(c)| == if c as int < 0x80 then 1 else if c as int < 0x800 then 2 else if c as int < 0x1_0000 then 3 else 4
  {
    SixBits(c as int);
  }

  function Encode(s: string): (bytes: seq<Byte>)
    ensures |s| <= |bytes|
  {
    if s == [] then [] else Encode(s[..|s| - 1]) + EncodeChar(s[|s| - 1])
  }

  function Size(s: string): nat {
    |Encode(s)|
  }

  lemma EncodeSnoc(init: string, c: char)
    ensures Encode(init + [c]) == Encode(init) + EncodeChar(c) && Size(init + [c]) == Size(init) + |EncodeChar(c)|
  {
    assert (init + [c])[..|init|] == init;
  }

  lemma EncodeNone(b: string)
    requires b == []
    ensures Encode(b) == []
  {
  }

  lemma {:induction false} EncodeJoins(a: string, b: string)
    ensures Encode(a + b) == Encode(a) + Encode(b)
    decreases |b|
  {
    hide Encode, EncodeChar;
    if b == [] {
      EncodeNone(b);
      assert a + b == a;
    } else {
      var init, c := b[..|b| - 1], b[|b| - 1];
      assert b == init + [c];
      assert a + b == a + init + [c];
      EncodeJoins(a, init);
      EncodeSnoc(init, c);
      EncodeSnoc(a + init, c);
      Regroup(Encode(a), Encode(init), EncodeChar(c));
    }
  }

  lemma Regroup(a: seq<Byte>, b: seq<Byte>, c: seq<Byte>)
    ensures a + (b + c) == a + b + c
  {
  }

  lemma SizeJoins(a: string, b: string)
    ensures Size(a + b) == Size(a) + Size(b)
  {
    EncodeJoins(a, b);
  }

  lemma SizeOfNone()
    ensures Size("") == 0
  {
  }

  /** The code's test: the offset is the end, or the byte there starts a character. */
  predicate ValidOffset(text: string, offset: int) {
    && 0 <= offset <= Size(text)
    && (offset == Size(text) || RuneStart(Encode(text)[offset]))
  }

  /** What it means: the offset is where some characters of the text end. */
  ghost predicate Boundary(text: string, offset: int) {
    exists i :: 0 <= i <= |text| && offset == Size(text[..i])
  }

  lemma BoundaryAt(text: string, i: nat)
    requires i <= |text|
    ensures Boundary(text, Size(text[..i]))
  {
  }

  lemma PrefixSize(text: string, i: nat)
    requires i <= |text|
    ensures Size(text[..i]) <= Size(text)
  {
    SizeJoins(text[..i], text[i..]);
    assert text[..i] + text[i..] == text;
  }

  /** A boundary stays one when text is put before and behind. */
  lemma BoundaryShifts(before: string, text: string, after: string, offset: int)
    requires Boundary(text, offset)
    ensures Boundary(before + text + after, Size(before) + offset)
  {
    hide Size;
    var i :| 0 <= i <= |text| && offset == Size(text[..i]);
    SizeJoins(before, text[..i]);
    assert (before + text + after)[..|before| + i] == before + text[..i];
    BoundaryAt(before + text + after, |before| + i);
  }

  lemma BoundaryRange(text: string, offset: int)
    requires Boundary(text, offset)
    ensures 0 <= offset <= Size(text)
  {
    var i :| 0 <= i <= |text| && offset == Size(text[..i]);
    PrefixSize(text, i);
  }

  lemma BoundarySnoc(init: string, c: char, offset: int)
    ensures Boundary(init + [c], offset) <==> Boundary(init, offset) || offset == Size(init + [c])
  {
    var text := init + [c];
    assert text[..|text|] == text;
    if Boundary(text, offset) {
      var i :| 0 <= i <= |text| && offset == Size(text[..i]);
      if i < |text| {
        assert text[..i] == init[..i];
        BoundaryAt(init, i);
      }
    }
    if Boundary(init, offset) {
      var i :| 0 <= i <= |init| && offset == Size(init[..i]);
      assert text[..i] == init[..i];
    }
    BoundaryAt(text, |text|);
  }

  lemma ValidSnoc(init: string, c: char, offset: int)
    ensures ValidOffset(init + [c], offset) <==> ValidOffset(init, offset) || offset == Size(init + [c])
  {
    EncodeSnoc(init, c);
    hide EncodeChar, Encode;
    var bytes, more := Encode(init), EncodeChar(c);
    assert forall k :: 0 <= k < |bytes| ==> (bytes + more)[k] == bytes[k];
    assert forall k :: |bytes| <= k < |bytes + more| ==> (bytes + more)[k] == more[k - |bytes|];
  }

  /** The test accepts exactly the offsets between characters. */
  lemma {:induction false} ValidExactly(text: string, offset: int)
    ensures ValidOffset(text, offset) <==> Boundary(text, offset)
  {
    if text == [] {
      BoundaryAt(text, 0);
      if Boundary(text, offset) {
        BoundaryRange(text, offset);
      }
    } else {
      var init, c := text[..|text| - 1], text[|text| - 1];
      assert text == init + [c];
      ValidExactly(init, offset);
      ValidSnoc(init, c, offset);
      BoundarySnoc(init, c, offset);
    }
  }
}
