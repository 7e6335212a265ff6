/**
 UTF-8 text as byte sequences: validity as section 3 of RFC 3629 defines it,
 and where such text may be cut.
 */
module Utf8 {

  type Byte = b: int | 0 <= b < 256
  type Bytes = seq<Byte>

  /** A byte that is not 10xxxxxx, so a character can start with it. */
  predicate RuneStart(b: Byte) {
    !(0x80 <= b < 0xC0)
  }

  predicate Continuation(b: Byte) {
    0x80 <= b < 0xC0
  }

  /** Bounds on the second byte of a character, given its first. */
  predicate SecondByte(first: Byte, second: Byte) {
    && Continuation(second)
    && (first == 0xE0 ==> 0xA0 <= second)
    && (first == 0xED ==> second < 0xA0)
    && (first == 0xF0 ==> 0x90 <= second)
    && (first == 0xF4 ==> second < 0x90)
  }

  /** The length of the character s starts with, or 0 if it starts with none. */
  function RuneLen(s: Bytes): (n: nat)
    ensures n <= 4 && n <= |s|
    ensures n > 0 ==> RuneStart(s[0])
    ensures forall k :: 0 < k < n ==> !RuneStart(s[k])
  {
    if |s| == 0 then 0
    else if s[0] < 0x80 then 1
    else if 0xC2 <= s[0] < 0xE0 then
      if |s| >= 2 && Continuation(s[1]) then 2 else 0
    else if 0xE0 <= s[0] < 0xF0 then
      if |s| >= 3 && SecondByte(s[0], s[1]) && Continuation(s[2]) then 3 else 0
    else if 0xF0 <= s[0] < 0xF5 then
      if |s| >= 4 && SecondByte(s[0], s[1]) && Continuation(s[2]) && Continuation(s[3]) then 4 else 0
    else 0
  }

  predicate Valid(s: Bytes) {
    s == [] || (RuneLen(s) > 0 && Valid(s[RuneLen(s)..]))
  }

  /** Only a character's own bytes decide where it ends. */
  lemma RuneLenPrefix(s: Bytes, t: Bytes)
    requires RuneLen(s) > 0
    requires RuneLen(s) <= |t|
    requires forall k :: 0 <= k < RuneLen(s) ==> s[k] == t[k]
    ensures RuneLen(t) == RuneLen(s)
  {
  }

  /** Valid text may be cut wherever a character starts: both pieces are valid. */
  lemma {:induction false} CutAtRuneStart(s: Bytes, i: nat)
    requires Valid(s) && i <= |s|
    requires i < |s| ==> RuneStart(s[i])
    ensures Valid(s[..i]) && Valid(s[i..])
  {
    if i == 0 {
      assert s[..i] == [] && s[i..] == s;
    } else {
      var n := RuneLen(s);
      assert n <= i;
      CutAtRuneStart(s[n..], i - n);
      RuneLenPrefix(s, s[..i]);
      assert s[..i][n..] == s[n..][..i - n];
      assert s[i..] == s[n..][i - n..];
    }
  }

  lemma {:induction false} ValidConcat(a: Bytes, b: Bytes)
    requires Valid(a) && Valid(b)
    ensures Valid(a + b)
  {
    if a == [] {
      assert a + b == b;
    } else {
      var n := RuneLen(a);
      RuneLenPrefix(a, a + b);
      hide RuneLen;
      ValidConcat(a[n..], b);
      assert (a + b)[n..] == a[n..] + b;
    }
  }

  /** Plain ASCII is valid. */
  lemma {:induction false} AsciiValid(s: Bytes)
    requires forall k :: 0 <= k < |s| ==> s[k] < 0x80
    ensures Valid(s)
  {
    if s != [] {
      AsciiValid(s[1..]);
    }
  }

  /** In valid text no byte is more than three bytes past the start of its character. */
  lemma {:induction false} RuneStartNear(s: Bytes, i: nat) returns (j: nat)
    requires Valid(s) && i < |s|
    ensures j <= i <= j + 3 && RuneStart(s[j])
  {
    var n := RuneLen(s);
    if i < n {
      j := 0;
    } else {
      j := RuneStartNear(s[n..], i - n);
      j := j + n;
    }
  }
}
