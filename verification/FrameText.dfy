/** Cutting a message body into pieces that fit a frame. */
module FrameText {
  import opened Common
  import opened Utf8
  import Split

  const SPACE: Byte := 32

  function TrimRight(s: Bytes): (t: Bytes)
    ensures |t| <= |s| && t == s[..|t|] && (forall k :: |t| <= k < |s| ==> s[k] == SPACE)
  {
    if s != [] && s[|s| - 1] == SPACE then TrimRight(s[..|s| - 1]) else s
  }

  function TrimLeft(s: Bytes): (t: Bytes)
    ensures |t| <= |s| && t == s[|s| - |t|..] && (forall k :: 0 <= k < |s| - |t| ==> s[k] == SPACE)
  {
    if s != [] && s[0] == SPACE then TrimLeft(s[1..]) else s
  }

  /** One past the last space in s, or 0. */
  function AfterLastSpace(s: Bytes): (n: nat)
    ensures n <= |s| && (n > 0 ==> s[n - 1] == SPACE) && (forall k :: n <= k < |s| ==> s[k] != SPACE)
  {
    if s == [] then 0 else if s[|s| - 1] == SPACE then |s| else AfterLastSpace(s[..|s| - 1])
  }

  /** Where to cut: after the last space if that is past the middle, else at a character. */
  function CutPoint(text: Bytes, limit: nat): (cut: nat)
    requires |text| > limit
    ensures cut <= limit
  {
    var cut := Split.BackToRune(text, limit);
    var sp := AfterLastSpace(text[..cut]);
    if sp > 0 && sp - 1 > limit / 2 then sp else cut
  }

  /** Every piece takes more than half the limit, as long as the text is valid. */
  lemma CutPastMiddle(text: Bytes, limit: nat)
    requires |text| > limit >= 8 && Valid(text)
    ensures CutPoint(text, limit) > limit / 2
    ensures Valid(text[..CutPoint(text, limit)]) && Valid(text[CutPoint(text, limit)..])
  {
    var j := RuneStartNear(text, limit);
    var cut := Split.BackToRune(text, limit);
    assert cut >= j;
    assert RuneStart(text[cut]);
    var at := CutPoint(text, limit);
    if at != cut {
      SpaceThenStart(text, at);
    }
    CutAtRuneStart(text, at);
  }

  /** After a space a character starts. */
  lemma {:induction false} SpaceThenStart(s: Bytes, i: nat)
    requires Valid(s) && 0 < i <= |s| && s[i - 1] == SPACE
    ensures i < |s| ==> RuneStart(s[i])
  {
    var n := RuneLen(s);
    if i - 1 < n {
      assert n == 1;
      if i < |s| {
        assert RuneLen(s[1..]) > 0;
      }
    } else {
      SpaceThenStart(s[n..], i - n);
    }
  }

  function Pieces(text: Bytes, limit: nat): seq<Bytes>
    decreases |text|
  {
    if |text| <= limit then (if text == [] then [] else [text])
    else if CutPoint(text, limit) == 0 then [text]
    else [TrimRight(text[..CutPoint(text, limit)])] + Pieces(TrimLeft(text[CutPoint(text, limit)..]), limit)
  }

  function SplitText(text: Bytes, limit: nat): seq<Bytes> {
    if |text| <= limit then [text] else Pieces(text, limit)
  }

  // ---- what the pieces are ----------------------------------------------------------------

  ghost predicate Blank(s: Bytes) {
    forall k :: 0 <= k < |s| ==> s[k] == SPACE
  }

  /** text is the pieces in order, with nothing but spaces left out, and those only at the cuts. */
  ghost predicate Rejoins(text: Bytes, ps: seq<Bytes>)
    decreases |ps|
  {
    if ps == [] then text == []
    else if |ps| == 1 then text == ps[0] || (|ps[0]| <= |text| && text[..|ps[0]|] == ps[0] && Blank(text[|ps[0]|..]))
    else exists from: nat :: |ps[0]| <= from <= |text| && text[..|ps[0]|] == ps[0] && Blank(text[|ps[0]|..from]) && Rejoins(text[from..], ps[1..])
  }

  lemma RejoinCut(text: Bytes, cut: nat, ps: seq<Bytes>)
    requires cut <= |text| && Rejoins(TrimLeft(text[cut..]), ps)
    ensures Rejoins(text, [TrimRight(text[..cut])] + ps)
  {
    var head := TrimRight(text[..cut]);
    var tail := TrimLeft(text[cut..]);
    var from := |text| - |tail|;
    assert text[..|head|] == text[..cut][..|head|] == head;
    assert text[from..] == text[cut..][from - cut..] == tail;
    assert Blank(text[|head|..from]) by {
      forall k | |head| <= k < from
        ensures text[k] == SPACE
      {
        if k < cut {
          assert text[k] == text[..cut][k];
        } else {
          assert text[k] == text[cut..][k - cut];
        }
      }
    }
    var all := [head] + ps;
    assert all[1..] == ps;
    if ps == [] {
      assert from == |text|;
      assert text[|head|..] == text[|head|..from];
    }
  }

  lemma TrimRightValid(s: Bytes)
    requires Valid(s)
    ensures Valid(TrimRight(s))
  {
    var n := |TrimRight(s)|;
    CutAtRuneStart(s, n);
  }

  lemma {:induction false} TrimLeftValid(s: Bytes)
    requires Valid(s)
    ensures Valid(TrimLeft(s))
  {
    if s != [] && s[0] == SPACE {
      TrimLeftValid(s[1..]);
    }
  }

  ghost predicate PieceOk(p: Bytes, limit: nat) {
    |p| <= limit && Valid(p)
  }

  ghost predicate PiecesOk(text: Bytes, ps: seq<Bytes>, limit: nat) {
    && (forall i :: 0 <= i < |ps| ==> PieceOk(ps[i], limit))
    && Rejoins(text, ps)
    && |ps| * (limit / 2 + 1) <= |text| + limit / 2
  }

  /** The pieces fit, are valid, give the text back and are not too many. */
  lemma {:induction false} PiecesAreOk(text: Bytes, limit: nat)
    requires Valid(text) && limit >= 8
    ensures PiecesOk(text, Pieces(text, limit), limit)
    decreases |text|
  {
    hide Rejoins, Pieces, CutPoint, Valid, PiecesOk, TrimRight, TrimLeft;
    if |text| <= limit {
      ShortPieces(text, limit);
    } else {
      CutPastMiddle(text, limit);
      PiecesStep(text, limit);
      var cut := CutPoint(text, limit);
      var head, tail := TrimRight(text[..cut]), TrimLeft(text[cut..]);
      TrimRightValid(text[..cut]);
      TrimLeftValid(text[cut..]);
      PiecesAreOk(tail, limit);
      var ps := Pieces(tail, limit);
      assert Rejoins(tail, ps) by { PiecesRejoin(tail, ps, limit); }
      RejoinCut(text, cut, ps);
      OneMorePiece(text, cut, head, tail, ps, limit);
    }
  }

  lemma PiecesRejoin(text: Bytes, ps: seq<Bytes>, limit: nat)
    requires PiecesOk(text, ps, limit)
    ensures Rejoins(text, ps)
  {
  }

  lemma PiecesStep(text: Bytes, limit: nat)
    requires |text| > limit && CutPoint(text, limit) > 0
    ensures Pieces(text, limit) == [TrimRight(text[..CutPoint(text, limit)])] + Pieces(TrimLeft(text[CutPoint(text, limit)..]), limit)
  {
  }

  lemma ShortPieces(text: Bytes, limit: nat)
    requires Valid(text) && |text| <= limit
    ensures PiecesOk(text, Pieces(text, limit), limit)
  {
  }

  lemma OneMorePiece(text: Bytes, cut: nat, head: Bytes, tail: Bytes, ps: seq<Bytes>, limit: nat)
    requires PiecesOk(tail, ps, limit) && limit / 2 < cut <= limit && cut <= |text| && |tail| <= |text| - cut
    requires PieceOk(head, limit) && Rejoins(text, [head] + ps)
    ensures PiecesOk(text, [head] + ps, limit)
  {
    hide Rejoins, Valid;
    var half := limit / 2 + 1;
    assert (|ps| + 1) * half == |ps| * half + half;
  }

  // ---- the loop -------------------------------------------------------------------------------

  method LastSpace(s: Bytes) returns (sp: int)
    ensures sp == AfterLastSpace(s) as int - 1
  {
    sp := |s| - 1;
    assert s[..|s|] == s;
    while sp >= 0 && s[sp] != SPACE
      invariant -1 <= sp < |s|
      invariant AfterLastSpace(s) == AfterLastSpace(s[..sp + 1])
      decreases sp
    {
      assert s[..sp + 1][..sp] == s[..sp];
      sp := sp - 1;
    }
  }

  method FindCut(text: Bytes, limit: nat) returns (cut: nat)
    requires |text| > limit
    ensures cut == CutPoint(text, limit)
  {
    cut := limit;
    while cut > 0 && !RuneStart(text[cut])
      invariant 0 <= cut <= limit
      invariant Split.BackToRune(text, limit) == Split.BackToRune(text, cut)
    {
      cut := cut - 1;
    }
    var sp := LastSpace(text[..cut]);
    if sp > limit / 2 {
      cut := sp + 1;
    }
  }

  lemma Regroup(a: seq<Bytes>, b: seq<Bytes>, c: seq<Bytes>)
    ensures a + (b + c) == (a + b) + c && [] + c == c && a + [] == a
  {
  }

  lemma PiecesShort(text: Bytes, limit: nat)
    requires |text| <= limit
    ensures Pieces(text, limit) == if text == [] then [] else [text]
  {
  }

  method CutPieces(text: Bytes, limit: nat) returns (out: seq<Bytes>)
    requires Valid(text) && limit >= 8
    ensures out == SplitText(text, limit)
  {
    hide Pieces, CutPoint, Valid, TrimRight, TrimLeft;
    if |text| <= limit {
      return [text];
    }
    out := [];
    var rest := text;
    Regroup([], [], Pieces(text, limit));
    while |rest| > limit
      invariant Valid(rest)
      invariant Pieces(text, limit) == out + Pieces(rest, limit)
      decreases |rest|
    {
      var cut := FindCut(rest, limit);
      CutPastMiddle(rest, limit);
      TrimLeftValid(rest[cut..]);
      PiecesStep(rest, limit);
      Regroup(out, [TrimRight(rest[..cut])], Pieces(TrimLeft(rest[cut..]), limit));
      out := out + [TrimRight(rest[..cut])];
      rest := TrimLeft(rest[cut..]);
    }
    PiecesShort(rest, limit);
    Regroup(out, [], []);
    if rest != [] {
      out := out + [rest];
    }
  }
}
