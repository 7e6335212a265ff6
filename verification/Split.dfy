/**
 Cutting a long text into numbered parts that each fit one LXMF packet.
 */
module Split {
  import opened Utf8

  /** The most text one LXMF packet carries. */
  const MAX_CONTENT := 280
  /** The room "(99/99) " takes. */
  const PART_MARK_WIDTH := 8
  const MAX_PARTS := 99

  const SPACE: Byte := 32
  const NEWLINE: Byte := 10
  const ELLIPSIS: Bytes := [0xE2, 0x80, 0xA6]

  predicate Blank(b: Byte) {
    b == SPACE || b == NEWLINE
  }

  // ---- text helpers ---------------------------------------------------------

  /** The separators a cut is tried at, best first. */
  datatype Sep = Paragraph | Line | Word {
    function Width(): nat {
      if Paragraph? then 2 else 1
    }
  }

  predicate SepAt(s: Bytes, sep: Sep, i: nat)
    requires i < |s|
  {
    match sep
    case Paragraph => i + 1 < |s| && s[i] == NEWLINE && s[i + 1] == NEWLINE
    case Line => s[i] == NEWLINE
    case Word => s[i] == SPACE
  }

  /** The last position from 1 up to i where sep occurs in s, or 0. */
  function LastSep(s: Bytes, sep: Sep, i: nat): (r: nat)
    requires i < |s|
    ensures r <= i
    ensures r > 0 ==> SepAt(s, sep, r)
  {
    if i == 0 || SepAt(s, sep, i) then i else LastSep(s, sep, i - 1)
  }

  /** Where s[..i] ends without its trailing blanks. */
  function TrimEnd(s: Bytes, i: nat): (j: nat)
    requires i <= |s|
    ensures j <= i
    ensures j > 0 ==> !Blank(s[j - 1])
  {
    if i > 0 && Blank(s[i - 1]) then TrimEnd(s, i - 1) else i
  }

  /** Where s[i..] starts without its leading blanks. */
  function SkipBlanks(s: Bytes, i: nat): (j: nat)
    requires i <= |s|
    ensures i <= j <= |s|
    decreases |s| - i
  {
    if i < |s| && Blank(s[i]) then SkipBlanks(s, i + 1) else i
  }

  lemma {:induction false} LastSepIsLast(s: Bytes, sep: Sep, i: nat, k: nat)
    requires k <= i < |s| && k > 0 && SepAt(s, sep, k)
    ensures k <= LastSep(s, sep, i)
  {
    if k < i && !SepAt(s, sep, i) {
      LastSepIsLast(s, sep, i - 1, k);
    }
  }

  lemma {:induction false} TrimEndBlank(s: Bytes, i: nat)
    requires i <= |s|
    ensures forall k :: TrimEnd(s, i) <= k < i ==> Blank(s[k])
  {
    if i > 0 && Blank(s[i - 1]) {
      TrimEndBlank(s, i - 1);
    }
  }

  lemma {:induction false} TrimEndMonotone(s: Bytes, k: nat, i: nat)
    requires k <= i <= |s|
    ensures TrimEnd(s, k) <= TrimEnd(s, i)
  {
    if k < i && Blank(s[i - 1]) {
      TrimEndMonotone(s, k, i - 1);
    }
  }

  lemma {:induction false} SkipBlanksBlank(s: Bytes, i: nat)
    requires i <= |s|
    ensures forall k :: i <= k < SkipBlanks(s, i) ==> Blank(s[k])
    decreases |s| - i
  {
    if i < |s| && Blank(s[i]) {
      SkipBlanksBlank(s, i + 1);
    }
  }

  /** The bytes of s that are neither space nor newline, in order. */
  function Ink(s: Bytes): Bytes {
    if s == [] then []
    else (if Blank(s[0]) then [] else [s[0]]) + Ink(s[1..])
  }

  lemma {:induction false} InkConcat(a: Bytes, b: Bytes)
    ensures Ink(a + b) == Ink(a) + Ink(b)
  {
    if a == [] {
      assert a + b == b;
    } else {
      var ab := a + b;
      assert ab[0] == a[0] && ab[1..] == a[1..] + b;
      InkConcat(a[1..], b);
      calc {
        Ink(ab);
        (if Blank(a[0]) then [] else [a[0]]) + Ink(ab[1..]);
        (if Blank(a[0]) then [] else [a[0]]) + (Ink(a[1..]) + Ink(b));
        ((if Blank(a[0]) then [] else [a[0]]) + Ink(a[1..])) + Ink(b);
        Ink(a) + Ink(b);
      }
    }
  }

  lemma {:induction false} InkBlank(s: Bytes)
    requires forall k :: 0 <= k < |s| ==> Blank(s[k])
    ensures Ink(s) == []
  {
    if s != [] {
      InkBlank(s[1..]);
    }
  }

  // ---- one cut --------------------------------------------------------------

  /** A cut of s: the chunk is s[..end] and the remainder s[next..]. */
  datatype Span = Span(end: nat, next: nat)

  /** The largest index up to i that starts a character, or 0. */
  function BackToRune(s: Bytes, i: nat): (j: nat)
    requires i < |s|
    ensures j <= i
    ensures j > 0 ==> RuneStart(s[j])
    ensures forall k :: j < k <= i ==> !RuneStart(s[k])
  {
    if i > 0 && !RuneStart(s[i]) then BackToRune(s, i - 1) else i
  }

  /** Where the last usable sep lies within the window s[..room + 1]. */
  function SepIn(s: Bytes, room: nat, sep: Sep): (i: nat)
    requires 0 < room < |s|
    ensures i + sep.Width() <= room + 1
  {
    LastSep(s[..room + 1], sep, room)
  }

  /** Cutting at the last sep in the window; an empty chunk means that it does not help. */
  function CutAt(s: Bytes, room: nat, sep: Sep): (p: Span)
    requires 0 < room < |s|
    ensures p.end < p.next <= |s| && p.end <= room
  {
    var i := SepIn(s, room, sep);
    Span(TrimEnd(s, i), SkipBlanks(s, i + sep.Width()))
  }

  /** Where a cut falls when no separator helps: between characters if one starts in reach. */
  function HardCut(s: Bytes, room: nat): (i: nat)
    requires 0 < room < |s|
    ensures 0 < i <= room
  {
    var i := BackToRune(s, room);
    if i == 0 then room else i
  }

  /** The cut of s that fits room: at a separator if one helps. */
  function Cut(s: Bytes, room: nat): (p: Span)
    requires room > 0
    ensures p.end <= p.next <= |s| && p.end <= room
    ensures s != [] ==> 0 < p.end
  {
    if |s| <= room then Span(|s|, |s|)
    else if CutAt(s, room, Paragraph).end > 0 then CutAt(s, room, Paragraph)
    else if CutAt(s, room, Line).end > 0 then CutAt(s, room, Line)
    else if CutAt(s, room, Word).end > 0 then CutAt(s, room, Word)
    else Span(HardCut(s, room), HardCut(s, room))
  }

  lemma CutAtBlank(s: Bytes, room: nat, sep: Sep)
    requires 0 < room < |s| && CutAt(s, room, sep).end > 0
    ensures forall k :: CutAt(s, room, sep).end <= k < CutAt(s, room, sep).next ==> Blank(s[k])
  {
    var i := SepIn(s, room, sep);
    assert SepAt(s[..room + 1], sep, i);
    TrimEndBlank(s, i);
    SkipBlanksBlank(s, i + sep.Width());
  }

  /** Only blanks go missing at a cut. */
  lemma CutBlank(s: Bytes, room: nat)
    requires room > 0
    ensures forall k :: Cut(s, room).end <= k < Cut(s, room).next ==> Blank(s[k])
  {
    if |s| > room {
      if CutAt(s, room, Paragraph).end > 0 {
        CutAtBlank(s, room, Paragraph);
      } else if CutAt(s, room, Line).end > 0 {
        CutAtBlank(s, room, Line);
      } else if CutAt(s, room, Word).end > 0 {
        CutAtBlank(s, room, Word);
      }
    }
  }

  lemma CutKeepsInk(s: Bytes, room: nat)
    requires room > 0
    ensures Ink(s) == Ink(s[..Cut(s, room).end]) + Ink(s[Cut(s, room).next..])
  {
    hide Cut;
    var p := Cut(s, room);
    var gap := s[p.end..p.next];
    CutBlank(s, room);
    InkBlank(gap);
    InkConcat(s[..p.end] + gap, s[p.next..]);
    InkConcat(s[..p.end], gap);
    assert s == s[..p.end] + gap + s[p.next..];
  }

  /** Cutting never splits a character. */
  lemma CutValid(s: Bytes, room: nat)
    requires room >= 4 && Valid(s)
    ensures Valid(s[..Cut(s, room).end]) && Valid(s[Cut(s, room).next..])
  {
    var p := Cut(s, room);
    CutBlank(s, room);
    if p.end < p.next {
      CutAtRuneStart(s, p.end);
      if p.next < |s| {
        StartAfterBlank(s, p.next);
      }
      CutAtRuneStart(s, p.next);
    } else if |s| <= room {
      CutAtRuneStart(s, |s|);
    } else {
      var near := RuneStartNear(s, room);
      CutAtRuneStart(s, p.end);
    }
  }

  /** What follows a one-byte character starts a character. */
  lemma StartAfterBlank(s: Bytes, j: nat)
    requires Valid(s) && 0 < j < |s| && Blank(s[j - 1])
    ensures RuneStart(s[j])
  {
    CutAtRuneStart(s, j - 1);
    var t := s[j - 1..];
    assert RuneLen(t) == 1;
    assert RuneLen(t[1..]) > 0;
  }

  /** A word is broken only when the window holds no blank with text before it. */
  lemma BreaksWordsLast(s: Bytes, room: nat, k: nat)
    requires 0 < k <= room < |s| && Blank(s[k]) && TrimEnd(s, k) > 0
    ensures Cut(s, room).end < Cut(s, room).next
  {
    var sep := if s[k] == SPACE then Word else Line;
    assert SepAt(s[..room + 1], sep, k);
    LastSepIsLast(s[..room + 1], sep, room, k);
    TrimEndMonotone(s, k, SepIn(s, room, sep));
    assert CutAt(s, room, sep).end > 0;
  }

  // ---- the parts ------------------------------------------------------------

  function Truncate(s: Bytes, max: nat): (r: Bytes)
    ensures |r| <= max
  {
    if |s| <= max then s
    else if max < |ELLIPSIS| then []
    else s[..BackToRune(s, max - |ELLIPSIS|)] + ELLIPSIS
  }

  lemma TruncateValid(s: Bytes, max: nat)
    requires Valid(s)
    ensures Valid(Truncate(s, max))
  {
    if |ELLIPSIS| <= max < |s| {
      var i := BackToRune(s, max - |ELLIPSIS|);
      assert i == 0 ==> RuneStart(s[0]);
      CutAtRuneStart(s, i);
      assert RuneLen(ELLIPSIS) == 3;
      assert Valid(ELLIPSIS[3..]);
      ValidConcat(s[..i], ELLIPSIS);
    }
  }

  /** The chunks of rest, when there may be `left` more. */
  function Chunks(rest: Bytes, room: nat, left: nat): (cs: seq<Bytes>)
    requires room > 0 && left > 0
    requires rest != []
    decreases |rest|
  {
    if left == 1 then
      [if |rest| > room then Truncate(rest, room) else rest]
    else
      var p := Cut(rest, room);
      [rest[..p.end]] + (if p.next == |rest| then [] else Chunks(rest[p.next..], room, left - 1))
  }

  /** Whether the text runs past the last part. */
  predicate Overflows(rest: Bytes, room: nat, left: nat)
    requires room > 0 && left > 0 && rest != []
    decreases |rest|
  {
    if left == 1 then |rest| > room
    else
      var p := Cut(rest, room);
      p.next < |rest| && Overflows(rest[p.next..], room, left - 1)
  }

  function Flatten(cs: seq<Bytes>): Bytes {
    if cs == [] then [] else cs[0] + Flatten(cs[1..])
  }

  /** A chunk list as a first cut and what the rest gives. */
  lemma ChunksStep(rest: Bytes, room: nat, left: nat)
    requires room > 0 && left > 1 && rest != []
    ensures var p := Cut(rest, room);
            var cs := Chunks(rest, room, left);
            && cs != [] && cs[0] == rest[..p.end]
            && cs[1..] == (if p.next == |rest| then [] else Chunks(rest[p.next..], room, left - 1))
            && Flatten(cs) == rest[..p.end] + Flatten(cs[1..])
  {
  }

  /** As long as the text goes on or fits, the next chunk is the next cut. */
  lemma ChunksHead(rest: Bytes, room: nat, left: nat)
    requires room > 0 && left > 0 && rest != []
    requires left == 1 ==> |rest| <= room
    ensures var p := Cut(rest, room);
            && (left == 1 ==> p.next == |rest|)
            && Chunks(rest, room, left) != [] && Chunks(rest, room, left)[0] == rest[..p.end]
            && Chunks(rest, room, left)[1..] == (if p.next == |rest| then [] else Chunks(rest[p.next..], room, left - 1))
  {
  }

  lemma ChunksEnd(rest: Bytes, room: nat)
    requires 0 < room < |rest|
    ensures Chunks(rest, room, 1) == [Truncate(rest, room)]
  {
  }

  predicate AllFit(cs: seq<Bytes>, room: nat) {
    forall c :: c in cs ==> |c| <= room
  }

  predicate AllValid(cs: seq<Bytes>) {
    forall c :: c in cs ==> Valid(c)
  }

  lemma {:induction false} ChunksFit(rest: Bytes, room: nat, left: nat)
    requires room > 0 && left > 0 && rest != []
    ensures 1 <= |Chunks(rest, room, left)| <= left
    ensures AllFit(Chunks(rest, room, left), room)
    decreases |rest|
  {
    if left > 1 {
      ChunksStep(rest, room, left);
      var p := Cut(rest, room);
      if p.next < |rest| {
        ChunksFit(rest[p.next..], room, left - 1);
      }
    }
  }

  lemma {:induction false} ChunksValid(rest: Bytes, room: nat, left: nat)
    requires room >= 4 && left > 0 && rest != [] && Valid(rest)
    ensures AllValid(Chunks(rest, room, left))
    decreases |rest|
  {
    hide Valid, Cut, Truncate, Flatten;
    if left == 1 {
      TruncateValid(rest, room);
    } else {
      ChunksStep(rest, room, left);
      CutValid(rest, room);
      hide Chunks;
      var p, cs := Cut(rest, room), Chunks(rest, room, left);
      assert cs == [cs[0]] + cs[1..];
      if p.next < |rest| {
        ChunksValid(rest[p.next..], room, left - 1);
      }
    }
  }

  /** all is text with nothing but blanks left out, or, if cut, a prefix of it that ends in "…". */
  predicate Says(all: Bytes, text: Bytes, overflows: bool) {
    if overflows then
      && |all| >= |ELLIPSIS| && all[|all| - |ELLIPSIS|..] == ELLIPSIS
      && Ink(all[..|all| - |ELLIPSIS|]) <= Ink(text)
    else Ink(all) == Ink(text)
  }

  lemma SaysItself(text: Bytes)
    ensures Says(text, text, false)
  {
  }

  lemma SaysAfterCut(rest: Bytes, room: nat, tail: Bytes, overflows: bool)
    requires room > 0
    requires Says(tail, rest[Cut(rest, room).next..], overflows)
    ensures Says(rest[..Cut(rest, room).end] + tail, rest, overflows)
  {
    hide Cut, Ink, Says;
    CutKeepsInk(rest, room);
    SaysMore(rest[..Cut(rest, room).end], tail, rest[Cut(rest, room).next..], rest, overflows);
  }

  lemma SaysMore(chunk: Bytes, tail: Bytes, left: Bytes, text: Bytes, overflows: bool)
    requires Says(tail, left, overflows) && Ink(text) == Ink(chunk) + Ink(left)
    ensures Says(chunk + tail, text, overflows)
  {
    hide Ink;
    if overflows {
      var t := tail[..|tail| - |ELLIPSIS|];
      EndKept(chunk, tail, |ELLIPSIS|);
      InkConcat(chunk, t);
      PrefixMore(Ink(chunk), Ink(t), Ink(left));
    } else {
      InkConcat(chunk, tail);
    }
  }

  lemma EndKept(a: Bytes, b: Bytes, n: nat)
    requires n <= |b|
    ensures (a + b)[..|a + b| - n] == a + b[..|b| - n] && (a + b)[|a + b| - n..] == b[|b| - n..]
  {
  }

  lemma PrefixMore(a: Bytes, x: Bytes, y: Bytes)
    requires x <= y
    ensures a + x <= a + y
  {
  }

  /** Nothing but blanks is lost, unless the text overflows; then a prefix is kept and marked. */
  lemma {:induction false} ChunksKeepInk(rest: Bytes, room: nat, left: nat)
    requires room >= |ELLIPSIS| && left > 0 && rest != []
    ensures Says(Flatten(Chunks(rest, room, left)), rest, Overflows(rest, room, left))
    decreases |rest|
  {
    hide Chunks, Overflows, Says, Cut, Flatten;
    if left == 1 {
      LastChunkSays(rest, room);
    } else {
      ChunksStep(rest, room, left);
      OverflowsStep(rest, room, left);
      var p, cs := Cut(rest, room), Chunks(rest, room, left);
      if p.next < |rest| {
        ChunksKeepInk(rest[p.next..], room, left - 1);
        SaysAfterCut(rest, room, Flatten(cs[1..]), Overflows(rest[p.next..], room, left - 1));
      } else {
        NothingSays();
        assert rest[p.next..] == [];
        SaysAfterCut(rest, room, [], false);
      }
    }
  }

  lemma OverflowsStep(rest: Bytes, room: nat, left: nat)
    requires room > 0 && left > 1 && rest != []
    ensures Overflows(rest, room, left) == (Cut(rest, room).next < |rest| && Overflows(rest[Cut(rest, room).next..], room, left - 1))
  {
    hide Cut;
  }

  lemma NothingSays()
    ensures Says([], [], false) && Flatten([]) == []
  {
  }

  lemma LastChunkSays(rest: Bytes, room: nat)
    requires room >= |ELLIPSIS| && rest != []
    ensures Says(Flatten(Chunks(rest, room, 1)), rest, Overflows(rest, room, 1))
  {
    var cs := Chunks(rest, room, 1);
    assert cs[1..] == [];
    assert Flatten(cs) == cs[0];
    if |rest| > room {
      var i := BackToRune(rest, room - |ELLIPSIS|);
      InkConcat(rest[..i], rest[i..]);
      assert rest == rest[..i] + rest[i..];
      assert cs[0] == rest[..i] + ELLIPSIS;
      assert cs[0][..|cs[0]| - |ELLIPSIS|] == rest[..i];
    }
  }

  /** A number in decimal. */
  function Decimal(n: nat): (d: Bytes)
    ensures |d| > 0 && (forall k :: 0 <= k < |d| ==> 48 <= d[k] < 58)
    ensures n < 10 ==> |d| == 1
    ensures n < 100 ==> |d| <= 2
    ensures n < 1000 ==> |d| <= 3
  {
    if n < 10 then [48 + n] else Decimal(n / 10) + [48 + n % 10]
  }

  /** "(i/n) " */
  function Mark(i: nat, n: nat): (m: Bytes)
    ensures forall k :: 0 <= k < |m| ==> m[k] < 0x80
    ensures i < 100 && n < 100 ==> |m| <= PART_MARK_WIDTH
  {
    [40] + Decimal(i) + [47] + Decimal(n) + [41, SPACE]
  }

  function Numbered(cs: seq<Bytes>): (ps: seq<Bytes>)
    ensures |ps| == |cs|
    ensures forall i :: 0 <= i < |cs| ==> ps[i] == Mark(i + 1, |cs|) + cs[i]
  {
    seq(|cs|, i requires 0 <= i < |cs| => Mark(i + 1, |cs|) + cs[i])
  }

  function Parts(text: Bytes, max: nat): seq<Bytes> {
    if |text| <= max then [text]
    else if max < PART_MARK_WIDTH + 8 then [Truncate(text, max)]
    else
      var cs := Chunks(text, max - PART_MARK_WIDTH, MAX_PARTS);
      if |cs| == 1 then cs else Numbered(cs)
  }

  lemma NumberedFit(cs: seq<Bytes>, room: nat)
    requires 1 < |cs| <= MAX_PARTS && AllFit(cs, room) && AllValid(cs)
    ensures AllFit(Numbered(cs), room + PART_MARK_WIDTH) && AllValid(Numbered(cs))
  {
    var ps := Numbered(cs);
    forall i | 0 <= i < |cs| ensures |ps[i]| <= room + PART_MARK_WIDTH && Valid(ps[i]) {
      AsciiValid(Mark(i + 1, |cs|));
      ValidConcat(Mark(i + 1, |cs|), cs[i]);
    }
  }

  /** At most 99 parts, each valid text of at most max bytes, several of them numbered in order. */
  ghost predicate PartsOk(ps: seq<Bytes>, max: nat) {
    && 1 <= |ps| <= MAX_PARTS && AllFit(ps, max) && AllValid(ps)
    && (|ps| > 1 ==> forall i :: 0 <= i < |ps| ==> Mark(i + 1, |ps|) <= ps[i])
  }

  lemma NumberedOk(cs: seq<Bytes>, room: nat)
    requires 1 <= |cs| <= MAX_PARTS && AllFit(cs, room) && AllValid(cs)
    ensures PartsOk(if |cs| == 1 then cs else Numbered(cs), room + PART_MARK_WIDTH)
  {
    hide Valid, Mark, Numbered;
    if |cs| > 1 {
      NumberedFit(cs, room);
    }
  }

  /** Whatever the text and the limit, the parts are in order. */
  lemma PartsFit(text: Bytes, max: nat)
    requires Valid(text)
    ensures PartsOk(Parts(text, max), max)
  {
    hide Chunks, Truncate, Valid, Mark, Numbered;
    TruncateValid(text, max);
    if |text| > max >= PART_MARK_WIDTH + 8 {
      hide AllFit, AllValid, PartsOk;
      ChunksFit(text, max - PART_MARK_WIDTH, MAX_PARTS);
      ChunksValid(text, max - PART_MARK_WIDTH, MAX_PARTS);
      NumberedOk(Chunks(text, max - PART_MARK_WIDTH, MAX_PARTS), max - PART_MARK_WIDTH);
    }
  }

  /** A part without its number. */
  function Bare(p: Bytes, i: nat, n: nat): Bytes {
    if |Mark(i + 1, n)| <= |p| then p[|Mark(i + 1, n)|..] else []
  }

  /** What the parts carry, without their numbers. */
  function Carried(ps: seq<Bytes>): Bytes {
    if |ps| == 1 then ps[0] else Flatten(seq(|ps|, i requires 0 <= i < |ps| => Bare(ps[i], i, |ps|)))
  }

  lemma CarriedOne(c: Bytes)
    ensures Carried([c]) == c == Flatten([c])
  {
  }

  lemma CarriedByNumbered(cs: seq<Bytes>)
    requires |cs| > 1
    ensures Carried(Numbered(cs)) == Flatten(cs)
  {
    var ps := Numbered(cs);
    var bare := seq(|ps|, i requires 0 <= i < |ps| => Bare(ps[i], i, |ps|));
    assert bare == cs;
  }

  /** What the parts of a text say: all of it, or, past 99 parts, a prefix of it and "…". */
  ghost predicate PartsSay(text: Bytes, max: nat)
    requires max >= PART_MARK_WIDTH + 8
  {
    var overflows := |text| > max && Overflows(text, max - PART_MARK_WIDTH, MAX_PARTS);
    && Says(Carried(Parts(text, max)), text, overflows)
    && (overflows ==> |Parts(text, max)| == MAX_PARTS)
  }

  /** Read back without their numbers, the parts say everything the text says, or a marked prefix of it. */
  lemma PartsKeepText(text: Bytes, max: nat)
    requires max >= PART_MARK_WIDTH + 8
    ensures PartsSay(text, max)
  {
    hide Chunks, Overflows, Numbered, Ink, Says, Carried, Flatten, Truncate;
    if |text| <= max {
      SaysItself(text);
      CarriedOne(text);
    } else {
      CarriedByLong(text, max);
      ChunksKeepInk(text, max - PART_MARK_WIDTH, MAX_PARTS);
      OverflowFillsParts(text, max - PART_MARK_WIDTH, MAX_PARTS);
    }
  }

  lemma CarriedByLong(text: Bytes, max: nat)
    requires PART_MARK_WIDTH + 8 <= max < |text|
    ensures var cs := Chunks(text, max - PART_MARK_WIDTH, MAX_PARTS);
            |Parts(text, max)| == |cs| && Carried(Parts(text, max)) == Flatten(cs)
  {
    hide Chunks, Numbered, Carried, Flatten, Truncate;
    var cs := Chunks(text, max - PART_MARK_WIDTH, MAX_PARTS);
    ChunksFit(text, max - PART_MARK_WIDTH, MAX_PARTS);
    if |cs| == 1 {
      assert cs == [cs[0]];
      CarriedOne(cs[0]);
    } else {
      CarriedByNumbered(cs);
    }
  }

  lemma {:induction false} OverflowFillsParts(rest: Bytes, room: nat, left: nat)
    requires room > 0 && left > 0 && rest != []
    ensures Overflows(rest, room, left) ==> |Chunks(rest, room, left)| == left
    decreases |rest|
  {
    if left > 1 {
      ChunksStep(rest, room, left);
      var p := Cut(rest, room);
      if p.next < |rest| {
        OverflowFillsParts(rest[p.next..], room, left - 1);
      }
    }
  }

  // ---- the loops ------------------------------------------------------------

  method TruncateText(s: Bytes, max: nat) returns (r: Bytes)
    ensures r == Truncate(s, max)
  {
    if |s| <= max {
      return s;
    }
    if max < |ELLIPSIS| {
      return [];
    }
    var i := max - |ELLIPSIS|;
    while i > 0 && !RuneStart(s[i])
      invariant 0 <= i < |s|
      invariant BackToRune(s, i) == BackToRune(s, max - |ELLIPSIS|)
    {
      i := i - 1;
    }
    r := s[..i] + ELLIPSIS;
  }

  method CutText(s: Bytes, room: nat) returns (chunk: Bytes, rest: Bytes)
    requires room > 0
    ensures chunk == s[..Cut(s, room).end] && rest == s[Cut(s, room).next..]
  {
    if |s| <= room {
      return s, [];
    }
    var seps := [Paragraph, Line, Word];
    for n := 0 to |seps|
      invariant n > 0 ==> CutAt(s, room, Paragraph).end == 0
      invariant n > 1 ==> CutAt(s, room, Line).end == 0
      invariant n > 2 ==> CutAt(s, room, Word).end == 0
    {
      var i := SepIn(s, room, seps[n]);
      if i > 0 {
        var end := TrimEnd(s, i);
        if end > 0 {
          return s[..end], s[SkipBlanks(s, i + seps[n].Width())..];
        }
      }
    }
    var i := room;
    while i > 0 && !RuneStart(s[i])
      invariant 0 <= i <= room
      invariant BackToRune(s, i) == BackToRune(s, room)
    {
      i := i - 1;
    }
    if i == 0 {
      i := room;
    }
    return s[..i], s[i..];
  }

  lemma MoveOver(done: seq<Bytes>, chunk: Bytes, todo: seq<Bytes>)
    requires todo != [] && todo[0] == chunk
    ensures done + todo == (done + [chunk]) + todo[1..]
  {
    assert todo == [chunk] + todo[1..];
  }

  method CutIntoChunks(text: Bytes, room: nat) returns (chunks: seq<Bytes>)
    requires room > 0 && text != []
    ensures chunks == Chunks(text, room, MAX_PARTS)
  {
    hide Cut, Truncate, Chunks;
    chunks := [];
    var rest := text;
    while rest != []
      invariant rest != [] ==> |chunks| < MAX_PARTS
      invariant chunks + (if rest == [] then [] else Chunks(rest, room, MAX_PARTS - |chunks|)) == Chunks(text, room, MAX_PARTS)
      decreases |rest|
    {
      ghost var todo := Chunks(rest, room, MAX_PARTS - |chunks|);
      if |chunks| == MAX_PARTS - 1 && |rest| > room {
        var t := TruncateText(rest, room);
        chunks := chunks + [t];
        ChunksEnd(rest, room);
        return;
      }
      ChunksHead(rest, room, MAX_PARTS - |chunks|);
      var chunk, next := CutText(rest, room);
      MoveOver(chunks, chunk, todo);
      chunks := chunks + [chunk];
      rest := next;
    }
    assert chunks + [] == chunks;
  }

  method SplitText(text: Bytes, max: nat) returns (ps: seq<Bytes>)
    ensures ps == Parts(text, max)
  {
    hide Chunks, Truncate, Mark;
    if |text| <= max {
      return [text];
    }
    if max < PART_MARK_WIDTH + 8 {
      var t := TruncateText(text, max);
      return [t];
    }
    var chunks := CutIntoChunks(text, max - PART_MARK_WIDTH);
    if |chunks| == 1 {
      return chunks;
    }
    ps := [];
    for i := 0 to |chunks|
      invariant |ps| == i
      invariant forall k :: 0 <= k < i ==> ps[k] == Mark(k + 1, |chunks|) + chunks[k]
    {
      ps := ps + [Mark(i + 1, |chunks|) + chunks[i]];
    }
    assert ps == Numbered(chunks);
  }
}
