/** Where a text for LXMF is cut: at the best place there is, told from the text alone. */
module SplitRules {
  import opened Utf8
  import opened Split

  /** A separator at i, in the first room + 1 bytes, with text before it. */
  ghost predicate Usable(s: Bytes, room: nat, sep: Sep, i: nat) {
    && 0 < i <= room < |s| && i + sep.Width() <= room + 1
    && (match sep case Paragraph => s[i] == NEWLINE && s[i + 1] == NEWLINE case Line => s[i] == NEWLINE case Word => s[i] == SPACE)
  }

  /** The text before i ends at `end`, and goes on at `next` after the separator at i; only blanks lie between. */
  ghost predicate Parts2(s: Bytes, sep: Sep, i: nat, p: Span) {
    && p.end <= i && i + sep.Width() <= p.next <= |s|
    && (forall k :: p.end <= k < p.next ==> Blank(s[k]))
    && (p.end > 0 ==> !Blank(s[p.end - 1])) && (p.next < |s| ==> !Blank(s[p.next]))
  }

  /** p is the cut at the last separator of the kind, and leaves some text before it. */
  ghost predicate CutsAt(s: Bytes, room: nat, sep: Sep, p: Span) {
    p.end > 0 && exists i: nat :: Usable(s, room, sep, i) && (forall k: nat :: Usable(s, room, sep, k) ==> k <= i) && Parts2(s, sep, i, p)
  }

  /** No separator of the kind has any text before it. */
  ghost predicate NoneHelps(s: Bytes, room: nat, sep: Sep) {
    forall i: nat, j: nat :: Usable(s, room, sep, i) && j < i ==> Blank(s[j])
  }

  lemma {:induction false} SkipBlanksEnd(s: Bytes, i: nat)
    requires i <= |s|
    ensures SkipBlanks(s, i) < |s| ==> !Blank(s[SkipBlanks(s, i)])
    decreases |s| - i
  {
    if i < |s| && Blank(s[i]) {
      SkipBlanksEnd(s, i + 1);
    }
  }

  lemma UsableIs(s: Bytes, room: nat, sep: Sep, i: nat)
    requires 0 < room < |s| && i < room + 1
    ensures Usable(s, room, sep, i) <==> i > 0 && SepAt(s[..room + 1], sep, i)
  {
  }

  lemma CutAtIs(s: Bytes, room: nat, sep: Sep)
    requires 0 < room < |s|
    ensures CutAt(s, room, sep).end > 0 ==> CutsAt(s, room, sep, CutAt(s, room, sep))
    ensures CutAt(s, room, sep).end == 0 ==> NoneHelps(s, room, sep)
    ensures CutAt(s, room, sep).end > 0 ==> !NoneHelps(s, room, sep)
  {
    var w, i := s[..room + 1], SepIn(s, room, sep);
    var p := CutAt(s, room, sep);
    forall k: nat | Usable(s, room, sep, k)
      ensures k <= i
    {
      UsableIs(s, room, sep, k);
      LastSepIsLast(w, sep, room, k);
    }
    TrimEndBlank(s, i);
    SkipBlanksBlank(s, i + sep.Width());
    SkipBlanksEnd(s, i + sep.Width());
    UsableIs(s, room, sep, i);
    hide LastSep, SepAt, TrimEnd, SkipBlanks;
    if p.end > 0 {
      SeparatorBlank(s, room, sep, i);
      assert Parts2(s, sep, i, p);
      assert Usable(s, room, sep, i) && p.end - 1 < i;
    }
  }

  lemma SeparatorBlank(s: Bytes, room: nat, sep: Sep, i: nat)
    requires Usable(s, room, sep, i)
    ensures forall k :: i <= k < i + sep.Width() ==> Blank(s[k])
  {
  }

  /** The last place up to room where a character begins, or room itself if none does. */
  ghost predicate AtCharacter(s: Bytes, room: nat, h: nat) {
    && 0 < h <= room < |s|
    && ((RuneStart(s[h]) && forall k :: h < k <= room ==> !RuneStart(s[k])) || (h == room && forall k :: 0 < k <= room ==> !RuneStart(s[k])))
  }

  /**
   A text too long is cut at the last paragraph break that helps, else at the
   last line break, else at the last space, and only then inside a word.
   */
  lemma CutIs(s: Bytes, room: nat)
    requires 0 < room < |s|
    ensures var p := Cut(s, room);
            if !NoneHelps(s, room, Paragraph) then CutsAt(s, room, Paragraph, p)
            else if !NoneHelps(s, room, Line) then CutsAt(s, room, Line, p)
            else if !NoneHelps(s, room, Word) then CutsAt(s, room, Word, p)
            else p.next == p.end && AtCharacter(s, room, p.end)
  {
    hide CutAt, NoneHelps, CutsAt;
    CutAtIs(s, room, Paragraph);
    CutAtIs(s, room, Line);
    CutAtIs(s, room, Word);
  }

  /** Cut short, a text keeps all that fits before the ellipsis, up to a character. */
  lemma TruncateIs(s: Bytes, max: nat)
    requires |s| > max >= |ELLIPSIS|
    ensures exists j: nat :: j <= max - |ELLIPSIS| && Truncate(s, max) == s[..j] + ELLIPSIS
              && (j > 0 ==> RuneStart(s[j])) && forall k :: j < k <= max - |ELLIPSIS| ==> !RuneStart(s[k])
  {
    var j := BackToRune(s, max - |ELLIPSIS|);
    assert Truncate(s, max) == s[..j] + ELLIPSIS;
  }

  /** The parts of a long text: one cut after the other, and the last allowed takes the rest, cut short if need be. */
  lemma ChunksAre(rest: Bytes, room: nat, left: nat)
    requires room > 0 && left > 0 && rest != []
    ensures var cs, p := Chunks(rest, room, left), Cut(rest, room);
            if left == 1 then cs == [if |rest| > room then Truncate(rest, room) else rest]
            else cs != [] && cs[0] == rest[..p.end] && cs[1..] == if p.next == |rest| then [] else Chunks(rest[p.next..], room, left - 1)
  {
    hide Cut, Truncate;
  }

  /** What fits is sent as it is; what does not is cut to eight bytes less, for the numbers. */
  lemma PartsAre(text: Bytes, max: nat)
    requires max >= 16
    ensures |text| <= max ==> Parts(text, max) == [text]
    ensures |text| > max ==>
              var cs, ps := Chunks(text, max - 8, 99), Parts(text, max);
              |ps| == |cs| && forall i :: 0 <= i < |ps| ==> ps[i] == if |cs| == 1 then cs[0] else Mark(i + 1, |cs|) + cs[i]
  {
    hide Chunks, Mark;
  }
}
