/**
 Name rules, on ASCII names: what may be claimed, and the skeleton that
 decides whether two names are the same.
 */
module Names {
  import opened Common

  function Lower(c: char): char {
    if 'A' <= c <= 'Z' then (c as int + 32) as char else c
  }

  /** What one character of a name contributes: nothing for separators, one letter for its lookalikes. */
  function FoldChar(c: char): string {
    var l := Lower(c);
    if l == '-' || l == '_' || l == '.' || l == ' ' then ""
    else if l == '1' || l == 'i' || l == '|' || l == '!' then "l"
    else if l == '0' then "o"
    else if l == '5' then "s"
    else [l]
  }

  function Fold(s: string): string {
    if s == "" then "" else Fold(s[..|s| - 1]) + FoldChar(s[|s| - 1])
  }

  /** Every leftmost, non-overlapping "ab" replaced by c. */
  function Rewrite(s: string, a: char, b: char, c: char): string
    decreases |s|
  {
    if |s| < 2 then s
    else if s[0] == a && s[1] == b then [c] + Rewrite(s[2..], a, b, c)
    else [s[0]] + Rewrite(s[1..], a, b, c)
  }

  function Skeleton(name: string): string {
    Rewrite(Rewrite(Fold(name), 'r', 'n', 'm'), 'v', 'v', 'w')
  }

  lemma Associative(a: string, b: string, c: string)
    ensures (a + b) + c == a + (b + c)
  {
  }

  lemma RewriteFrom(s: string, i: nat, a: char, b: char, c: char)
    requires i < |s|
    ensures Rewrite(s[i..], a, b, c) ==
            if i + 1 < |s| && s[i] == a && s[i + 1] == b then [c] + Rewrite(s[i + 2..], a, b, c)
            else [s[i]] + Rewrite(s[i + 1..], a, b, c)
  {
  }

  method ReplaceAll(s: string, a: char, b: char, c: char) returns (out: string)
    ensures out == Rewrite(s, a, b, c)
  {
    out := "";
    var i := 0;
    assert s[0..] == s;
    while i < |s|
      invariant 0 <= i <= |s|
      invariant Rewrite(s, a, b, c) == out + Rewrite(s[i..], a, b, c)
    {
      hide Rewrite;
      RewriteFrom(s, i, a, b, c);
      if i + 1 < |s| && s[i] == a && s[i + 1] == b {
        Associative(out, [c], Rewrite(s[i + 2..], a, b, c));
        out := out + [c];
        i := i + 2;
      } else {
        Associative(out, [s[i]], Rewrite(s[i + 1..], a, b, c));
        out := out + [s[i]];
        i := i + 1;
      }
    }
    assert Rewrite(s[i..], a, b, c) == "";
  }

  method ComputeSkeleton(name: string) returns (sk: string)
    ensures sk == Skeleton(name)
  {
    sk := "";
    for i := 0 to |name|
      invariant sk == Fold(name[..i])
    {
      assert name[..i + 1][..i] == name[..i];
      sk := sk + FoldChar(name[i]);
    }
    assert name[..|name|] == name;
    sk := ReplaceAll(sk, 'r', 'n', 'm');
    sk := ReplaceAll(sk, 'v', 'v', 'w');
  }

  // ---- which names may be claimed -----------------------------------------------

  const MIN_LEN := 2
  const MAX_LEN := 24

  const RESERVED: seq<string> := [
    "admin", "administrator", "bridge", "everyone", "guest", "here", "hub",
    "moderator", "nobody", "notice", "op", "operator", "root", "rrc", "scotmesh",
    "server", "system", "you"]

  datatype NameError = Empty | TooShort | TooLong | NotALetterFirst | HasSpace | BadCharacter | GuestPrefix | Reserved

  datatype Checked = Clean(name: string, skeleton: string) | Refused(why: NameError)

  predicate Space(c: char) {
    c == ' ' || '\t' <= c <= '\r'
  }

  predicate Letter(c: char) {
    'a' <= c <= 'z' || 'A' <= c <= 'Z'
  }

  predicate NameChar(c: char) {
    Letter(c) || '0' <= c <= '9' || c == '-' || c == '_' || c == '.'
  }

  function TrimLeft(s: string): string {
    if s != "" && Space(s[0]) then TrimLeft(s[1..]) else s
  }

  function TrimRight(s: string): string {
    if s != "" && Space(s[|s| - 1]) then TrimRight(s[..|s| - 1]) else s
  }

  function Trim(s: string): string {
    TrimRight(TrimLeft(s))
  }

  predicate HasPrefix(s: string, prefix: string) {
    |prefix| <= |s| && s[..|prefix|] == prefix
  }

  predicate IsReserved(skeleton: string) {
    exists i :: 0 <= i < |RESERVED| && Skeleton(RESERVED[i]) == skeleton
  }

  /** The first character that breaks the rules decides. */
  function CharError(n: string, i: nat): (e: NameError)
    requires i < |n|
    ensures e == NotALetterFirst <==> i == 0 && !Letter(n[0])
  {
    if i == 0 && !Letter(n[0]) then NotALetterFirst
    else if Space(n[i]) then HasSpace
    else BadCharacter
  }

  predicate CharOk(n: string, i: nat)
    requires i < |n|
  {
    NameChar(n[i]) && (i == 0 ==> Letter(n[0]))
  }

  /** The first character at or after `from` that breaks the rules, or the length. */
  function FirstBad(n: string, from: nat): (i: nat)
    requires from <= |n|
    ensures from <= i <= |n|
    ensures forall j :: from <= j < i ==> CharOk(n, j)
    ensures i < |n| ==> !CharOk(n, i)
    decreases |n| - from
  {
    if from == |n| || !CharOk(n, from) then from else FirstBad(n, from + 1)
  }

  function CheckName(name: string): Checked {
    var n := Trim(name);
    if n == "" then Refused(Empty)
    else if |n| < MIN_LEN then Refused(TooShort)
    else if |n| > MAX_LEN then Refused(TooLong)
    else if FirstBad(n, 0) < |n| then Refused(CharError(n, FirstBad(n, 0)))
    else if HasPrefix(Skeleton(n), "guest") then Refused(GuestPrefix)
    else if IsReserved(Skeleton(n)) then Refused(Reserved)
    else Clean(n, Skeleton(n))
  }

  method FindBad(n: string) returns (e: Option<NameError>)
    ensures e == if FirstBad(n, 0) < |n| then Some(CharError(n, FirstBad(n, 0))) else None
  {
    for i := 0 to |n|
      invariant FirstBad(n, 0) == FirstBad(n, i)
    {
      if i == 0 && !Letter(n[0]) {
        return Some(NotALetterFirst);
      }
      if !NameChar(n[i]) {
        return Some(if Space(n[i]) then HasSpace else BadCharacter);
      }
    }
    return None;
  }

  method FindReserved(sk: string) returns (found: bool)
    ensures found == IsReserved(sk)
  {
    hide Skeleton;
    for i := 0 to |RESERVED|
      invariant forall j :: 0 <= j < i ==> Skeleton(RESERVED[j]) != sk
    {
      var w := ComputeSkeleton(RESERVED[i]);
      if sk == w {
        return true;
      }
    }
    return false;
  }

  method CleanName(name: string) returns (r: Checked)
    ensures r == CheckName(name)
    ensures r.Clean? ==> MIN_LEN <= |r.name| <= MAX_LEN && forall i :: 0 <= i < |r.name| ==> CharOk(r.name, i)
  {
    hide Skeleton, IsReserved;
    var n := Trim(name);
    if n == "" {
      return Refused(Empty);
    } else if |n| < MIN_LEN {
      return Refused(TooShort);
    } else if |n| > MAX_LEN {
      return Refused(TooLong);
    }
    var bad := FindBad(n);
    if bad.Some? {
      return Refused(bad.value);
    }
    var sk := ComputeSkeleton(n);
    if HasPrefix(sk, "guest") {
      return Refused(GuestPrefix);
    }
    var taken := FindReserved(sk);
    return if taken then Refused(Reserved) else Clean(n, sk);
  }

  // ---- skeletons ------------------------------------------------------------------

  predicate NoPair(s: string, a: char, b: char) {
    forall i :: 0 <= i < |s| - 1 ==> !(s[i] == a && s[i + 1] == b)
  }

  /** A character the folding leaves as it is. */
  predicate Folded(c: char) {
    FoldChar(c) == [c]
  }

  predicate AllFolded(s: string) {
    forall i :: 0 <= i < |s| ==> Folded(s[i])
  }

  lemma {:induction false} FoldFolds(s: string)
    ensures AllFolded(Fold(s))
  {
    if s != "" {
      FoldFolds(s[..|s| - 1]);
      FoldCharFolds(s[|s| - 1]);
    }
  }

  lemma FoldCharFolds(c: char)
    ensures AllFolded(FoldChar(c))
  {
  }

  lemma {:induction false} FoldSame(s: string)
    requires AllFolded(s)
    ensures Fold(s) == s
  {
    if s != "" {
      FoldSame(s[..|s| - 1]);
      assert Folded(s[|s| - 1]);
      assert s == s[..|s| - 1] + [s[|s| - 1]];
    }
  }

  lemma {:induction false} RewriteFolded(s: string, a: char, b: char, c: char)
    requires AllFolded(s) && Folded(c)
    ensures AllFolded(Rewrite(s, a, b, c))
    decreases |s|
  {
    if |s| >= 2 {
      if s[0] == a && s[1] == b {
        RewriteFolded(s[2..], a, b, c);
      } else {
        RewriteFolded(s[1..], a, b, c);
      }
    }
  }

  /** A rewritten text starts as the text did, or with the replacement. */
  lemma RewriteStart(s: string, a: char, b: char, c: char)
    ensures Rewrite(s, a, b, c) == "" <==> s == ""
    ensures s != "" ==> Rewrite(s, a, b, c)[0] == s[0] || Rewrite(s, a, b, c)[0] == c
  {
  }

  lemma {:induction false} RewriteRemoves(s: string, a: char, b: char, c: char)
    requires c != a && c != b
    ensures NoPair(Rewrite(s, a, b, c), a, b)
    decreases |s|
  {
    if |s| >= 2 {
      var rest := if s[0] == a && s[1] == b then s[2..] else s[1..];
      RewriteRemoves(rest, a, b, c);
      RewriteStart(rest, a, b, c);
      var tail := Rewrite(rest, a, b, c);
      var out := Rewrite(s, a, b, c);
      assert out[1..] == tail;
      forall i | 0 <= i < |out| - 1
        ensures !(out[i] == a && out[i + 1] == b)
      {
        if i > 0 {
          assert out[i] == tail[i - 1] && out[i + 1] == tail[i];
        }
      }
    }
  }

  /** Rewriting one pair cannot make another whose letters it does not write. */
  lemma {:induction false} RewriteMakesNone(s: string, a: char, b: char, c: char, x: char, y: char)
    requires NoPair(s, x, y) && c != x && c != y
    ensures NoPair(Rewrite(s, a, b, c), x, y)
    decreases |s|
  {
    if |s| >= 2 {
      var rest := if s[0] == a && s[1] == b then s[2..] else s[1..];
      RewriteMakesNone(rest, a, b, c, x, y);
      RewriteStart(rest, a, b, c);
      var tail := Rewrite(rest, a, b, c);
      var out := Rewrite(s, a, b, c);
      assert out[1..] == tail;
      forall i | 0 <= i < |out| - 1
        ensures !(out[i] == x && out[i + 1] == y)
      {
        if i > 0 {
          assert out[i] == tail[i - 1] && out[i + 1] == tail[i];
        }
      }
    }
  }

  lemma {:induction false} RewriteSame(s: string, a: char, b: char, c: char)
    requires NoPair(s, a, b)
    ensures Rewrite(s, a, b, c) == s
    decreases |s|
  {
    if |s| >= 2 {
      assert !(s[0] == a && s[0 + 1] == b);
      RewriteSame(s[1..], a, b, c);
      assert s == [s[0]] + s[1..];
    }
  }

  /** No lookalike survives in a skeleton: every character is folded and neither "rn" nor "vv" is left. */
  lemma SkeletonIsPlain(name: string)
    ensures AllFolded(Skeleton(name)) && NoPair(Skeleton(name), 'r', 'n') && NoPair(Skeleton(name), 'v', 'v')
  {
    var folded := Fold(name);
    var once := Rewrite(folded, 'r', 'n', 'm');
    FoldFolds(name);
    RewriteFolded(folded, 'r', 'n', 'm');
    RewriteFolded(once, 'v', 'v', 'w');
    RewriteRemoves(folded, 'r', 'n', 'm');
    RewriteRemoves(once, 'v', 'v', 'w');
    RewriteMakesNone(once, 'v', 'v', 'w', 'r', 'n');
  }

  /** A text is its own skeleton exactly when nothing in it would be folded. */
  lemma SkeletonFixed(s: string)
    ensures Skeleton(s) == s <==> AllFolded(s) && NoPair(s, 'r', 'n') && NoPair(s, 'v', 'v')
  {
    if AllFolded(s) && NoPair(s, 'r', 'n') && NoPair(s, 'v', 'v') {
      FoldSame(s);
      RewriteSame(s, 'r', 'n', 'm');
      RewriteSame(s, 'v', 'v', 'w');
    } else {
      SkeletonIsPlain(s);
    }
  }

  lemma SkeletonIdempotent(name: string)
    ensures Skeleton(Skeleton(name)) == Skeleton(name)
  {
    SkeletonIsPlain(name);
    SkeletonFixed(Skeleton(name));
  }

  // ---- clean names ------------------------------------------------------------------

  lemma TrimSame(s: string)
    requires s != "" ==> !Space(s[0]) && !Space(s[|s| - 1])
    ensures Trim(s) == s
  {
  }

  /** Cleaning a clean name changes nothing, and gives the same skeleton. */
  lemma CleanIdempotent(name: string)
    requires CheckName(name).Clean?
    ensures CheckName(CheckName(name).name) == CheckName(name)
  {
    var n := Trim(name);
    assert CharOk(n, 0) && CharOk(n, |n| - 1);
    TrimSame(n);
  }

  lemma {:induction false} FoldConcat(s: string, t: string)
    ensures Fold(s + t) == Fold(s) + Fold(t)
    decreases |t|
  {
    if t == "" {
      assert s + t == s;
    } else {
      hide Fold, FoldChar;
      var init, x := t[..|t| - 1], t[|t| - 1];
      assert t == init + [x];
      FoldConcat(s, init);
      Associative(s, init, [x]);
      FoldLast(s + init, x);
      FoldLast(init, x);
      Associative(Fold(s), Fold(init), FoldChar(x));
    }
  }

  lemma FoldLast(init: string, x: char)
    ensures Fold(init + [x]) == Fold(init) + FoldChar(x)
  {
  }

  predicate HexDigit(c: char) {
    '0' <= c <= '9' || 'a' <= c <= 'f'
  }

  function GuestName(hex: string): string {
    "guest-" + hex[..if |hex| > 4 then 4 else |hex|]
  }

  lemma {:induction false} FoldHex(hex: string)
    requires forall i :: 0 <= i < |hex| ==> HexDigit(hex[i])
    ensures forall i :: 0 <= i < |Fold(hex)| ==> Fold(hex)[i] != 'n' && Fold(hex)[i] != 'v'
  {
    if hex != "" {
      FoldHex(hex[..|hex| - 1]);
      assert HexDigit(hex[|hex| - 1]);
    }
  }

  lemma FoldGuest()
    ensures Fold("guest-") == "guest"
  {
    assert AllFolded("guest");
    FoldSame("guest");
    assert "guest-"[..5] == "guest";
  }

  lemma GuestSkeleton(hex: string)
    requires forall i :: 0 <= i < |hex| ==> HexDigit(hex[i])
    ensures HasPrefix(Skeleton(GuestName(hex)), "guest")
  {
    var digits := hex[..if |hex| > 4 then 4 else |hex|];
    FoldConcat("guest-", digits);
    FoldGuest();
    FoldHex(digits);
    hide Fold, Rewrite;
    GuestPlain(Fold(digits));
  }

  /** After "guest" no pair is rewritten. */
  lemma GuestPlain(rest: string)
    requires forall i :: 0 <= i < |rest| ==> rest[i] != 'n' && rest[i] != 'v'
    ensures Rewrite(Rewrite("guest" + rest, 'r', 'n', 'm'), 'v', 'v', 'w') == "guest" + rest
  {
    hide Rewrite;
    var s := "guest" + rest;
    RewriteSame(s, 'r', 'n', 'm');
    RewriteSame(s, 'v', 'v', 'w');
  }

  /** Nobody can claim a name that looks like the one a guest is shown as, or like a reserved word. */
  lemma CleanNeverImpersonates(name: string, hex: string, i: nat)
    requires CheckName(name).Clean? && i < |RESERVED|
    requires forall k :: 0 <= k < |hex| ==> HexDigit(hex[k])
    ensures CheckName(name).skeleton == Skeleton(CheckName(name).name)
    ensures CheckName(name).skeleton != Skeleton(GuestName(hex))
    ensures CheckName(name).skeleton != Skeleton(RESERVED[i])
  {
    GuestSkeleton(hex);
  }

  // ---- names that look alike --------------------------------------------------------

  /** Two characters read the same: up to case, or as one of 1 i l | !, of 0 o, or of 5 s. */
  predicate Alike(a: char, b: char) {
    var x, y := Lower(a), Lower(b);
    || x == y
    || (x in "1il|!" && y in "1il|!")
    || (x in "0o" && y in "0o")
    || (x in "5s" && y in "5s")
  }

  predicate Separator(c: char) {
    c == '-' || c == '_' || c == '.' || c == ' '
  }

  lemma AlikeFold(a: char, b: char)
    requires !Separator(a) && !Separator(b)
    ensures |FoldChar(a)| == 1 && (Alike(a, b) <==> FoldChar(a) == FoldChar(b))
  {
  }

  /** A name without its separators. */
  function Bare(s: string): string {
    if s == "" then "" else Bare(s[..|s| - 1]) + (if Separator(s[|s| - 1]) then "" else [s[|s| - 1]])
  }

  predicate AllAlike(s: string, t: string) {
    |s| == |t| && forall i :: 0 <= i < |s| ==> Alike(s[i], t[i])
  }

  lemma {:induction false} BareFold(s: string)
    ensures Fold(Bare(s)) == Fold(s) && forall i :: 0 <= i < |Bare(s)| ==> !Separator(Bare(s)[i])
  {
    if s != "" {
      var init, c := s[..|s| - 1], s[|s| - 1];
      BareFold(init);
      if Separator(c) {
        assert FoldChar(c) == "" && Bare(s) == Bare(init);
      } else {
        FoldLast(Bare(init), c);
      }
    }
  }

  lemma {:induction false} FoldAlike(s: string, t: string)
    requires forall i :: 0 <= i < |s| ==> !Separator(s[i])
    requires forall i :: 0 <= i < |t| ==> !Separator(t[i])
    ensures Fold(s) == Fold(t) <==> AllAlike(s, t)
  {
    if s != "" && t != "" {
      var a, b := s[|s| - 1], t[|t| - 1];
      AlikeFold(a, b);
      AlikeFold(b, a);
      FoldAlike(s[..|s| - 1], t[..|t| - 1]);
      hide FoldChar, Alike;
      SameEnds(Fold(s[..|s| - 1]), FoldChar(a), Fold(t[..|t| - 1]), FoldChar(b));
      AlikeEnds(s, t);
    } else {
      FoldEmpty(s);
      FoldEmpty(t);
    }
  }

  lemma FoldEmpty(s: string)
    requires forall i :: 0 <= i < |s| ==> !Separator(s[i])
    ensures Fold(s) == "" <==> s == ""
  {
    if s != "" {
      AlikeFold(s[|s| - 1], s[|s| - 1]);
    }
  }

  lemma SameEnds(x: string, a: string, y: string, b: string)
    requires |a| == 1 && |b| == 1
    ensures x + a == y + b <==> x == y && a == b
  {
    if x + a == y + b {
      assert x == (x + a)[..|x|] && y == (y + b)[..|y|];
      assert (x + a)[|x|] == a[0] && (y + b)[|y|] == b[0];
    }
  }

  lemma AlikeEnds(s: string, t: string)
    requires s != "" && t != ""
    ensures AllAlike(s, t) <==> AllAlike(s[..|s| - 1], t[..|t| - 1]) && Alike(s[|s| - 1], t[|t| - 1])
  {
    hide Alike;
  }

  /** Two names fold to the same letters exactly when, separators aside, they agree letter by letter up to lookalikes. */
  lemma FoldsAlikeIff(s: string, t: string)
    ensures Fold(s) == Fold(t) <==> AllAlike(Bare(s), Bare(t))
  {
    BareFold(s);
    BareFold(t);
    FoldAlike(Bare(s), Bare(t));
  }

  /** Names that differ in lookalikes and in any number of separators are the same name. */
  lemma LookalikesShareSkeleton(s: string, t: string)
    requires AllAlike(Bare(s), Bare(t))
    ensures Skeleton(s) == Skeleton(t)
  {
    FoldsAlikeIff(s, t);
  }

  /** "rn" in a name reads as "m". */
  lemma {:induction false} RnRewrites(a: string, b: string)
    ensures Rewrite(a + "rn" + b, 'r', 'n', 'm') == Rewrite(a + "m" + b, 'r', 'n', 'm')
    decreases |a|
  {
    var x, y := a + "rn" + b, a + "m" + b;
    if a == "" {
      assert x[2..] == b && y[1..] == b;
      MStaysPut(b);
    } else if |a| >= 2 && a[0] == 'r' && a[1] == 'n' {
      assert x[2..] == a[2..] + "rn" + b && y[2..] == a[2..] + "m" + b;
      RnRewrites(a[2..], b);
    } else {
      assert x[1..] == a[1..] + "rn" + b && y[1..] == a[1..] + "m" + b;
      RnRewrites(a[1..], b);
    }
  }

  lemma MStaysPut(b: string)
    ensures Rewrite("m" + b, 'r', 'n', 'm') == "m" + Rewrite(b, 'r', 'n', 'm')
  {
  }

  lemma RnIsM(a: string, b: string)
    ensures Skeleton(a + "rn" + b) == Skeleton(a + "m" + b)
  {
    assert AllFolded("rn") && AllFolded("m");
    FoldSame("rn");
    FoldSame("m");
    FoldConcat(a + "rn", b);
    FoldConcat(a, "rn");
    FoldConcat(a + "m", b);
    FoldConcat(a, "m");
    RnRewrites(Fold(a), Fold(b));
    hide Fold, Rewrite;
  }

  /** Rewriting goes piece by piece where no pair straddles the cut. */
  lemma {:induction false} RewriteConcat(x: string, y: string, a: char, b: char, c: char)
    requires x == "" || y == "" || !(x[|x| - 1] == a && y[0] == b)
    ensures Rewrite(x + y, a, b, c) == Rewrite(x, a, b, c) + Rewrite(y, a, b, c)
    decreases |x|
  {
    if x == "" {
      assert x + y == y;
    } else if |x| == 1 {
      assert (x + y)[1..] == y;
      assert y == "" ==> x + y == x;
    } else {
      var n := if x[0] == a && x[1] == b then 2 else 1;
      assert (x + y)[n..] == x[n..] + y;
      RewriteConcat(x[n..], y, a, b, c);
    }
  }

  /** How many v's a text ends with. */
  function TrailingVs(x: string): (n: nat)
    ensures n <= |x| && (n == |x| > 0 ==> x[0] == 'v')
  {
    if x != "" && x[|x| - 1] == 'v' then 1 + TrailingVs(x[..|x| - 1]) else 0
  }

  lemma {:induction false} TrailingConcat(p: string, y: string)
    ensures TrailingVs(p + y) == if TrailingVs(y) == |y| then TrailingVs(p) + |y| else TrailingVs(y)
    decreases |y|
  {
    if y == "" {
      assert p + y == p;
    } else {
      assert (p + y)[..|p + y| - 1] == p + y[..|y| - 1];
      TrailingConcat(p, y[..|y| - 1]);
    }
  }

  /** How much of a text the next rewriting step consumes. */
  function VStep(x: string): nat
    requires x != ""
  {
    if |x| >= 2 && x[0] == 'v' && x[1] == 'v' then 2 else 1
  }

  lemma EvenStep(x: string)
    requires x != "" && TrailingVs(x) % 2 == 0
    ensures TrailingVs(x[VStep(x)..]) % 2 == 0
    ensures |x| == 1 ==> x[0] != 'v'
  {
    hide TrailingVs;
    var p, rest := x[..VStep(x)], x[VStep(x)..];
    assert x == p + rest;
    TrailingConcat(p, rest);
    TrailingShort(p);
    if VStep(x) == 2 {
      assert p == "vv";
    } else if |x| == 1 {
      assert p == x && rest == "";
      TrailingShort("");
    } else if p[0] == 'v' {
      assert rest[0] == x[1] != 'v';
    }
  }

  lemma RewriteVStep(x: string, z: string)
    requires x != "" && (|x| == 1 ==> x[0] != 'v')
    ensures VStep(x + z) == VStep(x) && (x + z)[VStep(x)..] == x[VStep(x)..] + z
    ensures Rewrite(x, 'v', 'v', 'w') == [if VStep(x) == 2 then 'w' else x[0]] + Rewrite(x[VStep(x)..], 'v', 'v', 'w')
    ensures Rewrite(x + z, 'v', 'v', 'w') == [if VStep(x) == 2 then 'w' else x[0]] + Rewrite(x[VStep(x)..] + z, 'v', 'v', 'w')
  {
    var n := VStep(x);
    assert (x + z)[n..] == x[n..] + z;
    if |x| == 1 {
      assert x[1..] == "";
    }
  }

  /** After an even number of v's a new pair can start. */
  lemma {:induction false} VvConcat(x: string, z: string)
    requires TrailingVs(x) % 2 == 0
    ensures Rewrite(x + z, 'v', 'v', 'w') == Rewrite(x, 'v', 'v', 'w') + Rewrite(z, 'v', 'v', 'w')
    decreases |x|
  {
    if x == "" {
      assert x + z == z;
    } else {
      EvenStep(x);
      RewriteVStep(x, z);
      hide Rewrite, TrailingVs;
      VvConcat(x[VStep(x)..], z);
      Associative([if VStep(x) == 2 then 'w' else x[0]], Rewrite(x[VStep(x)..], 'v', 'v', 'w'), Rewrite(z, 'v', 'v', 'w'));
    }
  }

  lemma TrailingShort(p: string)
    ensures |p| == 1 ==> TrailingVs(p) == (if p[0] == 'v' then 1 else 0)
    ensures p == "vv" ==> TrailingVs(p) == 2
    ensures p == "" ==> TrailingVs(p) == 0
  {
    if |p| == 1 {
      assert p[..0] == "";
    } else if p == "vv" {
      assert p[..1] == "v" && p[..1][..0] == "";
      assert TrailingVs("v") == 1;
    }
  }

  /** The first rewriting leaves a "vv" or "w" in the middle alone. */
  lemma FirstStage(x: string, mid: string, y: string)
    requires mid == "vv" || mid == "w"
    ensures Rewrite(x + mid + y, 'r', 'n', 'm') == Rewrite(x, 'r', 'n', 'm') + mid + Rewrite(y, 'r', 'n', 'm')
  {
    RewriteConcat(x + mid, y, 'r', 'n', 'm');
    RewriteConcat(x, mid, 'r', 'n', 'm');
    RewriteSame(mid, 'r', 'n', 'm');
  }

  /** "vv" reads as "w" exactly when the text before it, so far rewritten, ends in an even number of v's. */
  lemma SecondStage(x: string, y: string)
    ensures Rewrite(x + "vv" + y, 'v', 'v', 'w') == Rewrite(x + "w" + y, 'v', 'v', 'w') <==> TrailingVs(x) % 2 == 0
  {
    if TrailingVs(x) % 2 == 0 {
      EvenSame(y);
      hide Rewrite, TrailingVs;
      Associative(x, "vv", y);
      Associative(x, "w", y);
      VvConcat(x, "vv" + y);
      VvConcat(x, "w" + y);
    } else {
      var p := x[..|x| - 1];
      assert TrailingVs(p) % 2 == 0;
      hide Rewrite, TrailingVs;
      assert x + "vv" + y == p + ("vvv" + y) && x + "w" + y == p + ("vw" + y);
      VvConcat(p, "vvv" + y);
      VvConcat(p, "vw" + y);
      OddDiffers(Rewrite(p, 'v', 'v', 'w'), y);
    }
  }

  lemma EvenSame(y: string)
    ensures Rewrite("vv" + y, 'v', 'v', 'w') == Rewrite("w" + y, 'v', 'v', 'w')
  {
    RewriteConcat("w", y, 'v', 'v', 'w');
    assert ("vv" + y)[2..] == y;
  }

  lemma OddDiffers(done: string, y: string)
    ensures done + Rewrite("vvv" + y, 'v', 'v', 'w') != done + Rewrite("vw" + y, 'v', 'v', 'w')
  {
    var l, r := Rewrite("vvv" + y, 'v', 'v', 'w'), Rewrite("vw" + y, 'v', 'v', 'w');
    assert l[0] == 'w' && r[0] == 'v';
    assert (done + l)[|done|] == 'w' && (done + r)[|done|] == 'v';
  }

  lemma VvIsWIff(a: string, b: string)
    ensures Skeleton(a + "vv" + b) == Skeleton(a + "w" + b) <==> TrailingVs(Rewrite(Fold(a), 'r', 'n', 'm')) % 2 == 0
  {
    assert AllFolded("vv") && AllFolded("w");
    FoldSame("vv");
    FoldSame("w");
    FoldConcat(a + "vv", b);
    FoldConcat(a, "vv");
    FoldConcat(a + "w", b);
    FoldConcat(a, "w");
    hide Fold, Rewrite, TrailingVs;
    FirstStage(Fold(a), "vv", Fold(b));
    FirstStage(Fold(a), "w", Fold(b));
    SecondStage(Rewrite(Fold(a), 'r', 'n', 'm'), Rewrite(Fold(b), 'r', 'n', 'm'));
  }

  // ---- a name that can be claimed -----------------------------------------------------

  lemma {:induction false} FoldFirst(s: string)
    requires s != "" && Folded(s[0])
    ensures Fold(s) != "" && Fold(s)[0] == s[0]
  {
    if |s| == 1 {
      assert s[..0] == "" && s == [s[0]];
    } else {
      FoldFirst(s[..|s| - 1]);
    }
  }

  /** A skeleton starts as the word does, or with one of the two replacements. */
  lemma SkeletonFirst(s: string)
    requires s != "" && Folded(s[0])
    ensures Skeleton(s) != "" && (Skeleton(s)[0] == s[0] || Skeleton(s)[0] == 'm' || Skeleton(s)[0] == 'w')
  {
    FoldFirst(s);
    RewriteStart(Fold(s), 'r', 'n', 'm');
    RewriteStart(Rewrite(Fold(s), 'r', 'n', 'm'), 'v', 'v', 'w');
  }

  lemma ZzIsClean()
    ensures CheckName("zz") == Clean("zz", "zz")
  {
    hide Skeleton, FirstBad;
    ZzSkeleton();
    TrimSame("zz");
    ZzLetters();
    forall i | 0 <= i < |RESERVED|
      ensures Skeleton(RESERVED[i]) != "zz"
    {
      ReservedStart(i);
      SkeletonFirst(RESERVED[i]);
    }
  }

  lemma ZzSkeleton()
    ensures Skeleton("zz") == "zz"
  {
    assert AllFolded("zz");
    SkeletonFixed("zz");
  }

  lemma ZzLetters()
    ensures FirstBad("zz", 0) == 2
  {
    assert CharOk("zz", 0) && CharOk("zz", 1);
  }

  lemma ReservedStart(i: nat)
    requires i < |RESERVED|
    ensures RESERVED[i] != "" && RESERVED[i][0] != 'z' && Folded(RESERVED[i][0])
  {
  }
}
