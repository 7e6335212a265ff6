/** Which names may be claimed, and what is wrong with the others, said without the order of the checks. */
module NameRules {
  import opened Names

  /** n is name without the white space around it. */
  ghost predicate TrimmedOf(n: string, name: string) {
    && (exists before: string, after: string :: name == before + n + after && AllSpace(before) && AllSpace(after))
    && (n != "" ==> !Space(n[0]) && !Space(n[|n| - 1]))
  }

  predicate AllSpace(s: string) {
    forall k :: 0 <= k < |s| ==> Space(s[k])
  }

  lemma {:induction false} LeftTrimmed(s: string)
    ensures exists before: string :: s == before + TrimLeft(s) && AllSpace(before)
    ensures TrimLeft(s) != "" ==> !Space(TrimLeft(s)[0])
  {
    if s != "" && Space(s[0]) {
      LeftTrimmed(s[1..]);
      var before: string :| s[1..] == before + TrimLeft(s) && AllSpace(before);
      SpaceMore([s[0]], before);
      assert s == ([s[0]] + before) + TrimLeft(s);
    } else {
      assert s == "" + TrimLeft(s) && AllSpace("");
    }
  }

  lemma SpaceMore(a: string, b: string)
    ensures AllSpace(a + b) <==> AllSpace(a) && AllSpace(b)
  {
    hide Space;
    if AllSpace(a + b) {
      assert forall k :: 0 <= k < |a| ==> (a + b)[k] == a[k];
      assert forall k :: 0 <= k < |b| ==> (a + b)[|a| + k] == b[k];
    }
  }

  lemma {:induction false} RightTrimmed(s: string)
    ensures exists after: string :: s == TrimRight(s) + after && AllSpace(after)
    ensures TrimRight(s) != "" ==> !Space(TrimRight(s)[|TrimRight(s)| - 1]) && TrimRight(s)[0] == s[0]
  {
    if s != "" && Space(s[|s| - 1]) {
      var init, x := s[..|s| - 1], s[|s| - 1];
      RightTrimmed(init);
      var t := TrimRight(s);
      assert t == TrimRight(init);
      hide TrimRight;
      var after: string :| init == t + after && AllSpace(after);
      OneSpace(x);
      SpaceMore(after, [x]);
      hide AllSpace, Space;
      assert s == t + (after + [x]);
    } else {
      assert s == TrimRight(s) + "" && AllSpace("");
    }
  }

  lemma OneSpace(x: char)
    ensures Space(x) ==> AllSpace([x])
  {
  }

  lemma TrimIs(name: string)
    ensures TrimmedOf(Trim(name), name)
  {
    LeftTrimmed(name);
    RightTrimmed(TrimLeft(name));
    var before: string :| name == before + TrimLeft(name) && AllSpace(before);
    var after: string :| TrimLeft(name) == Trim(name) + after && AllSpace(after);
    hide TrimLeft, TrimRight, AllSpace;
    assert name == before + Trim(name) + after;
  }

  predicate Alphabetic(c: char) {
    'a' <= c <= 'z' || 'A' <= c <= 'Z'
  }

  predicate Allowed(c: char) {
    Alphabetic(c) || '0' <= c <= '9' || c == '-' || c == '_' || c == '.'
  }

  /** i is the place of the first character that no name may have. */
  ghost predicate FirstWrong(n: string, i: nat) {
    i < |n| && !Allowed(n[i]) && forall k :: 0 <= k < i ==> Allowed(n[k])
  }

  /** Right length, a letter first, and nothing but letters, digits, '-', '_' and '.'. */
  predicate WellFormed(n: string) {
    2 <= |n| <= 24 && Alphabetic(n[0]) && forall k :: 0 <= k < |n| ==> Allowed(n[k])
  }

  /** Words that name the hub, its staff, or everyone. */
  const STAFF: set<string> := {"admin", "administrator", "moderator", "op", "operator", "root", "system"}
  const PLACES: set<string> := {"bridge", "hub", "rrc", "scotmesh", "server", "notice"}
  const ANYONE: set<string> := {"everyone", "guest", "here", "nobody", "you"}

  predicate LooksReserved(skeleton: string) {
    exists word :: word in STAFF + PLACES + ANYONE && skeleton == Skeleton(word)
  }

  /** The verdict on a name whose trimmed form is n. */
  ghost predicate Verdict(c: Checked, n: string) {
    && (c == Refused(Empty) <==> |n| == 0)
    && (c == Refused(TooShort) <==> |n| == 1)
    && (c == Refused(TooLong) <==> |n| > 24)
    && (c == Refused(NotALetterFirst) <==> 2 <= |n| <= 24 && !Alphabetic(n[0]))
    && (c == Refused(HasSpace) <==> 2 <= |n| <= 24 && Alphabetic(n[0]) && exists i: nat :: FirstWrong(n, i) && Space(n[i]))
    && (c == Refused(BadCharacter) <==> 2 <= |n| <= 24 && Alphabetic(n[0]) && exists i: nat :: FirstWrong(n, i) && !Space(n[i]))
    && (c == Refused(GuestPrefix) <==> WellFormed(n) && HasPrefix(Skeleton(n), "guest"))
    && (c == Refused(Reserved) <==> WellFormed(n) && !HasPrefix(Skeleton(n), "guest") && LooksReserved(Skeleton(n)))
    && (c.Clean? <==> WellFormed(n) && !HasPrefix(Skeleton(n), "guest") && !LooksReserved(Skeleton(n)))
    && (c.Clean? ==> c == Clean(n, Skeleton(n)))
  }

  lemma CharIs(n: string, i: nat)
    requires i < |n|
    ensures CharOk(n, i) <==> Allowed(n[i]) && (i == 0 ==> Alphabetic(n[0]))
  {
  }

  lemma CharsAre(n: string)
    requires 2 <= |n| <= 24
    ensures WellFormed(n) <==> FirstBad(n, 0) == |n|
    ensures !Alphabetic(n[0]) <==> FirstBad(n, 0) == 0
  {
    forall i: nat | i < |n|
      ensures CharOk(n, i) <==> Allowed(n[i]) && (i == 0 ==> Alphabetic(n[0]))
    {
      CharIs(n, i);
    }
    CharIs(n, 0);
    assert Alphabetic(n[0]) ==> Allowed(n[0]);
    hide CharOk, Alphabetic, Allowed;
  }

  lemma FirstBadIs(n: string)
    requires n != "" && Alphabetic(n[0])
    ensures FirstBad(n, 0) < |n| ==> FirstWrong(n, FirstBad(n, 0))
    ensures forall i: nat :: FirstWrong(n, i) ==> i == FirstBad(n, 0)
  {
    forall i: nat | i < |n|
      ensures CharOk(n, i) <==> Allowed(n[i])
    {
      CharIs(n, i);
    }
    hide CharOk, Alphabetic, Allowed;
  }

  lemma ReservedAlike(skeleton: string)
    ensures IsReserved(skeleton) <==> LooksReserved(skeleton)
  {
    hide Skeleton;
    forall word
      ensures word in STAFF + PLACES + ANYONE <==> word in RESERVED
    {
      WordsAre(word);
    }
    if LooksReserved(skeleton) {
      var word :| word in STAFF + PLACES + ANYONE && skeleton == Skeleton(word);
      assert word in RESERVED;
    }
    if IsReserved(skeleton) {
      var i :| 0 <= i < |RESERVED| && Skeleton(RESERVED[i]) == skeleton;
      assert RESERVED[i] in RESERVED;
    }
  }

  lemma WordsAre(word: string)
    ensures word in STAFF + PLACES + ANYONE <==> word in RESERVED
  {
  }

  lemma BadChar(n: string)
    requires n != "" && FirstBad(n, 0) < |n|
    ensures CharError(n, FirstBad(n, 0)) ==
            if !Alphabetic(n[0]) then NotALetterFirst else if Space(n[FirstBad(n, 0)]) then HasSpace else BadCharacter
  {
    CharIs(n, 0);
    hide Allowed;
  }

  /** Every name gets exactly the verdict it should. */
  lemma NameVerdict(name: string)
    ensures TrimmedOf(Trim(name), name) && Verdict(CheckName(name), Trim(name))
  {
    hide Skeleton, Trim, FirstBad, WellFormed, HasPrefix, FirstWrong, CharError, Alphabetic, Space, IsReserved, LooksReserved, TrimmedOf;
    TrimIs(name);
    var n := Trim(name);
    ReservedAlike(Skeleton(n));
    if 2 <= |n| <= 24 {
      CharsAre(n);
      if FirstBad(n, 0) < |n| {
        BadChar(n);
      }
      if Alphabetic(n[0]) {
        FirstBadIs(n);
      }
    }
    VerdictIs(name, n);
  }

  lemma VerdictIs(name: string, n: string)
    requires n == Trim(name)
    requires IsReserved(Skeleton(n)) <==> LooksReserved(Skeleton(n))
    requires 2 <= |n| <= 24 ==>
               && (WellFormed(n) <==> FirstBad(n, 0) == |n|)
               && (!Alphabetic(n[0]) <==> FirstBad(n, 0) == 0)
               && (FirstBad(n, 0) < |n| ==>
                     CharError(n, FirstBad(n, 0)) == if !Alphabetic(n[0]) then NotALetterFirst else if Space(n[FirstBad(n, 0)]) then HasSpace else BadCharacter)
               && (Alphabetic(n[0]) && FirstBad(n, 0) < |n| ==> FirstWrong(n, FirstBad(n, 0)))
               && (Alphabetic(n[0]) ==> forall i: nat :: FirstWrong(n, i) ==> i == FirstBad(n, 0))
    ensures Verdict(CheckName(name), n)
  {
    hide Skeleton, Trim, FirstBad, HasPrefix, CharError, Alphabetic, Space, IsReserved, LooksReserved, Allowed;
  }
}
