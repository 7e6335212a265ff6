/** Every command about people, in every run: what it does, in full, and to whom it does nothing. */
module Commands {
  import opened Common
  import opened People
  import opened TearApart
  import opened Ranks
  import opened Links
  import opened LinkRuns
  import opened LinkCodes
  import opened CodeOrigins
  import opened Powers
  import Limits
  import Names

  ghost predicate AskedDone(w: World, w2: World, me: Identity, h: Hash)
    requires me in w.t.identities
  {
    var p := w.t.identities[me].person;
    && w2.t == w.t.(codes := w2.t.codes) && w2.banned == w.banned
    && (!MayIssue(w, me, h) ==> w2.t == w.t && w2.log == w.log)
    && (MayIssue(w, me, h) ==>
          && h in w2.t.codes && w2.t.codes[h] == Code(p, me, w.now + 10 * Limits.MINUTE, None)
          && (forall k :: k != h ==> (k in w2.t.codes <==> k in w.t.codes && !(w.t.codes[k].person == p && w.t.codes[k].redeemedBy.None?)))
          && (forall k :: k != h && k in w2.t.codes ==> w2.t.codes[k] == w.t.codes[k])
          && Limits.Times(w2.log.issued, p) == Limits.Times(w.log.issued, p) + [w.now])
  }

  ghost predicate ForgetDone(w: World, w2: World, me: Identity, others: seq<Identity>)
    requires me in w.t.identities
  {
    && me in w2.t.identities && w2.t.identities[me] == w.t.identities[me] && Alone(w2.t, me)
    && (forall o :: o in others ==> Single(w2.t, o))
    && (forall i :: i in w.t.identities && i !in others ==> SameFor(w.t, w2.t, i))
    && w2.t.names == w.t.names - {w.t.identities[me].person} && w2.banned == w.banned
  }

  ghost predicate IgnoreDone(w: World, w2: World, me: Identity, them: Identity)
    requires me in w.t.identities && them in w.t.identities
  {
    var q := Pair(w.t.identities[me].person, w.t.identities[them].person);
    if q.who == q.ignored then w2 == w
    else w2 == w.(t := w.t.(ignores := w.t.ignores[q := if q in w.t.ignores then w.t.ignores[q] else w.now]))
  }

  /** What each command does to the state its caller finds. A target nobody has seen has nothing done to it. */
  ghost predicate Did(w: World, w2: World, owners: set<Identity>, me: Identity, cmd: Cmd)
    requires me in w.t.identities
  {
    match cmd
    case Visit => w2 == w
    case AskCode(h) => AskedDone(w, w2, me, h)
    case UseLinkCode(h, confirmed) => Redeemed(w, w2, owners, me, h, confirmed) && w2.banned == w.banned
    case Answer(h, approve) => Answered(w, w2, me, h, approve) && w2.banned == w.banned
    case UnlinkApp(target, row) =>
      if target in w.t.identities && MayTakeOut(w.t, owners, me, target) && !Alone(w.t, target)
      then OneOut(w.t, w2.t, target, row) && w2.banned == w.banned else w2 == w
    case SetRankOf(target, rank) =>
      if target in w.t.identities && Outranks(w.t, owners, me, target, ADMIN) && RankOf(w.t, owners, target) != Level(rank)
      then GrantDone(w.t, w2.t, target, rank) && w2.banned == w.banned else w2 == w
    case PutOut(target, others, rows, ban) =>
      if target in w.t.identities && Outranks(w.t, owners, me, target, MOD) then PutOutDone(w, w2, target, ban) else w2 == w
    case ForgetMe(others, rows) => ForgetDone(w, w2, me, others)
    case Nick(want) => ClaimDone(w, w2, me, want)
    case NickOf(target, want) =>
      if target in w.t.identities && Outranks(w.t, owners, me, target, MOD) then ClaimDone(w, w2, target, want) else w2 == w
    case FreeName(target) =>
      if target in w.t.identities && me in owners then w2 == w.(t := w.t.(names := w.t.names - {w.t.identities[target].person})) else w2 == w
    case IgnoreOne(them) => if them in w.t.identities then IgnoreDone(w, w2, me, them) else w2 == w
    case UnignoreOne(them) =>
      if them in w.t.identities
      then w2 == w.(t := w.t.(ignores := w.t.ignores - {Pair(w.t.identities[me].person, w.t.identities[them].person)})) else w2 == w
    case WhisperTo(to, whisper) =>
      if to in w.t.identities && whisper !in w.t.whispers
      then w2 == w.(t := w.t.(whispers := w.t.whispers[whisper := w.t.identities[to].person])) else w2 == w
    case LiftBans(ids) => if IdentityRank(w.t, owners, me) >= MOD then w2 == w.(banned := w.banned - ids) else w2 == w
  }

  /** A command with a list the tables do not give, or about someone nobody has seen, may come to nothing at all. */
  ghost predicate MayAbort(w: World, me: Identity, cmd: Cmd) {
    || (cmd.UnlinkApp? && cmd.row in w.t.people)
    || (cmd.SetRankOf? && cmd.target !in w.t.identities)
    || (cmd.PutOut? && !Listed(w.t, cmd.target, cmd.others, cmd.rows))
    || (cmd.ForgetMe? && !Listed(w.t, me, cmd.others, cmd.rows))
  }

  // ---- command by command --------------------------------------------------------------------------------

  lemma CodesDid(w: World, owners: set<Identity>, me: Identity, cmd: Cmd)
    requires Inv(w, owners) && me in w.t.identities && (cmd.AskCode? || cmd.UseLinkCode? || cmd.Answer?)
    requires forall h :: h in w.t.codes && w.t.codes[h].redeemedBy.Some? ==> w.t.codes[h].redeemedBy.value in w.t.identities
    ensures Exec(w, owners, me, cmd).Some? && Did(w, Exec(w, owners, me, cmd).value, owners, me, cmd)
  {
    hide Inv, Issue, Redeem, Decide, Redeemed, Answered, MayIssue;
    match cmd
    case AskCode(h) =>
      IssueOutcome(w, owners, me, h);
      IssueBans(w, me, h);
    case UseLinkCode(h, confirmed) => RedeemOutcome(w, owners, me, h, confirmed);
    case Answer(h, approve) => DecideOutcome(w, owners, me, h, approve);
  }

  lemma IssueBans(w: World, me: Identity, h: Hash)
    ensures Issue(w, me, h).banned == w.banned
  {
    hide Limits.DoIssue, PutCode, Apps;
  }

  lemma UnlinkDid(w: World, owners: set<Identity>, me: Identity, target: Identity, row: PersonId)
    requires Inv(w, owners) && me in w.t.identities && row !in w.t.people
    ensures Unlink(w, owners, me, target, row).Some? && Did(w, Unlink(w, owners, me, target, row).value, owners, me, UnlinkApp(target, row))
  {
    if target in w.t.identities {
      hide Inv, Unlink, MayTakeOut, OneOut;
      UnlinkOutcome(w, owners, me, target, row);
    } else {
      hide Inv, May, WhoIs;
    }
  }

  lemma GrantDid(w: World, owners: set<Identity>, me: Identity, target: Identity, rank: Stored)
    requires Inv(w, owners) && me in w.t.identities && target in w.t.identities
    ensures Grant(w, owners, me, target, rank).Some? && Did(w, Grant(w, owners, me, target, rank).value, owners, me, SetRankOf(target, rank))
  {
    hide Inv, Grant, Outranks, GrantDone;
    GrantOutcome(w, owners, me, target, rank);
  }

  lemma PutOutDid(w: World, owners: set<Identity>, me: Identity, cmd: Cmd)
    requires Inv(w, owners) && me in w.t.identities && cmd.PutOut? && Listed(w.t, cmd.target, cmd.others, cmd.rows)
    ensures Exec(w, owners, me, cmd).Some? && Did(w, Exec(w, owners, me, cmd).value, owners, me, cmd)
  {
    hide Inv, Remove, Outranks, PutOutDone, Listed, OtherApps, Fresh;
    ListedFits(w.t, cmd.target, cmd.others, cmd.rows);
    ListedApps(w.t, cmd.target, cmd.others);
    RemoveOutcome(w, owners, me, cmd.target, cmd.others, cmd.rows, cmd.ban);
  }

  lemma ForgetDid(w: World, owners: set<Identity>, me: Identity, cmd: Cmd)
    requires Inv(w, owners) && me in w.t.identities && cmd.ForgetMe? && Listed(w.t, me, cmd.others, cmd.rows)
    ensures Exec(w, owners, me, cmd).Some? && Did(w, Exec(w, owners, me, cmd).value, owners, me, cmd)
  {
    ForgetBans(w, me, cmd);
    hide Inv, Forget, Alone, Single, SameFor, Listed, OtherApps, Fresh;
    ListedFits(w.t, me, cmd.others, cmd.rows);
    ForgetOutcome(w, owners, me, cmd.others, cmd.rows);
  }

  lemma ForgetBans(w: World, me: Identity, cmd: Cmd)
    requires cmd.ForgetMe? && |cmd.rows| == |cmd.others|
    ensures Forget(w, me, cmd.others, cmd.rows).banned == w.banned
  {
    hide UnlinkEach, Released;
  }

  lemma NamesDid(w: World, owners: set<Identity>, me: Identity, cmd: Cmd)
    requires Inv(w, owners) && me in w.t.identities && (cmd.Nick? || cmd.NickOf? || cmd.FreeName?)
    ensures Exec(w, owners, me, cmd).Some? && Did(w, Exec(w, owners, me, cmd).value, owners, me, cmd)
  {
    hide Inv, Claim, ClaimDone, RenameOther, ReleaseOther, Outranks;
    match cmd
    case Nick(want) => ClaimOutcome(w, owners, me, want);
    case NickOf(target, want) =>
      if target in w.t.identities {
        RenameOutcome(w, owners, me, target, want);
      } else {
        RenameNobody(w, owners, me, target, want);
      }
    case FreeName(target) =>
      if target in w.t.identities {
        ReleaseOutcome(w, owners, me, target);
      } else {
        ReleaseNobody(w, owners, me, target);
      }
  }

  lemma RenameNobody(w: World, owners: set<Identity>, me: Identity, target: Identity, want: string)
    requires target !in w.t.identities
    ensures RenameOther(w, owners, me, target, want) == w
  {
    hide May, WhoIs, Names.CheckName;
  }

  lemma ReleaseNobody(w: World, owners: set<Identity>, me: Identity, target: Identity)
    requires target !in w.t.identities
    ensures ReleaseOther(w, owners, me, target) == w
  {
    hide IdentityRank;
  }

  lemma OthersDid(w: World, owners: set<Identity>, me: Identity, cmd: Cmd)
    requires Inv(w, owners) && me in w.t.identities && (cmd.Visit? || cmd.IgnoreOne? || cmd.UnignoreOne? || cmd.WhisperTo? || cmd.LiftBans?)
    ensures Exec(w, owners, me, cmd).Some? && Did(w, Exec(w, owners, me, cmd).value, owners, me, cmd)
  {
    hide Inv, LiftSome, IdentityRank, Ignored, Unignored, Whispered;
    match cmd
    case Visit =>
    case IgnoreOne(them) =>
      if them in w.t.identities {
        IgnoreOutcome(w, owners, me, them);
      }
    case UnignoreOne(them) =>
      if them in w.t.identities {
        IgnoreOutcome(w, owners, me, them);
      }
    case WhisperTo(to, whisper) => WhisperDid(w, owners, me, to, whisper);
    case LiftBans(ids) => LiftOutcome(w, owners, me, ids);
  }

  lemma WhisperDid(w: World, owners: set<Identity>, me: Identity, to: Identity, whisper: WhisperId)
    requires Inv(w, owners) && me in w.t.identities
    ensures Did(w, Whisper(w, to, whisper), owners, me, WhisperTo(to, whisper))
  {
    if to in w.t.identities && whisper !in w.t.whispers {
      hide Inv, Whisper;
      WhisperOutcome(w, owners, to, whisper);
    } else {
      hide Inv;
    }
  }

  lemma ExecDid(w: World, owners: set<Identity>, me: Identity, cmd: Cmd)
    requires Inv(w, owners) && me in w.t.identities && !MayAbort(w, me, cmd)
    requires forall h :: h in w.t.codes && w.t.codes[h].redeemedBy.Some? ==> w.t.codes[h].redeemedBy.value in w.t.identities
    ensures Exec(w, owners, me, cmd).Some? && Did(w, Exec(w, owners, me, cmd).value, owners, me, cmd)
  {
    hide Inv, Did, Listed, Issue, Redeem, Decide, Unlink, Grant, Remove, Forget, Claim, RenameOther, ReleaseOther, IgnoreThem, UnignoreThem, Whisper, LiftSome;
    if cmd.AskCode? || cmd.UseLinkCode? || cmd.Answer? {
      CodesDid(w, owners, me, cmd);
    } else if cmd.UnlinkApp? {
      UnlinkDid(w, owners, me, cmd.target, cmd.row);
    } else if cmd.SetRankOf? {
      GrantDid(w, owners, me, cmd.target, cmd.rank);
    } else if cmd.PutOut? {
      PutOutDid(w, owners, me, cmd);
    } else if cmd.ForgetMe? {
      ForgetDid(w, owners, me, cmd);
    } else if cmd.Nick? || cmd.NickOf? || cmd.FreeName? {
      NamesDid(w, owners, me, cmd);
    } else {
      OthersDid(w, owners, me, cmd);
    }
  }

  // ---- in every run -------------------------------------------------------------------------------------------

  lemma RedeemersKnown(owners: set<Identity>, ss: seq<Step>)
    ensures var t := Run(owners, ss).t;
            forall h :: h in t.codes && t.codes[h].redeemedBy.Some? ==> t.codes[h].redeemedBy.value in t.identities
  {
    hide Run;
    var t := Run(owners, ss).t;
    forall h | h in t.codes && t.codes[h].redeemedBy.Some?
      ensures t.codes[h].redeemedBy.value in t.identities
    {
      CodesKnown(owners, ss, h);
    }
  }

  /**
   In every run every command of everyone not banned does exactly what it is
   for, or nothing where the caller does not rank for it; a banned caller gets
   nothing done.
   */
  lemma EveryCommand(owners: set<Identity>, ss: seq<Step>, s: Step)
    requires s.Do? && s.row !in Run(owners, ss).t.people
    ensures s.me in Run(owners, ss).banned ==> Next(Run(owners, ss), owners, s) == Clock(Run(owners, ss), s.at)
    ensures s.me !in Run(owners, ss).banned && !MayAbort(Entering(Run(owners, ss), s), s.me, s.cmd) ==>
              && s.me in Entering(Run(owners, ss), s).t.identities
              && Did(Entering(Run(owners, ss), s), Next(Run(owners, ss), owners, s), owners, s.me, s.cmd)
  {
    var w := Run(owners, ss);
    if s.me !in w.banned {
      hide Inv, Did, MayAbort, Run, Next, Exec, Entering;
      RunKeeps(owners, ss);
      EnteringSame(w, owners, s);
      NextRuns(w, owners, s);
      RedeemersKnown(owners, ss);
      if !MayAbort(Entering(w, s), s.me, s.cmd) {
        ExecDid(Entering(w, s), owners, s.me, s.cmd);
      }
    } else {
      hide Run, Exec;
    }
  }

  /** The clean-up drops exactly the codes that have run out, and the bans that have. */
  lemma CleanUpDrops(w: World, owners: set<Identity>, s: Step)
    requires s.CleanUp?
    ensures var w2 := Next(w, owners, s);
            && w2.t == w.t.(codes := w2.t.codes) && w2.banned == w.banned - s.lifted && w2.log == w.log
            && (forall h :: h in w2.t.codes <==> h in w.t.codes && w2.now < w.t.codes[h].expiresAt)
            && (forall h :: h in w2.t.codes ==> w2.t.codes[h] == w.t.codes[h])
  {
    hide Limits.Evicted;
  }
}
