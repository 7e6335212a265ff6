/** Every run of the commands about people: what stays true of persons, names, codes and limits. */
module LinkRuns {
  import opened Common
  import opened People
  import opened PeopleLaws
  import opened TearApart
  import opened Ranks
  import opened Links
  import opened LimitRuns
  import Limits
  import Names

  // ---- what every state satisfies --------------------------------------------------

  /** A stored code was issued, has linked nobody, and waits for no owner's identity. */
  ghost predicate CodesOk(t: Tables, log: Log, owners: set<Identity>) {
    && (forall h :: h in t.codes ==> h in log.codes && Times(log.linked, h) == 0)
    && (forall h :: h in t.codes && t.codes[h].redeemedBy.Some? ==> t.codes[h].redeemedBy.value !in owners)
  }

  /** A code links at most one app, and only codes once issued do. */
  ghost predicate LinkedOnce(log: Log) {
    forall h :: Times(log.linked, h) <= 1 && (Times(log.linked, h) > 0 ==> h in log.codes)
  }

  /** A person has at most one unredeemed code. */
  ghost predicate OneLive(codes: map<Hash, Code>) {
    forall h, k :: Unredeemed(codes, h) && Unredeemed(codes, k) && codes[h].person == codes[k].person ==> h == k
  }

  /** Names are clean, and stored with their own skeleton. */
  ghost predicate NamesClean(t: Tables) {
    forall p :: p in t.names ==> Names.CheckName(t.names[p].name) == Names.Clean(t.names[p].name, t.names[p].skeleton)
  }

  ghost predicate IssuesOk(w: World) {
    WindowsOk(w.lim.issued, w.log.issued, Limits.CODES_PER_HOUR, Limits.HOUR, w.now)
  }

  ghost predicate GuessesOk(w: World) {
    WindowsOk(w.lim.failures, w.log.wrong, Limits.GUESSES, Limits.LOCKOUT, w.now)
  }

  ghost predicate TablesOk(t: Tables, log: Log, owners: set<Identity>) {
    Valid(t) && CodesOk(t, log, owners) && OneLive(t.codes) && NamesClean(t)
  }

  ghost predicate Inv(w: World, owners: set<Identity>) {
    TablesOk(w.t, w.log, owners) && LinkedOnce(w.log) && IssuesOk(w) && GuessesOk(w)
  }

  // ---- operations that add no code and no name -----------------------------------------

  ghost predicate Fewer<K(!new), V(!new)>(m: map<K, V>, n: map<K, V>) {
    forall k :: k in n ==> k in m && n[k] == m[k]
  }

  ghost predicate Quiet(t: Tables, u: Tables) {
    Valid(u) && Fewer(t.codes, u.codes) && Fewer(t.names, u.names)
  }

  lemma QuietKeeps(t: Tables, u: Tables, log: Log, owners: set<Identity>)
    requires TablesOk(t, log, owners) && Quiet(t, u)
    ensures TablesOk(u, log, owners)
  {
    hide Valid;
    assert CodesOk(u, log, owners);
    assert NamesClean(u);
    assert OneLive(u.codes);
  }

  lemma QuietTwice(t: Tables, u: Tables, v: Tables)
    requires Quiet(t, u) && Quiet(u, v)
    ensures Quiet(t, v)
  {
  }

  lemma TouchedQuiet(t: Tables, id: Identity, row: PersonId, now: int)
    requires Valid(t) && row !in t.people
    ensures Quiet(t, Touched(t, id, row, now))
  {
    hide Valid;
    TouchedKeeps(t, id, row, now);
  }

  lemma ReleasedQuiet(t: Tables, id: Identity)
    requires Valid(t)
    ensures Quiet(t, Released(t, id))
  {
    hide Valid;
    ReleasedKeeps(t, id);
  }

  lemma LinkedQuiet(t: Tables, id: Identity, to: PersonId, now: int)
    requires Valid(t) && Linked(t, id, to, now).Ok?
    ensures Quiet(t, Linked(t, id, to, now).value)
  {
    hide Valid, MergedIgnores, MergedWhispers, Alone;
    LinkedKeeps(t, id, to, now);
  }

  lemma HubLinkedQuiet(t: Tables, id: Identity, to: PersonId, now: int)
    requires Valid(t) && HubLinked(t, id, to, now).Ok?
    ensures Quiet(t, HubLinked(t, id, to, now).value)
  {
    var m := if Alone(t, id) && t.identities[id].person in t.names then Released(t, id) else t;
    ReleasedQuiet(t, id);
    assert Quiet(t, m);
    assert Valid(m);
    hide Valid, Quiet, Released, Linked, Alone;
    LinkedQuiet(m, id, to, now);
    QuietTwice(t, m, HubLinked(t, id, to, now).value);
  }

  lemma UnlinkedQuiet(t: Tables, id: Identity, row: PersonId, now: int)
    requires Valid(t) && row !in t.people && Unlinked(t, id, row, now).Ok?
    ensures Quiet(t, Unlinked(t, id, row, now).value)
  {
    hide Valid, Alone;
    UnlinkedKeeps(t, id, row, now);
  }

  lemma RankedQuiet(t: Tables, id: Identity, rank: Stored)
    requires Valid(t) && Ranked(t, id, rank).Ok?
    ensures Quiet(t, Ranked(t, id, rank).value)
  {
    hide Valid;
    RankedKeeps(t, id, rank);
  }

  lemma {:induction false} UnlinkEachSame(t: Tables, others: seq<Identity>, rows: seq<PersonId>, now: int)
    requires |rows| == |others|
    ensures UnlinkEach(t, others, rows, now).codes == t.codes && UnlinkEach(t, others, rows, now).names == t.names
    decreases |others|
  {
    if others != [] && rows[0] !in t.people {
      var u := Unlinked(t, others[0], rows[0], now);
      if u.Ok? {
        UnlinkEachSame(u.value, others[1..], rows[1..], now);
      }
    }
  }

  lemma UnlinkEachQuiet(t: Tables, id: Identity, others: seq<Identity>, rows: seq<PersonId>, now: int)
    requires Valid(t) && FellowApps(t, id, others) && |rows| == |others| && Fresh(t, rows)
    ensures Quiet(t, UnlinkEach(t, others, rows, now))
  {
    hide Valid, UnlinkEach, FellowApps, Fresh, Separated;
    UnlinkEachSame(t, others, rows, now);
    UnlinkEachSeparates(t, id, others, rows, now);
  }

  lemma TornApartQuiet(t: Tables, id: Identity, others: seq<Identity>, rows: seq<PersonId>, now: int)
    requires id in t.identities && Valid(t) && OtherApps(t, id, others) && |rows| == |others| && Fresh(t, rows)
    ensures Quiet(t, TornApart(t, id, others, rows, now))
  {
    TornApartCodes(t, id, others, rows, now);
    hide Valid, TornApart, OtherApps, Fresh, AllSingle;
    TornApartSeparates(t, id, others, rows, now);
  }

  lemma TornApartCodes(t: Tables, id: Identity, others: seq<Identity>, rows: seq<PersonId>, now: int)
    requires |rows| == |others|
    ensures TornApart(t, id, others, rows, now).codes == t.codes
    ensures Fewer(t.names, TornApart(t, id, others, rows, now).names)
  {
    hide UnlinkEach;
    UnlinkEachSame(t, others, rows, now);
  }

  /** A command that only changes tables, quietly. */
  lemma QuietWorld(w: World, w2: World, owners: set<Identity>)
    requires Inv(w, owners) && Quiet(w.t, w2.t) && w2.lim == w.lim && w2.now == w.now && w2.log == w.log
    ensures Inv(w2, owners)
  {
    hide TablesOk, Quiet, LinkedOnce, WindowsOk;
    QuietKeeps(w.t, w2.t, w.log, owners);
  }

  lemma StayQuiet(t: Tables)
    requires Valid(t)
    ensures Quiet(t, t)
  {
  }

  // ---- codes ------------------------------------------------------------------------

  lemma PutCodeKeeps(t: Tables, log: Log, owners: set<Identity>, h: Hash, c: Code)
    requires TablesOk(t, log, owners) && LinkedOnce(log) && h !in log.codes && c.redeemedBy.None? && c.person in t.people
    ensures TablesOk(t.(codes := PutCode(t.codes, h, c)), log.(codes := log.codes + {h}), owners)
  {
    PutCodeValid(t, h, c);
    PutCodeOneLive(t.codes, h, c);
    PutCodeOk(t, log, owners, h, c);
    hide Valid, OneLive, CodesOk, PutCode;
  }

  lemma PutCodeOneLive(codes: map<Hash, Code>, h: Hash, c: Code)
    requires OneLive(codes) && h !in codes
    ensures OneLive(PutCode(codes, h, c))
  {
  }

  lemma PutCodeOk(t: Tables, log: Log, owners: set<Identity>, h: Hash, c: Code)
    requires CodesOk(t, log, owners) && LinkedOnce(log) && h !in log.codes && c.redeemedBy.None?
    ensures CodesOk(t.(codes := PutCode(t.codes, h, c)), log.(codes := log.codes + {h}), owners)
  {
  }

  lemma PutCodeValid(t: Tables, h: Hash, c: Code)
    requires Valid(t) && c.person in t.people
    ensures Valid(t.(codes := PutCode(t.codes, h, c)))
  {
    CodesChanged(t, t.(codes := PutCode(t.codes, h, c)));
  }

  lemma CodesChanged(t: Tables, u: Tables)
    requires Valid(t) && u == t.(codes := u.codes) && CodesHeld(u)
    ensures Valid(u)
  {
    hide Homed, Peopled, NamesHeld, UniqueSkeletons, IgnoresOk, WhispersOk, CodesHeld;
    GroupingKept(t, u);
    NamesKept(t, u);
    IgnoresKept(t, u);
    WhispersKept(t, u);
  }

  lemma IssueTables(w: World, owners: set<Identity>, me: Identity, h: Hash)
    requires TablesOk(w.t, w.log, owners) && LinkedOnce(w.log)
    ensures TablesOk(Issue(w, me, h).t, Issue(w, me, h).log, owners) && LinkedOnce(Issue(w, me, h).log)
  {
    hide TablesOk, PutCode, Apps, Limits.DoIssue;
    if me in w.t.identities && h !in w.log.codes {
      var p := w.t.identities[me].person;
      assert p in w.t.people by { TableHome(w.t, w.log, owners, me); }
      PutCodeKeeps(w.t, w.log, owners, h, Code(p, me, w.now + CODE_TTL, None));
      var w2 := Issue(w, me, h);
      if h in w2.log.codes {
        TablesLog(w2.t, w.log.(codes := w.log.codes + {h}), w2.log, owners);
      }
    }
  }

  /** The times logged do not matter to the tables. */
  lemma TablesLog(t: Tables, log: Log, log2: Log, owners: set<Identity>)
    requires TablesOk(t, log, owners) && log2.codes == log.codes && log2.linked == log.linked
    ensures TablesOk(t, log2, owners)
  {
  }

  lemma TableHome(t: Tables, log: Log, owners: set<Identity>, id: Identity)
    requires TablesOk(t, log, owners) && id in t.identities
    ensures t.identities[id].person in t.people
  {
  }

  lemma IssueWindows(w: World, me: Identity, h: Hash)
    requires IssuesOk(w)
    ensures IssuesOk(Issue(w, me, h))
  {
    hide WindowsOk, PutCode, Limits.TakeRecent, Apps;
    if me in w.t.identities {
      var p := w.t.identities[me].person;
      WindowsTrim(w.lim.issued, w.log.issued, Limits.CODES_PER_HOUR, Limits.HOUR, w.now, p);
      if |Limits.TakeRecent(Limits.Times(w.lim.issued, p), w.now, Limits.HOUR)| < Limits.CODES_PER_HOUR {
        WindowsRecord(w.lim.issued, w.log.issued, Limits.CODES_PER_HOUR, Limits.HOUR, w.now, p);
      }
    }
  }

  lemma IssueKeeps(w: World, owners: set<Identity>, me: Identity, h: Hash)
    requires Inv(w, owners)
    ensures Inv(Issue(w, me, h), owners)
  {
    IssueTables(w, owners, me, h);
    IssueWindows(w, me, h);
    hide TablesOk, LinkedOnce, WindowsOk, IssuesOk, PutCode, Apps;
  }

  lemma GuessedKeeps(w: World, owners: set<Identity>, me: Identity, wrong: bool)
    requires Inv(w, owners)
    ensures Inv(Guessed(w, me, wrong), owners)
  {
    hide WindowsOk, Limits.TakeRecent, LinkedOnce, TablesOk;
    TablesLog(w.t, w.log, Guessed(w, me, wrong).log, owners);
    assert LinkedOnce(Guessed(w, me, wrong).log) by { LinkedOnceLog(w.log, Guessed(w, me, wrong).log); }
    WindowsTrim(w.lim.failures, w.log.wrong, Limits.GUESSES, Limits.LOCKOUT, w.now, me);
    if |Limits.TakeRecent(Limits.Times(w.lim.failures, me), w.now, Limits.LOCKOUT)| < Limits.GUESSES {
      WindowsRecord(w.lim.failures, w.log.wrong, Limits.GUESSES, Limits.LOCKOUT, w.now, me);
    }
  }

  lemma LinkedOnceLog(log: Log, log2: Log)
    requires LinkedOnce(log) && log2.codes == log.codes && log2.linked == log.linked
    ensures LinkedOnce(log2)
  {
  }

  lemma UseCodeQuiet(w: World, h: Hash)
    requires Valid(w.t)
    ensures Quiet(w.t, UseCode(w, h).t)
  {
    CodesChanged(w.t, UseCode(w, h).t);
    hide Valid;
  }

  lemma UseCodeKeeps(w: World, owners: set<Identity>, h: Hash)
    requires Inv(w, owners)
    ensures Inv(UseCode(w, h), owners)
  {
    UseCodeQuiet(w, h);
    hide Inv, Quiet;
    QuietWorld(w, UseCode(w, h), owners);
  }

  lemma AwaitTables(w: World, owners: set<Identity>, me: Identity, h: Hash)
    requires TablesOk(w.t, w.log, owners) && me !in owners && h in w.t.codes
    ensures TablesOk(AwaitApproval(w, me, h).t, w.log, owners)
  {
    var u := AwaitApproval(w, me, h).t;
    CodesChanged(w.t, u);
    hide Valid;
    assert NamesClean(u);
    hide NamesClean;
    assert CodesOk(u, w.log, owners);
    hide CodesOk;
    assert forall k :: Unredeemed(u.codes, k) ==> Unredeemed(w.t.codes, k) && u.codes[k] == w.t.codes[k];
  }

  lemma AwaitKeeps(w: World, owners: set<Identity>, me: Identity, h: Hash)
    requires Inv(w, owners) && me !in owners && h in w.t.codes
    ensures Inv(AwaitApproval(w, me, h), owners)
  {
    AwaitTables(w, owners, me, h);
    hide TablesOk, LinkedOnce, WindowsOk;
  }

  /** The one place a code links an app: the code goes in the same step. */
  lemma LinkByKeeps(w: World, owners: set<Identity>, me: Identity, p: PersonId, h: Hash)
    requires Inv(w, owners) && h in w.t.codes && LinkBy(w, me, p, h).Some?
    ensures Inv(LinkBy(w, me, p, h).value, owners)
  {
    var w2 := LinkBy(w, me, p, h).value;
    var u := HubLinked(w.t, me, p, w.now).value;
    assert Valid(w.t);
    LinkByTables(w, owners, me, p, h);
    hide TablesOk, WindowsOk, HubLinked, Valid;
    CodeKnown(w, owners, h);
    LinkedOnceMore(w.log, h);
    hide LinkedOnce;
  }

  lemma LinkedOnceMore(log: Log, h: Hash)
    requires LinkedOnce(log) && h in log.codes && Times(log.linked, h) == 0
    ensures LinkedOnce(log.(linked := log.linked[h := Times(log.linked, h) + 1]))
  {
    var log2 := log.(linked := log.linked[h := Times(log.linked, h) + 1]);
    forall k
      ensures Times(log2.linked, k) <= 1 && (Times(log2.linked, k) > 0 ==> k in log2.codes)
    {
      assert Times(log.linked, k) <= 1;
    }
  }

  lemma CodeKnown(w: World, owners: set<Identity>, h: Hash)
    requires TablesOk(w.t, w.log, owners) && h in w.t.codes
    ensures h in w.log.codes && Times(w.log.linked, h) == 0
  {
  }

  lemma LinkByTables(w: World, owners: set<Identity>, me: Identity, p: PersonId, h: Hash)
    requires TablesOk(w.t, w.log, owners) && LinkBy(w, me, p, h).Some?
    ensures TablesOk(LinkBy(w, me, p, h).value.t, LinkBy(w, me, p, h).value.log, owners)
  {
    assert Valid(w.t);
    var u := HubLinked(w.t, me, p, w.now).value;
    HubLinkedQuiet(w.t, me, p, w.now);
    hide HubLinked, Valid;
    QuietKeeps(w.t, u, w.log, owners);
    UseCodeTables(u, w.log, owners, h);
  }

  lemma UseCodeTables(u: Tables, log: Log, owners: set<Identity>, h: Hash)
    requires TablesOk(u, log, owners)
    ensures TablesOk(u.(codes := u.codes - {h}), log.(linked := log.linked[h := Times(log.linked, h) + 1]), owners)
  {
    var v := u.(codes := u.codes - {h});
    CodesChanged(u, v);
    hide Valid;
    assert Quiet(u, v);
    QuietKeeps(u, v, log, owners);
    hide NamesClean, OneLive;
  }

  lemma RedeemKeeps(w: World, owners: set<Identity>, me: Identity, h: Hash, confirmed: bool)
    requires Inv(w, owners) && Redeem(w, owners, me, h, confirmed).Some?
    ensures Inv(Redeem(w, owners, me, h, confirmed).value, owners)
  {
    hide Inv, Guessed, LinkBy, AwaitApproval, LockedOut, PersonRank;
    if LockedOut(w, me) {
      GuessedKeeps(w, owners, me, false);
    } else if BadCode(w, h) {
      GuessedKeeps(w, owners, me, true);
    } else if !Refused(w, owners, me, w.t.codes[h], confirmed) {
      if PersonRank(w.t, owners, w.t.codes[h].person) >= MOD {
        AwaitKeeps(w, owners, me, h);
      } else {
        LinkByKeeps(w, owners, me, w.t.codes[h].person, h);
      }
    }
  }

  lemma DecideKeeps(w: World, owners: set<Identity>, me: Identity, h: Hash, approve: bool)
    requires Inv(w, owners) && Decide(w, me, h, approve).Some?
    ensures Inv(Decide(w, me, h, approve).value, owners)
  {
    hide Inv, LinkBy, UseCode;
    if me in w.t.identities && h in w.t.codes {
      UseCodeKeeps(w, owners, h);
      var c := w.t.codes[h];
      if c.redeemedBy.Some? && LinkBy(w, c.redeemedBy.value, c.person, h).Some? {
        LinkByKeeps(w, owners, c.redeemedBy.value, c.person, h);
      }
    }
  }

  // ---- the other commands -----------------------------------------------------------

  lemma UnlinkKeeps(w: World, owners: set<Identity>, me: Identity, target: Identity, row: PersonId)
    requires Inv(w, owners) && Unlink(w, owners, me, target, row).Some?
    ensures Inv(Unlink(w, owners, me, target, row).value, owners)
  {
    assert Valid(w.t);
    hide Inv, Valid, Unlinked, May, WhoIs, Alone, Quiet;
    if row !in w.t.people && Unlinked(w.t, target, row, w.now).Ok? {
      UnlinkedQuiet(w.t, target, row, w.now);
      QuietWorld(w, w.(t := Unlinked(w.t, target, row, w.now).value), owners);
    }
  }

  lemma GrantKeeps(w: World, owners: set<Identity>, me: Identity, target: Identity, rank: Stored)
    requires Inv(w, owners) && Grant(w, owners, me, target, rank).Some?
    ensures Inv(Grant(w, owners, me, target, rank).value, owners)
  {
    assert Valid(w.t);
    hide Inv, Valid, Ranked, May, WhoIs, Quiet;
    if Ranked(w.t, target, rank).Ok? {
      RankedQuiet(w.t, target, rank);
      QuietWorld(w, w.(t := Ranked(w.t, target, rank).value), owners);
    }
  }

  lemma RemoveKeeps(w: World, owners: set<Identity>, me: Identity, target: Identity, others: seq<Identity>, rows: seq<PersonId>, ban: bool)
    requires Inv(w, owners) && target in w.t.identities && OtherApps(w.t, target, others) && |rows| == |others| && Fresh(w.t, rows)
    ensures Inv(Remove(w, owners, me, target, others, rows, ban).value, owners)
  {
    assert Valid(w.t);
    hide Inv, Valid, TornApart, May, WhoIs, Quiet, OtherApps, Fresh;
    TornApartQuiet(w.t, target, others, rows, w.now);
    StayQuiet(w.t);
    QuietWorld(w, Remove(w, owners, me, target, others, rows, ban).value, owners);
  }

  lemma ForgetKeeps(w: World, owners: set<Identity>, me: Identity, others: seq<Identity>, rows: seq<PersonId>)
    requires Inv(w, owners) && OtherApps(w.t, me, others) && |rows| == |others| && Fresh(w.t, rows)
    ensures Inv(Forget(w, me, others, rows), owners)
  {
    assert Valid(w.t) && FellowApps(w.t, me, others);
    hide Inv, Valid, UnlinkEach, Released, Quiet, OtherApps, FellowApps, Fresh;
    var m := UnlinkEach(w.t, others, rows, w.now);
    UnlinkEachQuiet(w.t, me, others, rows, w.now);
    assert Valid(m) by { QuietValid(w.t, m); }
    ReleasedQuiet(m, me);
    QuietTwice(w.t, m, Released(m, me));
    QuietWorld(w, Forget(w, me, others, rows), owners);
  }

  lemma QuietValid(t: Tables, u: Tables)
    requires Quiet(t, u)
    ensures Valid(u)
  {
  }

  lemma ClaimTables(t: Tables, log: Log, owners: set<Identity>, id: Identity, want: string, now: int)
    requires TablesOk(t, log, owners)
    ensures var c := Names.CheckName(want);
            c.Clean? && Claimed(t, id, c.name, c.skeleton, now).Ok? ==>
              TablesOk(Claimed(t, id, c.name, c.skeleton, now).value, log, owners)
  {
    hide Valid, OneLive, NamesClean, CodesOk, Names.CheckName, TakenByOther;
    var c := Names.CheckName(want);
    if c.Clean? && Claimed(t, id, c.name, c.skeleton, now).Ok? {
      ClaimedKeeps(t, id, c.name, c.skeleton, now);
      ClaimedClean(t, id, want, now);
      CodesOkKept(t, Claimed(t, id, c.name, c.skeleton, now).value, log, owners);
    }
  }

  lemma ClaimedClean(t: Tables, id: Identity, want: string, now: int)
    requires NamesClean(t) && Names.CheckName(want).Clean?
    requires Claimed(t, id, Names.CheckName(want).name, Names.CheckName(want).skeleton, now).Ok?
    ensures NamesClean(Claimed(t, id, Names.CheckName(want).name, Names.CheckName(want).skeleton, now).value)
  {
    Names.CleanIdempotent(want);
    hide Names.CheckName, TakenByOther;
  }

  lemma CodesOkKept(t: Tables, u: Tables, log: Log, owners: set<Identity>)
    requires CodesOk(t, log, owners) && u.codes == t.codes
    ensures CodesOk(u, log, owners)
  {
  }

  lemma ClaimKeeps(w: World, owners: set<Identity>, id: Identity, want: string)
    requires Inv(w, owners)
    ensures Inv(Claim(w, id, want), owners)
  {
    hide TablesOk, LinkedOnce, WindowsOk, Claimed, Names.CheckName;
    ClaimTables(w.t, w.log, owners, id, want, w.now);
  }

  lemma ReleaseKeeps(w: World, owners: set<Identity>, me: Identity, target: Identity)
    requires Inv(w, owners)
    ensures Inv(ReleaseOther(w, owners, me, target), owners)
  {
    assert Valid(w.t);
    hide Inv, Valid, Released, IdentityRank, Quiet;
    ReleasedQuiet(w.t, target);
    StayQuiet(w.t);
    QuietWorld(w, ReleaseOther(w, owners, me, target), owners);
  }

  lemma IgnoreKeeps(w: World, owners: set<Identity>, me: Identity, them: Identity)
    requires Inv(w, owners)
    ensures Inv(IgnoreThem(w, me, them), owners) && Inv(UnignoreThem(w, me, them), owners)
  {
    assert Valid(w.t);
    hide Inv, Valid;
    if me in w.t.identities && them in w.t.identities {
      var q := Pair(w.t.identities[me].person, w.t.identities[them].person);
      if Ignored(w.t, q, w.now).Ok? {
        IgnoredKeeps(w.t, q, w.now);
        QuietWorld(w, w.(t := Ignored(w.t, q, w.now).value), owners);
      }
      UnignoredKeeps(w.t, q);
      QuietWorld(w, w.(t := Unignored(w.t, q)), owners);
    }
  }

  lemma WhisperKeeps(w: World, owners: set<Identity>, to: Identity, row: WhisperId)
    requires Inv(w, owners)
    ensures Inv(Whisper(w, to, row), owners)
  {
    assert Valid(w.t);
    hide Inv, Valid;
    if to in w.t.identities {
      var r := Whispered(w.t, row, w.t.identities[to].person);
      if r.Ok? {
        WhisperedKeeps(w.t, row, w.t.identities[to].person);
        QuietWorld(w, w.(t := r.value), owners);
      }
    }
  }

  lemma MaintainKeeps(w: World, owners: set<Identity>, c: Limits.Config, lifted: set<Identity>)
    requires Inv(w, owners)
    ensures Inv(Maintain(w, c, lifted), owners)
  {
    var u := w.t.(codes := LiveCodes(w.t.codes, w.now));
    CodesChanged(w.t, u);
    hide Valid, WindowsOk, LinkedOnce, Limits.LiveTimes, Limits.LiveBuckets, Limits.LiveHistory;
    assert Quiet(w.t, u);
    hide Quiet, TablesOk;
    QuietKeeps(w.t, u, w.log, owners);
    WindowsEvict(w.lim.issued, w.log.issued, Limits.CODES_PER_HOUR, Limits.HOUR, w.now);
    WindowsEvict(w.lim.failures, w.log.wrong, Limits.GUESSES, Limits.LOCKOUT, w.now);
  }

  // ---- whole runs --------------------------------------------------------------------

  datatype Cmd =
    | Visit
    | AskCode(h: Hash)
    | UseLinkCode(h: Hash, confirmed: bool)
    | Answer(h: Hash, approve: bool)
    | UnlinkApp(target: Identity, row: PersonId)
    | SetRankOf(target: Identity, rank: Stored)
    | PutOut(target: Identity, others: seq<Identity>, rows: seq<PersonId>, ban: bool)
    | ForgetMe(others: seq<Identity>, rows: seq<PersonId>)
    | Nick(want: string)
    | NickOf(target: Identity, want: string)
    | FreeName(target: Identity)
    | IgnoreOne(them: Identity)
    | UnignoreOne(them: Identity)
    | WhisperTo(to: Identity, whisper: WhisperId)
    | LiftBans(ids: set<Identity>)

  /** A command at a time, by an identity (a new person in row `row` if it was never seen), or the clean-up. */
  datatype Step =
    | Do(at: int, me: Identity, row: PersonId, cmd: Cmd)
    | CleanUp(at: int, limits: Limits.Config, lifted: set<Identity>)

  /** The list of apps and the new rows are what the database would give. */
  ghost predicate Listed(t: Tables, id: Identity, others: seq<Identity>, rows: seq<PersonId>) {
    OtherApps(t, id, others) && |rows| == |others| && Fresh(t, rows)
  }

  /** None is an aborted transaction. */
  ghost function Exec(w: World, owners: set<Identity>, me: Identity, cmd: Cmd): Option<World> {
    match cmd
    case Visit => Some(w)
    case AskCode(h) => Some(Issue(w, me, h))
    case UseLinkCode(h, confirmed) => Redeem(w, owners, me, h, confirmed)
    case Answer(h, approve) => Decide(w, me, h, approve)
    case UnlinkApp(target, row) => Unlink(w, owners, me, target, row)
    case SetRankOf(target, rank) => Grant(w, owners, me, target, rank)
    case PutOut(target, others, rows, ban) =>
      if Listed(w.t, target, others, rows) then Remove(w, owners, me, target, others, rows, ban) else None
    case ForgetMe(others, rows) => if Listed(w.t, me, others, rows) then Some(Forget(w, me, others, rows)) else None
    case Nick(want) => Some(Claim(w, me, want))
    case NickOf(target, want) => Some(RenameOther(w, owners, me, target, want))
    case FreeName(target) => Some(ReleaseOther(w, owners, me, target))
    case IgnoreOne(them) => Some(IgnoreThem(w, me, them))
    case UnignoreOne(them) => Some(UnignoreThem(w, me, them))
    case WhisperTo(to, whisper) => Some(Whisper(w, to, whisper))
    case LiftBans(ids) => Some(LiftSome(w, owners, me, ids))
  }

  function Clock(w: World, at: int): World {
    w.(now := if at > w.now then at else w.now)
  }

  /** The caller is noted, as a new person if need be, before the command runs. */
  function Touch(w: World, me: Identity, row: PersonId): World
    requires row !in w.t.people
  {
    w.(t := Touched(w.t, me, row, w.now))
  }

  ghost function Next(w: World, owners: set<Identity>, s: Step): World {
    match s
    case CleanUp(at, limits, lifted) => Maintain(Clock(w, at), limits, lifted)
    case Do(at, me, row, cmd) =>
      var w1 := Clock(w, at);
      if me in w.banned || row in w.t.people then w1
      else
        var r := Exec(Touch(w1, me, row), owners, me, cmd);
        if r.None? then w1 else r.value
  }

  const START := World(NOBODY, EMPTY, {}, 0, Log(map[], map[], {}, map[]))

  ghost function Run(owners: set<Identity>, ss: seq<Step>): World
    decreases |ss|
  {
    if ss == [] then START else Next(Run(owners, ss[..|ss| - 1]), owners, ss[|ss| - 1])
  }

  lemma UnbanKeeps(w: World, owners: set<Identity>, me: Identity, ids: set<Identity>)
    requires Inv(w, owners)
    ensures Inv(LiftSome(w, owners, me, ids), owners)
  {
  }

  lemma ExecKeeps(w: World, owners: set<Identity>, me: Identity, cmd: Cmd)
    requires Inv(w, owners) && Exec(w, owners, me, cmd).Some?
    ensures Inv(Exec(w, owners, me, cmd).value, owners)
  {
    hide Inv, Issue, Redeem, Decide, Unlink, Grant, Remove, Forget, Claim, RenameOther, ReleaseOther, IgnoreThem, UnignoreThem, Whisper, LiftSome;
    match cmd
    case Visit =>
    case AskCode(h) => IssueKeeps(w, owners, me, h);
    case UseLinkCode(h, confirmed) => RedeemKeeps(w, owners, me, h, confirmed);
    case Answer(h, approve) => DecideKeeps(w, owners, me, h, approve);
    case UnlinkApp(target, row) => UnlinkKeeps(w, owners, me, target, row);
    case SetRankOf(target, rank) => GrantKeeps(w, owners, me, target, rank);
    case PutOut(target, others, rows, ban) => RemoveKeeps(w, owners, me, target, others, rows, ban);
    case ForgetMe(others, rows) => ForgetKeeps(w, owners, me, others, rows);
    case Nick(want) => ClaimKeeps(w, owners, me, want);
    case NickOf(target, want) => RenameKeeps(w, owners, me, target, want);
    case FreeName(target) => ReleaseKeeps(w, owners, me, target);
    case IgnoreOne(them) => IgnoreKeeps(w, owners, me, them);
    case UnignoreOne(them) => IgnoreKeeps(w, owners, me, them);
    case WhisperTo(to, whisper) => WhisperKeeps(w, owners, to, whisper);
    case LiftBans(ids) => UnbanKeeps(w, owners, me, ids);
  }

  lemma RenameKeeps(w: World, owners: set<Identity>, me: Identity, target: Identity, want: string)
    requires Inv(w, owners)
    ensures Inv(RenameOther(w, owners, me, target, want), owners)
  {
    hide Inv, Claim, May, WhoIs;
    ClaimKeeps(w, owners, target, want);
  }

  lemma ClockKeeps(w: World, owners: set<Identity>, at: int)
    requires Inv(w, owners)
    ensures Inv(Clock(w, at), owners)
  {
    hide TablesOk, LinkedOnce, WindowsOk;
    WindowsLater(w.lim.issued, w.log.issued, Limits.CODES_PER_HOUR, Limits.HOUR, w.now, Clock(w, at).now);
    WindowsLater(w.lim.failures, w.log.wrong, Limits.GUESSES, Limits.LOCKOUT, w.now, Clock(w, at).now);
  }

  lemma TouchKeeps(w: World, owners: set<Identity>, me: Identity, row: PersonId)
    requires Inv(w, owners) && row !in w.t.people
    ensures Inv(Touch(w, me, row), owners)
  {
    assert Valid(w.t);
    hide Inv, Valid, Touched, Quiet;
    TouchedQuiet(w.t, me, row, w.now);
    QuietWorld(w, Touch(w, me, row), owners);
  }

  lemma NextKeeps(w: World, owners: set<Identity>, s: Step)
    requires Inv(w, owners)
    ensures Inv(Next(w, owners, s), owners)
  {
    hide Inv, Exec, Touch, Maintain;
    var w1 := Clock(w, s.at);
    ClockKeeps(w, owners, s.at);
    match s
    case CleanUp(at, limits, lifted) => MaintainKeeps(w1, owners, limits, lifted);
    case Do(at, me, row, cmd) =>
      if me !in w.banned && row !in w.t.people {
        TouchKeeps(w1, owners, me, row);
        if Exec(Touch(w1, me, row), owners, me, cmd).Some? {
          ExecKeeps(Touch(w1, me, row), owners, me, cmd);
        }
      }
  }

  lemma {:induction false} RunKeeps(owners: set<Identity>, ss: seq<Step>)
    ensures Inv(Run(owners, ss), owners)
    decreases |ss|
  {
    if ss != [] {
      hide Inv, Next;
      RunKeeps(owners, ss[..|ss| - 1]);
      NextKeeps(Run(owners, ss[..|ss| - 1]), owners, ss[|ss| - 1]);
    }
  }

  // ---- what this means ------------------------------------------------------------------

  /** In every run, identities are partitioned into persons and no two persons' names look alike. */
  lemma PartitionInEveryRun(owners: set<Identity>, ss: seq<Step>)
    ensures var t := Run(owners, ss).t;
            && (forall id :: id in t.identities ==> t.identities[id].person in t.people)
            && (forall p :: p in t.people ==> exists id :: id in t.identities && t.identities[id].person == p)
            && (forall q :: q in t.ignores ==> q.who != q.ignored)
            && (forall p, q :: p in t.names && q in t.names && p != q ==>
                  Names.Skeleton(t.names[p].name) != Names.Skeleton(t.names[q].name))
  {
    RunKeeps(owners, ss);
    hide Run;
    var t := Run(owners, ss).t;
    assert Valid(t);
    forall p | p in t.names
      ensures t.names[p].skeleton == Names.Skeleton(t.names[p].name)
    {
      CleanSkeleton(t.names[p].name);
    }
    hide Names.CheckName, Names.Skeleton;
  }

  lemma CleanSkeleton(name: string)
    ensures Names.CheckName(name).Clean? ==> Names.CheckName(name).skeleton == Names.Skeleton(Names.CheckName(name).name)
  {
  }

  /** A code links at most one app, and a person never has two codes that could still be used. */
  lemma CodesInEveryRun(owners: set<Identity>, ss: seq<Step>, h: Hash, k: Hash)
    ensures Times(Run(owners, ss).log.linked, h) <= 1
    ensures var codes := Run(owners, ss).t.codes;
            Unredeemed(codes, h) && Unredeemed(codes, k) && codes[h].person == codes[k].person ==> h == k
  {
    RunKeeps(owners, ss);
    hide Run, Valid, WindowsOk;
  }

  /** At most three codes an hour for a person, and five wrong ones in ten minutes from an identity. */
  lemma LimitsInEveryRun(owners: set<Identity>, ss: seq<Step>, p: PersonId, id: Identity, from: int)
    ensures CountIn(Limits.Times(Run(owners, ss).log.issued, p), from, from + Limits.HOUR) <= 3
    ensures CountIn(Limits.Times(Run(owners, ss).log.wrong, id), from, from + Limits.LOCKOUT) <= 5
  {
    RunKeeps(owners, ss);
    hide Run, TablesOk, LinkedOnce, Tracks;
    SpacedCount(Limits.Times(Run(owners, ss).log.issued, p), Limits.CODES_PER_HOUR, Limits.HOUR, from);
    SpacedCount(Limits.Times(Run(owners, ss).log.wrong, id), Limits.GUESSES, Limits.LOCKOUT, from);
  }

  /** Re-spelling the name you hold keeps its claim time; a different name starts afresh. */
  lemma RespellingKeepsTime(w: World, id: Identity, want: string)
    requires id in w.t.identities && w.t.identities[id].person in w.t.names
    ensures var p := w.t.identities[id].person;
            var w2 := Claim(w, id, want);
            && p in w2.t.names
            && (w2.t.names[p].skeleton == w.t.names[p].skeleton ==> w2.t.names[p].claimedAt == w.t.names[p].claimedAt)
            && (w2.t.names[p].skeleton != w.t.names[p].skeleton ==> w2.t.names[p].claimedAt == w.now)
  {
  }
}
