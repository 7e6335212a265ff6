/** The link commands as the hub carries them out, on its tables and counters. */
module LinkServer {
  import opened Common
  import opened People
  import opened PeopleLaws
  import opened Ranks
  import opened Links
  import Limits

  class Desk {
    const owners: set<Identity>
    var t: People.Tables
    var lim: Limits.Tables
    var banned: set<Identity>
    var now: int
    ghost var log: Log

    ghost function View(): World
      reads this
    {
      World(t, lim, banned, now, log)
    }

    constructor (owners: set<Identity>)
      ensures this.owners == owners && View() == World(NOBODY, Limits.Tables(map[], map[], map[], map[]), {}, 0, Log(map[], map[], {}, map[]))
    {
      this.owners := owners;
      t, lim, banned, now, log := NOBODY, Limits.Tables(map[], map[], map[], map[]), {}, 0, Log(map[], map[], {}, map[]);
    }

    /** /link: a new code, replacing the unredeemed one; h is the hash of the random code drawn. */
    method LinkIssue(me: Identity, h: Hash) returns (ok: bool)
      requires me in t.identities && h !in log.codes
      modifies this
      ensures View() == Links.Issue(old(View()), me, h)
      ensures ok <==> h in log.codes
    {
      hide Limits.TakeRecent, PutCode;
      ok := false;
      var p := t.identities[me].person;
      if |Apps(t, p)| >= MAX_APPS {
        return;
      }
      hide Apps;
      var recent := Limits.FilterRecent(if p in lim.issued then lim.issued[p] else [], now, Limits.HOUR);
      if |recent| >= Limits.CODES_PER_HOUR {
        lim := lim.(issued := lim.issued[p := recent]);
        return;
      }
      PutLinkCode(h, Code(p, me, now + CODE_TTL, None));
      lim := lim.(issued := lim.issued[p := recent + [now]]);
      log := log.(codes := log.codes + {h}, issued := log.issued[p := Limits.Times(log.issued, p) + [now]]);
      ok := true;
    }

    /** Two statements: the person's unredeemed codes go, then the new one is stored. */
    method PutLinkCode(h: Hash, c: Code)
      modifies this`t
      ensures t == old(t).(codes := PutCode(old(t).codes, h, c))
    {
      var kept := map k | k in t.codes && !(t.codes[k].person == c.person && t.codes[k].redeemedBy.None?) :: t.codes[k];
      assert kept[h := c] == PutCode(t.codes, h, c);
      t := t.(codes := kept[h := c]);
    }

    /** /link CODE. The answers to a bad code do not differ, but each is counted. */
    method LinkRedeem(me: Identity, h: Hash, confirmed: bool) returns (ok: bool)
      requires me in t.identities
      modifies this
      ensures var r := Redeem(old(View()), owners, me, h, confirmed); ok == r.Some? && View() == if r.Some? then r.value else old(View())
    {
      hide Limits.TakeRecent, RedeemGood;
      ok := true;
      var recent := Limits.FilterRecent(if me in lim.failures then lim.failures[me] else [], now, Limits.LOCKOUT);
      if |recent| >= Limits.GUESSES {
        lim := lim.(failures := lim.failures[me := recent]);
        return;
      }
      if h !in t.codes || t.codes[h].expiresAt <= now || t.codes[h].redeemedBy.Some? || t.codes[h].issuedBy in banned {
        lim := lim.(failures := lim.failures[me := recent + [now]]);
        log := log.(wrong := log.wrong[me := Limits.Times(log.wrong, me) + [now]]);
        return;
      }
      ok := UseGoodCode(me, h, confirmed);
    }

    method UseGoodCode(me: Identity, h: Hash, confirmed: bool) returns (ok: bool)
      requires me in t.identities && h in t.codes
      modifies this`t, this`log
      ensures var r := RedeemGood(old(View()), owners, me, h, confirmed); ok == r.Some? && View() == if r.Some? then r.value else old(View())
    {
      hide PersonRank, Apps, Alone, LinkBy;
      ok := true;
      var c := t.codes[h];
      var mine := t.identities[me].person;
      if c.person == mine || me in owners {
        return;
      }
      var rank := PersonRank(t, owners, c.person);
      if PersonRank(t, owners, mine) > rank || |Apps(t, c.person)| >= MAX_APPS {
        return;
      }
      if mine in t.names && Alone(t, me) && !confirmed {
        return;
      }
      if rank >= MOD {
        t := t.(codes := t.codes[h := Code(c.person, c.issuedBy, c.expiresAt, Some(me))]);
        return;
      }
      ok := LinkNow(me, c.person, h);
    }

    /** Linking proper: the name is given up if need be, the app moves, the code is used up. */
    method LinkNow(id: Identity, p: PersonId, h: Hash) returns (ok: bool)
      modifies this`t, this`log
      ensures var r := LinkBy(old(View()), id, p, h); ok == r.Some? && View() == if r.Some? then r.value else old(View())
    {
      if id !in t.identities {
        return false;
      }
      var u := t;
      if Alone(t, id) && t.identities[id].person in t.names {
        u := Released(u, id);
      }
      var r := Linked(u, id, p, now);
      if r.Err? {
        return false;
      }
      hide Linked, Released, Alone;
      t := r.value.(codes := r.value.codes - {h});
      log := log.(linked := log.linked[h := Links.Times(log.linked, h) + 1]);
      return true;
    }

    /** /link approve or deny, by an app of the person whose code was redeemed. */
    method LinkDecide(me: Identity, h: Hash, approve: bool) returns (ok: bool)
      modifies this
      ensures var r := Decide(old(View()), me, h, approve); ok == r.Some? && View() == if r.Some? then r.value else old(View())
    {
      ok := true;
      if me !in t.identities || h !in t.codes {
        return;
      }
      var c := t.codes[h];
      if c.person != t.identities[me].person || c.redeemedBy.None? || c.expiresAt <= now {
        return;
      }
      if !approve || c.redeemedBy.value in banned {
        t := t.(codes := t.codes - {h});
        return;
      }
      ok := LinkNow(c.redeemedBy.value, c.person, h);
    }
  }
}
