/**
 The hub's rate limits: the token bucket for posts and frames, the cooldown
 for history, and the sliding windows for link codes. The minute-by-minute
 clean-up of their tables changes no answer, ever.
 */
module Limits {
  import opened Common

  /** Times are in nanoseconds. */
  const MINUTE: int := 60_000_000_000
  const HOUR: int := 60 * MINUTE

  // ---- token buckets ----------------------------------------------------------

  datatype Bucket = Bucket(tokens: real, at: int)

  /** What a bucket regains in dt. */
  function Gain(rate: nat, dt: int): real {
    dt as real * rate as real / MINUTE as real
  }

  lemma GainAdds(rate: nat, a: int, b: int)
    ensures Gain(rate, a) + Gain(rate, b) == Gain(rate, a + b)
    ensures Gain(rate, 0) == 0.0
  {
    assert (a + b) as real * rate as real == a as real * rate as real + b as real * rate as real;
  }

  lemma GainGrows(rate: nat, dt: int)
    requires dt >= 0
    ensures Gain(rate, dt) >= 0.0
    ensures dt >= MINUTE ==> Gain(rate, dt) >= rate as real
  {
    var d, r, m := dt as real, rate as real, MINUTE as real;
    assert d * r >= 0.0;
    if d >= m {
      assert (d - m) * r >= 0.0;
      assert m * r / m == r;
    }
  }

  function Lesser(a: real, b: real): real {
    if a <= b then a else b
  }

  function Refill(b: Bucket, rate: nat, now: int): real {
    Lesser(rate as real, b.tokens + Gain(rate, now - b.at))
  }

  /** Spend a token, if there is one. */
  function Spend(b: Bucket, rate: nat, now: int): (Bucket, bool) {
    var tokens := Refill(b, rate, now);
    if tokens < 1.0 then (Bucket(tokens, now), false) else (Bucket(tokens - 1.0, now), true)
  }

  predicate BucketOk(b: Bucket, rate: nat, now: int) {
    0.0 <= b.tokens <= rate as real && b.at <= now
  }

  /** A link's own frame budget. */
  class FrameBudget {
    var tokens: real
    var tokensAt: int

    constructor (now: int, perMinute: nat)
      ensures View() == Bucket(perMinute as real, now)
    {
      tokens, tokensAt := perMinute as real, now;
    }

    ghost function View(): Bucket
      reads this
    {
      Bucket(tokens, tokensAt)
    }

    method Take(now: int, perMinute: nat) returns (ok: bool)
      modifies this
      ensures (View(), ok) == Spend(old(View()), perMinute, now)
    {
      tokens := Lesser(perMinute as real, tokens + Gain(perMinute, now - tokensAt));
      tokensAt := now;
      if tokens < 1.0 {
        return false;
      }
      tokens := tokens - 1.0;
      return true;
    }
  }

  // ---- the limits a hub keeps ---------------------------------------------------

  /** Entries of a table by key; a missing entry reads as none. */
  function Times<K>(m: map<K, seq<int>>, k: K): seq<int> {
    if k in m then m[k] else []
  }

  /** The times within the window before now. */
  function TakeRecent(times: seq<int>, now: int, window: int): (kept: seq<int>)
    ensures |kept| <= |times|
  {
    if times == [] then []
    else TakeRecent(times[..|times| - 1], now, window) + (if now - times[|times| - 1] < window then [times[|times| - 1]] else [])
  }

  method FilterRecent(times: seq<int>, now: int, window: int) returns (kept: seq<int>)
    ensures kept == TakeRecent(times, now, window)
    ensures forall t :: t in kept <==> t in times && now - t < window
  {
    kept := [];
    for i := 0 to |times|
      invariant kept == TakeRecent(times[..i], now, window)
      invariant forall t :: t in kept <==> t in times[..i] && now - t < window
    {
      assert times[..i + 1][..i] == times[..i];
      if now - times[i] < window {
        kept := kept + [times[i]];
      }
    }
    assert times[..|times|] == times;
  }

  /** The tables: buckets of posters, last history requests, code times by person, wrong guesses by identity. */
  datatype Tables = Tables(rate: map<Identity, Bucket>, historyAt: map<Identity, int>, issued: map<PersonId, seq<int>>, failures: map<Identity, seq<int>>)

  datatype Config = Config(postsPerMinute: nat, cooldown: int)

  const CODES_PER_HOUR := 3
  const GUESSES := 5
  const LOCKOUT: int := 10 * MINUTE

  /** Tokens a poster has at a later time; a poster without a bucket starts with a full one. */
  function Avail(t: Tables, c: Config, id: Identity, now: int): real {
    if id in t.rate then Refill(t.rate[id], c.postsPerMinute, now) else c.postsPerMinute as real
  }

  /** How long until history may be asked for again. */
  function Wait(t: Tables, c: Config, id: Identity, now: int): int {
    if id in t.historyAt && now - t.historyAt[id] < c.cooldown then c.cooldown - (now - t.historyAt[id]) else 0
  }

  datatype Request =
    | Post(id: Identity)                       // spends a token
    | History(id: Identity, granted: bool)     // granted: the room may be read
    | Issue(person: PersonId)                  // ask for a link code
    | Guess(id: Identity, wrong: bool)         // redeem a code, which may prove wrong
    | Maintain                            // the clean-up every minute

  datatype Answer = Allowed | Refused(wait: int)

  function DoPost(t: Tables, c: Config, id: Identity, now: int): (Tables, Answer) {
    var b := if id in t.rate then t.rate[id] else Bucket(c.postsPerMinute as real, now);
    var (b2, ok) := Spend(b, c.postsPerMinute, now);
    (t.(rate := t.rate[id := b2]), if ok then Allowed else Refused(0))
  }

  function DoHistory(t: Tables, c: Config, id: Identity, granted: bool, now: int): (Tables, Answer) {
    if Wait(t, c, id, now) > 0 then (t, Refused(Wait(t, c, id, now)))
    else if granted then (t.(historyAt := t.historyAt[id := now]), Allowed)
    else (t, Refused(0))
  }

  function DoIssue(t: Tables, person: PersonId, now: int): (Tables, Answer) {
    var recent := TakeRecent(Times(t.issued, person), now, HOUR);
    if |recent| >= CODES_PER_HOUR then (t.(issued := t.issued[person := recent]), Refused(0))
    else (t.(issued := t.issued[person := recent + [now]]), Allowed)
  }

  /** Allowed means the code was looked at; only wrong ones are remembered. */
  function DoGuess(t: Tables, id: Identity, wrong: bool, now: int): (Tables, Answer) {
    var recent := TakeRecent(Times(t.failures, id), now, LOCKOUT);
    if |recent| >= GUESSES then (t.(failures := t.failures[id := recent]), Refused(0))
    else (if wrong then t.(failures := t.failures[id := recent + [now]]) else t, Allowed)
  }

  function LiveBuckets(m: map<Identity, Bucket>, now: int): map<Identity, Bucket> {
    map k | k in m && now - m[k].at <= MINUTE :: m[k]
  }

  function LiveHistory(m: map<Identity, int>, now: int, cooldown: int): map<Identity, int> {
    map k | k in m && now - m[k] <= cooldown :: m[k]
  }

  function LiveTimes<K>(m: map<K, seq<int>>, now: int, window: int): map<K, seq<int>> {
    map k | k in m && TakeRecent(m[k], now, window) != [] :: m[k]
  }

  function Evicted(t: Tables, c: Config, now: int): Tables {
    Tables(LiveBuckets(t.rate, now), LiveHistory(t.historyAt, now, c.cooldown),
           LiveTimes(t.issued, now, HOUR), LiveTimes(t.failures, now, LOCKOUT))
  }

  function Handle(t: Tables, c: Config, r: Request, now: int): (Tables, Answer) {
    match r
    case Post(id) => DoPost(t, c, id, now)
    case History(id, granted) => DoHistory(t, c, id, granted, now)
    case Issue(person) => DoIssue(t, person, now)
    case Guess(id, wrong) => DoGuess(t, id, wrong, now)
    case Maintain => (Evicted(t, c, now), Allowed)
  }

  // ---- the hub's object -----------------------------------------------------------

  class HubLimits {
    const postsPerMinute: nat
    const cooldown: int
    var rate: map<Identity, Bucket>
    var historyAt: map<Identity, int>
    var issued: map<PersonId, seq<int>>
    var failures: map<Identity, seq<int>>

    constructor (postsPerMinute: nat, cooldown: int)
      ensures View() == Tables(map[], map[], map[], map[])
      ensures this.postsPerMinute == postsPerMinute && this.cooldown == cooldown
    {
      this.postsPerMinute, this.cooldown := postsPerMinute, cooldown;
      rate, historyAt, issued, failures := map[], map[], map[], map[];
    }

    ghost function View(): Tables
      reads this
    {
      Tables(rate, historyAt, issued, failures)
    }

    method AllowPost(id: Identity, now: int) returns (ok: bool)
      modifies this`rate
      ensures var (t, a) := DoPost(old(View()), Config(postsPerMinute, cooldown), id, now); View() == t && ok == a.Allowed?
    {
      var b := if id in rate then rate[id] else Bucket(postsPerMinute as real, now);
      var tokens := Lesser(postsPerMinute as real, b.tokens + Gain(postsPerMinute, now - b.at));
      ok := tokens >= 1.0;
      rate := rate[id := Bucket(if ok then tokens - 1.0 else tokens, now)];
    }

    /** How long to wait; 0 with ok false means the room may not be read. */
    method AskHistory(id: Identity, granted: bool, now: int) returns (ok: bool, wait: int)
      modifies this`historyAt
      ensures var (t, a) := DoHistory(old(View()), Config(postsPerMinute, cooldown), id, granted, now);
              View() == t && a == if ok then Allowed else Refused(wait)
    {
      if id in historyAt && now - historyAt[id] < cooldown {
        return false, cooldown - (now - historyAt[id]);
      }
      if granted {
        historyAt := historyAt[id := now];
      }
      return granted, 0;
    }

    /** Whether the code is looked at; a wrong one is counted against the guesser. */
    method LookAtCode(id: Identity, wrong: bool, now: int) returns (ok: bool)
      modifies this`failures
      ensures var (t, a) := DoGuess(old(View()), id, wrong, now); View() == t && ok == a.Allowed?
    {
      var recent := FilterRecent(if id in failures then failures[id] else [], now, LOCKOUT);
      ok := |recent| < GUESSES;
      if !ok {
        failures := failures[id := recent];
      } else if wrong {
        failures := failures[id := recent + [now]];
      }
    }

    method IssueAllowed(person: PersonId, now: int) returns (ok: bool)
      modifies this`issued
      ensures var (t, a) := DoIssue(old(View()), person, now); View() == t && ok == a.Allowed?
    {
      var recent := FilterRecent(if person in issued then issued[person] else [], now, HOUR);
      ok := |recent| < CODES_PER_HOUR;
      issued := issued[person := if ok then recent + [now] else recent];
    }

    /** Entries that no longer count are deleted, table by table. */
    method Maintain(now: int)
      modifies this
      ensures View() == Evicted(old(View()), Config(postsPerMinute, cooldown), now)
    {
      EvictBuckets(now);
      EvictHistory(now);
      issued := EvictTimes(issued, now, HOUR);
      failures := EvictTimes(failures, now, LOCKOUT);
    }

    method EvictBuckets(now: int)
      modifies this`rate
      ensures rate == LiveBuckets(old(rate), now)
    {
      var todo := rate.Keys;
      while todo != {}
        invariant forall k :: k in rate <==> k in old(rate) && (k in todo || now - old(rate)[k].at <= MINUTE)
        invariant forall k :: k in rate ==> rate[k] == old(rate)[k]
        invariant todo <= old(rate).Keys
      {
        var k :| k in todo;
        if now - rate[k].at > MINUTE {
          rate := rate - {k};
        }
        todo := todo - {k};
      }
      assert rate == LiveBuckets(old(rate), now);
    }

    method EvictHistory(now: int)
      modifies this`historyAt
      ensures historyAt == LiveHistory(old(historyAt), now, cooldown)
    {
      var todo := historyAt.Keys;
      while todo != {}
        invariant forall k :: k in historyAt <==> k in old(historyAt) && (k in todo || now - old(historyAt)[k] <= cooldown)
        invariant forall k :: k in historyAt ==> historyAt[k] == old(historyAt)[k]
        invariant todo <= old(historyAt).Keys
      {
        var k :| k in todo;
        if now - historyAt[k] > cooldown {
          historyAt := historyAt - {k};
        }
        todo := todo - {k};
      }
    }
  }

  method EvictTimes<K>(m: map<K, seq<int>>, now: int, window: int) returns (live: map<K, seq<int>>)
    ensures live == LiveTimes(m, now, window)
  {
    live := m;
    var todo := m.Keys;
    while todo != {}
      invariant forall k :: k in live <==> k in m && (k in todo || TakeRecent(m[k], now, window) != [])
      invariant forall k :: k in live ==> live[k] == m[k]
      invariant todo <= m.Keys
    {
      var k :| k in todo;
      var recent := FilterRecent(m[k], now, window);
      if recent == [] {
        live := live - {k};
      }
      todo := todo - {k};
    }
    var want := LiveTimes(m, now, window);
    assert forall k :: k in live <==> k in want;
    assert live == want;
  }
}
