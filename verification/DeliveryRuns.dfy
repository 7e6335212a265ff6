/**
 Every interleaving of the delivery scheduler and its senders, as a state
 machine: no row is sent from a stale copy, and over all retries the parts of
 a delivery go out once each, in order.
 */
module DeliveryRuns {
  import opened Common
  import opened Utf8
  import opened Delivery
  import Split

  /** A row as the snapshot showed it; version counts the attempts recorded on it by then. */
  datatype Due = Due(rid: RowId, row: Row, version: nat)

  datatype Phase = Starting | Sending | Stopped(err: SendError) | Recorded

  /** What one busy sender holds: its own copy of the row. */
  datatype Job = Job(rid: RowId, row: Row, propagate: bool, phase: Phase)

  datatype Scheduler =
    | Idle
    | Snapped(snapshot: nat)
    | Round(snapshot: nat, due: seq<Due>, offered: nat)
    | Claimed(snapshot: nat, due: seq<Due>, offered: nat, d: Due)

  /** What has happened to a row: attempts recorded, parts that went out, the parts count last recorded, the final state. */
  datatype History = History(text: Bytes, version: nat, sent: seq<Bytes>, done: nat, final: Option<State>)

  datatype System = System(rows: map<RowId, Row>, t: Tables, sched: Scheduler, jobs: map<Key, Job>, hist: map<RowId, History>)

  function PartsOf(h: History): seq<Bytes> {
    Split.Parts(h.text, Split.MAX_CONTENT)
  }

  datatype Step =
    | Queue(rid: RowId, text: Bytes, now: int)   // a post or whisper queues a delivery
    | Drop(rid: RowId)                           // the row is deleted
    | ReadSeq                                    // a round begins
    | ReadDue(rids: seq<RowId>, now: int)        // the snapshot read
    | TryClaim
    | Offer(taken: bool, propagate: bool)
    | EndRound
    | Start(key: Key)
    | Abandon(key: Key)                          // too old
    | SendOk(key: Key)
    | SendFail(key: Key, err: SendError)
    | Record(key: Key, now: int)
    | Done(key: Key)

  const INIT := System(map[], Tables({}, map[], 0), Idle, map[], map[])

  predicate Readable(s: System, rids: seq<RowId>, now: int) {
    && |rids| <= BATCH && NoRepeats(rids)
    && forall i :: 0 <= i < |rids| ==>
         rids[i] in s.rows && rids[i] in s.hist && s.rows[rids[i]].state == Queued && s.rows[rids[i]].nextAt <= now
  }

  // ---- what each step does; a step that cannot happen changes nothing -------

  function Enqueue(s: System, rid: RowId, text: Bytes, now: int): System {
    if rid in s.hist then s
    else s.(rows := s.rows[rid := Row(Queued, 0, 0, now)], hist := s.hist[rid := History(text, 0, [], 0, None)])
  }

  function Discard(s: System, rid: RowId): System {
    s.(rows := s.rows - {rid})
  }

  function BeginRound(s: System): System {
    if s.sched.Idle? then s.(sched := Snapped(s.t.seqNo)) else s
  }

  function DueRows(s: System, rids: seq<RowId>, now: int): (due: seq<Due>)
    requires Readable(s, rids, now)
    ensures |due| == |rids|
    ensures forall i :: 0 <= i < |rids| ==> due[i] == Due(rids[i], s.rows[rids[i]], s.hist[rids[i]].version)
  {
    seq(|rids|, i requires 0 <= i < |rids| && Readable(s, rids, now) => Due(rids[i], s.rows[rids[i]], s.hist[rids[i]].version))
  }

  function ReadSnapshot(s: System, rids: seq<RowId>, now: int): System {
    if s.sched.Snapped? && Readable(s, rids, now) then s.(sched := Round(s.sched.snapshot, DueRows(s, rids, now), 0)) else s
  }

  function ClaimNext(s: System): System {
    if s.sched.Round? && s.sched.due != [] then
      var d, rest := s.sched.due[0], s.sched.due[1..];
      if Busy(s.t, KeyOf(d.rid), s.sched.snapshot) then s.(sched := Round(s.sched.snapshot, rest, s.sched.offered))
      else s.(t := Claim(s.t, KeyOf(d.rid)), sched := Claimed(s.sched.snapshot, rest, s.sched.offered, d))
    else s
  }

  function HandOver(cfg: Config, s: System, taken: bool, propagate: bool): System {
    if s.sched.Claimed? then
      var d := s.sched.d;
      if taken && |s.jobs| < cfg.senders then
        s.(jobs := s.jobs[KeyOf(d.rid) := Job(d.rid, d.row, propagate, Starting)],
           sched := Round(s.sched.snapshot, s.sched.due, s.sched.offered + 1))
      else s.(t := Release(s.t, KeyOf(d.rid)), sched := Idle)
    else s
  }

  function CloseRound(s: System): System {
    if s.sched.Round? && s.sched.due == [] then s.(sched := Idle) else s
  }

  predicate In(s: System, key: Key, phase: Phase) {
    key in s.jobs && s.jobs[key].rid in s.hist && s.jobs[key].phase == phase
  }

  function SetPhase(s: System, key: Key, phase: Phase): System
    requires key in s.jobs
  {
    s.(jobs := s.jobs[key := s.jobs[key].(phase := phase)])
  }

  predicate PartsLeft(s: System, key: Key)
    requires key in s.jobs && s.jobs[key].rid in s.hist
  {
    s.jobs[key].row.partsDone < |PartsOf(s.hist[s.jobs[key].rid])|
  }

  /** One part went out. */
  function Sent(s: System, key: Key): System
    requires key in s.jobs && s.jobs[key].rid in s.hist && PartsLeft(s, key)
  {
    var j := s.jobs[key];
    var h := s.hist[j.rid];
    s.(jobs := s.jobs[key := j.(row := j.row.(partsDone := j.row.partsDone + 1))],
       hist := s.hist[j.rid := h.(sent := h.sent + [PartsOf(h)[j.row.partsDone]])])
  }

  /** Writing an attempt's outcome: RecordDelivery's transaction. */
  function Commit(s: System, key: Key, row: Row): System
    requires key in s.jobs && s.jobs[key].rid in s.hist
  {
    var j := s.jobs[key];
    var h := s.hist[j.rid];
    s.(rows := s.rows[j.rid := row],
       jobs := s.jobs[key := j.(row := row, phase := Recorded)],
       hist := s.hist[j.rid := h.(version := h.version + 1, done := row.partsDone,
                                  final := if row.state == Queued then None else Some(row.state))])
  }

  function RecordAttempt(cfg: Config, s: System, key: Key, now: int): System {
    if In(s, key, Sending) && !PartsLeft(s, key) then
      Commit(s, key, AfterSuccess(s.jobs[key].row, s.jobs[key].propagate))
    else if key in s.jobs && s.jobs[key].rid in s.hist && s.jobs[key].phase.Stopped? then
      var j := s.jobs[key];
      Commit(s, key, AfterError(cfg, j.row.(attempts := j.row.attempts + 1), now, j.propagate, j.phase.err))
    else s
  }

  function Complete(s: System, key: Key): System {
    if In(s, key, Recorded) then s.(t := Finish(s.t, key), jobs := s.jobs - {key}) else s
  }

  function Next(cfg: Config, s: System, step: Step): System {
    match step
    case Queue(rid, text, now) => Enqueue(s, rid, text, now)
    case Drop(rid) => Discard(s, rid)
    case ReadSeq => BeginRound(s)
    case ReadDue(rids, now) => ReadSnapshot(s, rids, now)
    case TryClaim => ClaimNext(s)
    case Offer(taken, propagate) => HandOver(cfg, s, taken, propagate)
    case EndRound => CloseRound(s)
    case Start(key) => if In(s, key, Starting) then SetPhase(s, key, Sending) else s
    case Abandon(key) => if In(s, key, Starting) then Commit(s, key, s.jobs[key].row.(state := Failed)) else s
    case SendOk(key) => if In(s, key, Sending) && PartsLeft(s, key) then Sent(s, key) else s
    case SendFail(key, err) => if In(s, key, Sending) && PartsLeft(s, key) then SetPhase(s, key, Stopped(err)) else s
    case Record(key, now) => RecordAttempt(cfg, s, key, now)
    case Done(key) => Complete(s, key)
  }

  function Exec(cfg: Config, s: System, steps: seq<Step>): System {
    if steps == [] then s else Next(cfg, Exec(cfg, s, steps[..|steps| - 1]), steps[|steps| - 1])
  }

  function Run(cfg: Config, steps: seq<Step>): System {
    Exec(cfg, INIT, steps)
  }

  // ---- what every state keeps -----------------------------------------------

  /** Keys the tables must show as in flight. */
  function Held(s: System): set<Key> {
    s.jobs.Keys + (if s.sched.Claimed? then {KeyOf(s.sched.d.rid)} else {})
  }

  function Ahead(s: System): nat {
    match s.sched
    case Round(_, due, offered) => offered + |due|
    case Claimed(_, due, offered, _) => offered + |due| + 1
    case _ => 0
  }

  function Offered(s: System): nat {
    if s.sched.Round? || s.sched.Claimed? then s.sched.offered else 0
  }

  /** The tables show exactly the keys held, and a round sees a bounded number of finishes. */
  predicate TablesOk(cfg: Config, s: System) {
    && s.t.inFlight == Held(s)
    && (s.sched.Claimed? ==> KeyOf(s.sched.d.rid) !in s.jobs)
    && |s.jobs| <= cfg.senders
    && Ahead(s) <= BATCH
    && (!s.sched.Idle? ==>
          && s.sched.snapshot <= s.t.seqNo
          && s.t.seqNo - s.sched.snapshot + |s.jobs| <= cfg.senders + Offered(s))
  }

  predicate Current(s: System, d: Due) {
    d.rid in s.hist && s.hist[d.rid].version == d.version
  }

  /** A row in the scheduler's hand is current, or the tables will say it is busy. */
  predicate DueOk(s: System, snapshot: nat, d: Due) {
    && d.rid in s.hist && d.row.state == Queued
    && d.version <= s.hist[d.rid].version
    && (Current(s, d) ==> d.row.partsDone == s.hist[d.rid].done && s.hist[d.rid].final.None?)
    && (Current(s, d) && d.rid in s.rows ==> s.rows[d.rid] == d.row)
    && (Current(s, d) || KeyOf(d.rid) in s.jobs || (KeyOf(d.rid) in s.t.finished && s.t.finished[KeyOf(d.rid)] > snapshot))
  }

  predicate SchedulerOk(s: System) {
    && ((s.sched.Round? || s.sched.Claimed?) ==>
          forall i :: 0 <= i < |s.sched.due| ==> DueOk(s, s.sched.snapshot, s.sched.due[i]))
    && (s.sched.Claimed? ==> DueOk(s, s.sched.snapshot, s.sched.d) && Current(s, s.sched.d))
  }

  predicate JobOk(s: System, key: Key)
    requires key in s.jobs
  {
    var j := s.jobs[key];
    && KeyOf(j.rid) == key && j.rid in s.hist
    && var h := s.hist[j.rid];
       && j.row.partsDone <= |PartsOf(h)|
       && (j.phase == Recorded ==> j.row.partsDone == h.done)
       && (j.phase != Recorded ==> j.row.state == Queued && h.final.None?)
       && (j.phase == Starting ==> j.row.partsDone == h.done)
       && (j.phase.Stopped? ==> j.row.partsDone < |PartsOf(h)|)
  }

  /** How many parts of a row have gone out. */
  function Progress(s: System, rid: RowId): nat
    requires rid in s.hist
  {
    if KeyOf(rid) in s.jobs && s.jobs[KeyOf(rid)].rid == rid then s.jobs[KeyOf(rid)].row.partsDone else s.hist[rid].done
  }

  predicate HistoryOk(s: System, rid: RowId)
    requires rid in s.hist
  {
    var h := s.hist[rid];
    && Progress(s, rid) <= |PartsOf(h)| && h.done <= |PartsOf(h)|
    && h.sent == PartsOf(h)[..Progress(s, rid)]
    && (h.final.Some? ==> h.final.value != Queued)
    && (h.final.Some? && h.final.value != Failed ==> h.done == |PartsOf(h)|)
    && (rid in s.rows ==>
          && s.rows[rid].partsDone == h.done
          && (h.final.None? ==> s.rows[rid].state == Queued)
          && (h.final.Some? ==> s.rows[rid].state == h.final.value))
  }

  ghost predicate JobsOk(s: System) {
    forall key :: key in s.jobs ==> JobOk(s, key)
  }

  ghost predicate HistoriesOk(s: System) {
    && s.rows.Keys <= s.hist.Keys
    && forall rid :: rid in s.hist ==> HistoryOk(s, rid)
  }

  ghost predicate Inv(cfg: Config, s: System) {
    TablesOk(cfg, s) && SchedulerOk(s) && JobsOk(s) && HistoriesOk(s)
  }

  /** While this holds, no entry of `finished` newer than a round's snapshot is pruned during the round. */
  predicate PruningIsSafe(cfg: Config) {
    cfg.senders + BATCH - 1 <= FINISHED_AGE + 1
  }

  // ---- each step keeps it ---------------------------------------------------

  /** Rows in the scheduler's hand stay in order when no attempt is recorded and none finishes. */
  lemma SchedulerKept(s: System, s': System)
    requires SchedulerOk(s)
    requires s'.sched == s.sched && s'.t.finished == s.t.finished && s.jobs.Keys <= s'.jobs.Keys
    requires forall rid :: rid in s.hist ==>
               && rid in s'.hist && s'.hist[rid].version == s.hist[rid].version
               && s'.hist[rid].done == s.hist[rid].done && s'.hist[rid].final == s.hist[rid].final
               && (rid in s'.rows ==> rid in s.rows && s'.rows[rid] == s.rows[rid])
    ensures SchedulerOk(s')
  {
    if s.sched.Round? || s.sched.Claimed? {
      forall i | 0 <= i < |s'.sched.due| ensures DueOk(s', s'.sched.snapshot, s'.sched.due[i]) {
        assert DueOk(s, s.sched.snapshot, s.sched.due[i]);
      }
    }
  }

  lemma TablesKept(cfg: Config, s: System, s': System)
    requires TablesOk(cfg, s)
    requires s'.t == s.t && s'.sched == s.sched && s'.jobs.Keys == s.jobs.Keys
    ensures TablesOk(cfg, s')
  {
    assert |s'.jobs| == |s'.jobs.Keys| == |s.jobs|;
  }

  lemma JobsKept(s: System, s': System)
    requires JobsOk(s) && s'.jobs == s.jobs
    requires forall rid :: rid in s.hist ==> rid in s'.hist && s'.hist[rid] == s.hist[rid]
    ensures JobsOk(s')
  {
    hide PartsOf;
    forall key | key in s'.jobs ensures JobOk(s', key) {
      assert JobOk(s, key);
    }
  }

  lemma HistoriesKept(s: System, s': System)
    requires HistoriesOk(s)
    requires s'.jobs == s.jobs && s'.hist == s.hist && s'.rows == s.rows
    ensures HistoriesOk(s')
  {
    hide PartsOf;
    forall rid | rid in s'.hist ensures HistoryOk(s', rid) {
      assert HistoryOk(s, rid);
    }
  }

  lemma EnqueueHistories(s: System, rid: RowId, text: Bytes, now: int)
    requires HistoriesOk(s) && JobsOk(s) && rid !in s.hist
    ensures HistoriesOk(Enqueue(s, rid, text, now))
  {
    hide PartsOf;
    var s' := Enqueue(s, rid, text, now);
    assert KeyOf(rid) in s.jobs ==> JobOk(s, KeyOf(rid));
    forall r | r in s'.hist ensures HistoryOk(s', r) {
      if r != rid {
        assert HistoryOk(s, r);
      }
    }
  }

  lemma EnqueueKeeps(cfg: Config, s: System, rid: RowId, text: Bytes, now: int)
    requires Inv(cfg, s)
    ensures Inv(cfg, Enqueue(s, rid, text, now))
  {
    hide TablesOk, SchedulerOk, JobsOk, HistoriesOk;
    if rid !in s.hist {
      var s' := Enqueue(s, rid, text, now);
      TablesKept(cfg, s, s');
      SchedulerKept(s, s');
      JobsKept(s, s');
      EnqueueHistories(s, rid, text, now);
    }
  }

  lemma DiscardKeeps(cfg: Config, s: System, rid: RowId)
    requires Inv(cfg, s)
    ensures Inv(cfg, Discard(s, rid))
  {
    hide TablesOk, SchedulerOk, JobsOk, HistoriesOk;
    var s' := Discard(s, rid);
    TablesKept(cfg, s, s');
    SchedulerKept(s, s');
    JobsKept(s, s');
    DiscardHistories(s, rid);
  }

  lemma DiscardHistories(s: System, rid: RowId)
    requires HistoriesOk(s)
    ensures HistoriesOk(Discard(s, rid))
  {
    hide PartsOf;
    var s' := Discard(s, rid);
    forall r | r in s'.hist ensures HistoryOk(s', r) {
      assert HistoryOk(s, r);
    }
  }

  /** A step of the scheduler's own leaves jobs, histories and rows alone. */
  lemma ScheduleKeeps(cfg: Config, s: System, s': System)
    requires Inv(cfg, s) && TablesOk(cfg, s') && SchedulerOk(s')
    requires s'.jobs == s.jobs && s'.hist == s.hist && s'.rows == s.rows
    ensures Inv(cfg, s')
  {
    hide TablesOk, SchedulerOk, JobsOk, HistoriesOk;
    JobsKept(s, s');
    HistoriesKept(s, s');
  }

  lemma RoundEdges(cfg: Config, s: System)
    requires TablesOk(cfg, s) && SchedulerOk(s)
    ensures TablesOk(cfg, BeginRound(s)) && SchedulerOk(BeginRound(s))
    ensures TablesOk(cfg, CloseRound(s)) && SchedulerOk(CloseRound(s))
  {
  }

  lemma SnapshotRows(s: System, rids: seq<RowId>, now: int)
    requires SchedulerOk(s) && HistoriesOk(s)
    ensures SchedulerOk(ReadSnapshot(s, rids, now))
  {
    hide PartsOf;
    if s.sched.Snapped? && Readable(s, rids, now) {
      var s' := ReadSnapshot(s, rids, now);
      forall i | 0 <= i < |rids| ensures DueOk(s', s'.sched.snapshot, s'.sched.due[i]) {
        assert HistoryOk(s, rids[i]);
      }
    }
  }

  lemma SnapshotTables(cfg: Config, s: System, rids: seq<RowId>, now: int)
    requires TablesOk(cfg, s)
    ensures TablesOk(cfg, ReadSnapshot(s, rids, now))
  {
  }

  /** A row that is not busy is current: an attempt recorded since the snapshot is in flight or in `finished`. */
  lemma ClaimedIsCurrent(cfg: Config, s: System)
    requires SchedulerOk(s) && TablesOk(cfg, s)
    ensures SchedulerOk(ClaimNext(s))
  {
    if s.sched.Round? && s.sched.due != [] {
      var s' := ClaimNext(s);
      assert DueOk(s, s.sched.snapshot, s.sched.due[0]);
      forall i | 0 <= i < |s'.sched.due| ensures DueOk(s', s'.sched.snapshot, s'.sched.due[i]) {
        assert DueOk(s, s.sched.snapshot, s.sched.due[i + 1]);
      }
    }
  }

  lemma ClaimTables(cfg: Config, s: System)
    requires TablesOk(cfg, s)
    ensures TablesOk(cfg, ClaimNext(s))
  {
    if s.sched.Round? && s.sched.due != [] {
      var key, s' := KeyOf(s.sched.due[0].rid), ClaimNext(s);
      assert |s'.sched.due| == |s.sched.due| - 1;
      if Busy(s.t, key, s.sched.snapshot) {
        assert s'.t == s.t && Held(s') == Held(s);
      } else {
        assert Held(s') == Held(s) + {key} == s'.t.inFlight;
      }
    }
  }

  lemma HandOverTables(cfg: Config, s: System, taken: bool, propagate: bool)
    requires TablesOk(cfg, s)
    ensures TablesOk(cfg, HandOver(cfg, s, taken, propagate))
  {
    var s' := HandOver(cfg, s, taken, propagate);
    assert s'.t.inFlight == Held(s');
  }

  lemma HandOverScheduler(cfg: Config, s: System, taken: bool, propagate: bool)
    requires SchedulerOk(s)
    ensures SchedulerOk(HandOver(cfg, s, taken, propagate))
  {
    var s' := HandOver(cfg, s, taken, propagate);
    if s'.sched.Round? && s.sched.Claimed? {
      forall i | 0 <= i < |s'.sched.due| ensures DueOk(s', s'.sched.snapshot, s'.sched.due[i]) {
        assert DueOk(s, s.sched.snapshot, s.sched.due[i]);
      }
    }
  }

  /** The sender starts from the row as it was last recorded. */
  lemma HandOverJobs(cfg: Config, s: System, taken: bool, propagate: bool)
    requires JobsOk(s) && HistoriesOk(s) && SchedulerOk(s) && s.sched.Claimed?
    ensures JobsOk(HandOver(cfg, s, taken, propagate))
  {
    hide PartsOf;
    var s' := HandOver(cfg, s, taken, propagate);
    var d := s.sched.d;
    assert DueOk(s, s.sched.snapshot, d) && HistoryOk(s, d.rid);
    forall key | key in s'.jobs ensures JobOk(s', key) {
      hide SchedulerOk, DueOk, HistoryOk;
      if s'.jobs != s.jobs && key == KeyOf(d.rid) {
        assert s'.jobs[key] == Job(d.rid, d.row, propagate, Starting);
      } else {
        assert s'.jobs[key] == s.jobs[key] && JobOk(s, key);
      }
    }
  }

  lemma HandOverHistories(cfg: Config, s: System, taken: bool, propagate: bool)
    requires HistoriesOk(s) && SchedulerOk(s)
    requires s.sched.Claimed? && KeyOf(s.sched.d.rid) !in s.jobs
    ensures HistoriesOk(HandOver(cfg, s, taken, propagate))
  {
    hide PartsOf;
    var s' := HandOver(cfg, s, taken, propagate);
    assert DueOk(s, s.sched.snapshot, s.sched.d);
    forall rid | rid in s'.hist ensures HistoryOk(s', rid) {
      assert HistoryOk(s, rid);
      assert Progress(s', rid) == Progress(s, rid);
    }
  }

  lemma HandOverKeeps(cfg: Config, s: System, taken: bool, propagate: bool)
    requires Inv(cfg, s)
    ensures Inv(cfg, HandOver(cfg, s, taken, propagate))
  {
    hide SchedulerOk, JobsOk, HistoriesOk;
    HandOverTables(cfg, s, taken, propagate);
    HandOverScheduler(cfg, s, taken, propagate);
    if s.sched.Claimed? {
      HandOverJobs(cfg, s, taken, propagate);
      HandOverHistories(cfg, s, taken, propagate);
    }
  }

  // A sender's steps.

  predicate MayMoveTo(s: System, key: Key, phase: Phase) {
    || (In(s, key, Starting) && phase == Sending)
    || (In(s, key, Sending) && PartsLeft(s, key) && phase.Stopped?)
  }

  lemma PhaseJobs(s: System, key: Key, phase: Phase)
    requires JobsOk(s) && MayMoveTo(s, key, phase)
    ensures JobsOk(SetPhase(s, key, phase))
  {
    hide PartsOf;
    var s' := SetPhase(s, key, phase);
    forall k | k in s'.jobs ensures JobOk(s', k) {
      assert JobOk(s, k);
    }
  }

  lemma PhaseHistories(s: System, key: Key, phase: Phase)
    requires HistoriesOk(s) && key in s.jobs
    ensures HistoriesOk(SetPhase(s, key, phase))
  {
    hide PartsOf;
    var s' := SetPhase(s, key, phase);
    forall rid | rid in s'.hist ensures HistoryOk(s', rid) {
      assert HistoryOk(s, rid) && Progress(s', rid) == Progress(s, rid);
    }
  }

  lemma PhaseKeeps(cfg: Config, s: System, key: Key, phase: Phase)
    requires Inv(cfg, s) && MayMoveTo(s, key, phase)
    ensures Inv(cfg, SetPhase(s, key, phase))
  {
    hide TablesOk, SchedulerOk, JobsOk, HistoriesOk;
    var s' := SetPhase(s, key, phase);
    TablesKept(cfg, s, s');
    SchedulerKept(s, s');
    PhaseJobs(s, key, phase);
    PhaseHistories(s, key, phase);
  }

  lemma SentJobs(s: System, key: Key)
    requires JobsOk(s) && In(s, key, Sending) && PartsLeft(s, key)
    ensures JobsOk(Sent(s, key))
  {
    hide PartsOf;
    var s' := Sent(s, key);
    assert JobOk(s, key);
    var h, h' := s.hist[s.jobs[key].rid], s'.hist[s.jobs[key].rid];
    assert PartsOf(h') == PartsOf(h) by {
      SameText(h, h');
    }
    forall k | k in s'.jobs ensures JobOk(s', k) {
      assert JobOk(s, k);
    }
  }

  lemma SameText(h: History, h': History)
    requires h.text == h'.text
    ensures PartsOf(h) == PartsOf(h')
  {
  }

  /** Each part that goes out is the next one. */
  lemma SentHistories(s: System, key: Key)
    requires JobsOk(s) && HistoriesOk(s) && In(s, key, Sending) && PartsLeft(s, key)
    ensures HistoriesOk(Sent(s, key))
  {
    hide PartsOf;
    var s' := Sent(s, key);
    var rid := s.jobs[key].rid;
    assert JobOk(s, key) && HistoryOk(s, rid);
    hide JobsOk;
    SentHistory(s, key);
    hide HistoryOk, JobOk;
    forall r | r in s'.hist ensures HistoryOk(s', r) {
      if r != rid {
        assert HistoryOk(s, r);
        OtherHistory(s, key, r);
      }
    }
  }

  lemma SentHistory(s: System, key: Key)
    requires key in s.jobs && JobOk(s, key) && HistoryOk(s, s.jobs[key].rid) && In(s, key, Sending) && PartsLeft(s, key)
    ensures HistoryOk(Sent(s, key), s.jobs[key].rid)
  {
    hide PartsOf;
    var s', rid := Sent(s, key), s.jobs[key].rid;
    SameText(s.hist[rid], s'.hist[rid]);
    var n, parts := s.jobs[key].row.partsDone, PartsOf(s.hist[rid]);
    assert parts[..n + 1] == parts[..n] + [parts[n]];
  }

  lemma OtherHistory(s: System, key: Key, r: RowId)
    requires In(s, key, Sending) && PartsLeft(s, key) && r in s.hist && r != s.jobs[key].rid && HistoryOk(s, r)
    ensures HistoryOk(Sent(s, key), r)
  {
    hide PartsOf;
    assert Progress(Sent(s, key), r) == Progress(s, r);
  }

  lemma SentKeeps(cfg: Config, s: System, key: Key)
    requires Inv(cfg, s) && In(s, key, Sending) && PartsLeft(s, key)
    ensures Inv(cfg, Sent(s, key))
  {
    hide TablesOk, SchedulerOk, JobsOk, HistoriesOk, PartsOf;
    var s' := Sent(s, key);
    TablesKept(cfg, s, s');
    SchedulerKept(s, s');
    SentJobs(s, key);
    SentHistories(s, key);
  }

  /** What an attempt may record: the parts it got through, and delivered only if that is all of them. */
  predicate MayRecord(s: System, key: Key, row: Row) {
    && key in s.jobs && s.jobs[key].rid in s.hist && s.jobs[key].phase != Recorded
    && row.partsDone == s.jobs[key].row.partsDone
    && (row.state == Proven || row.state == Propagated ==> row.partsDone == |PartsOf(s.hist[s.jobs[key].rid])|)
  }

  lemma CommitScheduler(s: System, key: Key, row: Row)
    requires SchedulerOk(s) && JobsOk(s) && MayRecord(s, key, row)
    requires s.sched.Claimed? ==> KeyOf(s.sched.d.rid) !in s.jobs
    ensures SchedulerOk(Commit(s, key, row))
  {
    hide PartsOf;
    var s' := Commit(s, key, row);
    assert JobOk(s, key);
    hide JobsOk;
    if s.sched.Round? || s.sched.Claimed? {
      forall i | 0 <= i < |s'.sched.due| ensures DueOk(s', s'.sched.snapshot, s'.sched.due[i]) {
        assert DueOk(s, s.sched.snapshot, s.sched.due[i]);
      }
    }
  }

  lemma CommitJobs(s: System, key: Key, row: Row)
    requires JobsOk(s) && MayRecord(s, key, row)
    ensures JobsOk(Commit(s, key, row))
  {
    hide PartsOf;
    var s' := Commit(s, key, row);
    assert JobOk(s, key);
    SameText(s.hist[s.jobs[key].rid], s'.hist[s.jobs[key].rid]);
    forall k | k in s'.jobs ensures JobOk(s', k) {
      assert JobOk(s, k);
    }
  }

  lemma CommitHistories(s: System, key: Key, row: Row)
    requires JobsOk(s) && HistoriesOk(s) && MayRecord(s, key, row)
    ensures HistoriesOk(Commit(s, key, row))
  {
    hide PartsOf;
    var s' := Commit(s, key, row);
    var rid := s.jobs[key].rid;
    assert JobOk(s, key) && HistoryOk(s, rid);
    SameText(s.hist[rid], s'.hist[rid]);
    hide JobsOk;
    forall r | r in s'.hist ensures HistoryOk(s', r) {
      assert HistoryOk(s, r);
      assert Progress(s', r) == Progress(s, r);
    }
  }

  lemma CommitKeeps(cfg: Config, s: System, key: Key, row: Row)
    requires Inv(cfg, s) && MayRecord(s, key, row)
    ensures Inv(cfg, Commit(s, key, row))
  {
    hide SchedulerOk, JobsOk, HistoriesOk, PartsOf;
    CommitScheduler(s, key, row);
    CommitJobs(s, key, row);
    CommitHistories(s, key, row);
    TablesKept(cfg, s, Commit(s, key, row));
  }

  lemma RecordKeeps(cfg: Config, s: System, key: Key, now: int)
    requires Inv(cfg, s)
    ensures Inv(cfg, RecordAttempt(cfg, s, key, now))
  {
    hide TablesOk, SchedulerOk, HistoriesOk, PartsOf, Commit;
    if key in s.jobs && s.jobs[key].rid in s.hist {
      var j := s.jobs[key];
      assert JobOk(s, key);
      hide JobsOk;
      if In(s, key, Sending) && !PartsLeft(s, key) {
        CommitKeeps(cfg, s, key, AfterSuccess(j.row, j.propagate));
      } else if j.phase.Stopped? {
        CommitKeeps(cfg, s, key, AfterError(cfg, j.row.(attempts := j.row.attempts + 1), now, j.propagate, j.phase.err));
      }
    }
  }

  lemma CompleteShape(s: System, key: Key)
    requires In(s, key, Recorded) && (s.sched.Claimed? ==> KeyOf(s.sched.d.rid) !in s.jobs)
    ensures var s' := Complete(s, key);
            && s'.sched == s.sched && |s'.jobs| == |s.jobs| - 1 && s'.jobs.Keys <= s.jobs.Keys
            && s'.t.inFlight == s.t.inFlight - {key} && s'.t.seqNo == s.t.seqNo + 1
            && Held(s') == Held(s) - {key}
  {
    hide Recent, PartsOf;
    var s' := Complete(s, key);
    var keys := s.jobs.Keys;
    assert s'.jobs.Keys == keys - {key} && |keys - {key}| == |keys| - 1;
  }

  lemma CompleteTables(cfg: Config, s: System, key: Key)
    requires TablesOk(cfg, s) && In(s, key, Recorded)
    ensures TablesOk(cfg, Complete(s, key))
  {
    CompleteShape(s, key);
    hide Complete, Held, In;
  }

  /** An entry newer than the snapshot survives pruning, so a row recorded during the round stays busy. */
  lemma CompleteDue(cfg: Config, s: System, key: Key, d: Due)
    requires TablesOk(cfg, s) && In(s, key, Recorded) && PruningIsSafe(cfg)
    requires !s.sched.Idle? && Offered(s) < BATCH && DueOk(s, s.sched.snapshot, d)
    ensures DueOk(Complete(s, key), s.sched.snapshot, d)
  {
    var s' := Complete(s, key);
    CompleteTables(cfg, s, key);
    assert s'.t.seqNo <= s.sched.snapshot + FINISHED_AGE + 1;
  }

  lemma CompleteScheduler(cfg: Config, s: System, key: Key)
    requires TablesOk(cfg, s) && SchedulerOk(s) && In(s, key, Recorded) && PruningIsSafe(cfg)
    ensures SchedulerOk(Complete(s, key))
  {
    var s' := Complete(s, key);
    if s.sched.Round? || s.sched.Claimed? {
      assert s.sched.due != [] || s.sched.Claimed? ==> Offered(s) < BATCH;
      hide TablesOk, DueOk;
      forall i | 0 <= i < |s'.sched.due| ensures DueOk(s', s'.sched.snapshot, s'.sched.due[i]) {
        CompleteDue(cfg, s, key, s.sched.due[i]);
      }
      if s.sched.Claimed? {
        CompleteDue(cfg, s, key, s.sched.d);
      }
    }
  }

  lemma CompleteWork(s: System, key: Key)
    requires JobsOk(s) && HistoriesOk(s) && In(s, key, Recorded)
    ensures JobsOk(Complete(s, key)) && HistoriesOk(Complete(s, key))
  {
    hide PartsOf, Finish;
    var s' := Complete(s, key);
    assert JobOk(s, key);
    forall k | k in s'.jobs ensures JobOk(s', k) {
      assert JobOk(s, k);
    }
    hide JobsOk;
    forall rid | rid in s'.hist ensures HistoryOk(s', rid) {
      assert HistoryOk(s, rid) && Progress(s', rid) == Progress(s, rid);
    }
  }

  lemma CompleteKeeps(cfg: Config, s: System, key: Key)
    requires Inv(cfg, s) && PruningIsSafe(cfg)
    ensures Inv(cfg, Complete(s, key))
  {
    hide TablesOk, SchedulerOk, JobsOk, HistoriesOk, PartsOf;
    if In(s, key, Recorded) {
      CompleteTables(cfg, s, key);
      CompleteScheduler(cfg, s, key);
      CompleteWork(s, key);
    }
  }

  lemma NextKeeps(cfg: Config, s: System, step: Step)
    requires Inv(cfg, s) && PruningIsSafe(cfg)
    ensures Inv(cfg, Next(cfg, s, step))
  {
    hide TablesOk, SchedulerOk, JobsOk, HistoriesOk, PartsOf, Commit, Sent, SetPhase;
    hide Enqueue, Discard, BeginRound, CloseRound, ReadSnapshot, ClaimNext, HandOver, RecordAttempt, Complete;
    match step
    case Queue(rid, text, now) => EnqueueKeeps(cfg, s, rid, text, now);
    case Drop(rid) => DiscardKeeps(cfg, s, rid);
    case ReadSeq => RoundEdgesKeep(cfg, s);
    case ReadDue(rids, now) => SnapshotKeeps(cfg, s, rids, now);
    case TryClaim => ClaimKeeps(cfg, s);
    case Offer(taken, propagate) => HandOverKeeps(cfg, s, taken, propagate);
    case EndRound => RoundEdgesKeep(cfg, s);
    case Start(key) =>
      if In(s, key, Starting) {
        PhaseKeeps(cfg, s, key, Sending);
      }
    case Abandon(key) =>
      if In(s, key, Starting) {
        CommitKeeps(cfg, s, key, s.jobs[key].row.(state := Failed));
      }
    case SendOk(key) =>
      if In(s, key, Sending) && PartsLeft(s, key) {
        SentKeeps(cfg, s, key);
      }
    case SendFail(key, err) =>
      if In(s, key, Sending) && PartsLeft(s, key) {
        PhaseKeeps(cfg, s, key, Stopped(err));
      }
    case Record(key, now) => RecordKeeps(cfg, s, key, now);
    case Done(key) => CompleteKeeps(cfg, s, key);
  }

  lemma RoundEdgesKeep(cfg: Config, s: System)
    requires Inv(cfg, s)
    ensures Inv(cfg, BeginRound(s)) && Inv(cfg, CloseRound(s))
  {
    hide TablesOk, SchedulerOk, JobsOk, HistoriesOk;
    RoundEdges(cfg, s);
    ScheduleKeeps(cfg, s, BeginRound(s));
    ScheduleKeeps(cfg, s, CloseRound(s));
  }

  lemma SnapshotKeeps(cfg: Config, s: System, rids: seq<RowId>, now: int)
    requires Inv(cfg, s)
    ensures Inv(cfg, ReadSnapshot(s, rids, now))
  {
    hide TablesOk, SchedulerOk, JobsOk, HistoriesOk;
    SnapshotTables(cfg, s, rids, now);
    SnapshotRows(s, rids, now);
    ScheduleKeeps(cfg, s, ReadSnapshot(s, rids, now));
  }

  lemma ClaimKeeps(cfg: Config, s: System)
    requires Inv(cfg, s)
    ensures Inv(cfg, ClaimNext(s))
  {
    hide TablesOk, SchedulerOk, JobsOk, HistoriesOk;
    ClaimTables(cfg, s);
    ClaimedIsCurrent(cfg, s);
    ScheduleKeeps(cfg, s, ClaimNext(s));
  }

  lemma {:induction false} ExecKeeps(cfg: Config, s: System, steps: seq<Step>)
    requires PruningIsSafe(cfg) && Inv(cfg, s)
    ensures Inv(cfg, Exec(cfg, s, steps))
  {
    hide Next, Inv;
    if steps != [] {
      ExecKeeps(cfg, s, steps[..|steps| - 1]);
      NextKeeps(cfg, Exec(cfg, s, steps[..|steps| - 1]), steps[|steps| - 1]);
    }
  }

  // ---- the results ----------------------------------------------------------

  /** Every reachable state keeps the invariant, while the sender pool is not too large for the pruning. */
  lemma RunKeeps(cfg: Config, steps: seq<Step>)
    requires PruningIsSafe(cfg)
    ensures Inv(cfg, Run(cfg, steps))
  {
    InitOk(cfg);
    hide Inv, Exec;
    ExecKeeps(cfg, INIT, steps);
  }

  lemma InitOk(cfg: Config)
    ensures Inv(cfg, INIT)
  {
  }

  /**
   In every run, a row about to be handed to a sender is current: no attempt on
   it has been recorded since the snapshot was read, no other sender holds its
   key, it is not final, and unless it was deleted it is the stored row.
   */
  lemma NoStaleSend(cfg: Config, steps: seq<Step>)
    requires PruningIsSafe(cfg)
    ensures var s := Run(cfg, steps);
            s.sched.Claimed? ==>
              var d := s.sched.d;
              && d.rid in s.hist && s.hist[d.rid].version == d.version && s.hist[d.rid].final.None?
              && KeyOf(d.rid) !in s.jobs
              && (d.rid in s.rows ==> s.rows[d.rid] == d.row)
  {
    RunKeeps(cfg, steps);
    hide Exec, PartsOf, JobsOk, HistoriesOk;
  }

  /**
   In every run, the parts of a delivery that went out are its first parts, in
   order, each once: as many as the row in a sender's hand, or else the stored
   row, says; and a delivery recorded as delivered has sent every part.
   */
  lemma PartsGoOutOnce(cfg: Config, steps: seq<Step>, rid: RowId)
    requires PruningIsSafe(cfg)
    requires rid in Run(cfg, steps).hist
    ensures var s := Run(cfg, steps);
            var h := s.hist[rid];
            && Progress(s, rid) <= |PartsOf(h)|
            && h.sent == PartsOf(h)[..Progress(s, rid)]
            && (rid in s.rows && s.rows[rid].state in {Proven, Propagated} ==> h.final.Some?)
            && (h.final.Some? && h.final.value != Failed ==> h.sent == PartsOf(h))
  {
    var s := Run(cfg, steps);
    RunKeeps(cfg, steps);
    hide Exec, PartsOf, TablesOk, SchedulerOk;
    var h := s.hist[rid];
    assert HistoryOk(s, rid);
    if KeyOf(rid) in s.jobs {
      assert JobOk(s, KeyOf(rid));
    }
  }

  /** Nothing more is sent for a delivery in a final state, and the state stays. */
  lemma FinalStays(cfg: Config, s: System, step: Step, rid: RowId)
    requires Inv(cfg, s) && rid in s.hist && s.hist[rid].final.Some?
    ensures rid in Next(cfg, s, step).hist && Next(cfg, s, step).hist[rid] == s.hist[rid]
  {
    hide PartsOf, TablesOk, SchedulerOk, HistoriesOk, JobOk;
    if step.Abandon? || step.SendOk? || step.Record? {
      if step.key in s.jobs {
        NotFinal(s, step.key);
      }
      hide JobsOk;
      WorkStays(cfg, s, step, rid);
    } else {
      hide JobsOk, Busy, Readable, DueRows, Finish;
    }
  }

  /** Whoever still works on a row works on one that is not final. */
  lemma NotFinal(s: System, key: Key)
    requires JobsOk(s) && key in s.jobs
    ensures s.jobs[key].rid in s.hist && (s.jobs[key].phase != Recorded ==> s.hist[s.jobs[key].rid].final.None?)
  {
    hide PartsOf;
    assert JobOk(s, key);
  }

  lemma WorkStays(cfg: Config, s: System, step: Step, rid: RowId)
    requires (step.Abandon? || step.SendOk? || step.Record?) && rid in s.hist && s.hist[rid].final.Some?
    requires step.key in s.jobs ==> s.jobs[step.key].rid in s.hist && (s.jobs[step.key].phase != Recorded ==> s.hist[s.jobs[step.key].rid].final.None?)
    ensures rid in Next(cfg, s, step).hist && Next(cfg, s, step).hist[rid] == s.hist[rid]
  {
    hide PartsOf, AfterError, AfterSuccess;
  }

  lemma {:induction false} FinalIsForever(cfg: Config, s: System, more: seq<Step>, rid: RowId)
    requires PruningIsSafe(cfg) && Inv(cfg, s)
    requires rid in s.hist && s.hist[rid].final.Some?
    ensures rid in Exec(cfg, s, more).hist && Exec(cfg, s, more).hist[rid] == s.hist[rid]
  {
    hide Next, Inv;
    if more != [] {
      var init := more[..|more| - 1];
      FinalIsForever(cfg, s, init, rid);
      ExecKeeps(cfg, s, init);
      FinalStays(cfg, Exec(cfg, s, init), more[|more| - 1], rid);
    }
  }

  // ---- the sender's loop as steps -------------------------------------------

  lemma {:induction false} ExecConcat(cfg: Config, s: System, a: seq<Step>, b: seq<Step>)
    ensures Exec(cfg, s, a + b) == Exec(cfg, Exec(cfg, s, a), b)
  {
    hide Next;
    if b == [] {
      assert a + b == a;
    } else {
      assert (a + b)[..|a + b| - 1] == a + b[..|b| - 1];
      ExecConcat(cfg, s, a, b[..|b| - 1]);
    }
  }

  function SendSteps(key: Key, n: nat): seq<Step> {
    seq(n, _ => SendOk(key))
  }

  /** n parts further on. */
  function Advanced(s: System, key: Key, n: nat): System
    requires In(s, key, Sending) && s.jobs[key].row.partsDone + n <= |PartsOf(s.hist[s.jobs[key].rid])|
  {
    var j := s.jobs[key];
    var h := s.hist[j.rid];
    var k := j.row.partsDone;
    s.(jobs := s.jobs[key := j.(row := j.row.(partsDone := k + n))],
       hist := s.hist[j.rid := h.(sent := h.sent + PartsOf(h)[k..k + n])])
  }

  /** One part more, on a history. */
  function Longer(h: History, k: nat, n: nat): History
    requires k + n <= |PartsOf(h)|
  {
    h.(sent := h.sent + PartsOf(h)[k..k + n])
  }

  lemma LongerByOne(h: History, k: nat, n: nat)
    requires n > 0 && k + n <= |PartsOf(h)|
    ensures PartsOf(Longer(h, k, n - 1)) == PartsOf(h)
    ensures Longer(h, k, n - 1).sent + [PartsOf(h)[k + n - 1]] == Longer(h, k, n).sent
  {
    SameText(h, Longer(h, k, n - 1));
    hide PartsOf;
    var parts := PartsOf(h);
    assert parts[k..k + n] == parts[k..k + n - 1] + [parts[k + n - 1]];
  }

  lemma AdvancedOnce(s: System, key: Key, n: nat)
    requires In(s, key, Sending) && n > 0 && s.jobs[key].row.partsDone + n <= |PartsOf(s.hist[s.jobs[key].rid])|
    ensures var s1 := Advanced(s, key, n - 1);
            In(s1, key, Sending) && PartsLeft(s1, key) && Sent(s1, key) == Advanced(s, key, n)
  {
    var s1 := Advanced(s, key, n - 1);
    LongerByOne(s.hist[s.jobs[key].rid], s.jobs[key].row.partsDone, n);
    hide PartsOf;
    assert Sent(s1, key).jobs == Advanced(s, key, n).jobs;
    assert Sent(s1, key).hist == Advanced(s, key, n).hist;
  }

  lemma {:induction false} SendsAdvance(cfg: Config, s: System, key: Key, n: nat)
    requires In(s, key, Sending) && s.jobs[key].row.partsDone + n <= |PartsOf(s.hist[s.jobs[key].rid])|
    ensures Exec(cfg, s, SendSteps(key, n)) == Advanced(s, key, n)
  {
    hide PartsOf;
    var steps := SendSteps(key, n);
    if n == 0 {
      assert Advanced(s, key, 0).jobs == s.jobs;
      var h, k := s.hist[s.jobs[key].rid], s.jobs[key].row.partsDone;
      assert h.sent + PartsOf(h)[k..k] == h.sent;
      assert Advanced(s, key, 0).hist == s.hist;
    } else {
      assert steps[..n - 1] == SendSteps(key, n - 1);
      SendsAdvance(cfg, s, key, n - 1);
      AdvancedOnce(s, key, n);
      hide Advanced, Sent;
    }
  }

  lemma ExecTwo(cfg: Config, s: System, a: Step, b: Step)
    ensures Exec(cfg, s, [a]) == Next(cfg, s, a)
    ensures Exec(cfg, s, [a, b]) == Next(cfg, Next(cfg, s, a), b)
  {
    hide Next;
    assert [a][..0] == [] && [a, b][..1] == [a];
  }

  /** A row that an attempt, having got to partsDone, records for how its last send went. */
  predicate Outcome(cfg: Config, j: Job, parts: nat, err: Option<SendError>, now: int, d: Row) {
    var at := j.row.(partsDone := d.partsDone);
    if err.None? then d.partsDone == parts && d == AfterSuccess(at, j.propagate)
    else d.partsDone < parts && d == AfterError(cfg, at.(attempts := j.row.attempts + 1), now, j.propagate, err.value)
  }

  function LastSteps(key: Key, err: Option<SendError>, now: int): seq<Step> {
    if err.Some? then [SendFail(key, err.value), Record(key, now)] else [Record(key, now)]
  }

  lemma LastStepsRecord(cfg: Config, s: System, key: Key, err: Option<SendError>, now: int, d: Row)
    requires In(s, key, Sending) && s.jobs[key].row.partsDone == d.partsDone
    requires Outcome(cfg, s.jobs[key], |PartsOf(s.hist[s.jobs[key].rid])|, err, now, d)
    ensures Exec(cfg, s, LastSteps(key, err, now)) == Commit(if err.Some? then SetPhase(s, key, Stopped(err.value)) else s, key, d)
  {
    hide PartsOf, Exec, Commit;
    if err.Some? {
      ExecTwo(cfg, s, SendFail(key, err.value), Record(key, now));
      assert Next(cfg, s, SendFail(key, err.value)) == SetPhase(s, key, Stopped(err.value));
    } else {
      ExecTwo(cfg, s, Record(key, now), Record(key, now));
    }
  }

  lemma FirstStepsAdvance(cfg: Config, s: System, key: Key, n: nat)
    requires In(s, key, Starting) && s.jobs[key].row.partsDone + n <= |PartsOf(s.hist[s.jobs[key].rid])|
    ensures Exec(cfg, s, [Start(key)] + SendSteps(key, n)) == Advanced(SetPhase(s, key, Sending), key, n)
  {
    hide PartsOf, Advanced;
    ExecTwo(cfg, s, Start(key), Start(key));
    ExecConcat(cfg, s, [Start(key)], SendSteps(key, n));
    SendsAdvance(cfg, SetPhase(s, key, Sending), key, n);
  }

  /** The steps of an attempt that is too old, or gets n parts out and then stops or runs to the end. */
  function AttemptSteps(key: Key, tooOld: bool, n: nat, err: Option<SendError>, now: int): seq<Step> {
    if tooOld then [Abandon(key)] else [Start(key)] + SendSteps(key, n) + LastSteps(key, err, now)
  }

  /** The row an attempt may record. */
  predicate Attempted(cfg: Config, j: Job, parts: nat, tooOld: bool, err: Option<SendError>, now: int, d: Row) {
    if tooOld then d == j.row.(state := Failed) else Outcome(cfg, j, parts, err, now, d)
  }

  /** The row is recorded and the parts from the job's own up to the row's went out. */
  predicate DidAttempt(s: System, s': System, key: Key, d: Row)
    requires key in s.jobs && s.jobs[key].rid in s.hist && s.jobs[key].row.partsDone <= d.partsDone <= |PartsOf(s.hist[s.jobs[key].rid])|
  {
    var j, h := s.jobs[key], s.hist[s.jobs[key].rid];
    && j.rid in s'.rows && s'.rows[j.rid] == d
    && j.rid in s'.hist && s'.hist[j.rid].sent == h.sent + PartsOf(h)[j.row.partsDone..d.partsDone]
    && In(s', key, Recorded)
  }

  /**
   What `Deliver` returns for the row in a sender's hand is what these steps of
   the machine do: the same row recorded, the same parts sent.
   */
  lemma DeliverIsSteps(cfg: Config, s: System, key: Key, tooOld: bool, d: Row, err: Option<SendError>, now: int)
    requires In(s, key, Starting) && s.jobs[key].row.partsDone <= d.partsDone <= |PartsOf(s.hist[s.jobs[key].rid])|
    requires Attempted(cfg, s.jobs[key], |PartsOf(s.hist[s.jobs[key].rid])|, tooOld, err, now, d)
    ensures DidAttempt(s, Exec(cfg, s, AttemptSteps(key, tooOld, d.partsDone - s.jobs[key].row.partsDone, err, now)), key, d)
  {
    hide PartsOf, Exec, SendSteps, LastSteps;
    if tooOld {
      ExecTwo(cfg, s, Abandon(key), Abandon(key));
      var h, k := s.hist[s.jobs[key].rid], d.partsDone;
      assert h.sent + PartsOf(h)[k..k] == h.sent;
    } else {
      SentAsSteps(cfg, s, key, d, err, now);
    }
  }

  lemma SentAsSteps(cfg: Config, s: System, key: Key, d: Row, err: Option<SendError>, now: int)
    requires In(s, key, Starting) && s.jobs[key].row.partsDone <= d.partsDone <= |PartsOf(s.hist[s.jobs[key].rid])|
    requires Outcome(cfg, s.jobs[key], |PartsOf(s.hist[s.jobs[key].rid])|, err, now, d)
    ensures DidAttempt(s, Exec(cfg, s, AttemptSteps(key, false, d.partsDone - s.jobs[key].row.partsDone, err, now)), key, d)
  {
    hide PartsOf, Exec, SendSteps, LastSteps;
    var j, h := s.jobs[key], s.hist[s.jobs[key].rid];
    var n := d.partsDone - j.row.partsDone;
    FirstStepsAdvance(cfg, s, key, n);
    ExecConcat(cfg, s, [Start(key)] + SendSteps(key, n), LastSteps(key, err, now));
    var s2 := Advanced(SetPhase(s, key, Sending), key, n);
    assert s2.jobs[key] == j.(phase := Sending, row := j.row.(partsDone := d.partsDone));
    SameText(h, s2.hist[j.rid]);
    LastStepsRecord(cfg, s2, key, err, now, d);
  }
}
