/**
 What becomes of deliveries, over every interleaving: when a row is given up,
 delivered or due again, and how often it has been tried.
 */
module Outcomes {
  import opened Common
  import opened Utf8
  import opened Delivery
  import opened DeliveryRuns

  /** The machine, with how many failed attempts each row has had and how it was last handed to a sender. */
  datatype Books = Books(s: System, fails: map<RowId, nat>, how: map<RowId, bool>)

  function Fails(b: Books, rid: RowId): nat {
    if rid in b.fails then b.fails[rid] else 0
  }

  // ---- what a step records ---------------------------------------------------------------------

  /** The step ends an attempt at rid that is in this phase. */
  predicate Ends(s: System, step: Step, rid: RowId, phase: Phase) {
    step.Record? && step.key in s.jobs && s.jobs[step.key].rid == rid && s.jobs[step.key].phase == phase
  }

  /** An attempt at rid failed with err. */
  predicate FailsWith(s: System, step: Step, rid: RowId, err: SendError) {
    Ends(s, step, rid, Stopped(err))
  }

  /** rid is too old, or the stamp asked for too costly. */
  predicate GivenUp(s: System, step: Step, rid: RowId) {
    || (step.Abandon? && step.key in s.jobs && s.jobs[step.key].rid == rid && s.jobs[step.key].phase == Starting)
    || FailsWith(s, step, rid, StampCostTooHigh)
  }

  /** All parts of rid are out. */
  predicate Delivered(s: System, step: Step, rid: RowId) {
    Ends(s, step, rid, Sending) && rid in s.hist && s.jobs[step.key].row.partsDone >= |PartsOf(s.hist[rid])|
  }

  /** A sender takes the row. */
  predicate Taken(cfg: Config, s: System, step: Step) {
    step.Offer? && step.taken && s.sched.Claimed? && |s.jobs| < cfg.senders
  }

  function NextBooks(cfg: Config, b: Books, step: Step): Books {
    Books(Next(cfg, b.s, step),
          if step.Record? && step.key in b.s.jobs && b.s.jobs[step.key].phase.Stopped?
          then b.fails[b.s.jobs[step.key].rid := Fails(b, b.s.jobs[step.key].rid) + 1] else b.fails,
          if Taken(cfg, b.s, step) then b.how[b.s.sched.d.rid := step.propagate] else b.how)
  }

  function Audit(cfg: Config, steps: seq<Step>): Books {
    if steps == [] then Books(INIT, map[], map[]) else NextBooks(cfg, Audit(cfg, steps[..|steps| - 1]), steps[|steps| - 1])
  }

  lemma {:induction false} AuditIsRun(cfg: Config, steps: seq<Step>)
    ensures Audit(cfg, steps).s == Run(cfg, steps)
  {
    if steps != [] {
      hide Next;
      AuditIsRun(cfg, steps[..|steps| - 1]);
    }
  }

  // ---- the books agree with the machine -----------------------------------------------------------

  /** Rows, rows in the scheduler's hand and rows being worked on know how often they failed. */
  ghost predicate Agrees(b: Books) {
    && (forall rid :: rid in b.s.rows ==> rid in b.s.hist && b.s.rows[rid].attempts == Fails(b, rid))
    && (forall rid :: rid in b.fails ==> rid in b.s.hist)
    && JobsAgree(b) && DueAgrees(b)
  }

  ghost predicate JobsAgree(b: Books) {
    forall key :: key in b.s.jobs ==> JobAgrees(b, b.s.jobs[key])
  }

  predicate JobAgrees(b: Books, j: Job) {
    && j.rid in b.s.hist && j.rid in b.how && b.how[j.rid] == j.propagate
    && (j.phase != Recorded ==> j.row.attempts == Fails(b, j.rid))
  }

  /** A due row that is current has the count; whatever has changed it since is no longer of interest. */
  predicate DueCounts(b: Books, d: Due) {
    d.rid in b.s.hist && (b.s.hist[d.rid].version == d.version ==> d.row.attempts == Fails(b, d.rid))
  }

  ghost predicate DueAgrees(b: Books) {
    && ((b.s.sched.Round? || b.s.sched.Claimed?) ==> forall i :: 0 <= i < |b.s.sched.due| ==> DueCounts(b, b.s.sched.due[i]))
    && (b.s.sched.Claimed? ==> DueCounts(b, b.s.sched.d))
  }

  /** A step that records nothing and takes nothing up leaves the books alone. */
  lemma BooksSame(b: Books, b2: Books)
    requires Agrees(b) && b2.fails == b.fails && b2.how == b.how
    requires forall rid :: rid in b.s.hist ==> rid in b2.s.hist && b2.s.hist[rid].version == b.s.hist[rid].version
    requires forall rid :: rid in b2.s.rows ==> rid in b.s.rows && b2.s.rows[rid] == b.s.rows[rid]
    requires forall key :: key in b2.s.jobs ==> key in b.s.jobs && SameWork(b.s.jobs[key], b2.s.jobs[key])
    requires b2.s.sched == b.s.sched || !(b2.s.sched.Round? || b2.s.sched.Claimed?)
    ensures Agrees(b2)
  {
    forall key | key in b2.s.jobs
      ensures JobAgrees(b2, b2.s.jobs[key])
    {
      assert JobAgrees(b, b.s.jobs[key]);
    }
    if b2.s.sched.Round? || b2.s.sched.Claimed? {
      forall i | 0 <= i < |b2.s.sched.due|
        ensures DueCounts(b2, b2.s.sched.due[i])
      {
        assert DueCounts(b, b.s.sched.due[i]);
      }
    }
  }

  predicate SameWork(j: Job, j2: Job) {
    j2.rid == j.rid && j2.propagate == j.propagate && j2.row.attempts == j.row.attempts && (j2.phase != Recorded ==> j.phase != Recorded)
  }

  lemma EnqueueAgrees(cfg: Config, b: Books, rid: RowId, text: Bytes, now: int)
    requires Agrees(b)
    ensures Agrees(b.(s := Enqueue(b.s, rid, text, now)))
  {
    var b2 := b.(s := Enqueue(b.s, rid, text, now));
    if rid !in b.s.hist {
      assert rid !in b.fails;
      forall key | key in b2.s.jobs
        ensures JobAgrees(b2, b2.s.jobs[key])
      {
        assert JobAgrees(b, b.s.jobs[key]);
      }
      if b2.s.sched.Round? || b2.s.sched.Claimed? {
        forall i | 0 <= i < |b2.s.sched.due|
          ensures DueCounts(b2, b2.s.sched.due[i])
        {
          assert DueCounts(b, b.s.sched.due[i]);
        }
      }
    }
  }

  lemma SnapshotAgrees(b: Books, rids: seq<RowId>, now: int)
    requires Agrees(b)
    ensures Agrees(b.(s := ReadSnapshot(b.s, rids, now)))
  {
    var b2 := b.(s := ReadSnapshot(b.s, rids, now));
    forall key | key in b2.s.jobs
      ensures JobAgrees(b2, b2.s.jobs[key])
    {
      assert JobAgrees(b, b.s.jobs[key]);
    }
    hide JobAgrees;
    if b.s.sched.Snapped? && Readable(b.s, rids, now) {
      var due := DueRows(b.s, rids, now);
      forall i | 0 <= i < |due|
        ensures DueCounts(b2, due[i])
      {
        assert due[i] == Due(rids[i], b.s.rows[rids[i]], b.s.hist[rids[i]].version);
      }
    }
  }

  lemma ClaimAgrees(b: Books)
    requires Agrees(b)
    ensures Agrees(b.(s := ClaimNext(b.s)))
  {
    hide Busy;
    var b2 := b.(s := ClaimNext(b.s));
    SameJobs(b, b2);
    hide JobsAgree;
    if b.s.sched.Round? && b.s.sched.due != [] {
      assert DueCounts(b, b.s.sched.due[0]);
      forall i | 0 <= i < |b.s.sched.due| - 1
        ensures DueCounts(b2, b.s.sched.due[1..][i])
      {
        assert DueCounts(b, b.s.sched.due[i + 1]);
      }
    }
  }

  lemma SameJobs(b: Books, b2: Books)
    requires JobsAgree(b) && b2.s.jobs == b.s.jobs && b2.s.hist == b.s.hist && b2.fails == b.fails && b2.how == b.how
    ensures JobsAgree(b2)
  {
    forall key | key in b2.s.jobs
      ensures JobAgrees(b2, b2.s.jobs[key])
    {
      assert JobAgrees(b, b.s.jobs[key]);
    }
  }

  lemma HandOverAgrees(cfg: Config, b: Books, taken: bool, propagate: bool)
    requires Agrees(b) && SchedulerOk(b.s) && forall key :: key in b.s.jobs ==> KeyOf(b.s.jobs[key].rid) == key
    ensures Agrees(NextBooks(cfg, b, Offer(taken, propagate)))
  {
    hide JobAgrees, DueCounts, DueOk;
    HandOverJobs(cfg, b, taken, propagate);
    HandOverDue(cfg, b, taken, propagate);
    hide JobsAgree, DueAgrees;
  }

  lemma HandOverJobs(cfg: Config, b: Books, taken: bool, propagate: bool)
    requires JobsAgree(b) && DueAgrees(b) && (b.s.sched.Claimed? ==> Current(b.s, b.s.sched.d)) && forall key :: key in b.s.jobs ==> KeyOf(b.s.jobs[key].rid) == key
    ensures JobsAgree(NextBooks(cfg, b, Offer(taken, propagate)))
  {
    var b2 := NextBooks(cfg, b, Offer(taken, propagate));
    forall key | key in b2.s.jobs
      ensures JobAgrees(b2, b2.s.jobs[key])
    {
      if key in b.s.jobs && b2.s.jobs[key] == b.s.jobs[key] {
        assert JobAgrees(b, b.s.jobs[key]);
      }
    }
  }

  lemma HandOverDue(cfg: Config, b: Books, taken: bool, propagate: bool)
    requires DueAgrees(b)
    ensures DueAgrees(NextBooks(cfg, b, Offer(taken, propagate)))
  {
    var b2 := NextBooks(cfg, b, Offer(taken, propagate));
    if b2.s.sched.Round? || b2.s.sched.Claimed? {
      forall i | 0 <= i < |b2.s.sched.due|
        ensures DueCounts(b2, b2.s.sched.due[i])
      {
        assert DueCounts(b, b2.s.sched.due[i]);
      }
    }
  }

  /** An attempt's outcome is recorded: the row and its books change together, and older copies become void. */
  lemma CommitAgrees(b: Books, b2: Books, key: Key, row: Row)
    requires Agrees(b) && JobsOk(b.s) && SchedulerOk(b.s) && key in b.s.jobs && b.s.jobs[key].rid in b.s.hist
    requires b2.s == Commit(b.s, key, row) && b2.how == b.how
    requires b2.fails == b.fails || b2.fails == b.fails[b.s.jobs[key].rid := Fails(b, b.s.jobs[key].rid) + 1]
    requires row.attempts == Fails(b2, b.s.jobs[key].rid)
    ensures Agrees(b2)
  {
    CommitJobs(b, b2, key, row);
    CommitDue(b, b2, key, row);
    hide JobsAgree, DueAgrees, JobsOk, SchedulerOk;
  }

  lemma CommitJobs(b: Books, b2: Books, key: Key, row: Row)
    requires JobsAgree(b) && JobsOk(b.s) && key in b.s.jobs && b.s.jobs[key].rid in b.s.hist
    requires b2.s == Commit(b.s, key, row) && b2.how == b.how
    requires b2.fails == b.fails || b2.fails == b.fails[b.s.jobs[key].rid := Fails(b, b.s.jobs[key].rid) + 1]
    ensures JobsAgree(b2)
  {
    hide PartsOf;
    forall k | k in b2.s.jobs
      ensures JobAgrees(b2, b2.s.jobs[k])
    {
      assert JobAgrees(b, b.s.jobs[k]);
      assert JobOk(b.s, k) && JobOk(b.s, key);
    }
  }

  lemma CommitDue(b: Books, b2: Books, key: Key, row: Row)
    requires DueAgrees(b) && SchedulerOk(b.s) && key in b.s.jobs && b.s.jobs[key].rid in b.s.hist
    requires b2.s == Commit(b.s, key, row)
    requires b2.fails == b.fails || b2.fails == b.fails[b.s.jobs[key].rid := Fails(b, b.s.jobs[key].rid) + 1]
    ensures DueAgrees(b2)
  {
    if b.s.sched.Round? || b.s.sched.Claimed? {
      forall i | 0 <= i < |b.s.sched.due|
        ensures DueCounts(b2, b.s.sched.due[i])
      {
        assert DueCounts(b, b.s.sched.due[i]) && DueOk(b.s, b.s.sched.snapshot, b.s.sched.due[i]);
      }
      if b.s.sched.Claimed? {
        assert DueCounts(b, b.s.sched.d) && DueOk(b.s, b.s.sched.snapshot, b.s.sched.d);
      }
    }
  }

  lemma RecordAgrees(cfg: Config, b: Books, key: Key, now: int)
    requires Agrees(b) && JobsOk(b.s) && SchedulerOk(b.s)
    ensures Agrees(NextBooks(cfg, b, Record(key, now)))
  {
    var b2 := NextBooks(cfg, b, Record(key, now));
    if key in b.s.jobs {
      var j := b.s.jobs[key];
      assert JobAgrees(b, j);
      if j.phase.Stopped? {
        hide JobsOk, SchedulerOk, Agrees, PartsOf;
        CommitAgrees(b, b2, key, AfterError(cfg, j.row.(attempts := j.row.attempts + 1), now, j.propagate, j.phase.err));
      } else if In(b.s, key, Sending) && !PartsLeft(b.s, key) {
        hide JobsOk, SchedulerOk, Agrees, PartsOf;
        CommitAgrees(b, b2, key, AfterSuccess(j.row, j.propagate));
      }
    }
  }

  lemma AbandonAgrees(cfg: Config, b: Books, key: Key)
    requires Agrees(b) && JobsOk(b.s) && SchedulerOk(b.s)
    ensures Agrees(NextBooks(cfg, b, Abandon(key)))
  {
    if In(b.s, key, Starting) {
      assert JobAgrees(b, b.s.jobs[key]);
      hide JobsOk, SchedulerOk, Agrees, PartsOf;
      CommitAgrees(b, NextBooks(cfg, b, Abandon(key)), key, b.s.jobs[key].row.(state := Failed));
    }
  }

  lemma KeysFit(s: System)
    requires JobsOk(s)
    ensures forall key :: key in s.jobs ==> KeyOf(s.jobs[key].rid) == key
  {
    hide PartsOf;
    forall key | key in s.jobs
      ensures KeyOf(s.jobs[key].rid) == key
    {
      assert JobOk(s, key);
    }
  }

  /** The sender's own steps, and those that only move the scheduler on. */
  predicate Plain(step: Step) {
    step.Drop? || step.ReadSeq? || step.EndRound? || step.Start? || step.SendOk? || step.SendFail? || step.Done?
  }

  lemma PlainAgrees(cfg: Config, b: Books, step: Step)
    requires Agrees(b) && Plain(step)
    ensures Agrees(NextBooks(cfg, b, step))
  {
    hide Agrees, PartsOf;
    BooksSame(b, NextBooks(cfg, b, step));
  }

  lemma NextAgrees(cfg: Config, b: Books, step: Step)
    requires Agrees(b) && Inv(cfg, b.s)
    ensures Agrees(NextBooks(cfg, b, step))
  {
    hide Agrees, TablesOk, SchedulerOk, JobsOk, HistoriesOk, Enqueue, ReadSnapshot, ClaimNext;
    if Plain(step) {
      PlainAgrees(cfg, b, step);
    } else {
      match step
      case Queue(rid, text, now) => EnqueueAgrees(cfg, b, rid, text, now);
      case ReadDue(rids, now) => SnapshotAgrees(b, rids, now);
      case TryClaim => ClaimAgrees(b);
      case Offer(taken, propagate) =>
        KeysFit(b.s);
        HandOverAgrees(cfg, b, taken, propagate);
      case Abandon(key) => AbandonAgrees(cfg, b, key);
      case Record(key, now) => RecordAgrees(cfg, b, key, now);
    }
  }

  lemma {:induction false} AuditAgrees(cfg: Config, steps: seq<Step>)
    requires PruningIsSafe(cfg)
    ensures Agrees(Audit(cfg, steps)) && Inv(cfg, Audit(cfg, steps).s)
  {
    if steps == [] {
      InitOk(cfg);
    } else {
      hide Agrees, Inv, NextBooks;
      AuditAgrees(cfg, steps[..|steps| - 1]);
      AuditIsRun(cfg, steps);
      RunKeeps(cfg, steps);
      NextAgrees(cfg, Audit(cfg, steps[..|steps| - 1]), steps[|steps| - 1]);
    }
  }

  // ---- what this means ------------------------------------------------------------------------------

  /** In every run a stored row has been tried in vain as often as it says. */
  lemma AttemptsAreFailures(cfg: Config, steps: seq<Step>, rid: RowId)
    requires PruningIsSafe(cfg) && rid in Audit(cfg, steps).s.rows
    ensures Audit(cfg, steps).s.rows[rid].attempts == Fails(Audit(cfg, steps), rid)
  {
    AuditAgrees(cfg, steps);
  }

  /** A failed attempt, against the books. */
  ghost predicate RetriedAs(cfg: Config, b: Books, s2: System, step: Step, rid: RowId, err: SendError)
    requires FailsWith(b.s, step, rid, err)
  {
    && rid in s2.rows && rid in b.how
    && s2.rows[rid].attempts == Fails(b, rid) + 1
    && s2.rows[rid].partsDone == b.s.jobs[step.key].row.partsDone
    && FailedAs(cfg, b.s.jobs[step.key].row, s2.rows[rid], step.now, b.how[rid], err)
  }

  lemma RetryStep(cfg: Config, b: Books, step: Step, rid: RowId, err: SendError)
    requires FailsWith(b.s, step, rid, err) && JobAgrees(b, b.s.jobs[step.key])
    ensures RetriedAs(cfg, b, Next(cfg, b.s, step), step, rid, err)
  {
    hide PartsOf;
  }

  /**
   Whatever a run has been, an attempt that fails is recorded as failed for its
   reason: given up only for the stamp, otherwise due again when it should be,
   after the parts that went out and one attempt more.
   */
  lemma RetryIsDue(cfg: Config, steps: seq<Step>, step: Step, rid: RowId, err: SendError)
    requires PruningIsSafe(cfg) && FailsWith(Run(cfg, steps), step, rid, err)
    ensures Audit(cfg, steps).s == Run(cfg, steps)
    ensures RetriedAs(cfg, Audit(cfg, steps), Next(cfg, Run(cfg, steps), step), step, rid, err)
  {
    hide Audit, Run, Inv, JobAgrees, RetriedAs, Next;
    AuditIsRun(cfg, steps);
    AuditAgrees(cfg, steps);
    RetryStep(cfg, Audit(cfg, steps), step, rid, err);
  }

  /** A row becomes final only by being given up or delivered, and then as it was last handed out. */
  lemma FinalStep(cfg: Config, b: Books, step: Step, rid: RowId)
    requires Agrees(b) && Inv(cfg, b.s) && rid in b.s.hist
    ensures var s2 := Next(cfg, b.s, step);
            && rid in s2.hist
            && (GivenUp(b.s, step, rid) || Delivered(b.s, step, rid) ==> b.s.hist[rid].final.None? && rid in b.how)
            && s2.hist[rid].final ==
                 if GivenUp(b.s, step, rid) then Some(Failed)
                 else if Delivered(b.s, step, rid) then Some(if b.how[rid] then Propagated else Proven)
                 else b.s.hist[rid].final
  {
    hide PartsOf, TablesOk, SchedulerOk, HistoriesOk, JobOk, DueAgrees;
    if step.Record? || step.Abandon? {
      if step.key in b.s.jobs {
        NotFinal(b.s, step.key);
        assert JobAgrees(b, b.s.jobs[step.key]);
        hide JobsOk, Agrees;
        FinalRecorded(cfg, b, step, rid);
      }
    } else {
      hide JobsOk, Agrees;
      FinalElse(cfg, b.s, step, rid);
    }
  }

  lemma FinalRecorded(cfg: Config, b: Books, step: Step, rid: RowId)
    requires (step.Record? || step.Abandon?) && step.key in b.s.jobs && rid in b.s.hist && JobAgrees(b, b.s.jobs[step.key])
    requires b.s.jobs[step.key].phase != Recorded ==> b.s.hist[b.s.jobs[step.key].rid].final.None?
    ensures var s2 := Next(cfg, b.s, step);
            && rid in s2.hist
            && (GivenUp(b.s, step, rid) || Delivered(b.s, step, rid) ==> b.s.hist[rid].final.None? && rid in b.how)
            && s2.hist[rid].final ==
                 if GivenUp(b.s, step, rid) then Some(Failed)
                 else if Delivered(b.s, step, rid) then Some(if b.how[rid] then Propagated else Proven)
                 else b.s.hist[rid].final
  {
    hide PartsOf;
  }

  lemma FinalElse(cfg: Config, s: System, step: Step, rid: RowId)
    requires !step.Record? && !step.Abandon? && rid in s.hist
    ensures rid in Next(cfg, s, step).hist && Next(cfg, s, step).hist[rid].final == s.hist[rid].final
  {
    hide PartsOf, Busy, Readable, DueRows, Finish;
  }

  function FinalOf(s: System, rid: RowId): Option<State> {
    if rid in s.hist then s.hist[rid].final else None
  }

  /** At step k the row was given up. */
  ghost predicate GivenUpAt(cfg: Config, steps: seq<Step>, rid: RowId, k: nat) {
    k < |steps| && GivenUp(Run(cfg, steps[..k]), steps[k], rid)
  }

  /** At step k its last part was out, and it had been handed to a sender to propagate, or not. */
  ghost predicate DeliveredAt(cfg: Config, steps: seq<Step>, rid: RowId, k: nat, propagate: bool) {
    && k < |steps| && Delivered(Run(cfg, steps[..k]), steps[k], rid)
    && rid in Audit(cfg, steps[..k]).how && Audit(cfg, steps[..k]).how[rid] == propagate
  }

  /** The reasons, for a run and a row. */
  ghost predicate Explained(cfg: Config, steps: seq<Step>, rid: RowId) {
    var final := FinalOf(Run(cfg, steps), rid);
    && (final == Some(Failed) <==> exists k: nat :: GivenUpAt(cfg, steps, rid, k))
    && (final == Some(Propagated) <==> exists k: nat :: DeliveredAt(cfg, steps, rid, k, true))
    && (final == Some(Proven) <==> exists k: nat :: DeliveredAt(cfg, steps, rid, k, false))
    && final != Some(Queued)
  }

  lemma AtEarlier(cfg: Config, steps: seq<Step>, rid: RowId, k: nat, propagate: bool)
    requires steps != [] && k < |steps| - 1
    ensures GivenUpAt(cfg, steps, rid, k) == GivenUpAt(cfg, steps[..|steps| - 1], rid, k)
    ensures DeliveredAt(cfg, steps, rid, k, propagate) == DeliveredAt(cfg, steps[..|steps| - 1], rid, k, propagate)
  {
    assert steps[..|steps| - 1][..k] == steps[..k];
    hide Run, Audit, GivenUp, Delivered;
  }

  /** One step more, with what it did. */
  lemma ExplainedMore(cfg: Config, steps: seq<Step>, rid: RowId)
    requires steps != [] && Explained(cfg, steps[..|steps| - 1], rid)
    requires var n := |steps| - 1;
             var was, now := FinalOf(Run(cfg, steps[..n]), rid), FinalOf(Run(cfg, steps), rid);
             if GivenUpAt(cfg, steps, rid, n) then was.None? && now == Some(Failed) && (forall p :: !DeliveredAt(cfg, steps, rid, n, p))
             else if DeliveredAt(cfg, steps, rid, n, true) then was.None? && now == Some(Propagated) && !DeliveredAt(cfg, steps, rid, n, false)
             else if DeliveredAt(cfg, steps, rid, n, false) then was.None? && now == Some(Proven)
             else now == was
    ensures Explained(cfg, steps, rid)
  {
    hide FinalOf, Run;
    var n, init := |steps| - 1, steps[..|steps| - 1];
    forall k: nat | k != n
      ensures GivenUpAt(cfg, steps, rid, k) == GivenUpAt(cfg, init, rid, k)
    {
      if k < n {
        AtEarlier(cfg, steps, rid, k, true);
      }
    }
    forall k: nat, p | k != n
      ensures DeliveredAt(cfg, steps, rid, k, p) == DeliveredAt(cfg, init, rid, k, p)
    {
      if k < n {
        AtEarlier(cfg, steps, rid, k, p);
      }
    }
    assert !GivenUpAt(cfg, init, rid, n) && !DeliveredAt(cfg, init, rid, n, true) && !DeliveredAt(cfg, init, rid, n, false);
    hide GivenUpAt, DeliveredAt;
  }

  /** A row nobody queued is not being worked on. */
  lemma NotQueuedYet(cfg: Config, b: Books, step: Step, rid: RowId)
    requires Agrees(b) && rid !in b.s.hist
    ensures !GivenUp(b.s, step, rid) && !Delivered(b.s, step, rid)
    ensures FinalOf(Next(cfg, b.s, step), rid) == None
  {
    hide PartsOf, Busy, Readable, DueRows, Finish, DueAgrees;
    if (step.Record? || step.Abandon?) && step.key in b.s.jobs {
      assert JobAgrees(b, b.s.jobs[step.key]);
    }
  }

  /**
   Why a row is final, in every run: failed if and only if it was too old or the
   stamp too costly at some step, propagated or proven if and only if its last
   part got out at some step, by the way it was last handed to a sender.
   */
  lemma {:induction false} FinalIsExplained(cfg: Config, steps: seq<Step>, rid: RowId)
    requires PruningIsSafe(cfg)
    ensures Explained(cfg, steps, rid)
  {
    if steps == [] {
      assert FinalOf(Run(cfg, []), rid) == None;
      hide Run;
    } else {
      var n, init := |steps| - 1, steps[..|steps| - 1];
      hide Agrees, Inv, Explained, GivenUp, Delivered, FinalOf, Audit, Next;
      AuditAgrees(cfg, init);
      AuditIsRun(cfg, init);
      FinalIsExplained(cfg, init, rid);
      assert Run(cfg, steps) == Next(cfg, Run(cfg, init), steps[n]);
      FinalMoves(cfg, Audit(cfg, init), steps[n], rid);
      hide Run;
      ExplainedMore(cfg, steps, rid);
    }
  }

  lemma FinalMoves(cfg: Config, b: Books, step: Step, rid: RowId)
    requires Agrees(b) && Inv(cfg, b.s)
    ensures GivenUp(b.s, step, rid) || Delivered(b.s, step, rid) ==> FinalOf(b.s, rid) == None && rid in b.how
    ensures GivenUp(b.s, step, rid) ==> !Delivered(b.s, step, rid)
    ensures FinalOf(Next(cfg, b.s, step), rid) ==
            if GivenUp(b.s, step, rid) then Some(Failed)
            else if Delivered(b.s, step, rid) then Some(if b.how[rid] then Propagated else Proven)
            else FinalOf(b.s, rid)
  {
    hide Agrees, Inv, Next, PartsOf;
    if rid in b.s.hist {
      FinalStep(cfg, b, step, rid);
    } else {
      NotQueuedYet(cfg, b, step, rid);
    }
  }

  // ---- when a row is due ---------------------------------------------------------------------------------

  /** Nothing but its own attempts, its queueing and its deletion changes a row. */
  lemma RowStays(cfg: Config, s: System, step: Step, rid: RowId)
    requires !((step.Record? || step.Abandon?) && step.key in s.jobs && s.jobs[step.key].rid == rid)
    requires rid in s.rows && rid in s.hist && step != Drop(rid)
    ensures rid in Next(cfg, s, step).rows && Next(cfg, s, step).rows[rid] == s.rows[rid]
  {
    hide PartsOf, Busy, Readable, DueRows, Finish, AfterError, AfterSuccess;
  }

  /** In every run a stored row that is not final is queued. */
  lemma QueuedUnlessFinal(cfg: Config, steps: seq<Step>, rid: RowId)
    requires PruningIsSafe(cfg) && rid in Run(cfg, steps).rows && rid in Run(cfg, steps).hist
    ensures Run(cfg, steps).rows[rid].state == if FinalOf(Run(cfg, steps), rid).None? then Queued else FinalOf(Run(cfg, steps), rid).value
    ensures FinalOf(Run(cfg, steps), rid) != Some(Queued)
  {
    RunKeeps(cfg, steps);
    hide Run, PartsOf, TablesOk, SchedulerOk, JobsOk, Progress;
    assert HistoryOk(Run(cfg, steps), rid);
  }

  lemma ReadOne(s: System, rid: RowId, now: int)
    requires s.sched.Snapped? && rid in s.rows && rid in s.hist
    ensures ReadSnapshot(s, [rid], now) ==
            if s.rows[rid].state == Queued && s.rows[rid].nextAt <= now
            then s.(sched := Round(s.sched.snapshot, [Due(rid, s.rows[rid], s.hist[rid].version)], 0)) else s
  {
    if Readable(s, [rid], now) {
      assert [rid][0] in s.rows && s.rows[[rid][0]].state == Queued && s.rows[[rid][0]].nextAt <= now;
      assert DueRows(s, [rid], now) == [Due(rid, s.rows[rid], s.hist[rid].version)];
    } else {
      assert !(s.rows[rid].state == Queued && s.rows[rid].nextAt <= now);
    }
  }

  /** A row is handed to the scheduler, as it stands, if and only if it is not final and its time has come. */
  lemma DueIff(cfg: Config, steps: seq<Step>, rid: RowId, now: int)
    requires PruningIsSafe(cfg) && Run(cfg, steps).sched.Snapped? && rid in Run(cfg, steps).rows && rid in Run(cfg, steps).hist
    ensures var s, s2 := Run(cfg, steps), Next(cfg, Run(cfg, steps), ReadDue([rid], now));
            if FinalOf(s, rid).None? && s.rows[rid].nextAt <= now
            then s2.sched == Round(s.sched.snapshot, [Due(rid, s.rows[rid], s.hist[rid].version)], 0)
            else s2 == s
  {
    hide Run, ReadSnapshot, FinalOf;
    QueuedUnlessFinal(cfg, steps, rid);
    ReadOne(Run(cfg, steps), rid, now);
  }

  /** A delivery just queued is due at once. */
  lemma QueuedIsDue(cfg: Config, s: System, rid: RowId, text: Bytes, now: int)
    requires rid !in s.hist
    ensures var s2 := Next(cfg, s, Queue(rid, text, now));
            rid in s2.rows && s2.rows[rid].state == Queued && s2.rows[rid].nextAt == now && s2.rows[rid].attempts == 0 && s2.rows[rid].partsDone == 0
  {
  }

  // ---- who gets a sender ---------------------------------------------------------------------------------

  /** The next due row is claimed if and only if nobody is working on it and no attempt at it finished since the round began. */
  lemma ClaimIff(cfg: Config, steps: seq<Step>)
    requires PruningIsSafe(cfg) && Run(cfg, steps).sched.Round? && Run(cfg, steps).sched.due != []
    ensures var s, s2 := Run(cfg, steps), Next(cfg, Run(cfg, steps), TryClaim);
            var d := s.sched.due[0];
            var key := KeyOf(d.rid);
            if key in s.jobs || (key in s.t.finished && s.t.finished[key] > s.sched.snapshot)
            then s2 == s.(sched := Round(s.sched.snapshot, s.sched.due[1..], s.sched.offered))
            else s2.sched == Claimed(s.sched.snapshot, s.sched.due[1..], s.sched.offered, d) && s2.jobs == s.jobs
  {
    hide Run, TablesOk, SchedulerOk, JobsOk, HistoriesOk, ClaimNext, Next;
    RunKeeps(cfg, steps);
    NextClaims(cfg, Run(cfg, steps));
    RoundHolds(cfg, Run(cfg, steps));
    ClaimStep(Run(cfg, steps));
  }

  lemma NextClaims(cfg: Config, s: System)
    ensures Next(cfg, s, TryClaim) == ClaimNext(s)
  {
  }

  lemma RoundHolds(cfg: Config, s: System)
    requires TablesOk(cfg, s) && s.sched.Round?
    ensures s.t.inFlight == s.jobs.Keys
  {
  }

  lemma ClaimStep(s: System)
    requires s.t.inFlight == s.jobs.Keys && s.sched.Round? && s.sched.due != []
    ensures var s2, d, key := ClaimNext(s), s.sched.due[0], KeyOf(s.sched.due[0].rid);
            if key in s.jobs || (key in s.t.finished && s.t.finished[key] > s.sched.snapshot)
            then s2 == s.(sched := Round(s.sched.snapshot, s.sched.due[1..], s.sched.offered))
            else s2.sched == Claimed(s.sched.snapshot, s.sched.due[1..], s.sched.offered, d) && s2.jobs == s.jobs
  {
  }

  /** A claimed row goes to a sender if one is free, as it was read; otherwise its key is free again and the round is over. */
  lemma OfferOutcome(cfg: Config, s: System, taken: bool, propagate: bool)
    requires s.sched.Claimed?
    ensures var s2, d := Next(cfg, s, Offer(taken, propagate)), s.sched.d;
            if taken && |s.jobs| < cfg.senders
            then s2.jobs == s.jobs[KeyOf(d.rid) := Job(d.rid, d.row, propagate, Starting)] && s2.sched == Round(s.sched.snapshot, s.sched.due, s.sched.offered + 1) && s2.t == s.t
            else s2.jobs == s.jobs && s2.sched == Idle && KeyOf(d.rid) !in s2.t.inFlight
  {
  }

  /** The scheduler's other steps: a round begins with the number of finishes so far, and ends when no due row is left; a row deleted is gone. */
  lemma RoundSteps(cfg: Config, s: System, rid: RowId)
    ensures s.sched.Idle? ==> Next(cfg, s, ReadSeq) == s.(sched := Snapped(s.t.seqNo))
    ensures s.sched.Round? && s.sched.due == [] ==> Next(cfg, s, EndRound) == s.(sched := Idle)
    ensures s.sched.Round? && s.sched.due != [] ==> Next(cfg, s, EndRound) == s
    ensures rid !in Next(cfg, s, Drop(rid)).rows && Next(cfg, s, Drop(rid)).rows == s.rows - {rid} && Next(cfg, s, Drop(rid)).jobs == s.jobs
  {
  }
}
