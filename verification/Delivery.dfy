/**
 The durable LXMF delivery queue. One scheduler reads due rows from the store,
 claims them and hands them to a pool of senders; a sender works through the
 parts of a message, records what happened, and finishes. The store is read
 from a snapshot, so a row in the scheduler's hand may be out of date; the
 tables `inFlight`, `finished` and `seqNo` are there to notice.
 */
module Delivery {
  import opened Common
  import opened Utf8

  /** A row of `deliveries` or `whisper_deliveries`. */
  datatype RowId = RowId(whisper: bool, id: nat, identity: Identity)

  /** What the tables are keyed by: a whisper and a message may share a key. */
  datatype Key = Key(id: nat, identity: Identity)

  function KeyOf(rid: RowId): Key {
    Key(rid.id, rid.identity)
  }

  datatype State = Queued | Propagated | Proven | Failed

  datatype Row = Row(state: State, attempts: nat, partsDone: nat, nextAt: int)

  datatype SendError = StampCostTooHigh | RecipientUnknown | PropagationNodeUnknown | NoAnswer

  datatype Config = Config(senders: nat, directAttempts: nat)

  /** The most rows one round reads. */
  const BATCH := 256
  /** How many keys `finished` may hold before old ones go, and how old is old. */
  const FINISHED_MAX := 4096
  const FINISHED_AGE := 2048

  // ---- the shared tables ----------------------------------------------------

  datatype Tables = Tables(inFlight: set<Key>, finished: map<Key, nat>, seqNo: nat)

  predicate Busy(t: Tables, key: Key, snapshot: nat) {
    key in t.inFlight || (key in t.finished && t.finished[key] > snapshot)
  }

  function Claim(t: Tables, key: Key): Tables {
    t.(inFlight := t.inFlight + {key})
  }

  function Release(t: Tables, key: Key): Tables {
    t.(inFlight := t.inFlight - {key})
  }

  /** Entries of f not too old at seqNo. */
  function Recent(f: map<Key, nat>, seqNo: nat): map<Key, nat> {
    map k | k in f && f[k] + FINISHED_AGE >= seqNo :: f[k]
  }

  function Finish(t: Tables, key: Key): Tables {
    var f := t.finished[key := t.seqNo + 1];
    Tables(t.inFlight - {key}, if |f| > FINISHED_MAX then Recent(f, t.seqNo + 1) else f, t.seqNo + 1)
  }

  /** The adapter's tables, as its goroutines change them under the mutex. */
  class Group {
    var inFlight: set<Key>
    var finished: map<Key, nat>
    var seqNo: nat

    ghost function View(): Tables
      reads this
    {
      Tables(inFlight, finished, seqNo)
    }

    constructor ()
      ensures View() == Tables({}, map[], 0)
    {
      inFlight, finished, seqNo := {}, map[], 0;
    }

    /** The scheduler's check of one due row. */
    method TryClaim(key: Key, snapshot: nat) returns (busy: bool)
      modifies this
      ensures busy == Busy(old(View()), key, snapshot)
      ensures View() == if busy then old(View()) else Claim(old(View()), key)
    {
      busy := key in inFlight || (key in finished && finished[key] > snapshot);
      if !busy {
        inFlight := inFlight + {key};
      }
    }

    /** The scheduler takes a claim back when no sender is free. */
    method Unclaim(key: Key)
      modifies this
      ensures View() == Release(old(View()), key)
    {
      inFlight := inFlight - {key};
    }

    /** A sender is done with an attempt. */
    method FinishAttempt(key: Key)
      modifies this
      ensures View() == Finish(old(View()), key)
    {
      inFlight := inFlight - {key};
      seqNo := seqNo + 1;
      finished := finished[key := seqNo];
      if |finished| > FINISHED_MAX {
        ghost var all := finished;
        var todo := finished.Keys;
        while todo != {}
          invariant finished.Keys <= all.Keys && todo <= all.Keys
          invariant inFlight == old(inFlight) - {key} && seqNo == old(seqNo) + 1
          invariant forall k :: k in all ==> (k in finished <==> (k in todo || all[k] + FINISHED_AGE >= seqNo))
          invariant forall k :: k in finished ==> finished[k] == all[k]
          decreases todo
        {
          var k :| k in todo;
          if finished[k] + FINISHED_AGE < seqNo {
            finished := finished - {k};
          }
          todo := todo - {k};
        }
        assert finished == Recent(all, seqNo);
      }
    }
  }

  // ---- one attempt ----------------------------------------------------------

  /** The row an attempt records when a send failed; d already counts the attempt. */
  function AfterError(cfg: Config, d: Row, now: int, propagate: bool, err: SendError): (r: Row)
    ensures r.partsDone == d.partsDone && r.attempts == d.attempts
    ensures r.state == Failed || r.state == Queued
  {
    match err
    case StampCostTooHigh => d.(state := Failed)
    case RecipientUnknown => d.(state := Queued, nextAt := now + 30_000)
    case PropagationNodeUnknown => d.(state := Queued, nextAt := now + 60_000)
    case NoAnswer =>
      if !propagate && d.attempts >= cfg.directAttempts then d.(state := Queued, nextAt := now)
      else d.(state := Queued, nextAt := now + Min(d.attempts * 30_000, 600_000))
  }

  /**
   What becomes of a row d0 whose attempt got as far as d.partsDone and then met
   err: given up only for too costly a stamp, otherwise due again after half a
   minute for an unknown recipient, a minute for an unknown node, at once when
   direct attempts are used up, and else after half a minute for each attempt
   so far, ten minutes at most.
   */
  predicate FailedAs(cfg: Config, d0: Row, d: Row, now: int, propagate: bool, err: SendError) {
    && d.attempts == d0.attempts + 1
    && d.partsDone >= d0.partsDone
    && (err == StampCostTooHigh <==> d.state == Failed)
    && (err != StampCostTooHigh <==> d.state == Queued)
    && (err == RecipientUnknown ==> d.nextAt - now == 30_000)
    && (err == PropagationNodeUnknown ==> d.nextAt - now == 60_000)
    && (err == NoAnswer && !propagate && d.attempts >= cfg.directAttempts ==> d.nextAt == now)
    && (err == NoAnswer && (propagate || d.attempts < cfg.directAttempts) && d.attempts < 20 ==> d.nextAt - now == 30_000 * d.attempts)
    && (err == NoAnswer && (propagate || d.attempts < cfg.directAttempts) && d.attempts >= 20 ==> d.nextAt - now == 600_000)
  }

  function AfterSuccess(d: Row, propagate: bool): Row {
    d.(state := if propagate then Propagated else Proven)
  }

  /**
   One attempt at one delivery: sends[k] is the transport's answer to the k-th
   send. What goes out continues where the row stopped, stops at the first
   failure, and the recorded row counts exactly what went out.
   */
  method Deliver(cfg: Config, d0: Row, parts: seq<Bytes>, tooOld: bool, propagate: bool, now: int,
                 sends: seq<Option<SendError>>)
    returns (d: Row, out: seq<Bytes>)
    requires d0.state == Queued && d0.partsDone <= |parts| <= |sends|
    ensures d0.partsDone <= d.partsDone <= |parts|
    ensures out == parts[d0.partsDone..d.partsDone]
    ensures d.state in {Proven, Propagated} ==> d.partsDone == |parts| && d == AfterSuccess(d0.(partsDone := |parts|), propagate)
    ensures tooOld ==> d == d0.(state := Failed)
    ensures !tooOld && d.state !in {Proven, Propagated} ==>
              && d.partsDone < |parts|
              && sends[d.partsDone - d0.partsDone].Some?
              && d == AfterError(cfg, d0.(partsDone := d.partsDone, attempts := d0.attempts + 1), now, propagate,
                                 sends[d.partsDone - d0.partsDone].value)
              && FailedAs(cfg, d0, d, now, propagate, sends[d.partsDone - d0.partsDone].value)
    ensures !tooOld && (forall k :: 0 <= k < |parts| - d0.partsDone ==> sends[k].None?) ==>
              d == Row(if propagate then Propagated else Proven, d0.attempts, |parts|, d0.nextAt)
  {
    d, out := d0, [];
    if tooOld {
      d := d.(state := Failed);
      return;
    }
    var err: Option<SendError> := None;
    while d.partsDone < |parts| && err.None?
      invariant d0.partsDone <= d.partsDone <= |parts|
      invariant d == d0.(partsDone := d.partsDone)
      invariant out == parts[d0.partsDone..d.partsDone]
      invariant err.Some? ==> d.partsDone < |parts| && err == sends[d.partsDone - d0.partsDone]
      invariant forall k :: 0 <= k < d.partsDone - d0.partsDone ==> sends[k].None?
      decreases |parts| - d.partsDone, err.None?
    {
      err := sends[d.partsDone - d0.partsDone];
      if err.None? {
        out := out + [parts[d.partsDone]];
        d := d.(partsDone := d.partsDone + 1);
      }
    }
    if err.None? {
      d := AfterSuccess(d, propagate);
      return;
    }
    d := d.(attempts := d.attempts + 1);
    d := AfterError(cfg, d, now, propagate, err.value);
  }
}
