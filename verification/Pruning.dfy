/**
 How long the `finished` table remembers: while senders finish one key after
 another, the first of them is still noted after 2049 finishes, always, and
 may be forgotten after one more.
 */
module Pruning {
  import opened Common
  import opened Delivery

  function FinishEach(t: Tables, keys: seq<Key>): Tables {
    if keys == [] then t else Finish(FinishEach(t, keys[..|keys| - 1]), keys[|keys| - 1])
  }

  /** The tables say that key finished after the snapshot. */
  predicate Noted(t: Tables, key: Key, snapshot: nat) {
    key in t.finished && t.finished[key] > snapshot
  }

  lemma {:induction false} StaysNoted(t: Tables, keys: seq<Key>)
    requires keys != [] && NoRepeats(keys) && |keys| <= FINISHED_AGE + 1
    ensures var t2 := FinishEach(t, keys);
            t2.seqNo == t.seqNo + |keys| && keys[0] in t2.finished && t2.finished[keys[0]] == t.seqNo + 1
  {
    var init := keys[..|keys| - 1];
    if init == [] {
      assert FinishEach(t, init) == t;
    } else {
      StaysNoted(t, init);
    }
  }

  // ---- one finish too many ---------------------------------------------------------------------

  /** A finish while there is room. */
  lemma FinishAdds(t: Tables, key: Key)
    requires key !in t.finished && |t.finished| < FINISHED_MAX
    ensures var t2 := Finish(t, key);
            t2.seqNo == t.seqNo + 1 && t2.finished == t.finished[key := t.seqNo + 1] && |t2.finished| == |t.finished| + 1
  {
    assert t.finished[key := t.seqNo + 1].Keys == t.finished.Keys + {key};
  }

  ghost predicate Filled(t: Tables, keys: seq<Key>, t2: Tables) {
    && t2.seqNo == t.seqNo + |keys| && |t2.finished| == |t.finished| + |keys|
    && (forall k :: k in t2.finished <==> k in t.finished || k in keys)
    && (keys != [] ==> t2.finished[keys[0]] == t.seqNo + 1)
  }

  lemma {:induction false} Fills(t: Tables, keys: seq<Key>)
    requires NoRepeats(keys) && (forall k :: k in keys ==> k !in t.finished) && |t.finished| + |keys| <= FINISHED_MAX
    ensures Filled(t, keys, FinishEach(t, keys))
  {
    if keys == [] {
      FilledNone(t);
    } else {
      hide Finish, Filled, FinishEach;
      var init, last := keys[..|keys| - 1], keys[|keys| - 1];
      assert keys == init + [last];
      assert last !in init;
      Fills(t, init);
      var t1 := FinishEach(t, init);
      FilledSize(t, init, t1, last);
      FinishAdds(t1, last);
      LastFinish(t, keys);
      FilledMore(t, init, last, t1, Finish(t1, last));
    }
  }

  lemma FilledNone(t: Tables)
    ensures Filled(t, [], FinishEach(t, []))
  {
  }

  lemma FilledSize(t: Tables, keys: seq<Key>, t2: Tables, other: Key)
    requires Filled(t, keys, t2)
    ensures |t2.finished| == |t.finished| + |keys| && (other in t2.finished <==> other in t.finished || other in keys)
  {
  }

  lemma FilledMore(t: Tables, init: seq<Key>, last: Key, t1: Tables, t2: Tables)
    requires Filled(t, init, t1) && last !in t1.finished
    requires t2.seqNo == t1.seqNo + 1 && t2.finished == t1.finished[last := t1.seqNo + 1] && |t2.finished| == |t1.finished| + 1
    ensures Filled(t, init + [last], t2)
  {
  }

  lemma Overflows(t: Tables, keys: seq<Key>)
    requires NoRepeats(keys) && (forall k :: k in keys ==> k !in t.finished)
    requires |keys| == FINISHED_AGE + 2 && |t.finished| + |keys| == FINISHED_MAX + 1
    ensures keys[0] !in FinishEach(t, keys).finished
  {
    var init, last := keys[..|keys| - 1], keys[|keys| - 1];
    Fills(t, init);
    hide FinishEach;
    var t1 := FinishEach(t, init);
    assert last !in t1.finished;
    var f := t1.finished[last := t1.seqNo + 1];
    assert f.Keys == t1.finished.Keys + {last};
    assert |f| == FINISHED_MAX + 1;
    assert init[0] == keys[0] && f[keys[0]] == t.seqNo + 1;
    LastFinish(t, keys);
  }

  lemma LastFinish(t: Tables, keys: seq<Key>)
    requires keys != []
    ensures FinishEach(t, keys) == Finish(FinishEach(t, keys[..|keys| - 1]), keys[|keys| - 1])
  {
  }

  /** What has gone comes back only by finishing again. */
  lemma {:induction false} StaysForgotten(t: Tables, keys: seq<Key>, n: nat)
    requires 0 < n <= |keys| && NoRepeats(keys) && keys[0] !in FinishEach(t, keys[..n]).finished
    ensures keys[0] !in FinishEach(t, keys).finished
    decreases |keys|
  {
    if n == |keys| {
      assert keys[..n] == keys;
    } else {
      var init := keys[..|keys| - 1];
      assert init[..n] == keys[..n];
      StaysForgotten(t, init, n);
      LastFinish(t, keys);
    }
  }

  // ---- the bound -----------------------------------------------------------------------------------

  /** n old entries. */
  function Old(n: nat): map<Key, nat> {
    if n == 0 then map[] else Old(n - 1)[Key(n, Identity(1)) := 0]
  }

  lemma {:induction false} OldKeys(n: nat)
    ensures |Old(n)| == n && forall k :: k in Old(n) <==> k.identity == Identity(1) && 0 < k.id <= n
  {
    if n > 0 {
      OldKeys(n - 1);
      assert Old(n).Keys == Old(n - 1).Keys + {Key(n, Identity(1))};
    }
  }

  function Others(n: nat): seq<Key> {
    seq(n, i requires 0 <= i < n => Key(i, Identity(2)))
  }

  /** Whatever the tables, the first of n different keys to finish is still noted when the last one has. */
  ghost predicate AlwaysNoted(n: nat) {
    forall t: Tables, keys: seq<Key> :: keys != [] && |keys| == n && NoRepeats(keys) ==> Noted(FinishEach(t, keys), keys[0], t.seqNo)
  }

  lemma CanForget(n: nat)
    requires n > FINISHED_AGE + 1
    ensures !AlwaysNoted(n)
  {
    var size := FINISHED_MAX + 1 - (FINISHED_AGE + 2);
    var t, keys := Tables({}, Old(size), 0), Others(n);
    OldKeys(size);
    hide FinishEach, Old;
    var first := keys[..FINISHED_AGE + 2];
    assert NoRepeats(keys) && NoRepeats(first);
    assert forall k :: k in first ==> k !in t.finished;
    Overflows(t, first);
    StaysForgotten(t, keys, FINISHED_AGE + 2);
    assert !Noted(FinishEach(t, keys), keys[0], t.seqNo);
  }

  /** The age at which entries are dropped allows 2049 finishes in a round, and not one more. */
  lemma PruningBoundIsTight(n: nat)
    requires n > 0
    ensures AlwaysNoted(n) <==> n <= FINISHED_AGE + 1
  {
    hide FinishEach, NoRepeats;
    if n <= FINISHED_AGE + 1 {
      forall t: Tables, keys: seq<Key> | keys != [] && |keys| == n && NoRepeats(keys)
        ensures Noted(FinishEach(t, keys), keys[0], t.seqNo)
      {
        StaysNoted(t, keys);
      }
    } else {
      CanForget(n);
    }
  }
}
