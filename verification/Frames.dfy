/**
 Turning a stored message into RRC frames: one envelope if it fits the link,
 numbered parts if it does not, and never one too big to send.
 */
module Frames {
  import opened Common
  import opened Utf8
  import opened Cbor
  import opened Envelope
  import opened FrameText
  import Split

  /** The most one link packet carries. */
  const MAX_FRAME := 431
  /** The least a text budget is set to. */
  const MIN_BUDGET := 16
  /** The width of " (00/00)". */
  const MARK_WIDTH := 8

  // ---- the size of an envelope ----------------------------------------------------------

  /** What one pair adds to a map. */
  function PairSize(m: map<nat, Bytes>, k: nat): nat
    requires k in m && k < U64
  {
    |WriteHead(0, k)| + |m[k]|
  }

  function Size(m: map<nat, Bytes>, s: set<nat>): nat
    requires forall k :: k in s ==> k in m && k < U64
  {
    if s == {} then 0 else PairSize(m, Least(s)) + Size(m, s - {Least(s)})
  }

  lemma {:induction false} WrittenSize(m: map<nat, Bytes>, s: set<nat>)
    requires forall k :: k in s ==> k in m && k < U64
    ensures |WritePairs(m, InOrder(s))| == Size(m, s)
  {
    if s != {} {
      WrittenSize(m, s - {Least(s)});
      assert InOrder(s)[1..] == InOrder(s - {Least(s)});
    }
  }

  /** The order in which pairs are counted does not matter. */
  lemma {:induction false} SizeWithout(m: map<nat, Bytes>, s: set<nat>, x: nat)
    requires (forall k :: k in s ==> k in m && k < U64) && x in s
    ensures Size(m, s) == PairSize(m, x) + Size(m, s - {x})
  {
    var k := Least(s);
    if x != k {
      SizeWithout(m, s - {k}, x);
      assert k in s - {x};
      var l := Least(s - {x});
      assert l in s;
      assert l == k;
      assert s - {x} - {k} == s - {k} - {x};
    }
  }

  lemma {:induction false} SizeSame(m: map<nat, Bytes>, n: map<nat, Bytes>, s: set<nat>)
    requires forall k :: k in s ==> k in m && k in n && k < U64 && m[k] == n[k]
    ensures Size(m, s) == Size(n, s)
  {
    if s != {} {
      SizeSame(m, n, s - {Least(s)});
    }
  }

  /** The numbered fields' part of the size, up to k. */
  function NumberedSize(e: Envelope, k: nat): nat
    requires Writable(e) && k <= 9
  {
    if k == 0 then 0
    else NumberedSize(e, k - 1) + (if FieldOf(e, k - 1).Some? then 1 + |FieldOf(e, k - 1).value| else 0)
  }

  lemma FieldsStep(e: Envelope, k: nat)
    requires Writable(e) && 0 < k <= 9
    ensures k - 1 !in FieldsTo(e, k - 1)
    ensures FieldsTo(e, k) == if FieldOf(e, k - 1).None? then FieldsTo(e, k - 1) else FieldsTo(e, k - 1)[k - 1 := FieldOf(e, k - 1).value]
  {
  }

  lemma FieldsBound(e: Envelope, k: nat)
    requires Writable(e) && k <= 9
    ensures forall j :: j in FieldsTo(e, k) ==> j < U64
  {
  }

  ghost function Total(m: map<nat, Bytes>): nat {
    if forall k :: k in m ==> k < U64 then Size(m, m.Keys) else 0
  }

  lemma TotalAdd(m: map<nat, Bytes>, k: nat, v: Bytes)
    requires (forall j :: j in m ==> j < U64) && k !in m && k < 24
    ensures Total(m[k := v]) == Total(m) + 1 + |v|
  {
    var n := m[k := v];
    assert n.Keys - {k} == m.Keys;
    SizeWithout(n, n.Keys, k);
    SizeSame(n, m, m.Keys);
  }

  lemma TotalStep(e: Envelope, k: nat)
    requires Writable(e) && 0 < k <= 9
    ensures Total(FieldsTo(e, k)) == Total(FieldsTo(e, k - 1)) + (if FieldOf(e, k - 1).Some? then 1 + |FieldOf(e, k - 1).value| else 0)
  {
    FieldsStep(e, k);
    FieldsBound(e, k - 1);
    hide FieldOf, FieldsTo, Writable, Total;
    if FieldOf(e, k - 1).Some? {
      TotalAdd(FieldsTo(e, k - 1), k - 1, FieldOf(e, k - 1).value);
    }
  }

  lemma {:induction false} FieldsSize(e: Envelope, k: nat)
    requires Writable(e) && k <= 9
    ensures Total(FieldsTo(e, k)) == NumberedSize(e, k) + Total(Extensions(e.ext))
  {
    hide FieldOf, Writable, Total;
    if k > 0 {
      TotalStep(e, k);
      FieldsSize(e, k - 1);
    }
  }

  lemma EncodedSize(e: Envelope)
    requires Writable(e)
    ensures (forall k :: k in Fields(e) ==> k < U64) && |Fields(e)| < U64
    ensures |Encode(e)| == |WriteHead(5, |Fields(e)|)| + Total(Fields(e))
  {
    FieldsKeys(e);
    hide Fields, WriteHead, WritePairs, Size;
    assert |Fields(e).Keys| == |Fields(e)|;
    WrittenSize(Fields(e), Fields(e).Keys);
  }

  function Part(e: Envelope, k: nat): nat
    requires Writable(e)
  {
    if FieldOf(e, k).Some? then 1 + |FieldOf(e, k).value| else 0
  }

  lemma NumberedIsSum(e: Envelope)
    requires Writable(e)
    ensures NumberedSize(e, 9) == Part(e, 0) + Part(e, 1) + Part(e, 2) + Part(e, 3) + Part(e, 4) + Part(e, 5) + Part(e, 6) + Part(e, 7) + Part(e, 8)
  {
    hide FieldOf, Writable;
    assert NumberedSize(e, 0) == 0;
    assert NumberedSize(e, 1) == Part(e, 0);
    assert NumberedSize(e, 2) == NumberedSize(e, 1) + Part(e, 1);
    assert NumberedSize(e, 3) == NumberedSize(e, 2) + Part(e, 2);
    assert NumberedSize(e, 4) == NumberedSize(e, 3) + Part(e, 3);
    assert NumberedSize(e, 5) == NumberedSize(e, 4) + Part(e, 4);
    assert NumberedSize(e, 6) == NumberedSize(e, 5) + Part(e, 5);
    assert NumberedSize(e, 7) == NumberedSize(e, 6) + Part(e, 6);
    assert NumberedSize(e, 8) == NumberedSize(e, 7) + Part(e, 7);
  }

  /** The same envelope with another body and id has the same fields. */
  lemma SameFields(e: Envelope, d: Envelope)
    requires Writable(e) && Writable(d) && e.body != [] && d.body != [] && d == e.(id := d.id, body := d.body)
    ensures Fields(d).Keys == Fields(e).Keys && |Fields(d)| == |Fields(e)|
  {
    forall k
      ensures k in Fields(d) <==> k in Fields(e)
    {
      if 0 <= k < 9 {
        assert FieldOf(d, k).Some? == FieldOf(e, k).Some?;
      }
      hide FieldOf;
    }
    assert Fields(d).Keys == Fields(e).Keys;
    assert |Fields(d).Keys| == |Fields(d)| && |Fields(e).Keys| == |Fields(e)|;
  }

  function Written(s: Bytes): nat
    requires |s| < U64
  {
    |WriteString(2, s)|
  }

  /** Changing body and id changes the size by just that much. */
  lemma SizeShift(e: Envelope, d: Envelope)
    requires Writable(e) && Writable(d) && e.body != [] && d.body != [] && d == e.(id := d.id, body := d.body)
    ensures |Encode(d)| + |e.body| + Written(e.id) == |Encode(e)| + |d.body| + Written(d.id)
  {
    EncodedSize(e);
    EncodedSize(d);
    SameFields(e, d);
    FieldsSize(e, 9);
    FieldsSize(d, 9);
    NumberedIsSum(e);
    NumberedIsSum(d);
    SameParts(e, d);
    hide NumberedSize, Part, Encode, Size, Fields, WriteHead, Writable, WriteString;
  }

  lemma SameParts(e: Envelope, d: Envelope)
    requires Writable(e) && Writable(d) && e.body != [] && d.body != [] && d == e.(id := d.id, body := d.body)
    ensures forall k :: 0 <= k < 9 && k != KEY_ID && k != KEY_BODY ==> Part(d, k) == Part(e, k)
    ensures Part(d, 0) == Part(e, 0) && Part(d, 1) == Part(e, 1) && Part(d, 3) == Part(e, 3) && Part(d, 4) == Part(e, 4)
    ensures Part(d, 5) == Part(e, 5) && Part(d, 7) == Part(e, 7) && Part(d, 8) == Part(e, 8)
    ensures Part(e, KEY_ID) == 1 + Written(e.id) && Part(d, KEY_ID) == 1 + Written(d.id)
    ensures Part(e, KEY_BODY) == 1 + |e.body| && Part(d, KEY_BODY) == 1 + |d.body|
  {
  }

  // ---- messages within the hub's limits ------------------------------------------------------

  /** A message as the hub lets it be stored: name, room, id and extensions within their limits. */
  ghost predicate Bounded(e: Envelope) {
    && e.kind < 24 && e.ts < U64 && |e.id| <= 64 && |e.src| <= 16 && |e.room| <= 64 && |e.nick| <= 32 && e.dst.None?
    && (forall k :: k in e.ext ==> EXTENSION_MIN <= k < U64)
    && ExtBytes(e.ext, InOrder(e.ext.Keys)) <= 128
  }

  /** Extensions take no more than they were charged for. */
  lemma {:induction false} ExtCharged(ext: map<nat, Bytes>, s: set<nat>)
    requires forall k :: k in s ==> k in ext && k < U64
    ensures Size(ext, s) <= ExtBytes(ext, InOrder(s)) && 9 * |s| <= ExtBytes(ext, InOrder(s))
  {
    if s != {} {
      ExtCharged(ext, s - {Least(s)});
      assert InOrder(s)[1..] == InOrder(s - {Least(s)});
    }
  }

  lemma BoundedWritable(e: Envelope)
    requires Bounded(e)
    ensures Writable(e) && Total(Extensions(e.ext)) <= 128 && |e.ext| <= 14
  {
    assert Extensions(e.ext) == e.ext;
    assert |e.ext.Keys| == |e.ext|;
    ExtCharged(e.ext, e.ext.Keys);
    hide ExtBytes, Size, InOrder;
  }

  lemma PartBounds(e: Envelope)
    requires Bounded(e) && Writable(e)
    ensures Part(e, 0) == 2 && Part(e, 1) == 2 && Part(e, 2) <= 67 && Part(e, 3) <= 10 && Part(e, 4) <= 18
    ensures Part(e, 5) <= 67 && Part(e, 6) <= 1 + |e.body| && Part(e, 7) <= 35 && Part(e, 8) == 0
  {
  }

  /** However the limits are used up, an envelope is at most 333 bytes apart from its body. */
  lemma BoundedSize(e: Envelope)
    requires Bounded(e)
    ensures Writable(e) && |Encode(e)| <= 333 + |e.body|
  {
    BoundedWritable(e);
    EncodedSize(e);
    FieldsSize(e, 9);
    NumberedIsSum(e);
    PartBounds(e);
    FieldsCount(e, 9);
    hide Bounded, Writable, Part, NumberedSize, Total, Encode, FieldsTo, Extensions;
  }

  // ---- how much text fits ------------------------------------------------------------------------

  function TextBody(text: Bytes): (b: Bytes)
    requires |text| < U64
    ensures b != [] && |b| >= |text| + 1
    ensures |text| < 0x1_0000 ==> |b| <= |text| + 3
  {
    WriteString(3, text)
  }

  function Zeros(n: nat): (z: Bytes)
    ensures |z| == n
  {
    seq(n, i => 0)
  }

  function Probe(e: Envelope): Envelope {
    e.(id := Zeros(if |e.id| > 8 then |e.id| else 8), body := TextBody([]))
  }

  /** The longest text e can carry in one frame. */
  function BodyBudget(e: Envelope, maxBody: nat): nat
    requires Writable(Probe(e))
  {
    Max(Min(MAX_FRAME - |Encode(Probe(e))| - 2, maxBody), MIN_BUDGET)
  }

  lemma ProbeBounded(e: Envelope)
    requires Bounded(e)
    ensures Bounded(Probe(e)) && Writable(Probe(e)) && |Encode(Probe(e))| <= 334
  {
    hide ExtBytes, InOrder, Encode;
    assert |TextBody([])| == 1;
    BoundedSize(Probe(e));
  }

  lemma BudgetRange(e: Envelope, maxBody: nat)
    requires Bounded(e) && maxBody >= 64
    ensures Writable(Probe(e)) && 64 <= BodyBudget(e, maxBody) <= MAX_FRAME - |Encode(Probe(e))| - 2
  {
    ProbeBounded(e);
    hide Bounded, Encode, Probe;
  }

  lemma ShorterIdIsShorter(a: Bytes, b: Bytes)
    requires |a| <= |b| <= 64
    ensures Written(a) <= Written(b)
  {
  }

  /** Any text within the budget, under any id no longer than allowed for, makes a frame that fits. */
  lemma WithinBudgetFits(e: Envelope, maxBody: nat, id: Bytes, text: Bytes)
    requires Bounded(e) && maxBody >= 64 && (|id| <= 8 || |id| <= |e.id|)
    requires Writable(Probe(e)) && |text| <= BodyBudget(e, maxBody)
    ensures |text| < U64 && Writable(e.(id := id, body := TextBody(text)))
    ensures |Encode(e.(id := id, body := TextBody(text)))| <= MAX_FRAME
  {
    BudgetRange(e, maxBody);
    var p, d := Probe(e), e.(id := id, body := TextBody(text));
    assert |p.body| == 1 && |d.body| <= |text| + 3;
    ProbeBounded(e);
    FrameBounded(e, id, d.body);
    BoundedWritable(d);
    ShorterIdIsShorter(id, p.id);
    hide Bounded, Encode, Writable, Written, TextBody;
    SizeShift(p, d);
  }

  lemma FrameBounded(e: Envelope, id: Bytes, body: Bytes)
    requires Bounded(e) && (|id| <= 8 || |id| <= |e.id|)
    ensures Bounded(e.(id := id, body := body))
  {
  }

  // ---- frames ---------------------------------------------------------------------------------------

  /** " (i/n)" */
  function Mark(i: nat, n: nat): (m: Bytes)
    ensures i < 100 && n < 100 ==> |m| <= MARK_WIDTH
    ensures forall k :: 0 <= k < |m| ==> m[k] < 0x80
  {
    [SPACE, 40] + Split.Decimal(i) + [47] + Split.Decimal(n) + [41]
  }

  /** The text of part i: marked if there are several. */
  function PartText(ps: seq<Bytes>, i: nat): Bytes
    requires i < |ps|
  {
    if |ps| > 1 then ps[i] + Mark(i + 1, |ps|) else ps[i]
  }

  function PartEnvelope(e: Envelope, ps: seq<Bytes>, ids: nat -> Bytes, i: nat): Envelope
    requires i < |ps| && |PartText(ps, i)| < U64
  {
    e.(id := if |ps| > 1 then ids(i + 1) else e.id, body := TextBody(PartText(ps, i)))
  }

  /** Without extensions, which belong to the whole message. */
  function Bare(e: Envelope): Envelope {
    e.(ext := map[])
  }

  /** The envelope without extensions when the body is too long for one frame. */
  function Carrier(e: Envelope, body: Bytes, maxBody: nat): Envelope
    requires Writable(Probe(e))
  {
    if |body| > BodyBudget(e, maxBody) then Bare(e) else e
  }

  function PartsOf(e: Envelope, body: Bytes, maxBody: nat): seq<Bytes>
    requires Writable(Probe(e)) && Writable(Probe(Bare(e)))
  {
    if |body| > BodyBudget(e, maxBody) then SplitText(body, BodyBudget(Bare(e), maxBody) - MARK_WIDTH) else [body]
  }

  lemma BareBounded(e: Envelope)
    requires Bounded(e)
    ensures Bounded(Bare(e))
  {
  }

  /** Fewer than a hundred parts, each within the budget with its mark, valid, and together the whole text. */
  lemma PartsFit(e: Envelope, body: Bytes, maxBody: nat)
    requires Bounded(e) && maxBody >= 64 && |body| <= 2000 && Valid(body)
    ensures Writable(Probe(e)) && Writable(Probe(Bare(e)))
    ensures Writable(Probe(Carrier(e, body, maxBody)))
    ensures TextsOk(body, PartsOf(e, body, maxBody), BodyBudget(Carrier(e, body, maxBody), maxBody))
  {
    hide Bounded, BodyBudget, Probe, Writable, SplitText, Valid, TextsOk, Bare, Encode;
    BareBounded(e);
    BudgetRange(e, maxBody);
    BudgetRange(Bare(e), maxBody);
    if |body| > BodyBudget(e, maxBody) {
      SplitFits(body, BodyBudget(Bare(e), maxBody) - MARK_WIDTH);
    } else {
      OnePart(body, BodyBudget(e, maxBody));
    }
  }

  ghost predicate TextsOk(body: Bytes, ps: seq<Bytes>, budget: nat) {
    && 1 <= |ps| < 100 && Rejoins(body, ps)
    && forall i :: 0 <= i < |ps| ==> |PartText(ps, i)| <= budget && Valid(ps[i])
  }

  lemma OnePart(body: Bytes, budget: nat)
    requires Valid(body) && |body| <= budget
    ensures TextsOk(body, [body], budget)
  {
  }

  lemma SplitFits(body: Bytes, limit: nat)
    requires Valid(body) && 0 < |body| <= 2000 && limit >= 56
    ensures TextsOk(body, SplitText(body, limit), limit + MARK_WIDTH)
  {
    hide Pieces, SplitText, Rejoins, Valid;
    PiecesAreOk(body, limit);
    SplitIsPieces(body, limit);
    var ps := SplitText(body, limit);
    FewParts(|ps|, limit, |body|);
    forall i | 0 <= i < |ps|
      ensures |PartText(ps, i)| <= limit + MARK_WIDTH && Valid(ps[i])
    {
      assert PieceOk(ps[i], limit);
    }
  }

  lemma SplitIsPieces(text: Bytes, limit: nat)
    requires Valid(text) && limit >= 8 && text != []
    ensures SplitText(text, limit) == Pieces(text, limit) && |Pieces(text, limit)| >= 1
  {
  }

  lemma FewParts(n: nat, limit: nat, len: nat)
    requires limit >= 56 && len <= 2000 && n * (limit / 2 + 1) <= len + limit / 2
    ensures n < 100
  {
  }

  /**
   No part of a message is ever dropped for its size: with nick, room, id,
   extensions and body within the hub's limits, every frame fits the link.
   */
  lemma EveryFrameFits(e: Envelope, body: Bytes, maxBody: nat, ids: nat -> Bytes, i: nat)
    requires Bounded(e) && maxBody >= 64 && |body| <= 2000 && Valid(body) && (forall k :: |ids(k)| == 8)
    requires Writable(Probe(e)) && Writable(Probe(Bare(e))) && i < |PartsOf(e, body, maxBody)|
    ensures var ps := PartsOf(e, body, maxBody);
            var c := Carrier(e, body, maxBody);
            && |PartText(ps, i)| < U64 && Writable(PartEnvelope(c, ps, ids, i)) && |Encode(PartEnvelope(c, ps, ids, i))| <= MAX_FRAME
  {
    PartsFit(e, body, maxBody);
    BareBounded(e);
    var ps := PartsOf(e, body, maxBody);
    var c := Carrier(e, body, maxBody);
    assert Bounded(c);
    hide Bounded, BodyBudget, Probe, Writable, PartsOf, Carrier, Rejoins, Encode, TextBody;
    WithinBudgetFits(c, maxBody, if |ps| > 1 then ids(i + 1) else c.id, PartText(ps, i));
  }

  // ---- the loop -----------------------------------------------------------------------------------

  /** Every part's text is a sensible size, whatever the limits. */
  lemma PartsModest(e: Envelope, body: Bytes, maxBody: nat, i: nat)
    requires Writable(Probe(e)) && Writable(Probe(Bare(e))) && |body| <= 2000 && Valid(body) && i < |PartsOf(e, body, maxBody)|
    ensures |PartText(PartsOf(e, body, maxBody), i)| <= 2020
  {
    hide BodyBudget, Probe, Writable, Bare, Pieces, Valid, Rejoins;
    var ps := PartsOf(e, body, maxBody);
    if |body| > BodyBudget(e, maxBody) {
      assert BodyBudget(Bare(e), maxBody) >= MIN_BUDGET by { BudgetLeast(Bare(e), maxBody); }
      var limit := BodyBudget(Bare(e), maxBody) - MARK_WIDTH;
      if |body| > limit {
        PiecesAreOk(body, limit);
        assert |ps| * (limit / 2 + 1) <= |body| + limit / 2;
        ManyParts(|ps|, limit, |body|);
        PiecesWithin(body, limit);
      }
    }
  }

  lemma BudgetLeast(e: Envelope, maxBody: nat)
    requires Writable(Probe(e))
    ensures BodyBudget(e, maxBody) >= MIN_BUDGET
  {
  }

  lemma ManyParts(n: nat, limit: nat, len: nat)
    requires limit >= 8 && limit < len <= 2000 && n * (limit / 2 + 1) <= len + limit / 2
    ensures n < 1000
  {
  }

  lemma {:induction false} PiecesWithin(text: Bytes, limit: nat)
    ensures forall i :: 0 <= i < |Pieces(text, limit)| ==> |Pieces(text, limit)[i]| <= |text|
    decreases |text|
  {
    if |text| > limit && CutPoint(text, limit) > 0 {
      PiecesWithin(TrimLeft(text[CutPoint(text, limit)..]), limit);
    }
  }

  /** The frames of the first k parts; one over the link limit is left out. */
  function Fitting(c: Envelope, ps: seq<Bytes>, ids: nat -> Bytes, k: nat): seq<Bytes>
    requires k <= |ps|
    requires forall i :: 0 <= i < |ps| ==> |PartText(ps, i)| < U64 && Writable(PartEnvelope(c, ps, ids, i))
  {
    if k == 0 then []
    else
      var b := Encode(PartEnvelope(c, ps, ids, k - 1));
      Fitting(c, ps, ids, k - 1) + (if |b| <= MAX_FRAME then [b] else [])
  }

  lemma {:induction false} AllFitting(c: Envelope, ps: seq<Bytes>, ids: nat -> Bytes, k: nat)
    requires k <= |ps|
    requires forall i :: 0 <= i < |ps| ==> |PartText(ps, i)| < U64 && Writable(PartEnvelope(c, ps, ids, i))
    requires forall i :: 0 <= i < |ps| ==> |Encode(PartEnvelope(c, ps, ids, i))| <= MAX_FRAME
    ensures |Fitting(c, ps, ids, k)| == k
  {
    hide PartText, PartEnvelope, Encode, Writable;
    if k > 0 {
      AllFitting(c, ps, ids, k - 1);
      assert |Encode(PartEnvelope(c, ps, ids, k - 1))| <= MAX_FRAME;
    }
  }

  /** The envelopes can all be written: only id and body change. */
  lemma PartsWritable(e: Envelope, body: Bytes, maxBody: nat, ids: nat -> Bytes, i: nat)
    requires Writable(e) && Writable(Probe(e)) && Writable(Probe(Bare(e))) && |body| <= 2000 && Valid(body)
    requires (forall k :: |ids(k)| == 8) && i < |PartsOf(e, body, maxBody)|
    ensures var ps := PartsOf(e, body, maxBody);
            |PartText(ps, i)| < U64 && Writable(PartEnvelope(Carrier(e, body, maxBody), ps, ids, i))
  {
    PartsModest(e, body, maxBody, i);
    hide BodyBudget, PartsOf, PartText, Valid, TextBody, Probe;
  }

  /** The frames of a stored message, and how many parts had to be left out: none within the hub's limits. */
  method MessageFrames(e: Envelope, body: Bytes, maxBody: nat, ids: nat -> Bytes) returns (frames: seq<Bytes>, dropped: nat)
    requires Writable(e) && Writable(Probe(e)) && Writable(Probe(Bare(e))) && |body| <= 2000 && Valid(body) && forall k :: |ids(k)| == 8
    ensures var ps := PartsOf(e, body, maxBody);
            && (forall i :: 0 <= i < |ps| ==> |PartText(ps, i)| < U64 && Writable(PartEnvelope(Carrier(e, body, maxBody), ps, ids, i)))
            && frames == Fitting(Carrier(e, body, maxBody), ps, ids, |ps|) && dropped == |ps| - |frames|
    ensures Bounded(e) && maxBody >= 64 ==> dropped == 0
  {
    hide BodyBudget, PartText, Valid, Probe, Encode, PartEnvelope, Rejoins, TextBody, Writable, Bounded, Pieces;
    var c := e;
    var ps := [body];
    if |body| > BodyBudget(e, maxBody) {
      c := Bare(e);
      BudgetLeast(c, maxBody);
      ps := CutPieces(body, BodyBudget(c, maxBody) - MARK_WIDTH);
    }
    forall i | 0 <= i < |ps|
      ensures |PartText(ps, i)| < U64 && Writable(PartEnvelope(c, ps, ids, i))
      ensures Bounded(e) && maxBody >= 64 ==> |Encode(PartEnvelope(c, ps, ids, i))| <= MAX_FRAME
    {
      PartsWritable(e, body, maxBody, ids, i);
      if Bounded(e) && maxBody >= 64 {
        EveryFrameFits(e, body, maxBody, ids, i);
      }
    }
    frames, dropped := [], 0;
    for k := 0 to |ps|
      invariant frames == Fitting(c, ps, ids, k) && dropped == k - |frames|
    {
      var b := Encode(PartEnvelope(c, ps, ids, k));
      if |b| <= MAX_FRAME {
        frames := frames + [b];
      } else {
        dropped := dropped + 1;
      }
    }
    if Bounded(e) && maxBody >= 64 {
      AllFitting(c, ps, ids, |ps|);
    }
  }
}
