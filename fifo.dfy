/** First-in first-out consumption of inventory batches, as the shipment handler
    of src/App.tsx performs it: the candidate batches, one allocation step per
    candidate, and what the allocation does to the batch list and the movement log. */
module Fifo {
  import opened Seqs
  import opened Strings
  import opened Types

  function Min(a: int, b: int): (m: int)
    ensures m <= a && m <= b && (m == a || m == b)
  {
    if a <= b then a else b
  }

  /** A batch a shipment of `pid` may draw from: the product's, not empty, active. */
  predicate Drawable(b: InventoryBatch, pid: string)
  {
    b.productId == pid && b.remainingQuantity > 0 && b.status == BatchStatus.Active
  }

  /** The sort key: the batch's creation time. */
  function BatchTime(b: InventoryBatch): int
  {
    b.createTime
  }

  /** The drawable batches in list order (the `filter` before the `sort`). */
  function Drawables(bs: seq<InventoryBatch>, pid: string): seq<InventoryBatch>
  {
    Filter(bs, (b: InventoryBatch) => Drawable(b, pid))
  }

  /** The candidate list: exactly the drawable batches, oldest first. */
  function Candidates(bs: seq<InventoryBatch>, pid: string): (cs: seq<InventoryBatch>)
    ensures forall i :: 0 <= i < |cs| ==> cs[i] in bs && Drawable(cs[i], pid)
    ensures forall k :: 0 <= k < |bs| && Drawable(bs[k], pid) ==> bs[k] in cs
    ensures Ascending(cs, BatchTime)
    ensures multiset(cs) == multiset(Drawables(bs, pid))
  {
    var ds := Drawables(bs, pid);
    var cs := SortBy(ds, BatchTime);
    SameMembers(cs, ds);
    cs
  }

  /** Batches created at the same time are drawn in their list order. */
  lemma CandidatesStable(bs: seq<InventoryBatch>, pid: string, t: int)
    ensures WithKey(Candidates(bs, pid), BatchTime, t) == WithKey(Drawables(bs, pid), BatchTime, t)
  {
    SortByStable(Drawables(bs, pid), BatchTime, t);
  }

  /** No two batches share an id. */
  predicate IdsDistinct(bs: seq<InventoryBatch>)
  {
    forall i, j :: 0 <= i < j < |bs| ==> bs[i].id != bs[j].id
  }

  /** With distinct batch ids the candidates have distinct ids too. */
  lemma CandidatesIdsDistinct(bs: seq<InventoryBatch>, pid: string)
    requires IdsDistinct(bs)
    ensures IdsDistinct(Candidates(bs, pid))
  {
    var cs := Candidates(bs, pid);
    assert Distinct(bs);
    DistinctSubMultiset(bs, cs);
    forall i, j | 0 <= i < j < |cs| ensures cs[i].id != cs[j].id {
      var a :| 0 <= a < |bs| && bs[a] == cs[i];
      var b :| 0 <= b < |bs| && bs[b] == cs[j];
      assert a != b;
    }
  }

  /** Σ remainingQuantity over a list of batches. */
  function Remaining(cs: seq<InventoryBatch>): int
  {
    if |cs| == 0 then 0 else cs[0].remainingQuantity + Remaining(cs[1..])
  }

  /** What a shipment of `pid` can draw: Σ remainingQuantity over the drawable batches. */
  function Available(bs: seq<InventoryBatch>, pid: string): int
  {
    Remaining(Drawables(bs, pid))
  }

  /** Σ remainingQuantity over all the product's batches, whatever their status. */
  function BatchTotal(bs: seq<InventoryBatch>, pid: string): int
  {
    if |bs| == 0 then 0
    else (if bs[0].productId == pid then bs[0].remainingQuantity else 0) + BatchTotal(bs[1..], pid)
  }

  lemma {:induction false} BatchTotalAppend(a: seq<InventoryBatch>, b: seq<InventoryBatch>, pid: string)
    ensures BatchTotal(a + b, pid) == BatchTotal(a, pid) + BatchTotal(b, pid)
  {
    if |a| == 0 {
      assert a + b == b;
    } else {
      assert (a + b)[1..] == a[1..] + b;
      BatchTotalAppend(a[1..], b, pid);
    }
  }

  lemma {:induction false} RemainingInsert(x: InventoryBatch, s: seq<InventoryBatch>)
    ensures Remaining(Insert(x, s, BatchTime)) == x.remainingQuantity + Remaining(s)
  {
    if |s| > 0 && BatchTime(x) > BatchTime(s[0]) {
      RemainingInsert(x, s[1..]);
      assert ([s[0]] + Insert(x, s[1..], BatchTime))[1..] == Insert(x, s[1..], BatchTime);
    } else if |s| > 0 {
      assert ([x] + s)[1..] == s;
    }
  }

  lemma {:induction false} RemainingSorted(s: seq<InventoryBatch>)
    ensures Remaining(SortBy(s, BatchTime)) == Remaining(s)
  {
    if |s| > 0 {
      RemainingSorted(s[1..]);
      RemainingInsert(s[0], SortBy(s[1..], BatchTime));
    }
  }

  /** Sorting does not change what the candidates hold. */
  lemma CandidatesRemaining(bs: seq<InventoryBatch>, pid: string)
    ensures Remaining(Candidates(bs, pid)) == Available(bs, pid)
  {
    RemainingSorted(Drawables(bs, pid));
  }

  lemma {:induction false} RemainingPositive(cs: seq<InventoryBatch>)
    requires forall i :: 0 <= i < |cs| ==> cs[i].remainingQuantity > 0
    ensures Remaining(cs) >= 0
    ensures Remaining(cs) == 0 <==> |cs| == 0
  {
    if |cs| > 0 {
      RemainingPositive(cs[1..]);
    }
  }

  /** The context of one shipped line: the product, the order and the clock. */
  datatype ShipContext = ShipContext(productId: string, orderId: string, orderNo: string, stamp: string, now: int)

  /** The batch list and movement log after an allocation, and the allocations made. */
  datatype Allocation = Allocation(batches: seq<InventoryBatch>, movements: seq<BatchMovement>, used: seq<BatchAllocation>)

  function StatusAfter(rem: int): BatchStatus
  {
    if rem == 0 then BatchStatus.Exhausted else BatchStatus.Active
  }

  /** `prev.map(b => b.id === id ? { ...b, remainingQuantity: rem, status } : b)`. */
  function SetRemaining(bs: seq<InventoryBatch>, id: string, rem: int): (r: seq<InventoryBatch>)
    ensures |r| == |bs|
    ensures forall k :: 0 <= k < |bs| && bs[k].id == id ==>
      r[k] == bs[k].(remainingQuantity := rem, status := StatusAfter(rem))
    ensures forall k :: 0 <= k < |bs| && bs[k].id != id ==> r[k] == bs[k]
  {
    seq(|bs|, k requires 0 <= k < |bs| =>
      if bs[k].id == id then bs[k].(remainingQuantity := rem, status := StatusAfter(rem)) else bs[k])
  }

  /** The `out` movement written for taking `take` units from batch `c`. */
  function OutMovement(c: InventoryBatch, take: int, ctx: ShipContext): (m: BatchMovement)
    ensures m.batchId == c.id && m.batchNo == c.batchNo && m.productId == ctx.productId
    ensures m.movementType == MovementType.Out && m.relatedOrderType == OrderType.Sale
    ensures m.quantity == take && m.remainingQuantity == c.remainingQuantity - take
    ensures m.relatedOrderId == ctx.orderId && m.relatedOrderNo == ctx.orderNo && m.createTime == ctx.now
  {
    BatchMovement(
      ctx.stamp + "-" + c.id + "-" + IntToString(take), c.id, c.batchNo, ctx.productId,
      MovementType.Out, take, c.remainingQuantity - take,
      ctx.orderId, ctx.orderNo, OrderType.Sale, ctx.now)
  }

  /** Σ quantity over a list of allocations. */
  function Taken(used: seq<BatchAllocation>): int
  {
    if |used| == 0 then 0 else used[0].quantity + Taken(used[1..])
  }

  lemma {:induction false} TakenAppend(a: seq<BatchAllocation>, b: seq<BatchAllocation>)
    ensures Taken(a + b) == Taken(a) + Taken(b)
  {
    if |a| == 0 {
      assert a + b == b;
    } else {
      assert (a + b)[1..] == a[1..] + b;
      TakenAppend(a[1..], b);
    }
  }

  /** The batch numbers of the allocations, in allocation order. */
  function BatchNos(used: seq<BatchAllocation>): (r: seq<string>)
    ensures |r| == |used| && forall j :: 0 <= j < |used| ==> r[j] == used[j].batchNo
  {
    seq(|used|, j requires 0 <= j < |used| => used[j].batchNo)
  }

  predicate AllPositive(cs: seq<InventoryBatch>)
  {
    forall i :: 0 <= i < |cs| ==> cs[i].remainingQuantity > 0
  }

  /** The allocations the FIFO loop makes, on their own: one per candidate
      until the quantity is covered, each `min(still needed, remaining)`. */
  function Plan(cs: seq<InventoryBatch>, still: int): (u: seq<BatchAllocation>)
    ensures |u| <= |cs|
    decreases |cs|
  {
    if |cs| == 0 || still <= 0 then []
    else
      var take := Min(still, cs[0].remainingQuantity);
      [BatchAllocation(cs[0].id, cs[0].batchNo, take)] + Plan(cs[1..], still - take)
  }

  lemma AllPositiveTail(cs: seq<InventoryBatch>)
    requires AllPositive(cs) && |cs| > 0
    ensures AllPositive(cs[1..])
  {
    forall i | 0 <= i < |cs[1..]| ensures cs[1..][i].remainingQuantity > 0 {
      assert cs[1..][i] == cs[i + 1];
    }
  }

  /** `u` is a plan for the candidates `cs`: the j-th allocation names the j-th
      candidate and takes a positive amount no larger than that batch holds. */
  predicate Follows(cs: seq<InventoryBatch>, u: seq<BatchAllocation>)
  {
    |u| <= |cs| &&
    forall j :: 0 <= j < |u| ==>
      u[j].batchId == cs[j].id && u[j].batchNo == cs[j].batchNo &&
      0 < u[j].quantity <= cs[j].remainingQuantity
  }

  /** The j-th allocation comes from the j-th candidate and takes a positive
      amount no larger than that batch holds. */
  lemma {:induction false} PlanFollowsCandidates(cs: seq<InventoryBatch>, still: int)
    requires AllPositive(cs)
    ensures Follows(cs, Plan(cs, still))
    decreases |cs|
  {
    if |cs| > 0 && still > 0 {
      var take := Min(still, cs[0].remainingQuantity);
      AllPositiveTail(cs);
      PlanFollowsCandidates(cs[1..], still - take);
      var r := Plan(cs[1..], still - take);
      var u := Plan(cs, still);
      forall j | 1 <= j < |u|
        ensures u[j].batchId == cs[j].id && u[j].batchNo == cs[j].batchNo
        ensures 0 < u[j].quantity <= cs[j].remainingQuantity
      {
        assert u[j] == r[j - 1] && cs[j] == cs[1..][j - 1];
      }
    }
  }

  /** Each allocation is made while something is still needed and takes
      `min(still needed, remaining)`. */
  lemma {:induction false} PlanTakes(cs: seq<InventoryBatch>, still: int)
    ensures var u := Plan(cs, still);
      forall j :: 0 <= j < |u| ==>
        Taken(u[..j]) < still && u[j].quantity == Min(still - Taken(u[..j]), cs[j].remainingQuantity)
    decreases |cs|
  {
    if |cs| > 0 && still > 0 {
      var take := Min(still, cs[0].remainingQuantity);
      PlanTakes(cs[1..], still - take);
      var r := Plan(cs[1..], still - take);
      var u := Plan(cs, still);
      forall j | 0 <= j < |u|
        ensures Taken(u[..j]) < still && u[j].quantity == Min(still - Taken(u[..j]), cs[j].remainingQuantity)
      {
        if j > 0 {
          assert u[..j] == [u[0]] + r[..j - 1];
          assert u[j] == r[j - 1] && cs[j] == cs[1..][j - 1];
          TakenAppend([u[0]], r[..j - 1]);
        } else {
          assert u[..j] == [];
        }
      }
    }
  }

  /** A candidate is left unused only once the whole quantity is covered. */
  lemma {:induction false} PlanStops(cs: seq<InventoryBatch>, still: int)
    ensures var u := Plan(cs, still); |u| < |cs| ==> Taken(u) >= still
    decreases |cs|
  {
    if |cs| > 0 && still > 0 {
      var take := Min(still, cs[0].remainingQuantity);
      PlanStops(cs[1..], still - take);
    }
  }

  /** The plan takes `min(still, Σ remaining)` in total. */
  lemma {:induction false} PlanTotal(cs: seq<InventoryBatch>, still: int)
    requires AllPositive(cs) && still >= 0
    ensures Taken(Plan(cs, still)) == Min(still, Remaining(cs))
    decreases |cs|
  {
    RemainingPositive(cs);
    if |cs| > 0 && still > 0 {
      var take := Min(still, cs[0].remainingQuantity);
      AllPositiveTail(cs);
      PlanTotal(cs[1..], still - take);
      RemainingPositive(cs[1..]);
    }
  }

  /** A batch drained by `take`: the remaining drops and the status becomes
      `exhausted` exactly when nothing is left. */
  function Drained(b: InventoryBatch, take: int): (d: InventoryBatch)
    ensures d.remainingQuantity == b.remainingQuantity - take
    ensures d.status == BatchStatus.Exhausted <==> d.remainingQuantity == 0
    ensures d.status != BatchStatus.Exhausted ==> d.status == BatchStatus.Active
    ensures d.(remainingQuantity := b.remainingQuantity, status := b.status) == b
  {
    b.(remainingQuantity := b.remainingQuantity - take, status := StatusAfter(b.remainingQuantity - take))
  }

  /** The quantity the allocations took from the batch with this id, if any. */
  function TakeOf(used: seq<BatchAllocation>, id: string): (t: Option<int>)
    ensures t.Some? <==> exists j :: 0 <= j < |used| && used[j].batchId == id
    ensures forall j :: (0 <= j < |used| && used[j].batchId == id && forall i :: 0 <= i < j ==> used[i].batchId != id)
                        ==> t == Some(used[j].quantity)
  {
    match Find(used, (u: BatchAllocation) => u.batchId == id)
    case Some(j) => Some(used[j].quantity)
    case None => None
  }

  /** Every candidate is one of the list's batches, and ids tell batches apart. */
  predicate FromList(bs: seq<InventoryBatch>, cs: seq<InventoryBatch>)
  {
    IdsDistinct(bs) && IdsDistinct(cs) && forall i :: 0 <= i < |cs| ==> cs[i] in bs
  }

  lemma FromListTail(bs: seq<InventoryBatch>, cs: seq<InventoryBatch>, rem: int)
    requires FromList(bs, cs) && |cs| > 0
    ensures FromList(SetRemaining(bs, cs[0].id, rem), cs[1..])
  {
    var bs1 := SetRemaining(bs, cs[0].id, rem);
    assert IdsDistinct(bs1) by {
      assert forall k :: 0 <= k < |bs| ==> bs1[k].id == bs[k].id;
    }
    forall i | 0 <= i < |cs[1..]| ensures cs[1..][i] in bs1 {
      var m :| 0 <= m < |bs| && bs[m] == cs[i + 1];
      assert bs1[m] == bs[m];
    }
  }

  lemma {:induction false} BatchTotalSetRemaining(bs: seq<InventoryBatch>, c: InventoryBatch, rem: int, pid: string)
    requires IdsDistinct(bs) && c in bs
    ensures BatchTotal(SetRemaining(bs, c.id, rem), pid)
         == BatchTotal(bs, pid) - (if c.productId == pid then c.remainingQuantity - rem else 0)
  {
    var r := SetRemaining(bs, c.id, rem);
    var t := bs[1..];
    assert r[1..] == SetRemaining(t, c.id, rem);
    assert IdsDistinct(t) by {
      forall i, j | 0 <= i < j < |t| ensures t[i].id != t[j].id {
        assert t[i] == bs[i + 1] && t[j] == bs[j + 1];
      }
    }
    if bs[0].id == c.id {
      var m :| 0 <= m < |bs| && bs[m] == c;
      assert m == 0;
      assert SetRemaining(t, c.id, rem) == t by {
        forall i | 0 <= i < |t| ensures t[i].id != c.id {
          assert t[i] == bs[i + 1];
        }
      }
    } else {
      var m :| 0 <= m < |bs| && bs[m] == c;
      assert t[m - 1] == c;
      BatchTotalSetRemaining(t, c, rem, pid);
    }
  }

  /** The batch updates of a plan, one `SetRemaining` per allocation, in order;
      each sets what the candidate held minus the take. */
  function ApplyPlan(bs: seq<InventoryBatch>, cs: seq<InventoryBatch>, u: seq<BatchAllocation>): (r: seq<InventoryBatch>)
    ensures |r| == |bs|
    decreases |u|
  {
    if |u| == 0 || |cs| == 0 then bs
    else ApplyPlan(SetRemaining(bs, cs[0].id, cs[0].remainingQuantity - u[0].quantity), cs[1..], u[1..])
  }

  /** The `out` movements of a plan, one per allocation, in allocation order. */
  function PlanMovements(cs: seq<InventoryBatch>, u: seq<BatchAllocation>, ctx: ShipContext): (r: seq<BatchMovement>)
    requires |u| <= |cs|
    ensures |r| == |u|
  {
    seq(|u|, j requires 0 <= j < |u| => OutMovement(cs[j], u[j].quantity, ctx))
  }

  /** The FIFO loop over the candidates `cs` with `still` units to ship, from the
      batch list `bs` and the movement log `ms`: while something is needed,
      take `min(still, remaining)` from the next candidate, update that batch
      and log its `out` movement. */
  function Allocate(bs: seq<InventoryBatch>, ms: seq<BatchMovement>, cs: seq<InventoryBatch>,
                    still: int, ctx: ShipContext): (a: Allocation)
    ensures |a.batches| == |bs| && |a.used| <= |cs|
    ensures |a.movements| == |ms| + |a.used| && a.movements[..|ms|] == ms
    decreases |cs|
  {
    if |cs| == 0 || still <= 0 then Allocation(bs, ms, [])
    else
      var c := cs[0];
      var take := Min(still, c.remainingQuantity);
      var rest := Allocate(SetRemaining(bs, c.id, c.remainingQuantity - take),
                           ms + [OutMovement(c, take, ctx)], cs[1..], still - take, ctx);
      Allocation(rest.batches, rest.movements, [BatchAllocation(c.id, c.batchNo, take)] + rest.used)
  }

  /** The loop carries out the plan: its allocations are the plan, its batch
      updates the plan's, its movements the plan's movements after the log. */
  lemma AllocatePlanned(bs: seq<InventoryBatch>, ms: seq<BatchMovement>, cs: seq<InventoryBatch>,
                        still: int, ctx: ShipContext)
    ensures var u := Plan(cs, still);
      Allocate(bs, ms, cs, still, ctx) == Allocation(ApplyPlan(bs, cs, u), ms + PlanMovements(cs, u, ctx), u)
  {
    AllocateUsed(bs, ms, cs, still, ctx);
    AllocateBatches(bs, ms, cs, still, ctx);
    AllocateLog(bs, ms, cs, still, ctx);
  }

  lemma {:induction false} AllocateUsed(bs: seq<InventoryBatch>, ms: seq<BatchMovement>, cs: seq<InventoryBatch>,
                                        still: int, ctx: ShipContext)
    ensures Allocate(bs, ms, cs, still, ctx).used == Plan(cs, still)
    decreases |cs|
  {
    if |cs| > 0 && still > 0 {
      var c := cs[0];
      var take := Min(still, c.remainingQuantity);
      var m := OutMovement(c, take, ctx);
      var bs1 := SetRemaining(bs, c.id, c.remainingQuantity - take);
      var rest := still - take;
      AllocateHead(bs, ms, cs, still, ctx, take, bs1, m);
      AllocateUsed(bs1, ms + [m], cs[1..], rest, ctx);
    }
  }

  lemma {:induction false} AllocateBatches(bs: seq<InventoryBatch>, ms: seq<BatchMovement>, cs: seq<InventoryBatch>,
                                           still: int, ctx: ShipContext)
    ensures Allocate(bs, ms, cs, still, ctx).batches == ApplyPlan(bs, cs, Plan(cs, still))
    decreases |cs|
  {
    if |cs| > 0 && still > 0 {
      var c := cs[0];
      var take := Min(still, c.remainingQuantity);
      var m := OutMovement(c, take, ctx);
      var bs1 := SetRemaining(bs, c.id, c.remainingQuantity - take);
      var rest := still - take;
      AllocateHead(bs, ms, cs, still, ctx, take, bs1, m);
      AllocateBatches(bs1, ms + [m], cs[1..], rest, ctx);
      ApplyPlanCons(bs, cs, still);
    }
  }

  lemma {:induction false} AllocateLog(bs: seq<InventoryBatch>, ms: seq<BatchMovement>, cs: seq<InventoryBatch>,
                                       still: int, ctx: ShipContext)
    ensures Allocate(bs, ms, cs, still, ctx).movements == ms + PlanMovements(cs, Plan(cs, still), ctx)
    decreases |cs|
  {
    if |cs| == 0 || still <= 0 {
      AllocateDone(bs, ms, cs, still, ctx);
    } else {
      var c := cs[0];
      var take := Min(still, c.remainingQuantity);
      var m := OutMovement(c, take, ctx);
      var bs1 := SetRemaining(bs, c.id, c.remainingQuantity - take);
      var rest := still - take;
      var pm := PlanMovements(cs[1..], Plan(cs[1..], rest), ctx);
      AllocateHead(bs, ms, cs, still, ctx, take, bs1, m);
      AllocateLog(bs1, ms + [m], cs[1..], rest, ctx);
      PlanMovementsCons(cs, still, ctx);
      LogJoin(Allocate(bs, ms, cs, still, ctx).movements, Allocate(bs1, ms + [m], cs[1..], rest, ctx).movements,
              ms, m, pm, PlanMovements(cs, Plan(cs, still), ctx));
    }
  }

  /** With nothing left to ship or no candidate left, the log is unchanged. */
  lemma AllocateDone(bs: seq<InventoryBatch>, ms: seq<BatchMovement>, cs: seq<InventoryBatch>,
                     still: int, ctx: ShipContext)
    requires |cs| == 0 || still <= 0
    ensures Allocate(bs, ms, cs, still, ctx).movements == ms + PlanMovements(cs, Plan(cs, still), ctx)
  {
    assert PlanMovements(cs, Plan(cs, still), ctx) == [];
    assert ms + [] == ms;
  }

  /** Gluing one logged movement between the old log and the rest of the plan's. */
  lemma LogJoin<T>(whole: seq<T>, rest: seq<T>, ms: seq<T>, m: T, pm: seq<T>, planned: seq<T>)
    requires whole == rest && rest == (ms + [m]) + pm && planned == [m] + pm
    ensures whole == ms + planned
  {
    AppendAssoc(ms, [m], pm);
  }

  /** One round of Allocate: the first candidate `c` gives `take`, the batches
      become `bs1` and the log gains `m`; the rest of the candidates follow. */
  lemma AllocateHead(bs: seq<InventoryBatch>, ms: seq<BatchMovement>, cs: seq<InventoryBatch>, still: int,
                     ctx: ShipContext, take: int, bs1: seq<InventoryBatch>, m: BatchMovement)
    requires |cs| > 0 && still > 0 && take == Min(still, cs[0].remainingQuantity)
    requires bs1 == SetRemaining(bs, cs[0].id, cs[0].remainingQuantity - take) && m == OutMovement(cs[0], take, ctx)
    ensures var rest := Allocate(bs1, ms + [m], cs[1..], still - take, ctx);
      var whole := Allocate(bs, ms, cs, still, ctx);
      whole.batches == rest.batches && whole.movements == rest.movements &&
      whole.used == [BatchAllocation(cs[0].id, cs[0].batchNo, take)] + rest.used
  {
  }

  /** The plan's first batch update is the first candidate's, then come the rest's. */
  lemma ApplyPlanCons(bs: seq<InventoryBatch>, cs: seq<InventoryBatch>, still: int)
    requires |cs| > 0 && still > 0
    ensures var take := Min(still, cs[0].remainingQuantity);
      ApplyPlan(bs, cs, Plan(cs, still))
        == ApplyPlan(SetRemaining(bs, cs[0].id, cs[0].remainingQuantity - take), cs[1..], Plan(cs[1..], still - take))
  {
    var take := Min(still, cs[0].remainingQuantity);
    var u := Plan(cs, still);
    assert u[0].quantity == take && u[1..] == Plan(cs[1..], still - take);
  }

  /** The plan's first movement is the first candidate's, then come the rest's. */
  lemma PlanMovementsCons(cs: seq<InventoryBatch>, still: int, ctx: ShipContext)
    requires |cs| > 0 && still > 0
    ensures var take := Min(still, cs[0].remainingQuantity);
      PlanMovements(cs, Plan(cs, still), ctx)
        == [OutMovement(cs[0], take, ctx)] + PlanMovements(cs[1..], Plan(cs[1..], still - take), ctx)
  {
    var take := Min(still, cs[0].remainingQuantity);
    var u := Plan(cs, still);
    var r := Plan(cs[1..], still - take);
    assert u == [BatchAllocation(cs[0].id, cs[0].batchNo, take)] + r;
    var pm := PlanMovements(cs, u, ctx);
    var pr := PlanMovements(cs[1..], r, ctx);
    forall j | 1 <= j < |pm| ensures pm[j] == pr[j - 1] {
      assert u[j] == r[j - 1] && cs[j] == cs[1..][j - 1];
    }
  }

  /** The j-th movement the allocation logs is the `out` movement of the j-th
      candidate for what was taken from it. */
  lemma AllocateMovements(bs: seq<InventoryBatch>, ms: seq<BatchMovement>, cs: seq<InventoryBatch>,
                          still: int, ctx: ShipContext, j: nat)
    requires j < |Allocate(bs, ms, cs, still, ctx).used|
    ensures var a := Allocate(bs, ms, cs, still, ctx);
      a.movements[|ms| + j] == OutMovement(cs[j], a.used[j].quantity, ctx)
  {
    AllocatePlanned(bs, ms, cs, still, ctx);
  }

  /** The allocation's allocations are the plan's, so they total
      `min(still, Σ remaining of the candidates)`. */
  lemma AllocationTaken(bs: seq<InventoryBatch>, ms: seq<BatchMovement>, cs: seq<InventoryBatch>,
                        still: int, ctx: ShipContext)
    requires AllPositive(cs) && still >= 0
    ensures Taken(Allocate(bs, ms, cs, still, ctx).used) == Min(still, Remaining(cs))
  {
    AllocatePlanned(bs, ms, cs, still, ctx);
    PlanTotal(cs, still);
  }

  lemma FollowsTail(cs: seq<InventoryBatch>, u: seq<BatchAllocation>)
    requires Follows(cs, u) && |u| > 0
    ensures Follows(cs[1..], u[1..])
  {
    forall j | 0 <= j < |u[1..]|
      ensures u[1..][j].batchId == cs[1..][j].id && u[1..][j].batchNo == cs[1..][j].batchNo
      ensures 0 < u[1..][j].quantity <= cs[1..][j].remainingQuantity
    {
      assert u[1..][j] == u[j + 1] && cs[1..][j] == cs[j + 1];
    }
  }

  /** The first allocation names the first candidate, and no later allocation
      names it again. */
  lemma TakeOfFirst(cs: seq<InventoryBatch>, u: seq<BatchAllocation>)
    requires Follows(cs, u) && IdsDistinct(cs) && |u| > 0
    ensures TakeOf(u, cs[0].id) == Some(u[0].quantity)
    ensures TakeOf(u[1..], cs[0].id).None?
  {
    forall j | 0 <= j < |u[1..]| ensures u[1..][j].batchId != cs[0].id {
      assert u[1..][j] == u[j + 1] && cs[j + 1].id != cs[0].id;
    }
  }

  /** Any other id is taken from as the later allocations take from it. */
  lemma TakeOfOther(u: seq<BatchAllocation>, id: string)
    requires |u| > 0 && u[0].batchId != id
    ensures TakeOf(u, id) == TakeOf(u[1..], id)
  {
  }

  /** `after` is batch `b` drained by the take `t`, when there is one, which
      never exceeds what `b` held; with no take, `after` is `b`. */
  predicate DrainedBy(b: InventoryBatch, t: Option<int>, after: InventoryBatch)
  {
    match t
    case Some(q) => 0 < q <= b.remainingQuantity && after == Drained(b, q)
    case None => after == b
  }

  /** Applying a plan drains the k-th batch by its take, if the plan names it,
      and otherwise leaves it as it was. */
  lemma {:induction false} ApplyPlanBatch(bs: seq<InventoryBatch>, cs: seq<InventoryBatch>, u: seq<BatchAllocation>, k: nat)
    requires FromList(bs, cs) && Follows(cs, u) && k < |bs|
    ensures DrainedBy(bs[k], TakeOf(u, bs[k].id), ApplyPlan(bs, cs, u)[k])
    decreases |u|
  {
    if |u| > 0 {
      var bs1 := SetRemaining(bs, cs[0].id, cs[0].remainingQuantity - u[0].quantity);
      FromListTail(bs, cs, cs[0].remainingQuantity - u[0].quantity);
      FollowsTail(cs, u);
      ApplyPlanBatch(bs1, cs[1..], u[1..], k);
      ApplyPlanHead(bs, cs, u);
      if bs[k].id == cs[0].id {
        ApplyPlanBatchFirst(bs, cs, u, k);
      } else {
        ApplyPlanBatchOther(bs, cs, u, k);
      }
    } else {
      assert ApplyPlan(bs, cs, u) == bs;
      assert TakeOf(u, bs[k].id).None?;
    }
  }

  /** The step of ApplyPlanBatch for the batch the first allocation drains. */
  lemma ApplyPlanBatchFirst(bs: seq<InventoryBatch>, cs: seq<InventoryBatch>, u: seq<BatchAllocation>, k: nat)
    requires FromList(bs, cs) && Follows(cs, u) && |u| > 0 && k < |bs| && bs[k].id == cs[0].id
    requires var bs1 := SetRemaining(bs, cs[0].id, cs[0].remainingQuantity - u[0].quantity);
      DrainedBy(bs1[k], TakeOf(u[1..], bs1[k].id), ApplyPlan(bs1, cs[1..], u[1..])[k])
    ensures DrainedBy(bs[k], TakeOf(u, bs[k].id), ApplyPlan(bs, cs, u)[k])
  {
    var bs1 := SetRemaining(bs, cs[0].id, cs[0].remainingQuantity - u[0].quantity);
    ApplyPlanHead(bs, cs, u);
    var m :| 0 <= m < |bs| && bs[m] == cs[0];
    assert m == k;
    TakeOfFirst(cs, u);
    assert bs1[k].id == bs[k].id;
    assert TakeOf(u[1..], bs1[k].id).None?;
    assert ApplyPlan(bs, cs, u)[k] == bs1[k] == Drained(bs[k], u[0].quantity);
    assert 0 < u[0].quantity <= bs[k].remainingQuantity;
  }

  /** The step of ApplyPlanBatch for a batch the first allocation leaves alone. */
  lemma ApplyPlanBatchOther(bs: seq<InventoryBatch>, cs: seq<InventoryBatch>, u: seq<BatchAllocation>, k: nat)
    requires |u| > 0 && |cs| > 0 && k < |bs| && bs[k].id != cs[0].id && u[0].batchId == cs[0].id
    requires var bs1 := SetRemaining(bs, cs[0].id, cs[0].remainingQuantity - u[0].quantity);
      DrainedBy(bs1[k], TakeOf(u[1..], bs1[k].id), ApplyPlan(bs1, cs[1..], u[1..])[k])
    ensures DrainedBy(bs[k], TakeOf(u, bs[k].id), ApplyPlan(bs, cs, u)[k])
  {
    var bs1 := SetRemaining(bs, cs[0].id, cs[0].remainingQuantity - u[0].quantity);
    ApplyPlanHead(bs, cs, u);
    assert bs1[k] == bs[k];
    TakeOfOther(u, bs[k].id);
  }

  /** One step of ApplyPlan. */
  lemma ApplyPlanHead(bs: seq<InventoryBatch>, cs: seq<InventoryBatch>, u: seq<BatchAllocation>)
    requires |u| > 0 && |cs| > 0
    ensures ApplyPlan(bs, cs, u) == ApplyPlan(SetRemaining(bs, cs[0].id, cs[0].remainingQuantity - u[0].quantity),
                                              cs[1..], u[1..])
  {
  }

  /** Applying a plan drains each batch it names by its take and leaves every
      other batch as it was. */
  lemma ApplyPlanBatches(bs: seq<InventoryBatch>, cs: seq<InventoryBatch>, u: seq<BatchAllocation>)
    requires FromList(bs, cs) && Follows(cs, u)
    ensures var r := ApplyPlan(bs, cs, u);
      forall k :: 0 <= k < |bs| ==>
        match TakeOf(u, bs[k].id)
        case Some(t) => 0 < t <= bs[k].remainingQuantity && r[k] == Drained(bs[k], t)
        case None => r[k] == bs[k]
  {
    forall k | 0 <= k < |bs|
      ensures match TakeOf(u, bs[k].id)
        case Some(t) => 0 < t <= bs[k].remainingQuantity && ApplyPlan(bs, cs, u)[k] == Drained(bs[k], t)
        case None => ApplyPlan(bs, cs, u)[k] == bs[k]
    {
      ApplyPlanBatch(bs, cs, u, k);
    }
  }

  /** `b` as a plan update writes it: the remainder `rem`, with its implied status. */
  function Rewritten(b: InventoryBatch, rem: int): InventoryBatch
  {
    b.(remainingQuantity := rem, status := StatusAfter(rem))
  }

  /** `r` holds, at index `k`, what the last allocation of `u` naming the id of
      `bs[k]` wrote (the j-th candidate's remainder less the j-th take), or
      `bs[k]` itself when no allocation names that id. */
  predicate LastWriteWins(bs: seq<InventoryBatch>, cs: seq<InventoryBatch>, u: seq<BatchAllocation>,
                          r: seq<InventoryBatch>, k: nat)
  {
    && k < |bs| && k < |r|
    && ((forall j :: 0 <= j < |u| ==> u[j].batchId != bs[k].id) ==> r[k] == bs[k])
    && forall j :: (0 <= j < |u| && j < |cs| && u[j].batchId == bs[k].id &&
                    forall i :: j < i < |u| ==> u[i].batchId != bs[k].id)
                   ==> r[k] == Rewritten(bs[k], cs[j].remainingQuantity - u[j].quantity)
  }

  /** Applying a plan, whatever the ids: `SetRemaining` writes every batch that
      carries the allocated id, so each batch ends with what the LAST allocation
      naming its id wrote (that candidate's remainder less its take), and a
      batch no allocation names is left as it was. */
  lemma {:induction false} ApplyPlanWrites(bs: seq<InventoryBatch>, cs: seq<InventoryBatch>, u: seq<BatchAllocation>,
                                           k: nat)
    requires |u| <= |cs| && (forall j :: 0 <= j < |u| ==> u[j].batchId == cs[j].id) && k < |bs|
    ensures (forall j :: 0 <= j < |u| ==> u[j].batchId != bs[k].id) ==> ApplyPlan(bs, cs, u)[k] == bs[k]
    ensures forall j :: (0 <= j < |u| && u[j].batchId == bs[k].id && forall i :: j < i < |u| ==> u[i].batchId != bs[k].id)
                        ==> ApplyPlan(bs, cs, u)[k] == Rewritten(bs[k], cs[j].remainingQuantity - u[j].quantity)
    ensures LastWriteWins(bs, cs, u, ApplyPlan(bs, cs, u), k)
    decreases |u|
  {
    if |u| > 0 {
      var bs1 := SetRemaining(bs, cs[0].id, cs[0].remainingQuantity - u[0].quantity);
      var t, ct := u[1..], cs[1..];
      assert forall j :: 0 <= j < |t| ==> t[j] == u[j + 1] && ct[j] == cs[j + 1];
      ApplyPlanWrites(bs1, ct, t, k);
      ApplyPlanHead(bs, cs, u);
      assert bs1[k].id == bs[k].id;
      forall j | 0 <= j < |u| && u[j].batchId == bs[k].id && forall i :: j < i < |u| ==> u[i].batchId != bs[k].id
        ensures ApplyPlan(bs, cs, u)[k] == Rewritten(bs[k], cs[j].remainingQuantity - u[j].quantity)
      {
        if j == 0 {
          assert forall i :: 0 <= i < |t| ==> t[i].batchId != bs1[k].id;
        } else {
          assert t[j - 1] == u[j] && ct[j - 1] == cs[j];
          assert forall i :: j - 1 < i < |t| ==> t[i].batchId != bs1[k].id;
        }
      }
    }
  }

  /** The FIFO loop, whatever the ids: each batch ends with the remainder the
      last allocation naming its id wrote, the j-th candidate's remainder less
      the j-th take; a batch no allocation names is left as it was. When two
      batches share an id, the one drawn later overwrites its twin. */
  lemma AllocationWrites(bs: seq<InventoryBatch>, ms: seq<BatchMovement>, cs: seq<InventoryBatch>,
                         still: int, ctx: ShipContext, k: nat)
    requires AllPositive(cs) && k < |bs|
    ensures var a := Allocate(bs, ms, cs, still, ctx);
      LastWriteWins(bs, cs, a.used, a.batches, k)
  {
    var u := Plan(cs, still);
    AllocateUsed(bs, ms, cs, still, ctx);
    AllocateBatches(bs, ms, cs, still, ctx);
    PlanFollowsCandidates(cs, still);
    ApplyPlanWrites(bs, cs, u, k);
  }

  /** Twin ids, as written: two active batches of one product carry the same id
      (as two lines of the same product in one receipt give them). Shipping 3
      takes 3 from the older twin, and writing its remainder by id sets the
      newer twin to 2 as well: it held 10, so the product's batch total drops
      by 11 for a take of 3. */
  lemma TwinOverwritten(b1: InventoryBatch, b2: InventoryBatch, ms: seq<BatchMovement>, ctx: ShipContext)
    requires b1.id == b2.id && b1.productId == b2.productId
    requires b1.status == BatchStatus.Active && b2.status == BatchStatus.Active
    requires b1.remainingQuantity == 5 && b2.remainingQuantity == 10
    ensures var a := Allocate([b1, b2], ms, [b1, b2], 3, ctx);
      a.used == [BatchAllocation(b1.id, b1.batchNo, 3)] &&
      a.batches == [b1.(remainingQuantity := 2), b2.(remainingQuantity := 2)] &&
      BatchTotal(a.batches, b1.productId) == BatchTotal([b1, b2], b1.productId) - 11
  {
    var bs1 := [b1.(remainingQuantity := 2), b2.(remainingQuantity := 2)];
    assert SetRemaining([b1, b2], b1.id, 2) == bs1;
    var m1 := OutMovement(b1, 3, ctx);
    AllocateHead([b1, b2], ms, [b1, b2], 3, ctx, 3, bs1, m1);
    assert [b1, b2][1..] == [b2];
    assert bs1[1..] == [b2.(remainingQuantity := 2)] && [b1, b2][1..][1..] == [];
    var pid, c2 := b1.productId, b2.(remainingQuantity := 2);
    assert [c2][1..] == [] && [b2][1..] == [];
    assert BatchTotal([c2], pid) == 2 && BatchTotal([b2], pid) == 10;
    assert BatchTotal(bs1, pid) == 4 && BatchTotal([b1, b2], pid) == 15;
  }

  /** The invariant of the FIFO loop: what the loop has still to do on the
      candidates `todo`, after the allocations `used`, completes the whole
      allocation `full`. */
  predicate Completes(bs: seq<InventoryBatch>, ms: seq<BatchMovement>, todo: seq<InventoryBatch>, still: int,
                      ctx: ShipContext, used: seq<BatchAllocation>, full: Allocation)
  {
    var rest := Allocate(bs, ms, todo, still, ctx);
    rest.batches == full.batches && rest.movements == full.movements && used + rest.used == full.used
  }

  /** Before the loop, the whole allocation is still to do. */
  lemma CompletesInitially(bs: seq<InventoryBatch>, ms: seq<BatchMovement>, cs: seq<InventoryBatch>, still: int,
                           ctx: ShipContext)
    ensures Completes(bs, ms, cs, still, ctx, [], Allocate(bs, ms, cs, still, ctx))
  {
    assert [] + Allocate(bs, ms, cs, still, ctx).used == Allocate(bs, ms, cs, still, ctx).used;
  }

  /** One round of the loop keeps the invariant. */
  lemma CompletesStep(bs: seq<InventoryBatch>, ms: seq<BatchMovement>, todo: seq<InventoryBatch>, still: int,
                      ctx: ShipContext, used: seq<BatchAllocation>, full: Allocation)
    requires |todo| > 0 && still > 0 && Completes(bs, ms, todo, still, ctx, used, full)
    ensures var take := Min(still, todo[0].remainingQuantity);
      Completes(SetRemaining(bs, todo[0].id, todo[0].remainingQuantity - take),
                ms + [OutMovement(todo[0], take, ctx)], todo[1..], still - take, ctx,
                used + [BatchAllocation(todo[0].id, todo[0].batchNo, take)], full)
  {
    var c := todo[0];
    var take := Min(still, c.remainingQuantity);
    var rest := Allocate(SetRemaining(bs, c.id, c.remainingQuantity - take), ms + [OutMovement(c, take, ctx)],
                         todo[1..], still - take, ctx);
    var whole := Allocate(bs, ms, todo, still, ctx);
    assert whole.batches == rest.batches && whole.movements == rest.movements;
    assert whole.used == [BatchAllocation(c.id, c.batchNo, take)] + rest.used;
    AppendAssoc(used, [BatchAllocation(c.id, c.batchNo, take)], rest.used);
  }

  /** When the loop stops, the batches, the movements and the allocations made
      are the whole allocation. */
  lemma CompletesFinally(bs: seq<InventoryBatch>, ms: seq<BatchMovement>, todo: seq<InventoryBatch>, still: int,
                         ctx: ShipContext, used: seq<BatchAllocation>, full: Allocation)
    requires (|todo| == 0 || still <= 0) && Completes(bs, ms, todo, still, ctx, used, full)
    ensures bs == full.batches && ms == full.movements && used == full.used
  {
    assert used + [] == used;
  }

  /** Each batch the allocation touched is drained by its take, never below
      zero and `exhausted` exactly at zero; every other batch is left as it was. */
  lemma AllocationBatches(bs: seq<InventoryBatch>, ms: seq<BatchMovement>, cs: seq<InventoryBatch>,
                          still: int, ctx: ShipContext)
    requires FromList(bs, cs) && AllPositive(cs)
    ensures var a := Allocate(bs, ms, cs, still, ctx);
      forall k :: 0 <= k < |bs| ==>
        match TakeOf(a.used, bs[k].id)
        case Some(t) => 0 < t <= bs[k].remainingQuantity && a.batches[k] == Drained(bs[k], t)
        case None => a.batches[k] == bs[k]
  {
    AllocatePlanned(bs, ms, cs, still, ctx);
    PlanFollowsCandidates(cs, still);
    ApplyPlanBatches(bs, cs, Plan(cs, still));
  }

  predicate OfProduct(cs: seq<InventoryBatch>, pid: string)
  {
    forall i :: 0 <= i < |cs| ==> cs[i].productId == pid
  }

  lemma {:induction false} ApplyPlanTotal(bs: seq<InventoryBatch>, cs: seq<InventoryBatch>, u: seq<BatchAllocation>,
                                          owner: string, pid: string)
    requires FromList(bs, cs) && OfProduct(cs, owner) && |u| <= |cs|
    ensures BatchTotal(ApplyPlan(bs, cs, u), pid)
         == BatchTotal(bs, pid) - (if pid == owner then Taken(u) else 0)
    decreases |u|
  {
    if |u| > 0 {
      var c := cs[0];
      var rem := c.remainingQuantity - u[0].quantity;
      FromListTail(bs, cs, rem);
      assert OfProduct(cs[1..], owner) by {
        forall i | 0 <= i < |cs[1..]| ensures cs[1..][i].productId == owner {
          assert cs[1..][i] == cs[i + 1];
        }
      }
      var bs1 := SetRemaining(bs, c.id, rem);
      ApplyPlanTotal(bs1, cs[1..], u[1..], owner, pid);
      BatchTotalSetRemaining(bs, c, rem, pid);
      assert ApplyPlan(bs, cs, u) == ApplyPlan(bs1, cs[1..], u[1..]);
      assert Taken(u) == u[0].quantity + Taken(u[1..]);
    }
  }

  /** The allocation lowers the shipped product's batch total by what it took
      and leaves every other product's total as it was. */
  lemma AllocationTotal(bs: seq<InventoryBatch>, ms: seq<BatchMovement>, cs: seq<InventoryBatch>,
                        still: int, ctx: ShipContext, pid: string)
    requires FromList(bs, cs) && OfProduct(cs, ctx.productId)
    ensures var a := Allocate(bs, ms, cs, still, ctx);
      BatchTotal(a.batches, pid) == BatchTotal(bs, pid) - (if pid == ctx.productId then Taken(a.used) else 0)
  {
    AllocatePlanned(bs, ms, cs, still, ctx);
    ApplyPlanTotal(bs, cs, Plan(cs, still), ctx.productId, pid);
  }

  /** Applying a plan keeps every batch's id, product and creation time. */
  lemma {:induction false} ApplyPlanKeepsIds(bs: seq<InventoryBatch>, cs: seq<InventoryBatch>, u: seq<BatchAllocation>)
    ensures var r := ApplyPlan(bs, cs, u);
      forall k :: 0 <= k < |bs| ==>
        r[k].id == bs[k].id && r[k].productId == bs[k].productId && r[k].createTime == bs[k].createTime
    decreases |u|
  {
    if |u| > 0 && |cs| > 0 {
      var bs1 := SetRemaining(bs, cs[0].id, cs[0].remainingQuantity - u[0].quantity);
      ApplyPlanKeepsIds(bs1, cs[1..], u[1..]);
    }
  }
  /** Two drawable batches listed newest first become candidates oldest first. */
  lemma OldestFirstCandidates(b1: InventoryBatch, b2: InventoryBatch, pid: string)
    requires Drawable(b1, pid) && Drawable(b2, pid) && b1.createTime < b2.createTime
    ensures Candidates([b2, b1], pid) == [b1, b2]
  {
    var p := (b: InventoryBatch) => Drawable(b, pid);
    assert [b2, b1][1..] == [b1] && [b1][1..] == [];
    assert Filter([b1], p) == [b1];
    assert Filter([b2, b1], p) == [b2, b1];
    assert SortBy([b1], BatchTime) == [b1];
    assert Insert(b2, [b1], BatchTime) == [b1, b2] by {
      assert Insert(b2, [], BatchTime) == [b2];
    }
    assert SortBy([b2, b1], BatchTime) == [b1, b2];
  }

  /** Shipping 7 from an older batch holding 5 and a newer one holding 10
      takes 5 from the older, which becomes `exhausted`, then 2 from the newer,
      which keeps 8 and stays `active`; one `out` movement records each take. */
  lemma OldestFirstAllocation(b1: InventoryBatch, b2: InventoryBatch, ms: seq<BatchMovement>, ctx: ShipContext)
    requires b1.id != b2.id && b1.status == BatchStatus.Active && b2.status == BatchStatus.Active
    requires b1.remainingQuantity == 5 && b2.remainingQuantity == 10
    ensures var a := Allocate([b2, b1], ms, [b1, b2], 7, ctx);
      a.used == [BatchAllocation(b1.id, b1.batchNo, 5), BatchAllocation(b2.id, b2.batchNo, 2)] &&
      a.batches == [b2.(remainingQuantity := 8), b1.(remainingQuantity := 0, status := BatchStatus.Exhausted)] &&
      a.movements == ms + [OutMovement(b1, 5, ctx), OutMovement(b2, 2, ctx)]
  {
    var bs1 := [b2, b1.(remainingQuantity := 0, status := BatchStatus.Exhausted)];
    assert SetRemaining([b2, b1], b1.id, 0) == bs1;
    var bs2 := [b2.(remainingQuantity := 8), b1.(remainingQuantity := 0, status := BatchStatus.Exhausted)];
    assert SetRemaining(bs1, b2.id, 8) == bs2;
    var m1 := OutMovement(b1, 5, ctx);
    var m2 := OutMovement(b2, 2, ctx);
    assert [b1, b2][1..] == [b2] && [b2][1..] == [];
    AllocateHead(bs1, ms + [m1], [b2], 2, ctx, 2, bs2, m2);
    AllocateHead([b2, b1], ms, [b1, b2], 7, ctx, 5, bs1, m1);
    assert (ms + [m1]) + [m2] == ms + [m1, m2];
  }
}
