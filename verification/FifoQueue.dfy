/** The abstract machine the service should be: one server, first come first served. */
module FifoQueue {
  import opened Models

  datatype Queue = Queue(waiting: seq<JobId>, serving: Option<JobId>, done: set<JobId>)

  datatype Op = Enqueue(id: JobId) | Withdraw(ids: set<JobId>) | Serve | Finish

  predicate Legal(q: Queue, op: Op) {
    match op
    case Enqueue(id) => id !in q.waiting && q.serving != Some(id) && id !in q.done
    case Withdraw(ids) => forall id :: id in ids ==> id in q.waiting
    case Serve => q.serving.None? && q.waiting != []
    case Finish => q.serving.Some?
  }

  function Without(ids: seq<JobId>, gone: set<JobId>): seq<JobId> {
    if ids == [] then []
    else
      var last := ids[|ids| - 1];
      Without(ids[..|ids| - 1], gone) + if last in gone then [] else [last]
  }

  function Do(q: Queue, op: Op): Queue
    requires Legal(q, op)
  {
    match op
    case Enqueue(id) => q.(waiting := q.waiting + [id])
    case Withdraw(ids) => q.(waiting := Without(q.waiting, ids), done := q.done + ids)
    case Serve => q.(waiting := q.waiting[1..], serving := Some(q.waiting[0]))
    case Finish => q.(serving := None, done := q.done + {q.serving.value})
  }

  /** Performing operations one after the other; None when one of them is not legal. */
  function DoAll(q: Queue, ops: seq<Op>): Option<Queue> {
    if ops == [] then Some(q)
    else
      match DoAll(q, ops[..|ops| - 1])
      case None => None
      case Some(p) => if Legal(p, ops[|ops| - 1]) then Some(Do(p, ops[|ops| - 1])) else None
  }

  /** The ids served by the operations, in order. */
  function Served(q: Queue, ops: seq<Op>): seq<JobId>
    requires DoAll(q, ops).Some?
  {
    if ops == [] then []
    else
      var p := DoAll(q, ops[..|ops| - 1]).value;
      Served(q, ops[..|ops| - 1]) + if ops[|ops| - 1].Serve? then [p.waiting[0]] else []
  }

  lemma {:induction false} DoAllConcat(q: Queue, a: seq<Op>, b: seq<Op>)
    requires DoAll(q, a).Some? && DoAll(DoAll(q, a).value, b).Some?
    ensures DoAll(q, a + b) == DoAll(DoAll(q, a).value, b)
    ensures Served(q, a + b) == Served(q, a) + Served(DoAll(q, a).value, b)
  {
    if b == [] {
      assert a + b == a;
    } else {
      assert (a + b)[..|a + b| - 1] == a + b[..|b| - 1];
      DoAllConcat(q, a, b[..|b| - 1]);
    }
  }

  // ---- the machine's own guarantees ---------------------------------------------------------

  ghost predicate Distinct(ids: seq<JobId>) {
    forall i, j :: 0 <= i < j < |ids| ==> ids[i] != ids[j]
  }

  /** Nobody is in two places. */
  ghost predicate Proper(q: Queue) {
    && Distinct(q.waiting)
    && (q.serving.Some? ==> q.serving.value !in q.waiting && q.serving.value !in q.done)
    && (forall id :: id in q.done ==> id !in q.waiting)
  }

  function Position(ids: seq<JobId>, id: JobId): (p: nat)
    ensures p <= |ids| && (p < |ids| ==> ids[p] == id)
    ensures forall k :: 0 <= k < p ==> ids[k] != id
  {
    if ids == [] || ids[0] == id then 0 else 1 + Position(ids[1..], id)
  }

  lemma WithoutLast(ids: seq<JobId>, id: JobId, gone: set<JobId>)
    ensures Without([], gone) == []
    ensures Without(ids + [id], gone) == Without(ids, gone) + if id in gone then [] else [id]
  {
    assert (ids + [id])[..|ids|] == ids;
  }

  /** `where[k]` is the old index of the k-th id that stays. */
  ghost predicate Places(ids: seq<JobId>, gone: set<JobId>, where: seq<nat>) {
    && |where| == |Without(ids, gone)| <= |ids|
    && (forall k :: 0 <= k < |where| ==>
          k <= where[k] < |ids| && Without(ids, gone)[k] == ids[where[k]] && ids[where[k]] !in gone)
    && (forall j, k :: 0 <= j < k < |where| ==> where[j] < where[k])
    && (forall i :: 0 <= i < |ids| && ids[i] !in gone ==> i in where)
  }

  lemma OneMorePlace(ids: seq<JobId>, id: JobId, gone: set<JobId>, where: seq<nat>)
    requires Places(ids, gone, where)
    ensures Places(ids + [id], gone, if id in gone then where else where + [|ids|])
  {
    hide Without;
    WithoutLast(ids, id, gone);
    var more := if id in gone then where else where + [|ids|];
    forall i | 0 <= i < |ids + [id]| && (ids + [id])[i] !in gone
      ensures i in more
    {
      assert i < |ids| ==> i in where;
      assert i == |ids| ==> more[|where|] == i;
    }
  }

  lemma {:induction false} WithoutKeepsOrder(ids: seq<JobId>, gone: set<JobId>) returns (where: seq<nat>)
    ensures Places(ids, gone, where)
  {
    hide Places;
    where := [];
    if ids == [] {
      NoPlaces(gone);
    } else {
      var init, last := ids[..|ids| - 1], ids[|ids| - 1];
      where := WithoutKeepsOrder(init, gone);
      OneMorePlace(init, last, gone, where);
      assert ids == init + [last];
      where := if last in gone then where else where + [|init|];
    }
  }

  lemma NoPlaces(gone: set<JobId>)
    ensures Places([], gone, [])
  {
  }

  lemma {:induction false} WithoutGone(ids: seq<JobId>, gone: set<JobId>, id: JobId)
    ensures id in Without(ids, gone) <==> id in ids && id !in gone
  {
    if ids != [] {
      WithoutGone(ids[..|ids| - 1], gone, id);
      assert ids == ids[..|ids| - 1] + [ids[|ids| - 1]];
    }
  }

  lemma DoKeepsProper(q: Queue, op: Op)
    requires Proper(q) && Legal(q, op)
    ensures Proper(Do(q, op))
  {
    if op.Withdraw? {
      var _ := WithoutKeepsOrder(q.waiting, op.ids);
    }
  }

  ghost predicate Before(q: Queue, a: JobId, b: JobId) {
    exists i, j :: 0 <= i < j < |q.waiting| && q.waiting[i] == a && q.waiting[j] == b
  }

  /** One operation: an id that keeps waiting moves up by at least the number served,
      was already waiting before, and keeps whoever waits behind it behind it. */
  lemma DoMovesUp(q: Queue, op: Op, id: JobId)
    requires Proper(q) && Legal(q, op) && id in q.waiting && id in Do(q, op).waiting
    ensures Position(Do(q, op).waiting, id) + (if op.Serve? then 1 else 0) <= Position(q.waiting, id)
  {
    var p, p' := Position(q.waiting, id), Position(Do(q, op).waiting, id);
    match op
    case Withdraw(ids) =>
      var where := WithoutKeepsOrder(q.waiting, ids);
      assert where[p'] == p;
    case Serve =>
      assert q.waiting[1..][p'] == q.waiting[p' + 1];
    case _ =>
  }

  lemma WithdrawKeepsOrder(ids: seq<JobId>, gone: set<JobId>, i: nat, j: nat)
    requires i < j < |ids| && ids[i] !in gone && ids[j] !in gone
    ensures exists k, l ::
      0 <= k < l < |Without(ids, gone)| && Without(ids, gone)[k] == ids[i] && Without(ids, gone)[l] == ids[j]
  {
    var where := WithoutKeepsOrder(ids, gone);
    var k :| 0 <= k < |where| && where[k] == i;
    var l :| 0 <= l < |where| && where[l] == j;
    assert Without(ids, gone)[k] == ids[i] && Without(ids, gone)[l] == ids[j];
  }

  lemma DoKeepsOrder(q: Queue, op: Op, a: JobId, b: JobId)
    requires Proper(q) && Legal(q, op) && Before(q, a, b) && a in Do(q, op).waiting
    ensures op.Serve? ==> q.waiting[0] != b
    ensures Before(Do(q, op), a, b) || b in Do(q, op).done
  {
    var i, j :| 0 <= i < j < |q.waiting| && q.waiting[i] == a && q.waiting[j] == b;
    match op
    case Withdraw(ids) =>
      if b !in ids {
        WithoutGone(q.waiting, ids, a);
        WithdrawKeepsOrder(q.waiting, ids, i, j);
      }
    case Serve =>
      var rest := q.waiting[1..];
      assert i > 0 ==> rest[i - 1] == a && rest[j - 1] == b;
    case _ =>
      assert Do(q, op).waiting[i] == a && Do(q, op).waiting[j] == b;
  }

  lemma {:induction false} DoAllKeepsProper(q: Queue, ops: seq<Op>)
    requires Proper(q) && DoAll(q, ops).Some?
    ensures Proper(DoAll(q, ops).value)
    ensures q.done <= DoAll(q, ops).value.done
  {
    if ops != [] {
      DoAllKeepsProper(q, ops[..|ops| - 1]);
      DoKeepsProper(DoAll(q, ops[..|ops| - 1]).value, ops[|ops| - 1]);
    }
  }

  /** Somebody known is waiting at the end only if they waited all along. */
  lemma {:induction false} WaitedAllAlong(q: Queue, ops: seq<Op>, id: JobId)
    requires Proper(q) && DoAll(q, ops).Some?
    requires id in q.waiting || q.serving == Some(id) || id in q.done
    ensures var r := DoAll(q, ops).value;
      && (id in r.waiting || r.serving == Some(id) || id in r.done)
      && (id in r.waiting ==> id in q.waiting)
  {
    if ops != [] {
      var init, last := ops[..|ops| - 1], ops[|ops| - 1];
      WaitedAllAlong(q, init, id);
      DoAllKeepsProper(q, init);
      var p := DoAll(q, init).value;
      if last.Withdraw? {
        WithoutGone(p.waiting, last.ids, id);
      } else if last.Serve? && id in p.waiting && p.waiting[0] != id {
        var i :| 0 <= i < |p.waiting| && p.waiting[i] == id;
        assert p.waiting[1..][i - 1] == id;
      }
    }
  }

  /** Bounded waiting: the position only falls, by one for every start meanwhile. */
  lemma {:induction false} BoundedWaiting(q: Queue, ops: seq<Op>, id: JobId)
    requires Proper(q) && DoAll(q, ops).Some? && id in q.waiting && id in DoAll(q, ops).value.waiting
    ensures Position(DoAll(q, ops).value.waiting, id) + |Served(q, ops)| <= Position(q.waiting, id)
  {
    if ops != [] {
      var init, last := ops[..|ops| - 1], ops[|ops| - 1];
      var p := DoAll(q, init).value;
      DoAllKeepsProper(q, init);
      WaitedAllAlong(q, init, id);
      WaitedAllAlong(p, [last], id) by {
        assert [last][..0] == [];
        assert DoAll(p, []) == Some(p);
      }
      assert DoAll(p, [last]) == Some(Do(p, last)) by {
        assert [last][..0] == [];
      }
      BoundedWaiting(q, init, id);
      DoMovesUp(p, last, id);
    }
  }

  /** Whoever is served p-th was at most p-th in line. */
  lemma {:induction false} ServedInTurn(q: Queue, ops: seq<Op>, id: JobId, p: nat)
    requires Proper(q) && DoAll(q, ops).Some? && id in q.waiting
    requires p < |Served(q, ops)| && Served(q, ops)[p] == id
    ensures p <= Position(q.waiting, id)
  {
    var init := ops[..|ops| - 1];
    if p < |Served(q, init)| {
      ServedInTurn(q, init, id, p);
    } else {
      BoundedWaiting(q, init, id);
    }
  }

  /** No overtaking: while `a` waits, nobody who came after it is served. */
  lemma {:induction false} NoOvertaking(q: Queue, ops: seq<Op>, a: JobId, b: JobId)
    requires Proper(q) && DoAll(q, ops).Some? && Before(q, a, b) && a in DoAll(q, ops).value.waiting
    ensures b !in Served(q, ops)
    ensures Before(DoAll(q, ops).value, a, b) || b in DoAll(q, ops).value.done
  {
    if ops != [] {
      var init, last := ops[..|ops| - 1], ops[|ops| - 1];
      var p := DoAll(q, init).value;
      DoAllKeepsProper(q, init);
      WaitedAllAlong(q, init, a);
      WaitedAllAlong(p, [last], a) by {
        assert [last][..0] == [];
        assert DoAll(p, []) == Some(p);
      }
      assert DoAll(p, [last]) == Some(Do(p, last)) by {
        assert [last][..0] == [];
      }
      NoOvertaking(q, init, a, b);
      if Before(p, a, b) {
        DoKeepsOrder(p, last, a, b);
      } else {
        assert b in p.done && b !in p.waiting;
      }
    }
  }
}
