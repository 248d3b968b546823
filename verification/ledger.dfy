/**
 * The per-user transaction ledger that both trackers keep: an
 * insertion-ordered list of purchases plus the balance they were debited
 * from. Approving sets the flag of the first purchase with a given id;
 * denying removes that purchase and credits its amount back. The fact that
 * holds the design together is that balance + sum of amounts does not move
 * under record, approve or deny.
 */
module Ledger {

  datatype Option<T> = None | Some(value: T)

  /**
   * One purchase. `approved` is `approved_by_parent` in simple_tracker.py and
   * `approved` in tracker.py; `gamePurchase` is `is_game_purchase`, which
   * simple_tracker.py always writes as true and tracker.py never writes (a
   * missing key reads as false there). Amounts are whole units of the
   * source's currency.
   */
  datatype Transaction = Transaction(
    id: string,
    date: string,
    amount: int,
    description: string,
    platform: string,
    category: string,
    gamePurchase: bool,
    approved: bool)

  /** The sum of all amounts, approved and pending alike. */
  function Sum(ts: seq<Transaction>): int
  {
    if ts == [] then 0 else ts[0].amount + Sum(ts[1..])
  }

  predicate HasId(ts: seq<Transaction>, id: string)
  {
    exists i :: 0 <= i < |ts| && ts[i].id == id
  }

  /** `i` is the position the source's scan-and-break loops stop at. */
  predicate IsFirstMatch(ts: seq<Transaction>, id: string, i: int)
  {
    0 <= i < |ts| && ts[i].id == id && forall j :: 0 <= j < i ==> ts[j].id != id
  }

  predicate UniqueIds(ts: seq<Transaction>)
  {
    forall i, j :: 0 <= i < j < |ts| ==> ts[i].id != ts[j].id
  }

  predicate AllPositive(ts: seq<Transaction>)
  {
    forall i :: 0 <= i < |ts| ==> ts[i].amount > 0
  }

  /**
   * The list after approving the first purchase with the given id: only
   * approval flags change, never a position, an id or an amount.
   */
  function ApproveFirst(ts: seq<Transaction>, id: string): (r: seq<Transaction>)
    ensures |r| == |ts|
    ensures forall i :: 0 <= i < |ts| ==> r[i] == ts[i].(approved := r[i].approved)
  {
    if ts == [] then []
    else if ts[0].id == id then [ts[0].(approved := true)] + ts[1..]
    else [ts[0]] + ApproveFirst(ts[1..], id)
  }

  /**
   * The list after removing the first purchase with the given id: one
   * purchase shorter when the id is there, and nothing new in it.
   */
  function RemoveFirst(ts: seq<Transaction>, id: string): (r: seq<Transaction>)
    ensures |r| == if HasId(ts, id) then |ts| - 1 else |ts|
    ensures forall t :: t in r ==> t in ts
  {
    if ts == [] then []
    else if ts[0].id == id then ts[1..]
    else
      HasIdTail(ts, id);
      [ts[0]] + RemoveFirst(ts[1..], id)
  }

  /**
   * The amount a denial credits back: nothing for an absent id, otherwise
   * the amount of a purchase carrying the id.
   */
  function RefundOf(ts: seq<Transaction>, id: string): (r: int)
    ensures !HasId(ts, id) ==> r == 0
    ensures HasId(ts, id) ==> exists t :: t in ts && t.id == id && r == t.amount
  {
    if ts == [] then 0
    else if ts[0].id == id then ts[0].amount
    else
      HasIdTail(ts, id);
      RefundOf(ts[1..], id)
  }

  /** Past a first purchase with another id, the id is held exactly when the rest holds it. */
  lemma HasIdTail(ts: seq<Transaction>, id: string)
    requires ts != [] && ts[0].id != id
    ensures HasId(ts, id) <==> HasId(ts[1..], id)
  {
  }

  lemma {:induction false} SumConcat(a: seq<Transaction>, b: seq<Transaction>)
    ensures Sum(a + b) == Sum(a) + Sum(b)
  {
    if a == [] {
      assert a + b == b;
    } else {
      assert (a + b)[1..] == a[1..] + b;
      SumConcat(a[1..], b);
    }
  }

  /** A list that contains the id has a first position holding it. */
  lemma {:induction false} FirstMatchOf(ts: seq<Transaction>, id: string) returns (i: nat)
    requires HasId(ts, id)
    ensures IsFirstMatch(ts, id, i)
  {
    if ts[0].id == id {
      i := 0;
    } else {
      var k :| 0 <= k < |ts| && ts[k].id == id;
      assert ts[1..][k - 1].id == id;
      var i' := FirstMatchOf(ts[1..], id);
      i := i' + 1;
      forall j | 0 <= j < i ensures ts[j].id != id {
        if j > 0 { assert ts[j] == ts[1..][j - 1]; }
      }
    }
  }

  /** The recursive definition agrees with the index-based loop of the source. */
  lemma {:induction false} ApproveFirstAt(ts: seq<Transaction>, id: string, i: int)
    requires IsFirstMatch(ts, id, i)
    ensures ApproveFirst(ts, id) == ts[i := ts[i].(approved := true)]
  {
    if i == 0 {
      assert [ts[0].(approved := true)] + ts[1..] == ts[0 := ts[0].(approved := true)];
    } else {
      assert ts[0].id != id;
      assert IsFirstMatch(ts[1..], id, i - 1);
      ApproveFirstAt(ts[1..], id, i - 1);
      assert [ts[0]] + ts[1..][i - 1 := ts[i].(approved := true)] == ts[i := ts[i].(approved := true)];
    }
  }

  lemma {:induction false} ApproveFirstAbsent(ts: seq<Transaction>, id: string)
    requires !HasId(ts, id)
    ensures ApproveFirst(ts, id) == ts
  {
    if ts != [] {
      assert ts[0].id != id;
      assert !HasId(ts[1..], id) by {
        forall k | 0 <= k < |ts| - 1 ensures ts[1..][k].id != id {
          assert ts[1..][k] == ts[k + 1];
        }
      }
      ApproveFirstAbsent(ts[1..], id);
      assert [ts[0]] + ts[1..] == ts;
    }
  }

  /** The recursive definition agrees with the source's refund-then-pop loop. */
  lemma {:induction false} RemoveFirstAt(ts: seq<Transaction>, id: string, i: int)
    requires IsFirstMatch(ts, id, i)
    ensures RemoveFirst(ts, id) == ts[..i] + ts[i + 1..]
    ensures RefundOf(ts, id) == ts[i].amount
  {
    if i > 0 {
      assert ts[0].id != id;
      assert IsFirstMatch(ts[1..], id, i - 1);
      RemoveFirstAt(ts[1..], id, i - 1);
      assert [ts[0]] + (ts[1..][..i - 1] + ts[1..][i..]) == ts[..i] + ts[i + 1..];
    }
  }

  lemma {:induction false} RemoveFirstAbsent(ts: seq<Transaction>, id: string)
    requires !HasId(ts, id)
    ensures RemoveFirst(ts, id) == ts
    ensures RefundOf(ts, id) == 0
  {
    if ts != [] {
      assert ts[0].id != id;
      assert !HasId(ts[1..], id) by {
        forall k | 0 <= k < |ts| - 1 ensures ts[1..][k].id != id {
          assert ts[1..][k] == ts[k + 1];
        }
      }
      RemoveFirstAbsent(ts[1..], id);
      assert [ts[0]] + ts[1..] == ts;
    }
  }

  /** Approving only sets a flag: ids, amounts and order stay, so the sum does. */
  lemma {:induction false} ApproveFirstKeepsSum(ts: seq<Transaction>, id: string)
    ensures |ApproveFirst(ts, id)| == |ts|
    ensures Sum(ApproveFirst(ts, id)) == Sum(ts)
  {
    if ts != [] {
      if ts[0].id == id {
        assert ([ts[0].(approved := true)] + ts[1..])[1..] == ts[1..];
      } else {
        ApproveFirstKeepsSum(ts[1..], id);
        assert ([ts[0]] + ApproveFirst(ts[1..], id))[1..] == ApproveFirst(ts[1..], id);
      }
    }
  }

  /** Approving twice is the same as approving once. */
  lemma {:induction false} ApproveFirstIdempotent(ts: seq<Transaction>, id: string)
    ensures ApproveFirst(ApproveFirst(ts, id), id) == ApproveFirst(ts, id)
  {
    if ts != [] {
      var once := ApproveFirst(ts, id);
      if ts[0].id == id {
        assert once[0] == ts[0].(approved := true) && once[1..] == ts[1..];
      } else {
        assert once[0] == ts[0] && once[1..] == ApproveFirst(ts[1..], id);
        ApproveFirstIdempotent(ts[1..], id);
      }
    }
  }

  /** Removing the first match takes exactly its amount out of the sum. */
  lemma {:induction false} RemoveFirstSum(ts: seq<Transaction>, id: string)
    ensures Sum(RemoveFirst(ts, id)) + RefundOf(ts, id) == Sum(ts)
  {
    if ts != [] && ts[0].id != id {
      RemoveFirstSum(ts[1..], id);
      assert ([ts[0]] + RemoveFirst(ts[1..], id))[1..] == RemoveFirst(ts[1..], id);
    }
  }

  /**
   * With unique ids, a denied id is gone from the list afterwards, and the
   * ids stay unique.
   */
  lemma RemoveFirstDropsId(ts: seq<Transaction>, id: string)
    requires UniqueIds(ts)
    ensures !HasId(RemoveFirst(ts, id), id)
    ensures UniqueIds(RemoveFirst(ts, id))
  {
    if HasId(ts, id) {
      var i := FirstMatchOf(ts, id);
      RemoveFirstAt(ts, id, i);
      var r := ts[..i] + ts[i + 1..];
      assert forall k :: 0 <= k < |r| ==> r[k] == if k < i then ts[k] else ts[k + 1];
    } else {
      RemoveFirstAbsent(ts, id);
    }
  }

  /** Appending a purchase with a fresh id keeps the ids unique. */
  lemma AppendKeepsUniqueIds(ts: seq<Transaction>, t: Transaction)
    requires UniqueIds(ts) && !HasId(ts, t.id)
    ensures UniqueIds(ts + [t])
  {
  }

  /** Denying a purchase just appended under a fresh id removes exactly it. */
  lemma RemoveAppended(ts: seq<Transaction>, t: Transaction)
    requires !HasId(ts, t.id)
    ensures RemoveFirst(ts + [t], t.id) == ts
    ensures RefundOf(ts + [t], t.id) == t.amount
  {
    var s := ts + [t];
    forall j | 0 <= j < |ts| ensures s[j].id != t.id {
      assert s[j] == ts[j];
    }
    assert IsFirstMatch(s, t.id, |ts|);
    RemoveFirstAt(s, t.id, |ts|);
    assert s[..|ts|] + s[|ts| + 1..] == ts;
  }

  /** The purchases still waiting for approval, in ledger order (the tracker.py approvals list). */
  function Pending(ts: seq<Transaction>): (r: seq<Transaction>)
    ensures |r| <= |ts|
    ensures forall t :: t in r <==> t in ts && !t.approved
  {
    if ts == [] then []
    else
      assert ts == [ts[0]] + ts[1..];
      (if ts[0].approved then [] else [ts[0]]) + Pending(ts[1..])
  }

  /**
   * The pending filter of simple_tracker.py: game purchases whose approval
   * flag is false.
   */
  function PendingGamePurchases(ts: seq<Transaction>): (r: seq<Transaction>)
    ensures |r| <= |ts|
    ensures forall t :: t in r <==> t in ts && t.gamePurchase && !t.approved
  {
    if ts == [] then []
    else
      assert ts == [ts[0]] + ts[1..];
      (if ts[0].gamePurchase && !ts[0].approved then [ts[0]] else []) + PendingGamePurchases(ts[1..])
  }

  /** The spending that has been approved. */
  function ApprovedSum(ts: seq<Transaction>): int
  {
    if ts == [] then 0
    else (if ts[0].approved then ts[0].amount else 0) + ApprovedSum(ts[1..])
  }

  /** How many purchases are waiting for approval. */
  function PendingCount(ts: seq<Transaction>): nat
  {
    if ts == [] then 0
    else (if ts[0].approved then 0 else 1) + PendingCount(ts[1..])
  }

  /** The sum over purchases whose date string starts with the given month. */
  function MonthSum(ts: seq<Transaction>, month: string): int
  {
    if ts == [] then 0
    else (if month <= ts[0].date then ts[0].amount else 0) + MonthSum(ts[1..], month)
  }

  /**
   * The total spent splits into what is approved and what is pending, and the
   * pending count is the length of the pending list.
   */
  lemma {:induction false} TotalSplit(ts: seq<Transaction>)
    ensures Sum(ts) == ApprovedSum(ts) + Sum(Pending(ts))
    ensures PendingCount(ts) == |Pending(ts)|
  {
    if ts != [] {
      TotalSplit(ts[1..]);
      var head := if ts[0].approved then [] else [ts[0]];
      SumConcat(head, Pending(ts[1..]));
    }
  }

  /** With positive amounts, one month's spending is between zero and the total. */
  lemma {:induction false} MonthSumBounded(ts: seq<Transaction>, month: string)
    ensures AllPositive(ts) ==> 0 <= MonthSum(ts, month) <= Sum(ts)
  {
    if ts != [] && AllPositive(ts) {
      assert ts[0].amount > 0;
      assert AllPositive(ts[1..]) by {
        forall k | 0 <= k < |ts| - 1 ensures ts[1..][k].amount > 0 {
          assert ts[1..][k] == ts[k + 1];
        }
      }
      MonthSumBounded(ts[1..], month);
    }
  }

  /** A balance together with the purchases debited from it. */
  datatype Book = Book(balance: int, transactions: seq<Transaction>)

  /** What the owner would hold if every recorded purchase were refunded. */
  function Worth(b: Book): int
  {
    b.balance + Sum(b.transactions)
  }

  /**
   * Recording debits the amount at once and appends the purchase after the
   * old ones, so the worth does not move.
   */
  function Record(b: Book, t: Transaction): (r: Book)
    ensures |r.transactions| == |b.transactions| + 1 && r.transactions[|b.transactions|] == t
    ensures forall i :: 0 <= i < |b.transactions| ==> r.transactions[i] == b.transactions[i]
    ensures Worth(r) == Worth(b)
  {
    SumConcat(b.transactions, [t]);
    assert Sum([t]) == t.amount by {
      assert [t][1..] == [];
    }
    Book(b.balance - t.amount, b.transactions + [t])
  }

  /** Approving moves no money and keeps the number of purchases. */
  function Approve(b: Book, id: string): (r: Book)
    ensures r.balance == b.balance && |r.transactions| == |b.transactions|
    ensures Worth(r) == Worth(b)
  {
    ApproveFirstKeepsSum(b.transactions, id);
    Book(b.balance, ApproveFirst(b.transactions, id))
  }

  /**
   * Denying credits the first match back and drops it: one purchase fewer
   * when the id is there, and the worth does not move.
   */
  function Deny(b: Book, id: string): (r: Book)
    ensures HasId(b.transactions, id) ==> |r.transactions| == |b.transactions| - 1
    ensures Worth(r) == Worth(b)
  {
    RemoveFirstSum(b.transactions, id);
    Book(b.balance + RefundOf(b.transactions, id), RemoveFirst(b.transactions, id))
  }

  /** Recording a purchase under a fresh id and then denying it restores the book. */
  lemma RecordThenDeny(b: Book, t: Transaction)
    requires !HasId(b.transactions, t.id)
    ensures Deny(Record(b, t), t.id) == b
  {
    RemoveAppended(b.transactions, t);
  }

  /**
   * Only positive amounts are ever recorded, and approving or denying keeps
   * every amount positive.
   */
  lemma LifecycleKeepsPositive(b: Book, t: Transaction, id: string)
    requires AllPositive(b.transactions) && t.amount > 0
    ensures AllPositive(Record(b, t).transactions)
    ensures AllPositive(Approve(b, id).transactions)
    ensures AllPositive(Deny(b, id).transactions)
  {
    var r := Deny(b, id).transactions;
    forall k | 0 <= k < |r| ensures r[k].amount > 0 {
      assert r[k] in b.transactions;
      var j :| 0 <= j < |b.transactions| && b.transactions[j] == r[k];
    }
  }

  /** Denying an id the book does not hold changes nothing. */
  lemma DenyAbsent(b: Book, id: string)
    requires !HasId(b.transactions, id)
    ensures Deny(b, id) == b
    ensures Approve(b, id) == b
  {
    RemoveFirstAbsent(b.transactions, id);
    ApproveFirstAbsent(b.transactions, id);
  }
}
