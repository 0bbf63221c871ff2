/** The lump-sum list editor of MortgageCalculator/Views/LumpSumPaymentsView.swift.
    The list shows a scenario's lump sums sorted by payment number, and a swipe
    deletes rows of that sorted view from the unsorted list. The text parsers
    (`Double(_:)`, `Int(_:)`), the fresh id and the current date are inputs. The
    rows to delete, an `IndexSet`, are given as their offsets in ascending order,
    the order in which `IndexSet.map` visits them. */
module LumpSumEditor {
  import opened Common
  import opened MortgageModel

  function PaymentNumberOf(p: LumpSumPayment): int {
    p.paymentNumber
  }

  /** The rows of the list: the payments sorted by payment number. */
  function SortedPayments(payments: seq<LumpSumPayment>): (sorted: seq<LumpSumPayment>)
    ensures multiset(sorted) == multiset(payments) && |sorted| == |payments|
    ensures forall i, j :: 0 <= i < j < |sorted| ==> sorted[i].paymentNumber <= sorted[j].paymentNumber
  {
    SortByKey(payments, PaymentNumberOf)
  }

  /** Offsets of rows: ascending, each a row of a list of `count` rows. */
  predicate ValidOffsets(offsets: seq<int>, count: int) {
    (forall k :: 0 <= k < |offsets| ==> 0 <= offsets[k] < count) &&
    (forall k, l :: 0 <= k < l < |offsets| ==> offsets[k] < offsets[l])
  }

  /** `offsets.map { sortedPayments[$0] }`. */
  function RowsAt(sorted: seq<LumpSumPayment>, offsets: seq<int>): (rows: seq<LumpSumPayment>)
    requires ValidOffsets(offsets, |sorted|)
    ensures |rows| == |offsets|
    ensures forall k :: 0 <= k < |offsets| ==> rows[k] == sorted[offsets[k]]
  {
    seq(|offsets|, k requires 0 <= k < |offsets| => sorted[offsets[k]])
  }

  /** The loop body of `deleteLumpSumPayment`: removes the first payment with the
      id, if there is one. */
  function RemoveFirstWithId(payments: seq<LumpSumPayment>, id: int): seq<LumpSumPayment> {
    match FirstIndex(payments, (p: LumpSumPayment) => p.id == id)
    case None => payments
    case Some(i) => payments[..i] + payments[i + 1..]
  }

  /** The list after the loop has visited `rows`, in order. */
  function RemoveEach(payments: seq<LumpSumPayment>, rows: seq<LumpSumPayment>): seq<LumpSumPayment> {
    if rows == [] then payments
    else RemoveFirstWithId(RemoveEach(payments, rows[..|rows| - 1]), rows[|rows| - 1].id)
  }

  /** No two payments share an id. */
  predicate UniqueIds(payments: seq<LumpSumPayment>) {
    forall i, j :: 0 <= i < j < |payments| ==> payments[i].id != payments[j].id
  }

  function IdsOf(rows: seq<LumpSumPayment>): set<int> {
    if rows == [] then {} else IdsOf(rows[..|rows| - 1]) + {rows[|rows| - 1].id}
  }

  predicate NotAmong(ids: set<int>, p: LumpSumPayment) {
    p.id !in ids
  }

  /** With unique ids, deleting rows of the sorted view removes exactly the
      payments on those rows: the list shrinks by the number of rows and the other
      payments keep their relative order. */
  lemma DeleteSelectedRows(payments: seq<LumpSumPayment>, offsets: seq<int>)
    requires UniqueIds(payments) && ValidOffsets(offsets, |payments|)
    ensures var rows := RowsAt(SortedPayments(payments), offsets);
      var r := RemoveEach(payments, rows);
      |r| == |payments| - |offsets| &&
      r == Filter(payments, p => NotAmong(IdsOf(rows), p))
  {
    var sorted := SortedPayments(payments);
    var rows := RowsAt(sorted, offsets);
    PermutationKeepsUniqueIds(payments, sorted);
    forall k | 0 <= k < |rows| ensures rows[k] in payments {
      assert rows[k] in multiset(sorted);
    }
    RemoveEachIsFilter(payments, rows);
  }

  /** A payment of a list with unique ids occurs in it once. */
  lemma {:induction false} OccursOnce(payments: seq<LumpSumPayment>, k: int)
    requires UniqueIds(payments) && 0 <= k < |payments|
    ensures multiset(payments)[payments[k]] == 1
  {
    var x := payments[k];
    assert payments == payments[..k] + [x] + payments[k + 1..];
    assert x !in payments[..k] && x !in payments[k + 1..] by {
      forall i | 0 <= i < |payments| && i != k ensures payments[i] != x {
        assert payments[i].id != x.id;
      }
    }
    assert multiset(payments[..k])[x] == 0 && multiset(payments[k + 1..])[x] == 0;
  }

  /** Reordering a list with unique ids keeps them unique. */
  lemma PermutationKeepsUniqueIds(a: seq<LumpSumPayment>, b: seq<LumpSumPayment>)
    requires UniqueIds(a) && multiset(a) == multiset(b)
    ensures UniqueIds(b)
  {
    forall i, j | 0 <= i < j < |b| ensures b[i].id != b[j].id {
      assert b[i] in multiset(a) && b[j] in multiset(a);
      var k :| 0 <= k < |a| && a[k] == b[i];
      var l :| 0 <= l < |a| && a[l] == b[j];
      OccursOnce(a, k);
      TwoPositions(b, i, j);
    }
  }

  /** An element found at two positions occurs at least twice. */
  lemma TwoPositions(b: seq<LumpSumPayment>, i: int, j: int)
    requires 0 <= i < j < |b|
    ensures b[i] == b[j] ==> multiset(b)[b[i]] >= 2
  {
    if b[i] == b[j] {
      assert b == b[..j] + b[j..];
      assert b[..j][i] == b[i] && b[j..][0] == b[i];
      assert b[i] in multiset(b[..j]) && b[i] in multiset(b[j..]);
    }
  }

  /** Filtering keeps ids unique. */
  lemma {:induction false} FilterKeepsUniqueIds(payments: seq<LumpSumPayment>, keep: LumpSumPayment -> bool)
    requires UniqueIds(payments)
    ensures UniqueIds(Filter(payments, keep))
  {
    if payments != [] {
      FilterKeepsUniqueIds(payments[1..], keep);
      var rest := Filter(payments[1..], keep);
      if keep(payments[0]) {
        forall j | 0 <= j < |rest| ensures payments[0].id != rest[j].id {
          assert rest[j] in payments[1..];
        }
      }
    }
  }

  /** Removing the first payment with an id the list holds once removes every
      payment with that id, and one payment. */
  lemma {:induction false} RemoveOneIsFilter(payments: seq<LumpSumPayment>, id: int)
    requires UniqueIds(payments) && exists i :: 0 <= i < |payments| && payments[i].id == id
    ensures var r := RemoveFirstWithId(payments, id);
      r == Filter(payments, p => NotAmong({id}, p)) && |r| == |payments| - 1
  {
    if payments[0].id == id {
      DropHead(payments, id);
    } else {
      var rest := payments[1..];
      KeepHead(payments, id);
      assert Filter(payments, p => NotAmong({id}, p)) == [payments[0]] + Filter(rest, p => NotAmong({id}, p));
      var k :| 0 <= k < |payments| && payments[k].id == id;
      assert rest[k - 1].id == id;
      RemoveOneIsFilter(rest, id);
    }
  }

  /** When the first payment has the id, it is the one removed, and no other has it. */
  lemma DropHead(payments: seq<LumpSumPayment>, id: int)
    requires UniqueIds(payments) && |payments| > 0 && payments[0].id == id
    ensures RemoveFirstWithId(payments, id) == payments[1..]
    ensures Filter(payments, p => NotAmong({id}, p)) == payments[1..]
  {
    assert FirstIndex(payments, (p: LumpSumPayment) => p.id == id) == Some(0);
    assert payments[..0] + payments[1..] == payments[1..];
    forall j | 0 <= j < |payments| - 1 ensures NotAmong({id}, payments[1..][j]) {
      assert payments[j + 1].id != payments[0].id;
    }
    FilterKeepsAll(payments[1..], p => NotAmong({id}, p));
  }

  /** When the first payment has another id, it stays in front of what is removed. */
  lemma KeepHead(payments: seq<LumpSumPayment>, id: int)
    requires |payments| > 0 && payments[0].id != id
    ensures RemoveFirstWithId(payments, id) == [payments[0]] + RemoveFirstWithId(payments[1..], id)
  {
    var rest := payments[1..];
    match FirstIndex(rest, (p: LumpSumPayment) => p.id == id)
    case None =>
      assert FirstIndex(payments, (p: LumpSumPayment) => p.id == id) == None;
      assert payments == [payments[0]] + rest;
    case Some(j) =>
      assert FirstIndex(payments, (p: LumpSumPayment) => p.id == id) == Some(j + 1);
      assert payments[..j + 1] + payments[j + 2..] == [payments[0]] + (rest[..j] + rest[j + 1..]);
  }

  /** Filtering by what every element satisfies keeps the list. */
  lemma {:induction false} FilterKeepsAll(payments: seq<LumpSumPayment>, keep: LumpSumPayment -> bool)
    requires forall j :: 0 <= j < |payments| ==> keep(payments[j])
    ensures Filter(payments, keep) == payments
  {
    if payments != [] {
      FilterKeepsAll(payments[1..], keep);
    }
  }

  /** Visiting rows whose ids are distinct and all in a list with unique ids
      removes exactly those ids. */
  lemma {:induction false} RemoveEachIsFilter(payments: seq<LumpSumPayment>, rows: seq<LumpSumPayment>)
    requires UniqueIds(payments) && UniqueIds(rows)
    requires forall k :: 0 <= k < |rows| ==> rows[k] in payments
    ensures var r := RemoveEach(payments, rows);
      |r| == |payments| - |rows| && r == Filter(payments, p => NotAmong(IdsOf(rows), p))
  {
    if rows == [] {
      FilterKeepsAll(payments, p => NotAmong({}, p));
    } else {
      var front := rows[..|rows| - 1];
      var last := rows[|rows| - 1];
      RemoveEachIsFilter(payments, front);
      var q := RemoveEach(payments, front);
      FilterKeepsUniqueIds(payments, p => NotAmong(IdsOf(front), p));
      assert last.id !in IdsOf(front) by {
        IdsOfMembers(front);
      }
      var j :| 0 <= j < |payments| && payments[j] == last;
      assert last in q;
      var i :| 0 <= i < |q| && q[i] == last;
      RemoveOneIsFilter(q, last.id);
      FilterTwice(payments, p => NotAmong(IdsOf(front), p), p => NotAmong({last.id}, p), p => NotAmong(IdsOf(rows), p));
    }
  }

  /** The ids of rows are those of its elements. */
  lemma {:induction false} IdsOfMembers(rows: seq<LumpSumPayment>)
    ensures forall id :: id in IdsOf(rows) <==> exists k :: 0 <= k < |rows| && rows[k].id == id
  {
    if rows != [] {
      IdsOfMembers(rows[..|rows| - 1]);
    }
  }

  class LumpSumPaymentsView {
    var scenario: MortgageScenario
    var newLumpSumAmount: string
    var newLumpSumPaymentNumber: string

    constructor(scenario: MortgageScenario)
      ensures this.scenario == scenario && newLumpSumAmount == "" && newLumpSumPaymentNumber == ""
    {
      this.scenario := scenario;
      newLumpSumAmount := "";
      newLumpSumPaymentNumber := "";
    }

    /** `addLumpSumPayment`: when both fields parse, one payment with the parsed
        values is appended, whatever their sign, and both fields are cleared;
        otherwise nothing changes. */
    method AddLumpSumPayment(parseDouble: string -> Option<real>, parseInt: string -> Option<int>, freshId: int, now: int)
      modifies this
      ensures var amount := parseDouble(old(newLumpSumAmount));
        var paymentNumber := parseInt(old(newLumpSumPaymentNumber));
        if amount.Some? && paymentNumber.Some? then
          scenario == old(scenario).(lumpSumPayments := old(scenario.lumpSumPayments) +
            [NewLumpSumPayment(freshId, amount.value, paymentNumber.value, now)]) &&
          newLumpSumAmount == "" && newLumpSumPaymentNumber == ""
        else
          scenario == old(scenario) &&
          newLumpSumAmount == old(newLumpSumAmount) && newLumpSumPaymentNumber == old(newLumpSumPaymentNumber)
    {
      var amount := parseDouble(newLumpSumAmount);
      var paymentNumber := parseInt(newLumpSumPaymentNumber);
      if amount.None? || paymentNumber.None? {
        return;
      }
      var newPayment := NewLumpSumPayment(freshId, amount.value, paymentNumber.value, now);
      scenario := scenario.(lumpSumPayments := scenario.lumpSumPayments + [newPayment]);
      newLumpSumAmount := "";
      newLumpSumPaymentNumber := "";
    }

    /** `deleteLumpSumPayment(at:)`: the payments on the selected rows of the
        sorted view are removed one by one, each by its id. */
    method DeleteLumpSumPayment(offsets: seq<int>)
      modifies this
      requires ValidOffsets(offsets, |scenario.lumpSumPayments|)
      ensures scenario == old(scenario).(lumpSumPayments :=
        RemoveEach(old(scenario.lumpSumPayments), RowsAt(SortedPayments(old(scenario.lumpSumPayments)), offsets)))
      ensures newLumpSumAmount == old(newLumpSumAmount) && newLumpSumPaymentNumber == old(newLumpSumPaymentNumber)
    {
      var sortedPayments := SortedPayments(scenario.lumpSumPayments);
      var paymentsToRemove := RowsAt(sortedPayments, offsets);
      for k := 0 to |paymentsToRemove|
        invariant scenario == old(scenario).(lumpSumPayments := RemoveEach(old(scenario.lumpSumPayments), paymentsToRemove[..k]))
        invariant newLumpSumAmount == old(newLumpSumAmount) && newLumpSumPaymentNumber == old(newLumpSumPaymentNumber)
      {
        var payment := paymentsToRemove[k];
        assert paymentsToRemove[..k + 1][..k] == paymentsToRemove[..k];
        var index := FirstIndex(scenario.lumpSumPayments, (p: LumpSumPayment) => p.id == payment.id);
        if index.Some? {
          var i := index.value;
          scenario := scenario.(lumpSumPayments := scenario.lumpSumPayments[..i] + scenario.lumpSumPayments[i + 1..]);
        }
      }
      assert paymentsToRemove[..|paymentsToRemove|] == paymentsToRemove;
    }
  }
}
