/** The sums and counts over a collection of notes that the customer
    details panel, the dashboard and the notes page compute with
    `filter(...).reduce((acc, n) => acc + n.totalAmount, 0)`. */
module Ledger {
  import opened Collections
  import opened Domain

  function Amount(n: PromissoryNote): int
  {
    n.totalAmount
  }

  predicate IsUnpaid(n: PromissoryNote)
  {
    n.status != Paid
  }

  function HasStatus(s: SaleStatus): PromissoryNote -> bool
  {
    (n: PromissoryNote) => n.status == s
  }

  /** Sum of `totalAmount` over all notes. */
  function TotalAmount(ns: seq<PromissoryNote>): int
  {
    SumOf(ns, Amount)
  }

  /** Sum of `totalAmount` over the notes that are not PAID. */
  function UnpaidTotal(ns: seq<PromissoryNote>): int
  {
    TotalAmount(Filter(ns, IsUnpaid))
  }

  /** Sum of `totalAmount` over the notes with status `s`. */
  function StatusTotal(ns: seq<PromissoryNote>, s: SaleStatus): int
  {
    TotalAmount(Filter(ns, HasStatus(s)))
  }

  /** Number of notes whose stored status is `s`. */
  function StatusCount(ns: seq<PromissoryNote>, s: SaleStatus): (r: nat)
    ensures r <= |ns|
    ensures r == 0 <==> forall n :: n in ns ==> n.status != s
  {
    var f := Filter(ns, HasStatus(s));
    assert f != [] ==> f[0] in f;
    |f|
  }

  /** The count is the number of notes with the status: none for no notes,
      and each appended note adds one exactly when it has the status. */
  lemma StatusCountAppend(ns: seq<PromissoryNote>, n: PromissoryNote, s: SaleStatus)
    ensures StatusCount([], s) == 0
    ensures StatusCount(ns + [n], s) == StatusCount(ns, s) + (if n.status == s then 1 else 0)
  {
    FilterConcat(ns, [n], HasStatus(s));
    assert [n][1..] == [];
  }

  predicate NonNegativeAmounts(ns: seq<PromissoryNote>)
  {
    forall n :: n in ns ==> n.totalAmount >= 0
  }

  /** The unpaid sum and the PAID sum make up the whole. */
  lemma UnpaidPlusPaid(ns: seq<PromissoryNote>)
    ensures UnpaidTotal(ns) + StatusTotal(ns, Paid) == TotalAmount(ns)
  {
    SumFilterSplit(ns, IsUnpaid, HasStatus(Paid), Amount);
  }

  /** The PENDING sum and the OVERDUE sum make up the unpaid sum. */
  lemma PendingPlusOverdue(ns: seq<PromissoryNote>)
    ensures StatusTotal(ns, Pending) + StatusTotal(ns, Overdue) == UnpaidTotal(ns)
  {
    SumFilterUnion(ns, HasStatus(Pending), HasStatus(Overdue), IsUnpaid, Amount);
  }

  /** With non-negative amounts the unpaid sum lies between 0 and the total. */
  lemma UnpaidBounded(ns: seq<PromissoryNote>)
    ensures NonNegativeAmounts(ns) ==> 0 <= UnpaidTotal(ns) <= TotalAmount(ns)
  {
    if NonNegativeAmounts(ns) {
      SumFilterBounded(ns, IsUnpaid, Amount);
    }
  }

  /** Appending a note adds its amount to the total. */
  lemma TotalAppend(ns: seq<PromissoryNote>, n: PromissoryNote)
    ensures TotalAmount(ns + [n]) == TotalAmount(ns) + n.totalAmount
  {
    SumConcat(ns, [n], Amount);
  }

  /** Replacing one note changes the unpaid sum by the unpaid parts of the
      old and the new note. */
  lemma UnpaidUpdate(ns: seq<PromissoryNote>, i: nat, n: PromissoryNote)
    requires i < |ns|
    ensures UnpaidTotal(ns[i := n])
         == UnpaidTotal(ns) - (if IsUnpaid(ns[i]) then ns[i].totalAmount else 0)
                            + (if IsUnpaid(n) then n.totalAmount else 0)
  {
    SumFilterMasked(ns, IsUnpaid, Amount);
    SumFilterMasked(ns[i := n], IsUnpaid, Amount);
    SumUpdate(ns, i, n, Masked(Amount, IsUnpaid));
  }
}
