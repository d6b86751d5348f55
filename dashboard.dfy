/** The figures of pages/Dashboard.tsx: the three headline numbers, the
    recent-activity list and its status labels. */
module Dashboard {
  import opened Collections
  import opened Domain
  import opened Ledger

  /** `stats`: the unpaid sum, the number of OVERDUE notes, the sum over all
      notes (shown as the month's sales) and the number of customers. */
  datatype DashboardStats = DashboardStats(pending: int, overdueCount: nat, monthSales: int, customerCount: nat)

  function ComputeStats(ns: seq<PromissoryNote>, cs: seq<Customer>): (r: DashboardStats)
    ensures r.pending == UnpaidTotal(ns)
    ensures r.pending + StatusTotal(ns, Paid) == r.monthSales
    ensures r.monthSales == TotalAmount(ns)
    ensures r.overdueCount == StatusCount(ns, Overdue)
    ensures r.overdueCount <= |ns|
    ensures r.overdueCount == 0 <==> forall n :: n in ns ==> n.status != Overdue
    ensures r.customerCount == |cs|
  {
    UnpaidPlusPaid(ns);
    DashboardStats(UnpaidTotal(ns), StatusCount(ns, Overdue), TotalAmount(ns), |cs|)
  }

  /** No figure looks at a date: moving a note's issue and due dates
      anywhere, into another month or into the past, changes none of them.
      In particular the month's sales have no month filter, and a PENDING
      note past its due date is not counted as overdue. */
  lemma StatsIgnoreDates(ns: seq<PromissoryNote>, cs: seq<Customer>, i: nat, issued: Instant, due: Instant)
    requires i < |ns|
    ensures ComputeStats(ns[i := ns[i].(issueDate := issued, dueDate := due)], cs) == ComputeStats(ns, cs)
  {
    var n := ns[i].(issueDate := issued, dueDate := due);
    UnpaidUpdate(ns, i, n);
    SumUpdate(ns, i, n, Amount);
    FilterLengthUpdate(ns, i, n, HasStatus(Overdue));
  }

  /** A new sale raises the pending sum and the sales total by its amount. */
  lemma NewSaleRaisesFigures(ns: seq<PromissoryNote>, cs: seq<Customer>, n: PromissoryNote)
    requires n.status == Pending
    ensures ComputeStats(ns + [n], cs).pending == ComputeStats(ns, cs).pending + n.totalAmount
    ensures ComputeStats(ns + [n], cs).monthSales == ComputeStats(ns, cs).monthSales + n.totalAmount
    ensures ComputeStats(ns + [n], cs).overdueCount == ComputeStats(ns, cs).overdueCount
  {
    TotalAppend(ns, n);
    FilterConcat(ns, [n], IsUnpaid);
    FilterKeepsAll([n], IsUnpaid);
    TotalAppend(Filter(ns, IsUnpaid), n);
    FilterConcat(ns, [n], HasStatus(Overdue));
    FilterDropsAll([n], HasStatus(Overdue));
  }

  /** `notes.slice(0, 4)`: the first four notes in storage order. */
  function Recent(ns: seq<PromissoryNote>): (r: seq<PromissoryNote>)
    ensures |r| == if |ns| < 4 then |ns| else 4
    ensures forall i :: 0 <= i < |r| ==> r[i] == ns[i]
  {
    if |ns| < 4 then ns else ns[..4]
  }

  /** Storage appends new notes at the end, so once four notes exist a new
      sale never appears in the list headed "latest movements". */
  lemma RecentIgnoresNewSales(ns: seq<PromissoryNote>, n: PromissoryNote)
    requires |ns| >= 4
    ensures Recent(ns + [n]) == Recent(ns)
  {
    assert (ns + [n])[..4] == ns[..4];
  }

  /** The status text of a recent-activity row. */
  function StatusLabel(s: SaleStatus): string
  {
    if s == Paid then "Pago" else if s == Overdue then "Vencido" else "Pendente"
  }

  /** Distinct statuses get distinct labels. */
  lemma StatusLabelInjective(a: SaleStatus, b: SaleStatus)
    ensures StatusLabel(a) == StatusLabel(b) ==> a == b
  {
  }
}
