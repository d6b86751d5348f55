/** The derived values of components/CustomerDetailsModal.tsx: the selected
    customer's history, its mini-dashboard, the WhatsApp contact link and
    the status labels. Its expanded-note toggle is `Domain.Toggle`. */
module CustomerDetails {
  import opened Collections
  import opened Domain
  import opened Text
  import opened Ledger
  import opened Storage
  import opened Seed
  import NoteModal

  /** The notes shown: the customer's notes, newest first; none when no
      customer is selected. */
  function History(customer: Option<Customer>, ns: seq<PromissoryNote>): (r: seq<PromissoryNote>)
    ensures customer.None? ==> r == []
    ensures customer.Some? ==> forall n :: n in r <==> n in ns && n.customerId == customer.value.id
    ensures customer.Some? ==> forall n :: multiset(r)[n] == if n.customerId == customer.value.id then multiset(ns)[n] else 0
    ensures forall i, j :: 0 <= i < j < |r| ==> r[i].issueDate >= r[j].issueDate
    ensures customer.Some? ==> r == NotesByCustomer(ns, customer.value.id)
  {
    match customer
    case None => []
    case Some(c) =>
      FilterMultiset(ns, OwnedBy(c.id));
      NotesByCustomer(ns, c.id)
  }

  datatype CustomerStats = CustomerStats(totalSpent: int, openDebt: int, avgTicket: real)

  /** `stats`: the amount bought, what is still open, and the mean ticket
      (0 for an empty history). */
  function Stats(history: seq<PromissoryNote>): (r: CustomerStats)
    ensures r.totalSpent == TotalAmount(history)
    ensures r.openDebt + StatusTotal(history, Paid) == r.totalSpent
    ensures NonNegativeAmounts(history) ==> 0 <= r.openDebt <= r.totalSpent
    ensures r.avgTicket == Mean(r.totalSpent, |history|)
  {
    UnpaidPlusPaid(history);
    UnpaidBounded(history);
    var total := TotalAmount(history);
    CustomerStats(total, UnpaidTotal(history), Mean(total, |history|))
  }

  /** `count > 0 ? total / count : 0`, in exact arithmetic: the value that,
      taken `count` times, gives `total`. */
  function Mean(total: int, count: nat): (r: real)
    ensures count == 0 ==> r == 0.0
    ensures count > 0 ==> r * (count as real) == total as real
  {
    if count > 0 then total as real / count as real else 0.0
  }

  /** A note added for a customer raises that customer's total spent by its
      amount and leaves every other customer's total as it was. */
  lemma AddNoteRaisesTotalSpent(ns: seq<PromissoryNote>, n: PromissoryNote, customerId: string)
    ensures TotalAmount(NotesByCustomer(ns + [n], customerId))
         == TotalAmount(NotesByCustomer(ns, customerId)) + (if n.customerId == customerId then n.totalAmount else 0)
  {
    var p := OwnedBy(customerId);
    FilterConcat(ns, [n], p);
    SumSort(Filter(ns + [n], p), NewestFirst, Amount);
    SumSort(Filter(ns, p), NewestFirst, Amount);
    SumConcat(Filter(ns, p), Filter([n], p), Amount);
  }

  /** The number `handleWhatsApp` dials, as written: the country code is put
      in front unconditionally. */
  function WhatsAppTargetAsWritten(phone: string): (r: string)
    ensures AllDigits(r) && StartsWith(r, NoteModal.CountryCode)
    ensures |r| == 2 + |Digits(phone)| && r[2..] == Digits(phone)
  {
    NoteModal.CountryCode + Digits(phone)
  }

  /** For a number that already carries the country code, the link as
      written dials the code twice, where the note modal keeps the number. */
  lemma WhatsAppTargetDoublesPrefix(phone: string)
    requires AllDigits(phone) && StartsWith(phone, NoteModal.CountryCode)
    ensures NoteModal.NormalizedPhone(phone) == phone
    ensures WhatsAppTargetAsWritten(phone) == NoteModal.CountryCode + phone
    ensures WhatsAppTargetAsWritten(phone) != NoteModal.NormalizedPhone(phone)
  {
    DigitsOfDigits(phone);
  }

  /** The first seed customer's phone already carries the country code. */
  lemma SeedPhoneHasCountryCode(today: Instant)
    ensures AllDigits(MockCustomers(today)[0].phone)
    ensures StartsWith(MockCustomers(today)[0].phone, NoteModal.CountryCode)
  {
    var phone := "5511999999999";
    assert MockCustomers(today)[0].phone == phone;
    assert AllDigits(phone) && StartsWith(phone, NoteModal.CountryCode);
  }

  /** So the seed data alone shows the doubled prefix: the details panel
      dials `55` + `5511999999999`, the note modal `5511999999999`. */
  lemma SeedContactDoublesPrefix(today: Instant)
    ensures var phone := MockCustomers(today)[0].phone;
            && WhatsAppTargetAsWritten(phone) == NoteModal.CountryCode + phone
            && NoteModal.NormalizedPhone(phone) == phone
  {
    SeedPhoneHasCountryCode(today);
    WhatsAppTargetDoublesPrefix(MockCustomers(today)[0].phone);
  }

  /** The contact link with the country code added only when missing, as the
      note modal does it. */
  function ContactLink(c: Customer): (r: string)
    ensures r == NoteModal.WhatsAppBase + NoteModal.NormalizedPhone(c.phone)
    ensures AllDigits(r[|NoteModal.WhatsAppBase|..]) && StartsWith(r[|NoteModal.WhatsAppBase|..], NoteModal.CountryCode)
    ensures StartsWith(Digits(c.phone), NoteModal.CountryCode) ==> r == NoteModal.WhatsAppBase + Digits(c.phone)
    ensures !StartsWith(Digits(c.phone), NoteModal.CountryCode) ==> r == NoteModal.WhatsAppBase + WhatsAppTargetAsWritten(c.phone)
  {
    var r := NoteModal.WhatsAppBase + NoteModal.NormalizedPhone(c.phone);
    assert r[|NoteModal.WhatsAppBase|..] == NoteModal.NormalizedPhone(c.phone);
    r
  }

  /** The status badge text. */
  function StatusLabel(s: SaleStatus): string
  {
    if s == Paid then "PAGO" else if s == Overdue then "VENCIDO" else "PENDENTE"
  }

  /** Distinct statuses get distinct labels, so the badge shows the status. */
  lemma StatusLabelInjective(a: SaleStatus, b: SaleStatus)
    ensures StatusLabel(a) == StatusLabel(b) ==> a == b
  {
  }
}
