/** The records of types.ts, with amounts in integer cents and ISO 8601
    timestamps as integer instants (milliseconds since the epoch). */
module Domain {

  datatype Option<T> = None | Some(value: T)

  /** Milliseconds since the epoch. */
  type Instant = int

  const MsPerDay: int := 86400000

  /** The day number of an instant. It stands for the local calendar day
      that the pages compare with `toDateString()`: here days are whole
      86 400 000 ms periods from the epoch, with no time zone. */
  function Day(t: Instant): int
  {
    t / MsPerDay
  }

  /** `d.setDate(d.getDate() + n)`, as a fixed number of days. */
  function AddDays(t: Instant, n: int): Instant
  {
    t + n * MsPerDay
  }

  /** Moving `n` days forward moves the calendar day by `n`. */
  lemma DayAddDays(t: Instant, n: int)
    ensures Day(AddDays(t, n)) == Day(t) + n
  {
    var q, r := t / MsPerDay, t % MsPerDay;
    assert t == q * MsPerDay + r;
    assert AddDays(t, n) == (q + n) * MsPerDay + r;
  }

  /** Two instants with the same day and different times of day share a day. */
  lemma SameDay(day: int, h1: int, h2: int)
    requires 0 <= h1 < MsPerDay && 0 <= h2 < MsPerDay
    ensures Day(day * MsPerDay + h1) == day && Day(day * MsPerDay + h2) == day
  {
  }

  datatype SaleStatus = Pending | Paid | Overdue

  /** A customer. A stored customer without `isVip` reads as `false`. */
  datatype Customer = Customer(
    id: string,
    name: string,
    cpf: string,
    phone: string,
    email: string,
    address: string,
    isVip: bool,
    createdAt: Instant)

  /** A cart line; `price` in cents. */
  datatype CartItem = CartItem(id: string, description: string, quantity: int, price: int)

  /** A promissory note: a snapshot of the customer at sale time, the items,
      the stored total and the payment status. `memo` is the optional
      free-text `notes` field of the record. A note without `whatsappSent`
      reads as `false`. */
  datatype PromissoryNote = PromissoryNote(
    id: string,
    customerId: string,
    customerName: string,
    customerPhone: string,
    customerCpf: string,
    items: seq<CartItem>,
    totalAmount: int,
    issueDate: Instant,
    dueDate: Instant,
    status: SaleStatus,
    memo: Option<string>,
    whatsappSent: bool)

  /** A single-choice toggle, `current === x ? null : x`: choosing the
      current choice clears it, choosing anything else selects that. Both
      the expanded note of the customer panel and the selected calendar
      day follow it. */
  function Toggle<T(==)>(current: Option<T>, x: T): (r: Option<T>)
    ensures r.None? <==> current == Some(x)
    ensures r.Some? ==> r == Some(x)
  {
    if current == Some(x) then None else Some(x)
  }

  /** Choosing the same thing twice: from nothing chosen, or from another
      choice, it ends with nothing chosen; from that very choice, it ends
      back on it. */
  lemma ToggleTwice<T>(x: T, other: T)
    ensures Toggle(Toggle(None, x), x) == None
    ensures other != x ==> Toggle(Toggle(Some(other), x), x) == None
    ensures Toggle(Toggle(Some(x), x), x) == Some(x)
  {
  }
}
