/** The data layer of services/storageService.ts: two collections, customers
    and notes, each persisted under its own key, which may be absent. Every
    mutator reads the whole collection, finds the first record with the
    given id by linear search, changes one field of it in place (or appends)
    and writes the whole collection back. Serialisation through the browser
    store is taken to be the identity. */
module Storage {
  import opened Collections
  import opened Domain
  import opened Seed

  /** What the two keys hold: `None` when the key is absent. */
  datatype Snapshot = Snapshot(customers: Option<seq<Customer>>, notes: Option<seq<PromissoryNote>>)

  /** `getCustomers`: the stored customers, or none when the key is absent. */
  function CustomersOf(s: Snapshot): seq<Customer>
  {
    if s.customers.Some? then s.customers.value else []
  }

  /** `getNotes`: the stored notes, or none when the key is absent. */
  function NotesOf(s: Snapshot): seq<PromissoryNote>
  {
    if s.notes.Some? then s.notes.value else []
  }

  /** `init`: seed each collection whose key is absent. */
  function InitSpec(s: Snapshot, today: Instant): Snapshot
  {
    Snapshot(if s.customers.None? then Some(MockCustomers(today)) else s.customers,
             if s.notes.None? then Some(MockNotes(today)) else s.notes)
  }

  /** `addCustomer`: append and write back. */
  function AddCustomerSpec(s: Snapshot, c: Customer): Snapshot
  {
    s.(customers := Some(CustomersOf(s) + [c]))
  }

  function CustomerHasId(id: string): Customer -> bool
  {
    (c: Customer) => c.id == id
  }

  function NoteHasId(id: string): PromissoryNote -> bool
  {
    (n: PromissoryNote) => n.id == id
  }

  /** `toggleCustomerVip`: flip `isVip` on the first customer with `id`;
      nothing is written when there is none. */
  function ToggleVipSpec(s: Snapshot, id: string): Snapshot
  {
    var cs := CustomersOf(s);
    var i := FirstIndex(cs, CustomerHasId(id));
    if i == -1 then s else s.(customers := Some(cs[i := cs[i].(isVip := !cs[i].isVip)]))
  }

  /** `addNote`: append and write back. */
  function AddNoteSpec(s: Snapshot, n: PromissoryNote): Snapshot
  {
    s.(notes := Some(NotesOf(s) + [n]))
  }

  /** `updateNoteStatus`: set the status of the first note with `id`, with
      no check on the transition; nothing is written when there is none. */
  function UpdateStatusSpec(s: Snapshot, id: string, status: SaleStatus): Snapshot
  {
    var ns := NotesOf(s);
    var i := FirstIndex(ns, NoteHasId(id));
    if i == -1 then s else s.(notes := Some(ns[i := ns[i].(status := status)]))
  }

  /** `markWhatsappSent`: set `whatsappSent` on the first note with `id`;
      nothing is written when there is none. */
  function MarkSentSpec(s: Snapshot, id: string): Snapshot
  {
    var ns := NotesOf(s);
    var i := FirstIndex(ns, NoteHasId(id));
    if i == -1 then s else s.(notes := Some(ns[i := ns[i].(whatsappSent := true)]))
  }

  function OwnedBy(customerId: string): PromissoryNote -> bool
  {
    (n: PromissoryNote) => n.customerId == customerId
  }

  /** Sort key putting the most recently issued note first. */
  function NewestFirst(n: PromissoryNote): int
  {
    -n.issueDate
  }

  /** `getNotesByCustomerId`: the customer's notes, newest issue date first,
      equal dates in storage order. */
  function NotesByCustomer(ns: seq<PromissoryNote>, customerId: string): (r: seq<PromissoryNote>)
    ensures multiset(r) == multiset(Filter(ns, OwnedBy(customerId)))
    ensures forall n :: n in r <==> n in ns && n.customerId == customerId
    ensures forall i, j :: 0 <= i < j < |r| ==> r[i].issueDate >= r[j].issueDate
  {
    var r := SortBy(Filter(ns, OwnedBy(customerId)), NewestFirst);
    assert forall i, j :: 0 <= i < j < |r| ==> NewestFirst(r[i]) <= NewestFirst(r[j]);
    assert forall n :: n in r <==> n in multiset(r);
    r
  }

  /** Unfolds `NotesByCustomer` once. It only supplies the step of the
      `calc` in `NotesByCustomerStable`, which was too costly for the
      solver to find there unaided. */
  lemma NotesByCustomerIsSort(ns: seq<PromissoryNote>, customerId: string)
    ensures NotesByCustomer(ns, customerId) == SortBy(Filter(ns, OwnedBy(customerId)), NewestFirst)
  {
  }

  /** Notes of one customer issued at the same instant keep their stored order. */
  lemma NotesByCustomerStable(ns: seq<PromissoryNote>, customerId: string, issued: Instant)
    ensures Filter(NotesByCustomer(ns, customerId), HasKey(NewestFirst, -issued))
         == Filter(Filter(ns, OwnedBy(customerId)), HasKey(NewestFirst, -issued))
  {
    var f, k := Filter(ns, OwnedBy(customerId)), HasKey(NewestFirst, -issued);
    calc {
      Filter(NotesByCustomer(ns, customerId), k);
      { NotesByCustomerIsSort(ns, customerId); }
      Filter(SortBy(f, NewestFirst), k);
      { SortStable(f, NewestFirst, -issued); }
      Filter(f, k);
    }
  }

  // ---- Properties of the operations ----

  /** `init` fills exactly the absent keys and keeps what is stored. */
  lemma InitSeedsOnlyAbsentKeys(s: Snapshot, today: Instant)
    ensures s.customers.Some? ==> InitSpec(s, today).customers == s.customers
    ensures s.notes.Some? ==> InitSpec(s, today).notes == s.notes
    ensures s.customers.None? ==> CustomersOf(InitSpec(s, today)) == MockCustomers(today)
    ensures s.notes.None? ==> NotesOf(InitSpec(s, today)) == MockNotes(today)
    ensures InitSpec(s, today).customers.Some? && InitSpec(s, today).notes.Some?
  {
  }

  /** Running `init` twice has the effect of running it once, whatever the
      clock says the second time. */
  lemma InitIdempotent(s: Snapshot, today: Instant, later: Instant)
    ensures InitSpec(InitSpec(s, today), later) == InitSpec(s, today)
  {
  }

  /** From an empty store, `init` leaves the two sample customers and the two
      sample notes, one PENDING and one OVERDUE. */
  lemma InitFromEmpty(today: Instant)
    ensures CustomersOf(InitSpec(Snapshot(None, None), today)) == MockCustomers(today)
    ensures var ns := NotesOf(InitSpec(Snapshot(None, None), today));
            |ns| == 2 && ns[0].status == Pending && ns[1].status == Overdue
  {
  }

  /** Appending a customer: the old list, in order, then the new one once
      more than before; the notes are untouched. */
  lemma AddCustomerAppends(s: Snapshot, c: Customer)
    ensures |CustomersOf(AddCustomerSpec(s, c))| == |CustomersOf(s)| + 1
    ensures CustomersOf(AddCustomerSpec(s, c))[..|CustomersOf(s)|] == CustomersOf(s)
    ensures CustomersOf(AddCustomerSpec(s, c))[|CustomersOf(s)|] == c
    ensures multiset(CustomersOf(AddCustomerSpec(s, c)))[c] == multiset(CustomersOf(s))[c] + 1
    ensures AddCustomerSpec(s, c).notes == s.notes
  {
    assert CustomersOf(AddCustomerSpec(s, c)) == CustomersOf(s) + [c];
  }

  /** Appending a note: the old list, in order, then the new one. */
  lemma AddNoteAppends(s: Snapshot, n: PromissoryNote)
    ensures |NotesOf(AddNoteSpec(s, n))| == |NotesOf(s)| + 1
    ensures NotesOf(AddNoteSpec(s, n))[..|NotesOf(s)|] == NotesOf(s)
    ensures NotesOf(AddNoteSpec(s, n))[|NotesOf(s)|] == n
    ensures AddNoteSpec(s, n).customers == s.customers
  {
    assert NotesOf(AddNoteSpec(s, n)) == NotesOf(s) + [n];
  }

  /** Toggling flips `isVip` of the first customer with `id` and changes
      nothing else; the list keeps its length and order. */
  lemma ToggleVipChangesOnlyFirstMatch(s: Snapshot, id: string)
    ensures var cs, cs' := CustomersOf(s), CustomersOf(ToggleVipSpec(s, id));
            var i := FirstIndex(cs, CustomerHasId(id));
            && |cs'| == |cs|
            && (forall j :: 0 <= j < |cs| && j != i ==> cs'[j] == cs[j])
            && (i >= 0 ==> cs'[i] == cs[i].(isVip := !cs[i].isVip))
    ensures ToggleVipSpec(s, id).notes == s.notes
  {
  }

  /** Toggling an id no customer has leaves the store as it was. */
  lemma ToggleVipUnknownId(s: Snapshot, id: string)
    requires forall c :: c in CustomersOf(s) ==> c.id != id
    ensures ToggleVipSpec(s, id) == s
  {
  }

  /** Toggling twice restores the original store. */
  lemma ToggleVipTwice(s: Snapshot, id: string)
    ensures ToggleVipSpec(ToggleVipSpec(s, id), id) == s
  {
    var cs := CustomersOf(s);
    var i := FirstIndex(cs, CustomerHasId(id));
    if i >= 0 {
      var flipped := cs[i].(isVip := !cs[i].isVip);
      FirstIndexUpdate(cs, i, flipped, CustomerHasId(id));
      assert cs[i := flipped][i := cs[i]] == cs;
    }
  }

  /** `updateNoteStatus` sets the status of the first note with `id`, any
      status to any status, and changes nothing else; the list keeps its
      length and order. */
  lemma UpdateStatusChangesOnlyFirstMatch(s: Snapshot, id: string, status: SaleStatus)
    ensures var ns, ns' := NotesOf(s), NotesOf(UpdateStatusSpec(s, id, status));
            var i := FirstIndex(ns, NoteHasId(id));
            && |ns'| == |ns|
            && (forall j :: 0 <= j < |ns| && j != i ==> ns'[j] == ns[j])
            && (i >= 0 ==> ns'[i] == ns[i].(status := status))
    ensures UpdateStatusSpec(s, id, status).customers == s.customers
  {
  }

  /** Updating an id no note has leaves the store as it was. */
  lemma UpdateStatusUnknownId(s: Snapshot, id: string, status: SaleStatus)
    requires forall n :: n in NotesOf(s) ==> n.id != id
    ensures UpdateStatusSpec(s, id, status) == s
  {
  }

  /** A PAID note may be set back to PENDING: no transition is refused. */
  lemma PaidToPendingAllowed(s: Snapshot, id: string)
    requires exists n :: n in NotesOf(s) && n.id == id
    ensures var ns' := NotesOf(UpdateStatusSpec(UpdateStatusSpec(s, id, Paid), id, Pending));
            ns'[FirstIndex(NotesOf(s), NoteHasId(id))].status == Pending
  {
    var ns := NotesOf(s);
    var i := FirstIndex(ns, NoteHasId(id));
    var n :| n in ns && n.id == id;
    assert i >= 0;
    FirstIndexUpdate(ns, i, ns[i].(status := Paid), NoteHasId(id));
  }

  /** `markWhatsappSent` sets the flag on the first note with `id` and
      changes nothing else; the list keeps its length and order. */
  lemma MarkSentChangesOnlyFirstMatch(s: Snapshot, id: string)
    ensures var ns, ns' := NotesOf(s), NotesOf(MarkSentSpec(s, id));
            var i := FirstIndex(ns, NoteHasId(id));
            && |ns'| == |ns|
            && (forall j :: 0 <= j < |ns| && j != i ==> ns'[j] == ns[j])
            && (i >= 0 ==> ns'[i] == ns[i].(whatsappSent := true))
    ensures MarkSentSpec(s, id).customers == s.customers
  {
  }

  /** Marking an id no note has leaves the store as it was. */
  lemma MarkSentUnknownId(s: Snapshot, id: string)
    requires forall n :: n in NotesOf(s) ==> n.id != id
    ensures MarkSentSpec(s, id) == s
  {
  }

  /** Marking twice is marking once. */
  lemma MarkSentIdempotent(s: Snapshot, id: string)
    ensures MarkSentSpec(MarkSentSpec(s, id), id) == MarkSentSpec(s, id)
  {
    var ns := NotesOf(s);
    var i := FirstIndex(ns, NoteHasId(id));
    if i >= 0 {
      var marked := ns[i].(whatsappSent := true);
      FirstIndexUpdate(ns, i, marked, NoteHasId(id));
      assert ns[i := marked][i := marked.(whatsappSent := true)] == ns[i := marked];
    }
  }

  /** The in-place mutators keep the id of every record at its position. */
  lemma MutatorsKeepIds(s: Snapshot, id: string, status: SaleStatus)
    ensures var cs, cs' := CustomersOf(s), CustomersOf(ToggleVipSpec(s, id));
            |cs'| == |cs| && forall j :: 0 <= j < |cs| ==> cs'[j].id == cs[j].id
    ensures var ns, ns' := NotesOf(s), NotesOf(UpdateStatusSpec(s, id, status));
            |ns'| == |ns| && forall j :: 0 <= j < |ns| ==> ns'[j].id == ns[j].id
    ensures var ns, ns' := NotesOf(s), NotesOf(MarkSentSpec(s, id));
            |ns'| == |ns| && forall j :: 0 <= j < |ns| ==> ns'[j].id == ns[j].id
  {
  }

  /** The store itself: the two keys' contents and whether each key exists. */
  class Store {
    var customerData: seq<Customer>
    var customersStored: bool
    var noteData: seq<PromissoryNote>
    var notesStored: bool

    /** What the two keys hold. */
    function State(): Snapshot
      reads this
    {
      Snapshot(if customersStored then Some(customerData) else None,
               if notesStored then Some(noteData) else None)
    }

    /** A store over whatever the browser already holds. */
    constructor (initial: Snapshot)
      ensures State() == initial
    {
      customersStored := initial.customers.Some?;
      customerData := if initial.customers.Some? then initial.customers.value else [];
      notesStored := initial.notes.Some?;
      noteData := if initial.notes.Some? then initial.notes.value else [];
    }

    method Init(today: Instant)
      modifies this
      ensures State() == InitSpec(old(State()), today)
    {
      if !customersStored {
        customerData, customersStored := MockCustomers(today), true;
      }
      if !notesStored {
        noteData, notesStored := MockNotes(today), true;
      }
    }

    method GetCustomers() returns (cs: seq<Customer>)
      ensures cs == CustomersOf(State())
      ensures !customersStored ==> cs == []
    {
      cs := if customersStored then customerData else [];
    }

    method AddCustomer(c: Customer)
      modifies this
      ensures State() == AddCustomerSpec(old(State()), c)
    {
      var cs := GetCustomers();
      cs := cs + [c];
      customerData, customersStored := cs, true;
    }

    method ToggleCustomerVip(id: string)
      modifies this
      ensures State() == ToggleVipSpec(old(State()), id)
    {
      var cs := GetCustomers();
      var index := FindIndex(cs, CustomerHasId(id));
      if index != -1 {
        cs := cs[index := cs[index].(isVip := !cs[index].isVip)];
        customerData, customersStored := cs, true;
      }
    }

    method GetNotes() returns (ns: seq<PromissoryNote>)
      ensures ns == NotesOf(State())
      ensures !notesStored ==> ns == []
    {
      ns := if notesStored then noteData else [];
    }

    method GetNotesByCustomerId(customerId: string) returns (ns: seq<PromissoryNote>)
      ensures ns == NotesByCustomer(NotesOf(State()), customerId)
    {
      var all := GetNotes();
      ns := NotesByCustomer(all, customerId);
    }

    method AddNote(n: PromissoryNote)
      modifies this
      ensures State() == AddNoteSpec(old(State()), n)
    {
      var ns := GetNotes();
      ns := ns + [n];
      noteData, notesStored := ns, true;
    }

    method UpdateNoteStatus(id: string, status: SaleStatus)
      modifies this
      ensures State() == UpdateStatusSpec(old(State()), id, status)
    {
      var ns := GetNotes();
      var index := FindIndex(ns, NoteHasId(id));
      if index != -1 {
        ns := ns[index := ns[index].(status := status)];
        noteData, notesStored := ns, true;
      }
    }

    method MarkWhatsappSent(id: string)
      modifies this
      ensures State() == MarkSentSpec(old(State()), id)
    {
      var ns := GetNotes();
      var index := FindIndex(ns, NoteHasId(id));
      if index != -1 {
        ns := ns[index := ns[index].(whatsappSent := true)];
        noteData, notesStored := ns, true;
      }
    }
  }
}
