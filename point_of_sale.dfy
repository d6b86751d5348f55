/** The sales screen of pages/POS.tsx: choosing the customer, the cart
    (add, remove, total) and the checkout that turns the cart into a new
    PENDING promissory note. The item id (`Date.now()`), the price parsed
    from the price field (`parseFloat`), the note id (`Math.random()`) and
    the current instant are inputs. */
module PointOfSale {
  import opened Collections
  import opened Domain
  import opened Ledger
  import opened Storage

  datatype View = Input | Success

  /** The screen's state variables. */
  datatype PosState = PosState(
    cart: seq<CartItem>,
    itemDesc: string,
    itemPrice: string,
    selectedCustomer: Option<Customer>,
    generatedNote: Option<PromissoryNote>,
    view: View)

  /** The first screen: nothing chosen, nothing in the cart. */
  const Start: PosState := PosState([], "", "", None, None, Input)

  /** The customer picker: the first customer with the chosen id, or none
      (also for the empty placeholder option). */
  function SelectCustomer(customers: seq<Customer>, chosenId: string): (r: Option<Customer>)
    ensures r.Some? ==> r.value in customers && r.value.id == chosenId
    ensures r.None? <==> forall c :: c in customers ==> c.id != chosenId
    ensures r.Some? ==> exists i :: 0 <= i < |customers| && customers[i] == r.value
                                     && forall j :: 0 <= j < i ==> customers[j].id != chosenId
  {
    var i := FirstIndex(customers, CustomerHasId(chosenId));
    if i == -1 then None else Some(customers[i])
  }

  /** `addToCart`: with a description and a price typed in, append one item
      of quantity 1 and clear both fields; otherwise change nothing. */
  function AddToCart(st: PosState, itemId: string, parsedPrice: int): (r: PosState)
    ensures st.itemDesc == "" || st.itemPrice == "" ==> r == st
    ensures st.itemDesc != "" && st.itemPrice != "" ==>
              && r.cart == st.cart + [CartItem(itemId, st.itemDesc, 1, parsedPrice)]
              && r.itemDesc == "" && r.itemPrice == ""
              && r.selectedCustomer == st.selectedCustomer
              && r.generatedNote == st.generatedNote && r.view == st.view
  {
    if st.itemDesc == "" || st.itemPrice == "" then st
    else st.(cart := st.cart + [CartItem(itemId, st.itemDesc, 1, parsedPrice)], itemDesc := "", itemPrice := "")
  }

  function Price(item: CartItem): int
  {
    item.price
  }

  /** `total`: the sum of the item prices; the quantity is not used. */
  function CartTotal(cart: seq<CartItem>): int
  {
    SumOf(cart, Price)
  }

  /** The empty cart costs nothing, and each added item adds its price. */
  lemma CartTotalAppend(cart: seq<CartItem>, item: CartItem)
    ensures CartTotal([]) == 0
    ensures CartTotal(cart + [item]) == CartTotal(cart) + item.price
  {
    SumConcat(cart, [item], Price);
  }

  /** Changing an item's quantity does not change the total. */
  lemma CartTotalIgnoresQuantity(cart: seq<CartItem>, i: nat, quantity: int)
    requires i < |cart|
    ensures CartTotal(cart[i := cart[i].(quantity := quantity)]) == CartTotal(cart)
  {
    SumUpdate(cart, i, cart[i].(quantity := quantity), Price);
  }

  /** Adding an item with a description and a price raises the total by
      that price. */
  lemma AddToCartRaisesTotal(st: PosState, itemId: string, parsedPrice: int)
    requires st.itemDesc != "" && st.itemPrice != ""
    ensures CartTotal(AddToCart(st, itemId, parsedPrice).cart) == CartTotal(st.cart) + parsedPrice
  {
    CartTotalAppend(st.cart, CartItem(itemId, st.itemDesc, 1, parsedPrice));
  }

  function HasOtherId(id: string): CartItem -> bool
  {
    (c: CartItem) => c.id != id
  }

  /** The trash button: drop every item with this id, keep the rest in
      order. */
  function RemoveItem(cart: seq<CartItem>, id: string): (r: seq<CartItem>)
    ensures forall c :: c in r <==> c in cart && c.id != id
    ensures forall c: CartItem :: c.id != id ==> multiset(r)[c] == multiset(cart)[c]
    ensures |r| <= |cart|
  {
    FilterMultiset(cart, HasOtherId(id));
    Filter(cart, HasOtherId(id))
  }

  /** Removal keeps the order of the cart: removing from two pieces and
      joining the results is removing from the whole, and a single item
      stays exactly when its id differs. */
  lemma RemoveItemConcat(a: seq<CartItem>, b: seq<CartItem>, id: string)
    ensures RemoveItem(a + b, id) == RemoveItem(a, id) + RemoveItem(b, id)
    ensures |a| == 1 ==> RemoveItem(a, id) == if a[0].id != id then a else []
  {
    FilterConcat(a, b, HasOtherId(id));
    if |a| == 1 {
      assert a[1..] == [];
    }
  }

  /** Removing an item just added, under an id used nowhere else in the
      cart, gives back the cart as it was. */
  lemma RemoveUndoesAdd(cart: seq<CartItem>, item: CartItem)
    requires forall c :: c in cart ==> c.id != item.id
    ensures RemoveItem(cart + [item], item.id) == cart
  {
    var p := HasOtherId(item.id);
    FilterConcat(cart, [item], p);
    FilterKeepsAll(cart, p);
    FilterDropsAll([item], p);
    assert cart + [] == cart;
  }

  /** Removing an id that is not in the cart changes nothing. */
  lemma RemoveUnknownId(cart: seq<CartItem>, id: string)
    requires forall c :: c in cart ==> c.id != id
    ensures RemoveItem(cart, id) == cart
  {
    FilterKeepsAll(cart, HasOtherId(id));
  }

  /** The note written at checkout: the customer's id, name, cpf and phone
      copied in, the cart as its items, the cart total as its amount,
      issued now, due thirty days later, PENDING, not yet reminded. */
  function CheckoutNote(c: Customer, cart: seq<CartItem>, noteId: string, now: Instant): (r: PromissoryNote)
    ensures r.id == noteId && r.status == Pending && !r.whatsappSent && r.memo.None?
    ensures r.customerId == c.id && r.customerName == c.name
    ensures r.customerCpf == c.cpf && r.customerPhone == c.phone
    ensures r.items == cart && r.totalAmount == CartTotal(cart)
    ensures r.issueDate == now && Day(r.dueDate) == Day(now) + 30
  {
    DayAddDays(now, 30);
    PromissoryNote(noteId, c.id, c.name, c.phone, c.cpf, cart, CartTotal(cart),
                   now, AddDays(now, 30), Pending, None, false)
  }

  /** `handleCheckout`: without a customer nothing happens; otherwise the
      note is stored, shown, and the cart emptied. */
  method Checkout(store: Store, st: PosState, noteId: string, now: Instant) returns (st': PosState)
    modifies store
    ensures st.selectedCustomer.None? ==> st' == st && store.State() == old(store.State())
    ensures st.selectedCustomer.Some? ==>
              var note := CheckoutNote(st.selectedCustomer.value, st.cart, noteId, now);
              && store.State() == AddNoteSpec(old(store.State()), note)
              && st' == st.(cart := [], generatedNote := Some(note), view := Success)
  {
    if st.selectedCustomer.None? {
      return st;
    }
    var note := CheckoutNote(st.selectedCustomer.value, st.cart, noteId, now);
    store.AddNote(note);
    st' := st.(generatedNote := Some(note));
    st' := st'.(view := Success);
    st' := st'.(cart := []);
  }

  /** After checkout the stored notes are the old ones plus the new note,
      and the unpaid sum has grown by the cart total. */
  lemma CheckoutAddsOneNote(s: Snapshot, c: Customer, cart: seq<CartItem>, noteId: string, now: Instant)
    ensures var note := CheckoutNote(c, cart, noteId, now);
            && NotesOf(AddNoteSpec(s, note)) == NotesOf(s) + [note]
            && UnpaidTotal(NotesOf(AddNoteSpec(s, note))) == UnpaidTotal(NotesOf(s)) + CartTotal(cart)
            && CustomersOf(AddNoteSpec(s, note)) == CustomersOf(s)
  {
    var note := CheckoutNote(c, cart, noteId, now);
    FilterConcat(NotesOf(s), [note], IsUnpaid);
    FilterKeepsAll([note], IsUnpaid);
    TotalAppend(Filter(NotesOf(s), IsUnpaid), note);
  }

  /** The checkout button is enabled only with a non-empty cart and a
      chosen customer. */
  predicate CheckoutEnabled(st: PosState)
  {
    |st.cart| > 0 && st.selectedCustomer.Some?
  }

  /** When the button is enabled, checkout writes a note that carries at
      least one item and is owned by the chosen customer. */
  lemma EnabledCheckoutWritesItems(st: PosState, noteId: string, now: Instant)
    requires CheckoutEnabled(st)
    ensures var note := CheckoutNote(st.selectedCustomer.value, st.cart, noteId, now);
            |note.items| > 0 && note.customerId == st.selectedCustomer.value.id
  {
  }

  /** "New sale": back to the input view with no note shown and no
      customer chosen; the (already empty) cart and the fields stay. */
  function NewSale(st: PosState): (r: PosState)
    ensures r.view == Input && r.generatedNote.None? && r.selectedCustomer.None?
    ensures r.cart == st.cart && r.itemDesc == st.itemDesc && r.itemPrice == st.itemPrice
  {
    st.(view := Input, generatedNote := None, selectedCustomer := None)
  }

  /** A completed sale followed by "new sale" is the start screen again,
      apart from whatever was left typed in the two fields. */
  lemma CheckoutThenNewSale(st: PosState, note: PromissoryNote)
    ensures NewSale(st.(cart := [], generatedNote := Some(note), view := Success))
         == Start.(itemDesc := st.itemDesc, itemPrice := st.itemPrice)
  {
  }
}
