/** The customer list of pages/Customers.tsx: the new-customer form and its
    save handler, the name search, and the avatar colour. The new id
    (`Date.now()`) and the creation instant are inputs. */
module CustomersPage {
  import opened Collections
  import opened Domain
  import opened Text
  import opened Storage

  /** `Partial<Customer>`: each field may be missing. */
  datatype CustomerForm = CustomerForm(
    name: Option<string>,
    cpf: Option<string>,
    phone: Option<string>,
    email: Option<string>,
    address: Option<string>,
    isVip: Option<bool>)

  /** The form as it is first shown and after every save. */
  const BlankForm: CustomerForm := CustomerForm(Some(""), Some(""), Some(""), Some(""), Some(""), Some(false))

  /** JavaScript truthiness of an optional string: present and not empty. */
  predicate Filled(field: Option<string>)
  {
    field.Some? && field.value != ""
  }

  /** `field || ''`. */
  function OrEmpty(field: Option<string>): (r: string)
    ensures Filled(field) ==> r == field.value
    ensures !Filled(field) ==> r == ""
  {
    if field.Some? then field.value else ""
  }

  /** `!!field`. */
  function Truthy(field: Option<bool>): (r: bool)
    ensures r <==> field == Some(true)
  {
    field.Some? && field.value
  }

  /** The customer `handleSave` builds, or none when the name or the cpf is
      missing or empty. */
  function NewCustomer(form: CustomerForm, id: string, now: Instant): (r: Option<Customer>)
    ensures r.None? <==> !Filled(form.name) || !Filled(form.cpf)
    ensures r.Some? ==> var c := r.value;
              && c.id == id && c.createdAt == now
              && c.name == form.name.value && c.cpf == form.cpf.value
              && c.phone == OrEmpty(form.phone) && c.email == OrEmpty(form.email)
              && c.address == OrEmpty(form.address)
              && c.isVip == (form.isVip == Some(true))
  {
    if !Filled(form.name) || !Filled(form.cpf) then None
    else Some(Customer(id, form.name.value, form.cpf.value, OrEmpty(form.phone), OrEmpty(form.email),
                       OrEmpty(form.address), Truthy(form.isVip), now))
  }

  /** A blank form is always refused. */
  lemma BlankFormRefused(id: string, now: Instant)
    ensures NewCustomer(BlankForm, id, now).None?
  {
  }

  /** The page's state variables that saving touches. */
  datatype PageState = PageState(customers: seq<Customer>, showAddForm: bool, form: CustomerForm)

  /** `handleSave`: refuse an incomplete form; otherwise store the customer,
      reload the list from the store, close the form and blank it. */
  method Save(store: Store, page: PageState, id: string, now: Instant) returns (page': PageState)
    modifies store
    ensures NewCustomer(page.form, id, now).None? ==> page' == page && store.State() == old(store.State())
    ensures NewCustomer(page.form, id, now).Some? ==>
              var c := NewCustomer(page.form, id, now).value;
              && store.State() == AddCustomerSpec(old(store.State()), c)
              && page'.customers == CustomersOf(old(store.State())) + [c]
              && !page'.showAddForm && page'.form == BlankForm
  {
    var candidate := NewCustomer(page.form, id, now);
    if candidate.None? {
      return page;
    }
    store.AddCustomer(candidate.value);
    var reloaded := store.GetCustomers();
    page' := PageState(reloaded, false, BlankForm);
  }

  /** The name search ignores case. */
  function NameContains(term: string): Customer -> bool
  {
    (c: Customer) => Contains(ToLower(c.name), ToLower(term))
  }

  /** `filtered`: the customers whose name contains the term, ignoring case,
      in list order. */
  function Search(cs: seq<Customer>, term: string): (r: seq<Customer>)
    ensures forall c :: c in r <==> c in cs && Contains(ToLower(c.name), ToLower(term))
    ensures |r| <= |cs|
  {
    Filter(cs, NameContains(term))
  }

  /** The search keeps list order: searching two pieces and joining the
      results is searching the whole, and a single customer stays exactly
      when its name matches. */
  lemma SearchConcat(a: seq<Customer>, b: seq<Customer>, term: string)
    ensures Search(a + b, term) == Search(a, term) + Search(b, term)
    ensures |a| == 1 ==> Search(a, term) == if Contains(ToLower(a[0].name), ToLower(term)) then a else []
  {
    FilterConcat(a, b, NameContains(term));
    if |a| == 1 {
      assert a[1..] == [];
    }
  }

  /** An empty search lists every customer. */
  lemma EmptySearchKeepsAll(cs: seq<Customer>)
    ensures Search(cs, "") == cs
  {
    assert ToLower("") == "";
    forall c | c in cs ensures NameContains("")(c) {
      ContainsEmpty(ToLower(c.name));
    }
    FilterKeepsAll(cs, NameContains(""));
  }

  /** A customer just saved is found by searching for its name. */
  lemma SavedCustomerFoundByName(s: Snapshot, form: CustomerForm, id: string, now: Instant)
    requires NewCustomer(form, id, now).Some?
    ensures var c := NewCustomer(form, id, now).value;
            c in Search(CustomersOf(AddCustomerSpec(s, c)), c.name)
  {
    var c := NewCustomer(form, id, now).value;
    ContainsSelf(ToLower(c.name));
    assert c in CustomersOf(AddCustomerSpec(s, c));
  }

  const Gradients: seq<string> := [
    "from-blue-400 to-blue-600",
    "from-purple-400 to-purple-600",
    "from-pink-400 to-pink-600",
    "from-green-400 to-green-600",
    "from-orange-400 to-orange-600"]

  /** `getAvatarGradient`: chosen by the name's length modulo the number of
      gradients, so always one of them. */
  function AvatarIndex(name: string): (r: nat)
    ensures r < |Gradients|
    ensures (r - |name|) % |Gradients| == 0
  {
    |name| % |Gradients|
  }

  function AvatarGradient(name: string): (r: string)
    ensures r in Gradients
  {
    Gradients[AvatarIndex(name)]
  }

  /** Names of equal length share a gradient; one more character moves to
      the next gradient, wrapping around. */
  lemma AvatarIndexNext(name: string, c: char)
    ensures AvatarIndex(name + [c]) == (AvatarIndex(name) + 1) % |Gradients|
  {
  }
}
