/** The actions of components/PromissoryNoteModal.tsx: charging a customer
    through a WhatsApp link, and confirming payment. The message text and
    its URL encoding are taken as an input (`encodedText`). */
module NoteModal {
  import opened Domain
  import opened Text
  import opened Ledger
  import opened Collections
  import opened Storage

  const CountryCode: string := "55"
  const WhatsAppBase: string := "https://wa.me/"

  /** The number dialled: the digits of the stored phone, with the country
      code put in front unless they already begin with it. */
  function NormalizedPhone(raw: string): (r: string)
    ensures AllDigits(r) && StartsWith(r, CountryCode)
    ensures r == Digits(raw) <==> StartsWith(Digits(raw), CountryCode)
    ensures r != Digits(raw) ==> r == CountryCode + Digits(raw)
  {
    var d := Digits(raw);
    if StartsWith(d, CountryCode) then d else CountryCode + d
  }

  /** The normalisation as the handler writes it, reassigning one variable. */
  method NormalizePhone(raw: string) returns (phone: string)
    ensures phone == NormalizedPhone(raw)
  {
    phone := Digits(raw);
    if !StartsWith(phone, CountryCode) {
      phone := CountryCode + phone;
    }
  }

  /** Normalising a normalised number changes nothing. */
  lemma NormalizeIdempotent(raw: string)
    ensures NormalizedPhone(NormalizedPhone(raw)) == NormalizedPhone(raw)
  {
    DigitsOfDigits(NormalizedPhone(raw));
  }

  /** `https://wa.me/${phone}?text=${encodeURIComponent(message)}`. */
  function WhatsAppUrl(phone: string, encodedText: string): string
  {
    WhatsAppBase + phone + "?text=" + encodedText
  }

  /** In `phone?text=...` with an all-digit phone, the first `?` is the one
      right after the phone. */
  lemma QueryStartsAfterPhone(p: string, t: string)
    requires AllDigits(p)
    ensures (p + "?text=" + t)[|p|] == '?'
    ensures forall k :: 0 <= k < |p| ==> (p + "?text=" + t)[k] != '?'
  {
    var a := p + "?text=" + t;
    forall k | 0 <= k < |p| ensures a[k] != '?' {
      assert a[k] == p[k];
    }
  }

  /** A link determines the number and the text: the number is all digits,
      so it ends where `?text=` begins. */
  lemma WhatsAppUrlInjective(p1: string, t1: string, p2: string, t2: string)
    requires AllDigits(p1) && AllDigits(p2)
    requires WhatsAppUrl(p1, t1) == WhatsAppUrl(p2, t2)
    ensures p1 == p2 && t1 == t2
  {
    var a, b := p1 + "?text=" + t1, p2 + "?text=" + t2;
    assert WhatsAppUrl(p1, t1) == WhatsAppBase + a;
    assert WhatsAppUrl(p2, t2) == WhatsAppBase + b;
    assert a == WhatsAppUrl(p1, t1)[|WhatsAppBase|..];
    assert a == b;
    QueryStartsAfterPhone(p1, t1);
    QueryStartsAfterPhone(p2, t2);
    if |p1| < |p2| {
      assert false;
    } else if |p2| < |p1| {
      assert false;
    }
    assert p1 == a[..|p1|] && p2 == b[..|p2|];
    assert t1 == a[|p1| + 6..] && t2 == b[|p2| + 6..];
  }

  /** `handleChargeOnWhatsApp`: build the link to open and flag the note as
      reminded. */
  method ChargeOnWhatsApp(store: Store, note: PromissoryNote, encodedText: string) returns (url: string)
    modifies store
    ensures url == WhatsAppUrl(NormalizedPhone(note.customerPhone), encodedText)
    ensures store.State() == MarkSentSpec(old(store.State()), note.id)
  {
    var phone := NormalizePhone(note.customerPhone);
    url := WhatsAppUrl(phone, encodedText);
    store.MarkWhatsappSent(note.id);
  }

  /** `handleMarkAsPaid`: when the user confirms, set the note PAID and close
      the modal; when the user cancels, do nothing. */
  method MarkAsPaid(store: Store, note: PromissoryNote, confirmed: bool) returns (closed: bool)
    modifies store
    ensures closed == confirmed
    ensures confirmed ==> store.State() == UpdateStatusSpec(old(store.State()), note.id, Paid)
    ensures !confirmed ==> store.State() == old(store.State())
  {
    closed := false;
    if confirmed {
      store.UpdateNoteStatus(note.id, Paid);
      closed := true;
    }
  }

  /** The "confirm receipt" button is shown only for a note not yet PAID. */
  predicate ConfirmReceiptOffered(note: PromissoryNote)
  {
    note.status != Paid
  }

  /** After payment is confirmed, the stored note no longer offers the
      button, and its amount leaves the unpaid sum. */
  lemma MarkAsPaidSettlesNote(s: Snapshot, id: string)
    ensures var ns, ns' := NotesOf(s), NotesOf(UpdateStatusSpec(s, id, Paid));
            var i := FirstIndex(ns, NoteHasId(id));
            && (i >= 0 ==> !ConfirmReceiptOffered(ns'[i]))
            && UnpaidTotal(ns') == UnpaidTotal(ns) - (if i >= 0 && IsUnpaid(ns[i]) then ns[i].totalAmount else 0)
  {
    var ns := NotesOf(s);
    var i := FirstIndex(ns, NoteHasId(id));
    if i >= 0 {
      UnpaidUpdate(ns, i, ns[i].(status := Paid));
    }
  }
}
