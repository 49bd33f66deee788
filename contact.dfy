/**
 * The contact step of the booking wizard (src/Components/Booking/Contactinfo.jsx):
 * one contact record, phone inputs that keep only decimal digits, and the
 * rule that both email and phone must be filled before continuing.
 */
module ContactStep {
  import opened JsonValue

  datatype Contact = Contact(email: string, phone: string, phoneCountryCode: string)

  const InitialContact := Contact("", "", "92")
  const MissingMessage := "Please enter both email and phone number"

  /** The characters `\d` matches: the ASCII digits. */
  predicate IsDigit(c: char) {
    '0' <= c <= '9'
  }

  predicate AllDigits(s: string) {
    forall i :: 0 <= i < |s| ==> IsDigit(s[i])
  }

  /** `s.replace(/\D/g, "")`. */
  function KeepDigits(s: string): (r: string)
    ensures |r| <= |s|
    ensures AllDigits(r)
  {
    if s == [] then []
    else (if IsDigit(s[0]) then [s[0]] else []) + KeepDigits(s[1..])
  }

  /** Stripping distributes over concatenation: it acts on each character alone. */
  lemma {:induction false} KeepDigitsConcat(a: string, b: string)
    ensures KeepDigits(a + b) == KeepDigits(a) + KeepDigits(b)
  {
    if a == [] {
      assert a + b == b;
    } else {
      assert (a + b)[1..] == a[1..] + b;
      KeepDigitsConcat(a[1..], b);
    }
  }

  /** A string of digits is left as it is. */
  lemma {:induction false} KeepDigitsOfDigits(s: string)
    requires AllDigits(s)
    ensures KeepDigits(s) == s
  {
    if s != [] {
      KeepDigitsOfDigits(s[1..]);
    }
  }

  /** A text without digits strips to nothing: no digit is ever invented. */
  lemma {:induction false} KeepDigitsDropsNonDigits(s: string)
    requires forall i :: 0 <= i < |s| ==> !IsDigit(s[i])
    ensures KeepDigits(s) == []
  {
    if s != [] {
      KeepDigitsDropsNonDigits(s[1..]);
    }
  }

  /** Stripping twice is stripping once. */
  lemma KeepDigitsIdempotent(s: string)
    ensures KeepDigits(KeepDigits(s)) == KeepDigits(s)
  {
    KeepDigitsOfDigits(KeepDigits(s));
  }

  /** Every digit of the input survives, in its place among the other digits. */
  lemma {:induction false} KeepDigitsKeepsDigits(s: string, i: nat)
    requires i < |s| && IsDigit(s[i])
    ensures KeepDigits(s) == KeepDigits(s[..i]) + [s[i]] + KeepDigits(s[i + 1..])
  {
    assert s == s[..i] + [s[i]] + s[i + 1..];
    KeepDigitsConcat(s[..i] + [s[i]], s[i + 1..]);
    KeepDigitsConcat(s[..i], [s[i]]);
    assert KeepDigits([s[i]]) == [s[i]] by {
      assert [s[i]][1..] == [];
    }
  }

  /** The rule `handleContinue` applies: both email and phone are non-empty. */
  predicate Complete(c: Contact) {
    c.email != "" && c.phone != ""
  }

  /** `disabled={loading || !contact.email || !contact.phone}` on the Continue button. */
  predicate ContinueDisabled(loading: bool, c: Contact) {
    loading || c.email == "" || c.phone == ""
  }

  /** The button is enabled only on a complete record, and when idle exactly then. */
  lemma ContinueEnabledIffComplete(loading: bool, c: Contact)
    ensures !ContinueDisabled(loading, c) ==> Complete(c)
    ensures !loading ==> (ContinueDisabled(loading, c) <==> !Complete(c))
  {
  }

  /** The state of the contact step. `loading` is declared but no handler sets it. */
  class ContactForm {
    var contact: Contact
    var error: Option<string>
    var loading: bool

    constructor ()
      ensures contact == InitialContact && error == None && !loading
    {
      contact := InitialContact;
      error := None;
      loading := false;
    }

    /** The email input's `onChange`: the text is taken as typed. */
    method EditEmail(text: string)
      modifies this
      ensures contact == old(contact).(email := text)
      ensures error == old(error) && loading == old(loading)
    {
      contact := contact.(email := text);
    }

    /** The country-code input's `onChange`: only the digits are kept. */
    method EditCountryCode(text: string)
      modifies this
      ensures contact.phoneCountryCode == KeepDigits(text) && AllDigits(contact.phoneCountryCode)
      ensures contact.email == old(contact).email && contact.phone == old(contact).phone
      ensures error == old(error) && loading == old(loading)
    {
      contact := contact.(phoneCountryCode := KeepDigits(text));
    }

    /** The phone input's `onChange`: only the digits are kept. */
    method EditPhone(text: string)
      modifies this
      ensures contact.phone == KeepDigits(text) && AllDigits(contact.phone)
      ensures contact.email == old(contact).email && contact.phoneCountryCode == old(contact).phoneCountryCode
      ensures error == old(error) && loading == old(loading)
    {
      contact := contact.(phone := KeepDigits(text));
    }

    /** `handleContinue`; `next` is the record handed to `onNext`, if it is called. */
    method HandleContinue() returns (next: Option<Contact>)
      modifies this
      ensures contact == old(contact) && loading == old(loading)
      ensures next.Some? <==> Complete(contact)
      ensures next.Some? ==> next.value == contact && error == None
      ensures next.None? ==> error == Some(MissingMessage)
    {
      if contact.email == "" || contact.phone == "" {
        error := Some(MissingMessage);
        return None;
      }
      error := None;
      next := Some(contact);
    }
  }
}
