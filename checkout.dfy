/**
 * The checkout page (components/pages/CheckoutPage.tsx): the same pricing as the cart page,
 * the form validator that collects every failing field into a field-to-message map, the
 * input handler, the order payload sent to the orders API, and the submit flow over the
 * page's state, the cart and the orders kept in browser storage under 'nujuum-orders'.
 */
module Checkout {
  import opened Wrappers
  import opened Text
  import opened Domain
  import opened EmailRules
  import Pricing

  const NameRequired := "Full name is required"
  const EmailRequired := "Email is required"
  const EmailInvalid := "Email is invalid"
  const PhoneRequired := "Phone number is required"
  const Line1Required := "Address line 1 is required"
  const CityRequired := "City is required"
  const PostcodeRequired := "Postal code is required"
  const CountryRequired := "Country is required"
  const SubmitFailed := "Failed to submit order. Please try again."

  /** The keys of the page's error map: one per validated field, plus 'submit'. */
  datatype ErrorKey = NameKey | EmailKey | PhoneKey | AddressLine1Key | CityKey | PostcodeKey | CountryKey | SubmitKey

  /** The key as the string the page indexes its error record with. */
  function KeyName(k: ErrorKey): string {
    match k
    case NameKey => "name"
    case EmailKey => "email"
    case PhoneKey => "phone"
    case AddressLine1Key => "addressLine1"
    case CityKey => "city"
    case PostcodeKey => "postcode"
    case CountryKey => "country"
    case SubmitKey => "submit"
  }

  /** The keys the validator can set. */
  const FormKeys: set<ErrorKey> := {NameKey, EmailKey, PhoneKey, AddressLine1Key, CityKey, PostcodeKey, CountryKey}

  /** The message the rule for `key` gives the form, or None when that rule passes. */
  function RuleFor(f: CheckoutForm, key: ErrorKey): Option<string> {
    match key
    case NameKey => if IsBlank(f.name) then Some(NameRequired) else None
    case EmailKey =>
      if IsBlank(f.email) then Some(EmailRequired)
      else if !ClientEmailOk(f.email) then Some(EmailInvalid)
      else None
    case PhoneKey => if IsBlank(f.phone) then Some(PhoneRequired) else None
    case AddressLine1Key => if IsBlank(f.address.line1) then Some(Line1Required) else None
    case CityKey => if IsBlank(f.address.city) then Some(CityRequired) else None
    case PostcodeKey => if IsBlank(f.address.postcode) then Some(PostcodeRequired) else None
    case CountryKey => if IsBlank(f.address.country) then Some(CountryRequired) else None
    case SubmitKey => None
  }

  /** The entries of the error map for the rules named in `keys`. */
  function ViolationsAmong(f: CheckoutForm, keys: set<ErrorKey>): map<ErrorKey, string> {
    map k | k in keys && RuleFor(f, k).Some? :: RuleFor(f, k).value
  }

  /** Reference definition of the error map: one entry per failing rule, nothing else. */
  function Violations(f: CheckoutForm): map<ErrorKey, string> {
    ViolationsAmong(f, FormKeys)
  }

  /** Checking one more rule adds its entry when it fails and nothing otherwise. */
  lemma AddRule(f: CheckoutForm, keys: set<ErrorKey>, key: ErrorKey)
    ensures ViolationsAmong(f, keys + {key}) ==
      if RuleFor(f, key).Some? then ViolationsAmong(f, keys)[key := RuleFor(f, key).value]
      else ViolationsAmong(f, keys)
  {
  }

  /** The validator checks the rules in this order, and they are all the form's keys. */
  lemma RulesInOrder()
    ensures {} + {NameKey} + {EmailKey} + {PhoneKey} + {AddressLine1Key} + {CityKey} + {PostcodeKey} + {CountryKey} == FormKeys
  {
  }

  /**
   * `validateForm`: checks the seven rules one after another, recording each failure, and
   * reports whether none failed.
   */
  method ValidateForm(f: CheckoutForm) returns (errors: map<ErrorKey, string>, valid: bool)
    ensures errors == Violations(f)
    ensures valid <==> errors == map[]
  {
    errors := map[];
    ghost var checked: set<ErrorKey> := {};
    assert errors == ViolationsAmong(f, checked);
    if IsBlank(f.name) {
      errors := errors[NameKey := NameRequired];
    }
    assert errors == ViolationsAmong(f, checked + {NameKey}) by { AddRule(f, checked, NameKey); }
    checked := checked + {NameKey};
    if IsBlank(f.email) {
      errors := errors[EmailKey := EmailRequired];
    } else if !ClientEmailOk(f.email) {
      errors := errors[EmailKey := EmailInvalid];
    }
    assert errors == ViolationsAmong(f, checked + {EmailKey}) by { AddRule(f, checked, EmailKey); }
    checked := checked + {EmailKey};
    if IsBlank(f.phone) {
      errors := errors[PhoneKey := PhoneRequired];
    }
    assert errors == ViolationsAmong(f, checked + {PhoneKey}) by { AddRule(f, checked, PhoneKey); }
    checked := checked + {PhoneKey};
    if IsBlank(f.address.line1) {
      errors := errors[AddressLine1Key := Line1Required];
    }
    assert errors == ViolationsAmong(f, checked + {AddressLine1Key}) by { AddRule(f, checked, AddressLine1Key); }
    checked := checked + {AddressLine1Key};
    if IsBlank(f.address.city) {
      errors := errors[CityKey := CityRequired];
    }
    assert errors == ViolationsAmong(f, checked + {CityKey}) by { AddRule(f, checked, CityKey); }
    checked := checked + {CityKey};
    if IsBlank(f.address.postcode) {
      errors := errors[PostcodeKey := PostcodeRequired];
    }
    assert errors == ViolationsAmong(f, checked + {PostcodeKey}) by { AddRule(f, checked, PostcodeKey); }
    checked := checked + {PostcodeKey};
    if IsBlank(f.address.country) {
      errors := errors[CountryKey := CountryRequired];
    }
    assert errors == ViolationsAmong(f, checked + {CountryKey}) by { AddRule(f, checked, CountryKey); }
    checked := checked + {CountryKey};
    RulesInOrder();
    valid := errors == map[];
  }

  /** The form is valid exactly when all seven rules pass (line 2 is never checked). */
  lemma ValidIffAllRulesPass(f: CheckoutForm)
    ensures Violations(f) == map[] <==> forall k :: RuleFor(f, k).None?
  {
    var v := Violations(f);
    if v == map[] {
      forall k ensures RuleFor(f, k).None? {
        if k != SubmitKey {
          assert k in FormKeys && k !in v;
        }
      }
    }
  }

  /** The seven rules pass exactly when these fields are filled in and the e-mail is well formed. */
  lemma AllRulesPassIff(f: CheckoutForm)
    ensures (forall k :: RuleFor(f, k).None?) <==>
      && !IsBlank(f.name) && !IsBlank(f.email) && ClientEmailOk(f.email) && !IsBlank(f.phone)
      && !IsBlank(f.address.line1) && !IsBlank(f.address.city)
      && !IsBlank(f.address.postcode) && !IsBlank(f.address.country)
  {
    if forall k :: RuleFor(f, k).None? {
      assert RuleFor(f, NameKey).None? && RuleFor(f, EmailKey).None? && RuleFor(f, PhoneKey).None?;
      assert RuleFor(f, AddressLine1Key).None? && RuleFor(f, CityKey).None?;
      assert RuleFor(f, PostcodeKey).None? && RuleFor(f, CountryKey).None?;
    } else {
      var k :| RuleFor(f, k).Some?;
      match k
      case NameKey =>
      case EmailKey =>
      case PhoneKey =>
      case AddressLine1Key =>
      case CityKey =>
      case PostcodeKey =>
      case CountryKey =>
    }
  }

  /** The e-mail field gets exactly one of its two messages, chosen by blankness first. */
  lemma EmailMessage(f: CheckoutForm)
    ensures IsBlank(f.email) ==> EmailKey in Violations(f) && Violations(f)[EmailKey] == EmailRequired
    ensures !IsBlank(f.email) && !ClientEmailOk(f.email) ==>
      EmailKey in Violations(f) && Violations(f)[EmailKey] == EmailInvalid
    ensures ClientEmailOk(f.email) ==> EmailKey !in Violations(f)
  {
    if ClientEmailOk(f.email) {
      ClientOkNotBlank(f.email);
    }
  }

  /** A form missing both e-mail and phone reports both keys. */
  lemma MissingEmailAndPhone(f: CheckoutForm)
    requires f.email == "" && f.phone == ""
    ensures EmailKey in Violations(f) && PhoneKey in Violations(f)
  {
  }

  /** The text after "address." up to the next '.', as `field.split('.')[1]` gives it. */
  function SegmentBeforeDot(s: string): (r: string)
    ensures |r| <= |s| && r == s[..|r|]
    ensures forall i :: 0 <= i < |r| ==> r[i] != '.'
  {
    if s == [] || s[0] == '.' then [] else [s[0]] + SegmentBeforeDot(s[1..])
  }

  /** The form after `handleInputChange(field, value)`: 'address.X' sets address field X. */
  function WithField(f: CheckoutForm, field: string, value: string): CheckoutForm {
    if StartsWith(field, "address.") then
      var key := SegmentBeforeDot(field[|"address."|..]);
      var a := f.address;
      f.(address :=
        if key == "line1" then a.(line1 := value)
        else if key == "line2" then a.(line2 := value)
        else if key == "city" then a.(city := value)
        else if key == "postcode" then a.(postcode := value)
        else if key == "country" then a.(country := value)
        else a)
    else if field == "name" then f.(name := value)
    else if field == "email" then f.(email := value)
    else if field == "phone" then f.(phone := value)
    else f
  }

  /** A text without '.' is its own first segment. */
  lemma {:induction false} SegmentOfWord(s: string)
    requires forall i :: 0 <= i < |s| ==> s[i] != '.'
    ensures SegmentBeforeDot(s) == s
  {
    if s != [] {
      SegmentOfWord(s[1..]);
    }
  }

  /**
   * Which field an edit sets: 'name', 'email' and 'phone' set only that field,
   * 'address.K' for the five address fields K sets only that address field, and any other
   * field name leaves the form as it was.
   */
  lemma EditSetsOnlyItsField(f: CheckoutForm, field: string, value: string)
    ensures field == "name" ==> WithField(f, field, value) == f.(name := value)
    ensures field == "email" ==> WithField(f, field, value) == f.(email := value)
    ensures field == "phone" ==> WithField(f, field, value) == f.(phone := value)
    ensures field == "address.line1" ==> WithField(f, field, value) == f.(address := f.address.(line1 := value))
    ensures field == "address.line2" ==> WithField(f, field, value) == f.(address := f.address.(line2 := value))
    ensures field == "address.city" ==> WithField(f, field, value) == f.(address := f.address.(city := value))
    ensures field == "address.postcode" ==> WithField(f, field, value) == f.(address := f.address.(postcode := value))
    ensures field == "address.country" ==> WithField(f, field, value) == f.(address := f.address.(country := value))
    ensures !StartsWith(field, "address.") && field != "name" && field != "email" && field != "phone" ==>
      WithField(f, field, value) == f
  {
    if StartsWith(field, "address.") {
      var rest := field[|"address."|..];
      if field in {"address.line1", "address.line2", "address.city", "address.postcode", "address.country"} {
        SegmentOfWord(rest);
      }
    }
  }

  /** The error key whose name is `field`, if any (what `errors[field]` looks up). */
  function KeyNamed(field: string): (r: Option<ErrorKey>)
    ensures r.Some? ==> KeyName(r.value) == field
    ensures r.None? ==> forall k :: KeyName(k) != field
  {
    if field == "name" then Some(NameKey)
    else if field == "email" then Some(EmailKey)
    else if field == "phone" then Some(PhoneKey)
    else if field == "addressLine1" then Some(AddressLine1Key)
    else if field == "city" then Some(CityKey)
    else if field == "postcode" then Some(PostcodeKey)
    else if field == "country" then Some(CountryKey)
    else if field == "submit" then Some(SubmitKey)
    else None
  }

  /** The error map after an edit: the entry keyed by the field name itself, if set, becomes "". */
  function ClearedOnInput(errors: map<ErrorKey, string>, field: string): (r: map<ErrorKey, string>)
    ensures r.Keys == errors.Keys
    ensures forall k :: k in errors && KeyName(k) != field ==> r[k] == errors[k]
    ensures forall k :: k in errors && KeyName(k) == field ==> r[k] == ""
  {
    match KeyNamed(field)
    case Some(k) => if k in errors && errors[k] != "" then errors[k := ""] else errors
    case None => errors
  }

  /**
   * Typing into an address field never clears an error: the address errors are keyed
   * addressLine1, city, postcode and country, while the field names are 'address.*'.
   */
  lemma AddressEditsClearNothing(errors: map<ErrorKey, string>, field: string)
    requires StartsWith(field, "address.")
    ensures ClearedOnInput(errors, field) == errors
  {
    assert field[7] == '.';
    assert KeyNamed(field) == None by {
      assert field != "addressLine1" by { assert "addressLine1"[7] == 'L'; }
    }
  }

  /** `line1, [line2, ]city, postcode, country`. */
  function ShippingAddress(a: Address): string {
    a.line1 + ", " + (if a.line2 != "" then a.line2 + ", " else "") + a.city + ", " + a.postcode + ", " + a.country
  }

  /** The line-2 segment appears exactly when line 2 is non-empty. */
  lemma ShippingAddressSegments(a: Address)
    ensures a.line2 == "" ==> ShippingAddress(a) == a.line1 + ", " + a.city + ", " + a.postcode + ", " + a.country
    ensures a.line2 != "" ==>
      ShippingAddress(a) == a.line1 + ", " + a.line2 + ", " + a.city + ", " + a.postcode + ", " + a.country
  {
  }

  datatype PayloadItem = PayloadItem(productId: string, name: string, quantity: int, price: real)

  /** The JSON body POSTed to the orders API. */
  datatype OrderPayload = OrderPayload(
    customerName: string,
    customerEmail: string,
    customerPhone: string,
    shippingAddress: string,
    paymentMethod: string,
    items: seq<PayloadItem>,
    subtotal: real,
    shipping: real,
    total: real)

  function PayloadItems(cart: seq<CartItem>): (r: seq<PayloadItem>)
    ensures |r| == |cart|
    ensures forall i :: 0 <= i < |cart| ==>
      r[i] == PayloadItem(cart[i].productId, cart[i].name, cart[i].quantity, cart[i].price)
  {
    seq(|cart|, i requires 0 <= i < |cart| => PayloadItem(cart[i].productId, cart[i].name, cart[i].quantity, cart[i].price))
  }

  function Payload(f: CheckoutForm, cart: seq<CartItem>, subtotal: real): OrderPayload {
    OrderPayload(f.name, f.email, f.phone, ShippingAddress(f.address), "pending",
      PayloadItems(cart), subtotal, Pricing.Shipping(subtotal), Pricing.Total(subtotal))
  }

  /**
   * The payload carries the cart page's own total (tax included) for the same subtotal,
   * payment method 'pending', and one item per cart line in cart order.
   */
  lemma PayloadMatchesCartPage(f: CheckoutForm, cart: seq<CartItem>, subtotal: real)
    requires |cart| > 0 && subtotal >= 0.0
    ensures var p := Payload(f, cart, subtotal);
      && p.total == Pricing.View(cart, subtotal).total
      && p.total == subtotal + p.shipping + subtotal * Pricing.TaxRate
      && p.total >= subtotal
      && p.paymentMethod == "pending"
      && |p.items| == |cart|
      && forall i :: 0 <= i < |cart| ==> p.items[i].productId == cart[i].productId && p.items[i].quantity == cart[i].quantity
  {
    Pricing.TotalCoversSubtotal(subtotal);
  }

  datatype StoredItem = StoredItem(productId: string, title: string, price: real, qty: int, image: string)

  /** The order record appended to the browser's 'nujuum-orders' list. */
  datatype StoredOrder = StoredOrder(
    orderId: string,
    status: Status,
    items: seq<StoredItem>,
    customer: CheckoutForm,
    subtotal: real,
    total: real,
    createdAt: string)

  /** The stored lines: line i keeps cart line i's product id, name (as title), price, quantity (as qty) and image. */
  function StoredItems(cart: seq<CartItem>): (r: seq<StoredItem>)
    ensures |r| == |cart|
    ensures forall i :: 0 <= i < |cart| ==>
      && r[i].productId == cart[i].productId && r[i].title == cart[i].name
      && r[i].price == cart[i].price && r[i].qty == cart[i].quantity && r[i].image == cart[i].image
  {
    seq(|cart|, i requires 0 <= i < |cart| => StoredItem(cart[i].productId, cart[i].name, cart[i].price, cart[i].quantity, cart[i].image))
  }

  /**
   * The order kept in browser storage: the returned id, 'pending', the cart's lines, the form
   * as the customer, the subtotal, the taxed total and the submission time.
   */
  function StoredOrderOf(orderId: string, f: CheckoutForm, cart: seq<CartItem>, subtotal: real, now: string): (r: StoredOrder)
    ensures r.status == Pending && r.orderId == orderId
    ensures r.items == StoredItems(cart) && r.customer == f && r.createdAt == now
    ensures r.subtotal == subtotal && r.total == subtotal + Pricing.Shipping(subtotal) + subtotal * Pricing.TaxRate
  {
    StoredOrder(orderId, Pending, StoredItems(cart), f, subtotal, Pricing.Total(subtotal), now)
  }

  /**
   * The order kept in browser storage agrees with the payload sent to the orders API: the
   * same lines in the same order, the same subtotal and total, and the customer whose name,
   * e-mail, phone and address were sent.
   */
  lemma StoredOrderMatchesPayload(orderId: string, f: CheckoutForm, cart: seq<CartItem>, subtotal: real, now: string)
    ensures var o := StoredOrderOf(orderId, f, cart, subtotal, now);
      var p := Payload(f, cart, subtotal);
      && |o.items| == |p.items|
      && (forall i :: 0 <= i < |p.items| ==>
            && o.items[i].productId == p.items[i].productId && o.items[i].title == p.items[i].name
            && o.items[i].price == p.items[i].price && o.items[i].qty == p.items[i].quantity)
      && o.subtotal == p.subtotal && o.total == p.total
      && o.customer.name == p.customerName && o.customer.email == p.customerEmail
      && o.customer.phone == p.customerPhone && ShippingAddress(o.customer.address) == p.shippingAddress
  {
    var o := StoredOrderOf(orderId, f, cart, subtotal, now);
    var p := Payload(f, cart, subtotal);
    assert |o.items| == |cart| == |p.items|;
  }

  /** How the orders API answered: created with an id, refused (non-2xx), or the request threw. */
  datatype SubmitOutcome = Created(orderId: string) | Refused | NetworkFailure

  class CheckoutPage {
    var form: CheckoutForm
    var errors: map<ErrorKey, string>
    var isProcessing: bool
    /** The cart store's lines, as the page sees them. */
    var cart: seq<CartItem>
    /** The browser's 'nujuum-orders' list. */
    var storedOrders: seq<StoredOrder>
    /** The last target passed to `onNavigate`, if any. */
    var navigatedTo: Option<string>

    constructor (cart0: seq<CartItem>, stored0: seq<StoredOrder>)
      ensures form == CheckoutForm("", "", "", Address("", "", "", "", ""))
      ensures errors == map[] && !isProcessing && navigatedTo == None
      ensures cart == cart0 && storedOrders == stored0
    {
      form := CheckoutForm("", "", "", Address("", "", "", "", ""));
      errors := map[];
      isProcessing := false;
      cart := cart0;
      storedOrders := stored0;
      navigatedTo := None;
    }

    /** `handleInputChange`: updates the field and clears the error keyed by the field name. */
    method HandleInputChange(field: string, value: string)
      modifies this
      ensures form == WithField(old(form), field, value)
      ensures errors == ClearedOnInput(old(errors), field)
      ensures isProcessing == old(isProcessing) && cart == old(cart)
      ensures storedOrders == old(storedOrders) && navigatedTo == old(navigatedTo)
    {
      form := WithField(form, field, value);
      match KeyNamed(field) {
        case Some(k) =>
          if k in errors && errors[k] != "" {
            errors := errors[k := ""];
          }
        case None =>
      }
    }

    /**
     * `handleSubmit`. An invalid form shows its errors and sends nothing. A valid one sends
     * the payload; on success the order is stored as 'pending', the cart is cleared and the
     * page moves to the confirmation; on any failure the errors become exactly {submit} and
     * the cart and stored orders are untouched. The processing flag is cleared at the end.
     */
    method HandleSubmit(subtotal: real, outcome: SubmitOutcome, now: string) returns (sent: Option<OrderPayload>)
      modifies this
      ensures form == old(form)
      ensures Violations(old(form)) != map[] ==>
        && sent == None && errors == Violations(old(form))
        && isProcessing == old(isProcessing) && cart == old(cart)
        && storedOrders == old(storedOrders) && navigatedTo == old(navigatedTo)
      ensures Violations(old(form)) == map[] ==>
        sent == Some(Payload(old(form), old(cart), subtotal)) && !isProcessing
      ensures Violations(old(form)) == map[] && outcome.Created? ==>
        && storedOrders == old(storedOrders) + [StoredOrderOf(outcome.orderId, old(form), old(cart), subtotal, now)]
        && cart == [] && errors == map[]
        && navigatedTo == Some("confirmation/" + outcome.orderId)
      ensures Violations(old(form)) == map[] && !outcome.Created? ==>
        && errors == map[SubmitKey := SubmitFailed]
        && cart == old(cart) && storedOrders == old(storedOrders) && navigatedTo == old(navigatedTo)
    {
      var newErrors, valid := ValidateForm(form);
      errors := newErrors;
      if !valid {
        sent := None;
        return;
      }
      isProcessing := true;
      sent := Some(Payload(form, cart, subtotal));
      match outcome {
        case Created(orderId) =>
          storedOrders := storedOrders + [StoredOrderOf(orderId, form, cart, subtotal, now)];
          cart := [];
          navigatedTo := Some("confirmation/" + orderId);
        case _ =>
          errors := map[SubmitKey := SubmitFailed];
      }
      isProcessing := false;
    }
  }
}
