/**
 * Submit validation of the order page: four guards checked in a fixed
 * order, the first failing one deciding the outcome, and the order payload
 * that is built only when every guard passes.
 */
module Checkout {
  import opened Wrappers
  import opened Cart

  /** The text fields of the order form. */
  datatype Form = Form(
    customerName: string,
    customerPhone: string,
    customerLineId: string,
    pickupTime: string,
    notes: string)

  /** A cart line as it is sent: the display glyph is dropped. */
  datatype PayloadItem = PayloadItem(id: int, name: string, price: int, quantity: int)

  /** The order object that is serialised into the request body. */
  datatype Payload = Payload(
    customerName: string,
    customerPhone: string,
    customerLineId: string,
    pickupTime: string,
    notes: string,
    items: seq<PayloadItem>,
    totalAmount: int,
    timestamp: string)

  /** Why a submit attempt was refused. */
  datatype Rejection = NameMissing | PhoneInvalid | PickupMissing | CartEmpty

  predicate IsDigit(c: char)
  {
    '0' <= c <= '9'
  }

  /** The phone pattern: exactly ten ASCII digits and nothing else. */
  predicate IsValidPhone(phone: string)
  {
    |phone| == 10 && forall i :: 0 <= i < |phone| ==> IsDigit(phone[i])
  }

  /** The cart lines projected to the fields the payload carries, in cart order. */
  function Project(cart: seq<Line>): (items: seq<PayloadItem>)
    ensures |items| == |cart|
    ensures forall k :: 0 <= k < |cart| ==>
      items[k] == PayloadItem(cart[k].id, cart[k].name, cart[k].price, cart[k].quantity)
  {
    if cart == [] then []
    else Project(cart[..|cart| - 1]) + [ProjectLine(cart[|cart| - 1])]
  }

  function ProjectLine(line: Line): PayloadItem
  {
    PayloadItem(line.id, line.name, line.price, line.quantity)
  }

  /** The payload for a form, a cart and the submission time. */
  function BuildPayload(form: Form, cart: seq<Line>, timestamp: string): Payload
  {
    Payload(form.customerName, form.customerPhone, form.customerLineId, form.pickupTime,
            form.notes, Project(cart), Total(cart), timestamp)
  }

  /**
   * The guard chain: name, phone, pickup time, cart, in that order; the first
   * one that fails is the only one reported.
   */
  function Validate(form: Form, cart: seq<Line>, timestamp: string): (r: Result<Payload, Rejection>)
    ensures r == Err(NameMissing) <==> form.customerName == ""
    ensures r == Err(PhoneInvalid) <==> form.customerName != "" && !IsValidPhone(form.customerPhone)
    ensures r == Err(PickupMissing)
        <==> form.customerName != "" && IsValidPhone(form.customerPhone) && form.pickupTime == ""
    ensures r == Err(CartEmpty)
        <==> form.customerName != "" && IsValidPhone(form.customerPhone) && form.pickupTime != ""
             && cart == []
    ensures r.Ok? <==>
      form.customerName != "" && IsValidPhone(form.customerPhone) && form.pickupTime != "" && cart != []
  {
    if form.customerName == "" then Err(NameMissing)
    else if !IsValidPhone(form.customerPhone) then Err(PhoneInvalid)
    else if form.pickupTime == "" then Err(PickupMissing)
    else if |cart| == 0 then Err(CartEmpty)
    else Ok(BuildPayload(form, cart, timestamp))
  }

  /** An accepted payload copies the form, lists the cart lines in order and carries the cart total. */
  lemma AcceptedPayload(form: Form, cart: seq<Line>, timestamp: string)
    requires Validate(form, cart, timestamp).Ok?
    ensures var p := Validate(form, cart, timestamp).value;
      && p.customerName == form.customerName && p.customerPhone == form.customerPhone
      && p.customerLineId == form.customerLineId && p.pickupTime == form.pickupTime
      && p.notes == form.notes && p.timestamp == timestamp
      && p.totalAmount == Total(cart)
      && |p.items| == |cart| >= 1
      && forall k :: 0 <= k < |cart| ==>
           p.items[k].id == cart[k].id && p.items[k].name == cart[k].name
           && p.items[k].price == cart[k].price && p.items[k].quantity == cart[k].quantity
  {
  }

  /** The payload total is the sum of price times quantity over its own items. */
  function ItemsTotal(items: seq<PayloadItem>): int
  {
    if items == [] then 0
    else ItemsTotal(items[..|items| - 1]) + items[|items| - 1].price * items[|items| - 1].quantity
  }

  lemma {:induction false} ProjectTotal(cart: seq<Line>)
    ensures ItemsTotal(Project(cart)) == Total(cart)
  {
    if cart != [] {
      var init := cart[..|cart| - 1];
      ProjectTotal(init);
      assert Project(cart)[..|cart| - 1] == Project(init);
    }
  }

  /** A payload is self-consistent: its totalAmount equals the sum over its items. */
  lemma PayloadTotalConsistent(form: Form, cart: seq<Line>, timestamp: string)
    requires Validate(form, cart, timestamp).Ok?
    ensures var p := Validate(form, cart, timestamp).value; p.totalAmount == ItemsTotal(p.items)
  {
    ProjectTotal(cart);
  }

  /** An accepted payload from a valid cart has distinct item ids and positive quantities. */
  lemma PayloadItemsValid(form: Form, cart: seq<Line>, timestamp: string)
    requires Valid(cart) && Validate(form, cart, timestamp).Ok?
    ensures var items := Validate(form, cart, timestamp).value.items;
      && (forall i, j :: 0 <= i < j < |items| ==> items[i].id != items[j].id)
      && (forall i :: 0 <= i < |items| ==> items[i].quantity >= 1)
  {
  }

  /** With an empty name every other field is irrelevant: only the name error is reported. */
  lemma NameCheckedFirst(form: Form, cart: seq<Line>, timestamp: string)
    requires form.customerName == ""
    ensures Validate(form, cart, timestamp) == Err(NameMissing)
  {
  }

  /** Sample phone numbers: ten digits pass; nine, eleven or letters fail. */
  lemma PhoneSamples()
    ensures IsValidPhone("0912345678")
    ensures !IsValidPhone("091234567")
    ensures !IsValidPhone("09123456789")
    ensures !IsValidPhone("abcdefghij")
  {
    assert !IsDigit("abcdefghij"[0]);
  }
}
