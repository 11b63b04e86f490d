/**
 * The order page component: the state slots it holds and the handlers
 * that overwrite them. Clock readings (the default pickup time, the
 * submission timestamp) and the outcome of the network request are passed
 * in as parameters.
 */
module OrderPage {
  import opened Wrappers
  import opened Cart
  import opened Checkout

  datatype Kind = Success | Error

  /** What a notification says; the display text itself is not modelled. */
  datatype Message =
    | ItemAdded(name: string)                          // "added <name>"
    | NameRequired                                     // "please enter the customer name"
    | PhoneRequired                                    // "please enter a valid phone number"
    | PickupRequired                                   // "please choose a pickup time"
    | ItemsRequired                                    // "please choose at least one item"
    | OrderSent(pickupTime: string, totalAmount: int)  // "order sent", pickup time and total
    | SubmitFailed                                     // "order could not be sent, try later"

  datatype Notification = Notification(message: Message, kind: Kind)

  /** Whether the request could be issued or the call threw before sending. */
  datatype Transport = Sent | Threw

  /** The error notification for each refused submit. */
  function RejectionNotice(e: Rejection): (n: Notification)
    ensures n.kind == Error
    ensures e == NameMissing <==> n.message == NameRequired
    ensures e == PhoneInvalid <==> n.message == PhoneRequired
    ensures e == PickupMissing <==> n.message == PickupRequired
    ensures e == CartEmpty <==> n.message == ItemsRequired
  {
    match e
    case NameMissing => Notification(NameRequired, Error)
    case PhoneInvalid => Notification(PhoneRequired, Error)
    case PickupMissing => Notification(PickupRequired, Error)
    case CartEmpty => Notification(ItemsRequired, Error)
  }

  /** The first menu entry with the given id. */
  function MenuLookup(menu: seq<MenuItem>, id: int): (r: Option<MenuItem>)
    ensures r.Some? ==> r.value in menu && r.value.id == id
    ensures r.None? ==> forall i :: 0 <= i < |menu| ==> menu[i].id != id
  {
    if menu == [] then None
    else if menu[0].id == id then Some(menu[0])
    else
      assert forall i :: 0 < i < |menu| ==> menu[i] == menu[1..][i - 1];
      MenuLookup(menu[1..], id)
  }

  /** The entry found is the first one carrying the id. */
  lemma {:induction false} MenuLookupFirst(menu: seq<MenuItem>, k: int)
    requires 0 <= k < |menu| && forall j :: 0 <= j < k ==> menu[j].id != menu[k].id
    ensures MenuLookup(menu, menu[k].id) == Some(menu[k])
  {
    if k > 0 {
      assert menu[1..][k - 1] == menu[k];
      MenuLookupFirst(menu[1..], k - 1);
    }
  }

  class Order {
    var orderItems: seq<Line>
    var customerName: string
    var customerPhone: string
    var customerLineId: string
    var pickupTime: string
    var orderNotes: string
    var isLoading: bool
    var notification: Option<Notification>

    /** The cart invariant: lines keyed by id, every quantity at least 1. */
    ghost predicate Valid()
      reads this
    {
      Cart.Valid(orderItems)
    }

    function Form(): Checkout.Form
      reads this
    {
      Checkout.Form(customerName, customerPhone, customerLineId, pickupTime, orderNotes)
    }

    /** The memoised total of the current cart. */
    function TotalAmount(): int
      reads this
    {
      Total(orderItems)
    }

    /** Initial state; `defaultPickup` is the clock-derived default pickup time. */
    constructor (defaultPickup: string)
      ensures Valid()
      ensures orderItems == [] && customerName == "" && customerPhone == ""
      ensures customerLineId == "" && pickupTime == defaultPickup && orderNotes == ""
      ensures !isLoading && notification == None
    {
      orderItems := [];
      customerName := "";
      customerPhone := "";
      customerLineId := "";
      pickupTime := defaultPickup;
      orderNotes := "";
      isLoading := false;
      notification := None;
    }

    method SetCustomerName(value: string)
      modifies this`customerName
      ensures customerName == value
    {
      customerName := value;
    }

    method SetCustomerPhone(value: string)
      modifies this`customerPhone
      ensures customerPhone == value
    {
      customerPhone := value;
    }

    method SetCustomerLineId(value: string)
      modifies this`customerLineId
      ensures customerLineId == value
    {
      customerLineId := value;
    }

    method SetPickupTime(value: string)
      modifies this`pickupTime
      ensures pickupTime == value
    {
      pickupTime := value;
    }

    method SetOrderNotes(value: string)
      modifies this`orderNotes
      ensures orderNotes == value
    {
      orderNotes := value;
    }

    /** Adds one unit of a menu item and announces it. */
    method AddItem(item: MenuItem)
      requires Valid()
      modifies this`orderItems, this`notification
      ensures Valid()
      ensures orderItems == Cart.AddItem(old(orderItems), item)
      ensures notification == Some(Notification(ItemAdded(item.name), Success))
    {
      AddPreservesValid(orderItems, item);
      orderItems := Cart.AddItem(orderItems, item);
      notification := Some(Notification(ItemAdded(item.name), Success));
    }

    /**
     * A choice in the menu selector: nothing when the choice is empty or
     * names no menu entry, otherwise the entry is added.
     */
    method SelectMenuItem(menu: seq<MenuItem>, choice: Option<int>)
      requires Valid()
      modifies this`orderItems, this`notification
      ensures Valid()
      ensures choice.Some? && MenuLookup(menu, choice.value).Some? ==>
        orderItems == Cart.AddItem(old(orderItems), MenuLookup(menu, choice.value).value)
        && notification == Some(Notification(ItemAdded(MenuLookup(menu, choice.value).value.name), Success))
      ensures choice.None? || MenuLookup(menu, choice.value).None? ==>
        orderItems == old(orderItems) && notification == old(notification)
    {
      if choice.Some? {
        var found := MenuLookup(menu, choice.value);
        if found.Some? {
          AddItem(found.value);
        }
      }
    }

    /** Changes a line's quantity by `delta`, removing it when that leaves nothing. */
    method UpdateQuantity(id: int, delta: int)
      requires Valid()
      modifies this`orderItems
      ensures Valid()
      ensures orderItems == Cart.UpdateQuantity(old(orderItems), id, delta)
    {
      UpdatePreservesValid(orderItems, id, delta);
      orderItems := Cart.UpdateQuantity(orderItems, id, delta);
    }

    method RemoveItem(id: int)
      requires Valid()
      modifies this`orderItems
      ensures Valid()
      ensures orderItems == Cart.RemoveItem(old(orderItems), id)
    {
      RemovePreservesValid(orderItems, id);
      orderItems := Cart.RemoveItem(orderItems, id);
    }

    /** The 3-second timer's effect: the notification disappears. */
    method DismissNotification()
      modifies this`notification
      ensures notification == None
    {
      notification := None;
    }

    /** Clears the cart and the text fields; the pickup time returns to its clock default. */
    method ResetForm(defaultPickup: string)
      modifies this`orderItems, this`customerName, this`customerPhone, this`customerLineId,
               this`orderNotes, this`pickupTime
      ensures Valid()
      ensures orderItems == [] && customerName == "" && customerPhone == ""
      ensures customerLineId == "" && orderNotes == "" && pickupTime == defaultPickup
    {
      orderItems := [];
      customerName := "";
      customerPhone := "";
      customerLineId := "";
      orderNotes := "";
      pickupTime := defaultPickup;
    }

    /**
     * A submit attempt. A refused attempt only shows its error. An accepted
     * one builds the payload, turns the busy flag on and issues the request;
     * if the request throws, the busy flag goes off again and a failure is
     * shown, and the cart and form stay as they are for a retry.
     */
    method Submit(timestamp: string, transport: Transport) returns (r: Result<Payload, Rejection>)
      modifies this`isLoading, this`notification
      ensures r == Validate(Form(), orderItems, timestamp)
      ensures r.Ok? ==> r.value.totalAmount == TotalAmount()
      ensures r.Err? ==> notification == Some(RejectionNotice(r.error)) && isLoading == old(isLoading)
      ensures r.Ok? && transport == Sent ==> isLoading && notification == old(notification)
      ensures r.Ok? && transport == Threw ==>
        !isLoading && notification == Some(Notification(SubmitFailed, Error))
    {
      r := Validate(Form(), orderItems, timestamp);
      if r.Err? {
        notification := Some(RejectionNotice(r.error));
        return;
      }
      isLoading := true;
      if transport == Threw {
        isLoading := false;
        notification := Some(Notification(SubmitFailed, Error));
      }
    }

    /**
     * The delayed completion of a sent order: the busy flag goes off, the
     * snapshot's pickup time and total are announced, and the form is reset.
     */
    method CompleteSubmission(sent: Payload, defaultPickup: string)
      modifies this`isLoading, this`notification, this`orderItems, this`customerName,
               this`customerPhone, this`customerLineId, this`orderNotes, this`pickupTime
      ensures Valid() && !isLoading
      ensures notification == Some(Notification(OrderSent(sent.pickupTime, sent.totalAmount), Success))
      ensures orderItems == [] && customerName == "" && customerPhone == ""
      ensures customerLineId == "" && orderNotes == "" && pickupTime == defaultPickup
    {
      isLoading := false;
      notification := Some(Notification(OrderSent(sent.pickupTime, sent.totalAmount), Success));
      ResetForm(defaultPickup);
    }
  }
}
