/** The shop's menu catalogue, used as a concrete fixture for the cart and the order page. */
module Menu {
  import opened Wrappers
  import opened Cart
  import opened Checkout
  import opened OrderPage

  const Items: seq<MenuItem> := [
    MenuItem(1, "滷肉飯", 35, "🍜"),
    MenuItem(2, "雞肉飯", 40, "🍚"),
    MenuItem(3, "蚵仔煎", 65, "🦪"),
    MenuItem(4, "大腸麵線", 50, "🍲"),
    MenuItem(5, "珍珠奶茶", 45, "🥤"),
    MenuItem(6, "鹽酥雞", 60, "🍗"),
    MenuItem(7, "甜不辣", 40, "🐟"),
    MenuItem(8, "蚵仔酥", 70, "🦪"),
    MenuItem(9, "肉圓", 45, "🥟"),
    MenuItem(10, "碗粿", 35, "🍮"),
    MenuItem(11, "豬血湯", 30, "🍵"),
    MenuItem(12, "四神湯", 40, "🍵"),
    MenuItem(13, "貢丸湯", 30, "🍵"),
    MenuItem(14, "燙青菜", 35, "🥬"),
    MenuItem(15, "茶葉蛋", 15, "🥚"),
    MenuItem(16, "滷蛋", 15, "🥚"),
    MenuItem(17, "油豆腐", 20, "🧈"),
    MenuItem(18, "涼拌小黃瓜", 30, "🥒")
  ]

  /** The catalogue's entries carry the ids 1 to 18 in order, so ids are unique, and no price is negative. */
  lemma ItemsWellFormed()
    ensures |Items| == 18
    ensures forall i :: 0 <= i < |Items| ==> Items[i].id == i + 1 && Items[i].price >= 0
    ensures forall i, j :: 0 <= i < j < |Items| ==> Items[i].id != Items[j].id
  {
  }

  /** Choosing id n in the selector finds the n-th catalogue entry. */
  lemma LookupById(k: int)
    requires 0 <= k < |Items|
    ensures MenuLookup(Items, k + 1) == Some(Items[k])
  {
    ItemsWellFormed();
    MenuLookupFirst(Items, k);
  }

  /** Adding item 1 twice and item 3 once gives two lines and a total of 35 * 2 + 65 = 135. */
  lemma SampleCart()
    ensures AddItem(AddItem(AddItem([], Items[0]), Items[0]), Items[2])
         == [Line(1, "滷肉飯", 35, "🍜", 2), Line(3, "蚵仔煎", 65, "🦪", 1)]
    ensures Total(AddItem(AddItem(AddItem([], Items[0]), Items[0]), Items[2])) == 135
  {
    AddTwice([], Items[0]);
    var two := AddItem(AddItem([], Items[0]), Items[0]);
    assert two == [Line(1, "滷肉飯", 35, "🍜", 2)];
    AddAbsent(two, Items[2]);
    var lines := [Line(1, "滷肉飯", 35, "🍜", 2), Line(3, "蚵仔煎", 65, "🦪", 1)];
    assert lines[..1] == [lines[0]];
    assert [lines[0]][..0] == [];
  }

  /** With valid contact details but an empty cart the submit is refused and nothing is sent. */
  method EmptyCartScenario()
  {
    var page := new Order("2025-01-01T12:30");
    page.SetCustomerName("王小明");
    page.SetCustomerPhone("0912345678");
    PhoneSamples();
    var refused := page.Submit("2025-01-01T12:00:00.000Z", Sent);
    assert refused == Err(CartEmpty);
    assert page.notification == Some(Notification(ItemsRequired, Error)) && !page.isLoading;
  }

  /** A customer orders items worth 135, submits, and the page resets after the delayed completion. */
  method CheckoutScenario()
  {
    var page := new Order("2025-01-01T12:30");
    page.SetCustomerName("王小明");
    page.SetCustomerPhone("0912345678");
    var first, third := Items[0], Items[2];
    page.AddItem(first);
    page.AddItem(first);
    page.AddItem(third);
    SampleCart();
    assert page.orderItems == [Line(1, "滷肉飯", 35, "🍜", 2), Line(3, "蚵仔煎", 65, "🦪", 1)];
    PhoneSamples();
    var accepted := page.Submit("2025-01-01T12:00:00.000Z", Sent);
    assert accepted.Ok? && accepted.value.totalAmount == 135;
    assert page.isLoading;
    page.CompleteSubmission(accepted.value, "2025-01-01T12:35");
    assert page.orderItems == [] && page.customerName == "" && !page.isLoading;
    assert page.notification == Some(Notification(OrderSent("2025-01-01T12:30", 135), Success));
  }
}
