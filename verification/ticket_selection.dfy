/** The ticket-selection page (src/pages/TicketSelection.tsx): it looks up one
    event in a fixed catalogue, keeps a per-session map from category id to
    requested quantity, shows the grand total and hands a cart of the
    non-zero selections to checkout. */
module TicketSelection {
  import opened Prelude
  import opened Types

  // ---------------------------------------------------------------------
  // Catalogue
  // ---------------------------------------------------------------------

  /** The four categories every mock event offers. */
  function MockCategories(): seq<TicketCategory> {
    [ TicketCategory("1", "Regular", 300, "KES", 100, None),
      TicketCategory("2", "Silver", 500, "KES", 50, None),
      TicketCategory("3", "VIP", 2000, "KES", 20, None),
      TicketCategory("4", "VVIP", 5000, "KES", 10, None) ]
  }

  const Kenya := Team("Kenya", "\U{1F1F0}\U{1F1EA}")

  /** The hard-coded catalogue the page searches. */
  function MockEvents(): seq<Event> {
    [ Event("1", "Kenya vs Gambia", "2026 World Cup Qualifiers",
            "FRIDAY 5TH, SEPTEMBER", "4:00 PM",
            "MOI INTERNATIONAL SPORTS CENTRE (MISC), KASARANI", "Nairobi, Kenya",
            Some("https://s3.amazonaws.com/tikiti.ke/01K3TG4B17ADWFSYH0WE7PS33Z.jpeg"),
            Some(Teams(Kenya, Team("Gambia", "\U{1F1EC}\U{1F1F2}"))),
            MockCategories()),
      Event("2", "Kenya vs Seychelles", "2026 World Cup Qualifiers",
            "TUESDAY 9TH, SEPTEMBER", "4:00 PM",
            "MOI INTERNATIONAL SPORTS CENTRE (MISC), KASARANI", "Nairobi, Kenya",
            Some("https://s3.amazonaws.com/tikiti.ke/01K3TG4B17ADWFSYH0WE7PS34A.jpeg"),
            Some(Teams(Kenya, Team("Seychelles", "\U{1F1F8}\U{1F1E8}"))),
            MockCategories()) ]
  }

  /** `mockEvents.find(e => e.id === eventId)`: the first event with that
      id, or nothing (the page then redirects to the event list). */
  function FindEvent(events: seq<Event>, id: string): (r: Option<Event>)
    ensures r.None? <==> forall i :: 0 <= i < |events| ==> events[i].id != id
    ensures r.Some? ==>
      r.value.id == id &&
      exists i :: 0 <= i < |events| && events[i] == r.value &&
        forall j :: 0 <= j < i ==> events[j].id != id
  {
    Find(events, (e: Event) => e.id == id)
  }

  /** The two mock events are found by their ids; every other id is not. */
  lemma MockEventLookup(id: string)
    ensures id == "1" ==> FindEvent(MockEvents(), id) == Some(MockEvents()[0])
    ensures id == "2" ==> FindEvent(MockEvents(), id) == Some(MockEvents()[1])
    ensures id != "1" && id != "2" ==> FindEvent(MockEvents(), id) == None
  {
    var evs := MockEvents();
    if id == "2" {
      var r := FindEvent(evs, id);
      var i :| 0 <= i < |evs| && evs[i] == r.value && forall j :: 0 <= j < i ==> evs[j].id != id;
      assert evs[0].id != id;
      assert i == 1;
    }
  }

  /** The catalogue meets what the total and cart lemmas assume of an
      event: unique category ids and non-negative prices. */
  lemma MockCatalogueWellFormed()
    ensures DistinctIds(MockCategories()) && NonNegativePrices(MockCategories())
  {
  }

  // ---------------------------------------------------------------------
  // Categories and prices
  // ---------------------------------------------------------------------

  /** Category ids are unique within an event. */
  ghost predicate DistinctIds(cats: seq<TicketCategory>) {
    forall i, j :: 0 <= i < j < |cats| ==> cats[i].id != cats[j].id
  }

  ghost predicate HasCategory(cats: seq<TicketCategory>, id: string) {
    exists i :: 0 <= i < |cats| && cats[i].id == id
  }

  ghost predicate NonNegativePrices(cats: seq<TicketCategory>) {
    forall i :: 0 <= i < |cats| ==> cats[i].price >= 0
  }

  /** `event?.categories.find(c => c.id === categoryId)?.price || 0`: the
      unit price of the first category with that id, or 0 when there is no
      event or no such category. */
  function PriceOf(event: Option<Event>, id: string): (r: int)
    ensures event.None? || !HasCategory(event.value.categories, id) ==> r == 0
    ensures event.Some? && HasCategory(event.value.categories, id) ==>
      exists i :: 0 <= i < |event.value.categories| &&
        event.value.categories[i].id == id && r == event.value.categories[i].price &&
        forall j :: 0 <= j < i ==> event.value.categories[j].id != id
  {
    match event
    case None => 0
    case Some(e) =>
      match Find(e.categories, (c: TicketCategory) => c.id == id)
      case None => 0
      case Some(c) => c.price
  }

  /** With unique category ids, the price looked up by a category's id is
      that category's own price. */
  lemma PriceOfUnique(e: Event, i: nat)
    requires DistinctIds(e.categories)
    requires i < |e.categories|
    ensures PriceOf(Some(e), e.categories[i].id) == e.categories[i].price
  {
    assert HasCategory(e.categories, e.categories[i].id);
  }

  // ---------------------------------------------------------------------
  // The quantities map
  // ---------------------------------------------------------------------

  /** Every stored quantity is at least 0. */
  ghost predicate NonNegative(q: map<string, int>) {
    forall k :: k in q ==> q[k] >= 0
  }

  /** `quantities[id] || 0`: the stored quantity, 0 when absent. */
  function QuantityOf(q: map<string, int>, id: string): int {
    if id in q then q[id] else 0
  }

  /** `Math.max(0, v)` */
  function AtLeastZero(v: int): int {
    if v < 0 then 0 else v
  }

  /** The map after `handleQuantityChange(id, v)`. */
  function SetQuantity(q: map<string, int>, id: string, v: int): (r: map<string, int>)
    ensures r.Keys == q.Keys + {id}
    ensures id in r && r[id] >= 0
    ensures v >= 0 ==> r[id] == v
    ensures v < 0 ==> r[id] == 0
    ensures forall k :: k in q && k != id ==> r[k] == q[k]
    ensures NonNegative(q) ==> NonNegative(r)
  {
    q[id := AtLeastZero(v)]
  }

  /** Repeating the same change leaves the map as one change left it. */
  lemma SetQuantityIdempotent(q: map<string, int>, id: string, v: int)
    ensures SetQuantity(SetQuantity(q, id, v), id, v) == SetQuantity(q, id, v)
  {
  }

  // ---------------------------------------------------------------------
  // The grand total
  // ---------------------------------------------------------------------

  /** `categories.reduce((total, c) => total + c.price * (q[c.id] || 0), 0)`,
      folded from the left. */
  function CategoriesTotal(cats: seq<TicketCategory>, q: map<string, int>): int {
    if |cats| == 0 then 0
    else
      var last := cats[|cats| - 1];
      CategoriesTotal(cats[..|cats| - 1], q) + last.price * QuantityOf(q, last.id)
  }

  /** `calculateTotal()`: 0 when no event is loaded. */
  function Total(event: Option<Event>, q: map<string, int>): int {
    match event
    case None => 0
    case Some(e) => CategoriesTotal(e.categories, q)
  }

  lemma {:induction false} CategoriesTotalNonNegative(cats: seq<TicketCategory>, q: map<string, int>)
    requires NonNegativePrices(cats) && NonNegative(q)
    ensures CategoriesTotal(cats, q) >= 0
  {
    if |cats| > 0 {
      var last := cats[|cats| - 1];
      CategoriesTotalNonNegative(cats[..|cats| - 1], q);
      assert last.price * QuantityOf(q, last.id) >= 0;
    }
  }

  /** No event gives 0; non-negative prices and quantities give a
      non-negative total. */
  lemma TotalNonNegative(event: Option<Event>, q: map<string, int>)
    requires event.Some? ==> NonNegativePrices(event.value.categories)
    requires NonNegative(q)
    ensures event.None? ==> Total(event, q) == 0
    ensures Total(event, q) >= 0
  {
    if event.Some? {
      CategoriesTotalNonNegative(event.value.categories, q);
    }
  }

  /** A prefix one longer has the category iff the shorter one has it or
      the added category carries the id. */
  lemma HasCategoryExtend(cats: seq<TicketCategory>, n: nat, id: string)
    requires n < |cats|
    ensures HasCategory(cats[..n + 1], id) <==> HasCategory(cats[..n], id) || cats[n].id == id
  {
    if HasCategory(cats[..n + 1], id) {
      var i :| 0 <= i < n + 1 && cats[..n + 1][i].id == id;
      if i < n { assert cats[..n][i].id == id; }
    }
    if HasCategory(cats[..n], id) {
      var i :| 0 <= i < n && cats[..n][i].id == id;
      assert cats[..n + 1][i].id == id;
    }
    if cats[n].id == id {
      assert cats[..n + 1][n].id == id;
    }
  }

  lemma {:induction false} CategoriesTotalAfterChange(e: Event, n: nat, q: map<string, int>, id: string, v: int)
    requires n <= |e.categories|
    requires DistinctIds(e.categories)
    ensures CategoriesTotal(e.categories[..n], SetQuantity(q, id, v)) ==
      CategoriesTotal(e.categories[..n], q) +
      (if HasCategory(e.categories[..n], id)
       then PriceOf(Some(e), id) * (AtLeastZero(v) - QuantityOf(q, id))
       else 0)
  {
    if n > 0 {
      var q' := SetQuantity(q, id, v);
      var cats := e.categories[..n];
      var last := e.categories[n - 1];
      assert cats[..n - 1] == e.categories[..n - 1];
      assert cats[n - 1] == last;
      assert CategoriesTotal(cats, q) == CategoriesTotal(e.categories[..n - 1], q) + last.price * QuantityOf(q, last.id);
      assert CategoriesTotal(cats, q') == CategoriesTotal(e.categories[..n - 1], q') + last.price * QuantityOf(q', last.id);
      CategoriesTotalAfterChange(e, n - 1, q, id, v);
      HasCategoryExtend(e.categories, n - 1, id);
      if last.id == id {
        PriceOfUnique(e, n - 1);
        assert !HasCategory(e.categories[..n - 1], id);
        var d := AtLeastZero(v) - QuantityOf(q, id);
        assert QuantityOf(q', id) == QuantityOf(q, id) + d;
        assert last.price * QuantityOf(q', id) == last.price * QuantityOf(q, id) + last.price * d;
      } else {
        assert QuantityOf(q', last.id) == QuantityOf(q, last.id);
      }
    }
  }

  /** Changing one quantity moves the total by that category's price times
      the change of its quantity; an id that names no category leaves the
      total unchanged. */
  lemma TotalAfterQuantityChange(e: Event, q: map<string, int>, id: string, v: int)
    requires DistinctIds(e.categories)
    ensures Total(Some(e), SetQuantity(q, id, v)) ==
      Total(Some(e), q) + PriceOf(Some(e), id) * (AtLeastZero(v) - QuantityOf(q, id))
  {
    CategoriesTotalAfterChange(e, |e.categories|, q, id, v);
    assert e.categories[..|e.categories|] == e.categories;
  }

  /** The worked example: Regular x2 and Silver x1 of "Kenya vs Gambia". */
  lemma KenyaVsGambiaExample()
    ensures Total(Some(MockEvents()[0]), map["1" := 2, "2" := 1]) == 1100
  {
    var q := map["1" := 2, "2" := 1];
    var cats := MockCategories();
    assert cats[..0] == [];
    assert cats[..1][..0] == [];
    assert cats[..2][..1] == cats[..1];
    assert cats[..3][..2] == cats[..2];
    assert cats[..4][..3] == cats[..3];
    assert cats[..4] == cats;
    assert CategoriesTotal(cats[..1], q) == 600;
    assert CategoriesTotal(cats[..2], q) == 1100;
    assert CategoriesTotal(cats[..3], q) == 1100;
  }

  // ---------------------------------------------------------------------
  // Building the cart
  // ---------------------------------------------------------------------

  /** `keys` is the order in which `Object.entries(q)` yields the map's
      keys: each key exactly once. */
  ghost predicate IsEnumeration(keys: seq<string>, q: map<string, int>) {
    (forall k :: k in keys <==> k in q) && Distinct(keys)
  }

  /** `entries.filter(([_, n]) => n > 0).map(...)`: one item per entry with
      a positive quantity, priced from the event. */
  function BuildCart(eventId: string, event: Option<Event>, q: map<string, int>, keys: seq<string>): (cart: seq<CartItem>)
    requires forall k :: k in keys ==> k in q
    ensures |cart| <= |keys|
    ensures forall i :: 0 <= i < |cart| ==>
      cart[i].categoryId in keys &&
      cart[i].quantity == q[cart[i].categoryId] && cart[i].quantity > 0 &&
      cart[i].eventId == eventId &&
      cart[i].price == PriceOf(event, cart[i].categoryId)
  {
    if |keys| == 0 then []
    else
      var k := keys[0];
      var rest := BuildCart(eventId, event, q, keys[1..]);
      if q[k] > 0 then [CartItem(eventId, k, q[k], PriceOf(event, k))] + rest else rest
  }

  /** Every key with a positive quantity gets an item. */
  lemma {:induction false} BuildCartCovers(eventId: string, event: Option<Event>, q: map<string, int>, keys: seq<string>, k: string)
    requires forall x :: x in keys ==> x in q
    requires k in keys && q[k] > 0
    ensures exists i :: 0 <= i < |BuildCart(eventId, event, q, keys)| &&
                        BuildCart(eventId, event, q, keys)[i].categoryId == k
  {
    var cart := BuildCart(eventId, event, q, keys);
    if keys[0] == k {
      assert cart[0].categoryId == k;
    } else {
      var rest := BuildCart(eventId, event, q, keys[1..]);
      BuildCartCovers(eventId, event, q, keys[1..], k);
      var i :| 0 <= i < |rest| && rest[i].categoryId == k;
      if q[keys[0]] > 0 {
        assert cart[i + 1] == rest[i];
      } else {
        assert cart[i] == rest[i];
      }
    }
  }

  /** Keys that occur once give items with pairwise different category ids. */
  lemma {:induction false} BuildCartDistinct(eventId: string, event: Option<Event>, q: map<string, int>, keys: seq<string>)
    requires forall x :: x in keys ==> x in q
    requires Distinct(keys)
    ensures forall i, j :: 0 <= i < j < |BuildCart(eventId, event, q, keys)| ==>
      BuildCart(eventId, event, q, keys)[i].categoryId != BuildCart(eventId, event, q, keys)[j].categoryId
  {
    if |keys| > 0 {
      var cart := BuildCart(eventId, event, q, keys);
      var rest := BuildCart(eventId, event, q, keys[1..]);
      assert Distinct(keys[1..]);
      BuildCartDistinct(eventId, event, q, keys[1..]);
      if q[keys[0]] > 0 {
        assert keys[0] !in keys[1..];
        assert forall i :: 1 <= i < |cart| ==> cart[i] == rest[i - 1];
      }
    }
  }

  /** What `handleContinue` does: refuse an empty selection, or navigate to
      checkout carrying the cart and the event. */
  datatype ContinueResult = NothingSelected | ToCheckout(cartItems: seq<CartItem>, event: Option<Event>)

  function Continue(eventId: string, event: Option<Event>, q: map<string, int>, keys: seq<string>): (r: ContinueResult)
    requires IsEnumeration(keys, q)
    ensures r.NothingSelected? <==> forall k :: k in q ==> q[k] <= 0
    ensures r.ToCheckout? ==>
      |r.cartItems| > 0 && r.event == event &&
      (forall i :: 0 <= i < |r.cartItems| ==> r.cartItems[i].quantity > 0) &&
      r.cartItems == BuildCart(eventId, event, q, keys)
  {
    var items := BuildCart(eventId, event, q, keys);
    if |items| == 0 then
      assert forall k :: k in q ==> q[k] <= 0 by {
        forall k | k in q ensures q[k] <= 0 {
          if q[k] > 0 { BuildCartCovers(eventId, event, q, keys, k); }
        }
      }
      NothingSelected
    else
      assert items[0].categoryId in q && q[items[0].categoryId] > 0;
      ToCheckout(items, event)
  }

  /** The cart holds exactly the positive entries of the map: one item per
      such key, and nothing else. */
  lemma CartMatchesSelection(eventId: string, event: Option<Event>, q: map<string, int>, keys: seq<string>, k: string)
    requires IsEnumeration(keys, q)
    ensures (exists i :: 0 <= i < |BuildCart(eventId, event, q, keys)| &&
               BuildCart(eventId, event, q, keys)[i].categoryId == k)
            <==> (k in q && q[k] > 0)
  {
    var cart := BuildCart(eventId, event, q, keys);
    if k in q && q[k] > 0 {
      BuildCartCovers(eventId, event, q, keys, k);
    }
    if exists i :: 0 <= i < |cart| && cart[i].categoryId == k {
      var i :| 0 <= i < |cart| && cart[i].categoryId == k;
      assert cart[i].categoryId in keys && q[k] == cart[i].quantity;
    }
  }

  /** A quantity set below zero is stored as 0, so the next cart leaves
      that category out. */
  lemma NegativeQuantityExcluded(eventId: string, event: Option<Event>, q: map<string, int>,
                                 id: string, v: int, keys: seq<string>)
    requires v < 0
    requires IsEnumeration(keys, SetQuantity(q, id, v))
    ensures forall item :: item in BuildCart(eventId, event, SetQuantity(q, id, v), keys) ==> item.categoryId != id
  {
  }

  /** The cart of the worked example: one line per selected category, with
      its quantity and its catalogue price. */
  lemma KenyaVsGambiaCart()
    ensures BuildCart("1", Some(MockEvents()[0]), map["1" := 2, "2" := 1], ["1", "2"]) ==
      [CartItem("1", "1", 2, 300), CartItem("1", "2", 1, 500)]
  {
    var e := Some(MockEvents()[0]);
    var cats := MockCategories();
    assert cats[0].id == "1" && cats[1].id == "2";
    PriceOfUnique(MockEvents()[0], 0);
    PriceOfUnique(MockEvents()[0], 1);
    assert PriceOf(e, "1") == 300 && PriceOf(e, "2") == 500;
    assert ["1", "2"][1..] == ["2"] && ["2"][1..] == [];
  }

  // ---------------------------------------------------------------------
  // The page's state
  // ---------------------------------------------------------------------

  /** One ticket-picking session for the event named in the URL. */
  class SelectionPage {
    const eventId: string
    var event: Option<Event>
    var quantities: map<string, int>
    var loading: bool
    /** Set when the lookup fails and the page navigates back to `/`. */
    var redirectedHome: bool

    ghost predicate Valid()
      reads this
    {
      NonNegative(quantities)
    }

    constructor (eventId: string)
      ensures Valid()
      ensures this.eventId == eventId && event == None && quantities == map[]
      ensures loading && !redirectedHome
    {
      this.eventId := eventId;
      event := None;
      quantities := map[];
      loading := true;
      redirectedHome := false;
    }

    /** The mount effect: look the event up; redirect home when it is
        missing; stop loading either way. */
    method LoadEvent()
      requires Valid()
      modifies this`event, this`loading, this`redirectedHome
      ensures Valid()
      ensures event == FindEvent(MockEvents(), eventId)
      ensures redirectedHome == (old(redirectedHome) || event.None?)
      ensures !loading
    {
      var found := FindEvent(MockEvents(), eventId);
      if found.Some? {
        event := found;
      } else {
        event := found;
        redirectedHome := true;
      }
      loading := false;
    }

    /** `handleQuantityChange`: store `max(0, quantity)` under the id. */
    method HandleQuantityChange(categoryId: string, quantity: int)
      requires Valid()
      modifies this`quantities
      ensures Valid()
      ensures quantities == SetQuantity(old(quantities), categoryId, quantity)
    {
      quantities := SetQuantity(quantities, categoryId, quantity);
    }

    /** The Purchase button: one more ticket of that category. */
    method Purchase(categoryId: string)
      requires Valid()
      modifies this`quantities
      ensures Valid()
      ensures quantities == old(quantities)[categoryId := old(QuantityOf(quantities, categoryId)) + 1]
    {
      HandleQuantityChange(categoryId, QuantityOf(quantities, categoryId) + 1);
    }

    /** `calculateTotal()` over the page's state. */
    function CalculateTotal(): (t: int)
      reads this
      requires Valid()
      ensures event.None? ==> t == 0
      ensures event.Some? && NonNegativePrices(event.value.categories) ==> t >= 0
    {
      assert event.Some? && NonNegativePrices(event.value.categories) ==> Total(event, quantities) >= 0 by {
        if event.Some? && NonNegativePrices(event.value.categories) {
          TotalNonNegative(event, quantities);
        }
      }
      Total(event, quantities)
    }

    /** `handleContinue`, with `keys` the enumeration order of the map. */
    method HandleContinue(keys: seq<string>) returns (r: ContinueResult)
      requires IsEnumeration(keys, quantities)
      ensures r == Continue(eventId, event, quantities, keys)
    {
      r := Continue(eventId, event, quantities, keys);
    }
  }
}
