/** The menu screen: a fixed table of dishes shown under four category tabs,
    a per-dish quantity counter and note, and the order line built when a dish
    is added to the cart. */
module Menu {
  import opened Common

  /** One dish of the static table. `isBestseller` is `false` where the table
      leaves it out. */
  datatype MenuItem = MenuItem(
    id: string,
    name: string,
    price: int,
    description: string,
    category: string,
    isVeg: bool,
    isBestseller: bool
  )

  const MenuItems: seq<MenuItem> := [
    MenuItem("1", "Butter Chicken", 320, "Creamy tomato-based curry with tender chicken", "main", false, true),
    MenuItem("2", "Paneer Butter Masala", 280, "Rich cottage cheese curry in tomato gravy", "main", true, true),
    MenuItem("3", "Chicken Biryani", 380, "Aromatic basmati rice with spiced chicken", "main", false, true),
    MenuItem("4", "Samosa", 60, "Crispy pastry with spiced potato filling", "starter", true, false),
    MenuItem("5", "Chicken Tikka", 240, "Grilled marinated chicken pieces", "starter", false, false),
    MenuItem("6", "Masala Chai", 40, "Traditional spiced tea", "drinks", true, false),
    MenuItem("7", "Fresh Lime Soda", 80, "Refreshing lime with soda water", "drinks", true, false),
    MenuItem("8", "Gulab Jamun", 120, "Sweet milk dumplings in sugar syrup", "desserts", true, false)
  ]

  /** The tab ids, in the order the tabs are shown. */
  const Categories: seq<string> := ["starter", "main", "drinks", "desserts"]

  // ---------------------------------------------------------------------------
  // The static table

  /** Ids in the table are unique, prices are positive, and every dish
      belongs to one of the four tabs. */
  lemma MenuIsWellFormed()
    ensures forall i, j :: 0 <= i < j < |MenuItems| ==> MenuItems[i].id != MenuItems[j].id
    ensures forall i :: 0 <= i < |MenuItems| ==> MenuItems[i].price > 0
    ensures forall i :: 0 <= i < |MenuItems| ==> MenuItems[i].category in Categories
  {
  }

  // ---------------------------------------------------------------------------
  // Category tabs

  /** `items.filter(item => item.category === category)`. */
  function ByCategory(items: seq<MenuItem>, category: string): seq<MenuItem> {
    if items == [] then []
    else if items[0].category == category then [items[0]] + ByCategory(items[1..], category)
    else ByCategory(items[1..], category)
  }

  /** A dish is shown under a tab exactly when it is in the table and has
      that tab's category. */
  lemma {:induction false} ByCategoryMembers(items: seq<MenuItem>, category: string, x: MenuItem)
    ensures x in ByCategory(items, category) <==> x in items && x.category == category
  {
    if items != [] {
      ByCategoryMembers(items[1..], category, x);
      assert items == [items[0]] + items[1..];
    }
  }

  /** Filtering splits over concatenation, so the tab keeps the table's
      order: each part of the table contributes its own matches, in place. */
  lemma {:induction false} ByCategoryAppend(a: seq<MenuItem>, b: seq<MenuItem>, category: string)
    ensures ByCategory(a + b, category) == ByCategory(a, category) + ByCategory(b, category)
  {
    if a != [] {
      assert (a + b)[0] == a[0];
      assert (a + b)[1..] == a[1..] + b;
      ByCategoryAppend(a[1..], b, category);
      if a[0].category == category {
        assert ByCategory(a + b, category) == [a[0]] + ByCategory(a[1..] + b, category);
      }
    } else {
      assert a + b == b;
    }
  }

  /** A single dish is kept exactly when its category matches. */
  lemma ByCategorySingle(x: MenuItem, category: string)
    ensures ByCategory([x], category) == (if x.category == category then [x] else [])
  {
  }

  /** Every filtered list is no longer than the table. */
  lemma {:induction false} ByCategoryShorter(items: seq<MenuItem>, category: string)
    ensures |ByCategory(items, category)| <= |items|
  {
    if items != [] {
      ByCategoryShorter(items[1..], category);
    }
  }

  /** The "main" tab shows the first three dishes, in table order, and the
      "desserts" tab only Gulab Jamun. */
  lemma TabContents()
    ensures ByCategory(MenuItems, "main") == MenuItems[0..3]
    ensures ByCategory(MenuItems, "desserts") == [MenuItems[7]]
  {
  }

  /** Every dish of the table is shown under one of the four tabs ... */
  lemma EachDishUnderATab(i: nat)
    requires i < |MenuItems|
    ensures exists t :: 0 <= t < |Categories| && MenuItems[i] in ByCategory(MenuItems, Categories[t])
  {
    MenuIsWellFormed();
    var x := MenuItems[i];
    var t :| 0 <= t < |Categories| && Categories[t] == x.category;
    ByCategoryMembers(MenuItems, Categories[t], x);
  }

  /** ... and under no second one: the tab ids are distinct. */
  lemma DishUnderOneTabOnly(x: MenuItem, t: nat, u: nat)
    requires t < |Categories| && u < |Categories|
    requires x in ByCategory(MenuItems, Categories[t])
    requires x in ByCategory(MenuItems, Categories[u])
    ensures t == u
  {
    ByCategoryMembers(MenuItems, Categories[t], x);
    ByCategoryMembers(MenuItems, Categories[u], x);
    CategoriesDistinct(t, u);
  }

  lemma CategoriesDistinct(t: nat, u: nat)
    requires t < |Categories| && u < |Categories|
    requires Categories[t] == Categories[u]
    ensures t == u
  {
    assert Categories[t][1] == Categories[u][1];
  }

  // ---------------------------------------------------------------------------
  // Quantity counters

  /** `quantities[id] || 0`: a missing entry reads as 0. */
  function QuantityOf(quantities: map<string, int>, id: string): int {
    if id in quantities then quantities[id] else 0
  }

  /** No counter is negative. */
  ghost predicate NonNegative(quantities: map<string, int>) {
    forall id :: id in quantities ==> quantities[id] >= 0
  }

  /** `Math.max(0, (prev[id] || 0) + delta)` stored under `id`. */
  function Bumped(quantities: map<string, int>, id: string, delta: int): map<string, int> {
    var v := QuantityOf(quantities, id) + delta;
    quantities[id := if v < 0 then 0 else v]
  }

  /** A click moves the counter by `delta` but never below 0, keeps every
      counter non-negative, and leaves every other dish's counter alone. */
  lemma BumpedClamps(quantities: map<string, int>, id: string, delta: int)
    ensures QuantityOf(Bumped(quantities, id, delta), id) >= 0
    ensures QuantityOf(Bumped(quantities, id, delta), id) >= QuantityOf(quantities, id) + delta
    ensures QuantityOf(quantities, id) + delta >= 0 ==>
      QuantityOf(Bumped(quantities, id, delta), id) == QuantityOf(quantities, id) + delta
    ensures QuantityOf(quantities, id) + delta < 0 ==> QuantityOf(Bumped(quantities, id, delta), id) == 0
    ensures forall k :: k != id ==> QuantityOf(Bumped(quantities, id, delta), k) == QuantityOf(quantities, k)
    ensures NonNegative(quantities) ==> NonNegative(Bumped(quantities, id, delta))
  {
  }

  /** "+" then "−" gives back the counter read before; "−" on 0 stays at 0. */
  lemma PlusThenMinus(quantities: map<string, int>, id: string)
    requires NonNegative(quantities)
    ensures forall k :: QuantityOf(Bumped(Bumped(quantities, id, 1), id, -1), k) == QuantityOf(quantities, k)
    ensures QuantityOf(quantities, id) == 0 ==> QuantityOf(Bumped(quantities, id, -1), id) == 0
  {
  }

  /** A run of clicks on one dish's buttons, each `+1` or `-1`. */
  function Clicks(quantities: map<string, int>, id: string, deltas: seq<int>): map<string, int>
    decreases |deltas|
  {
    if deltas == [] then quantities
    else Clicks(Bumped(quantities, id, deltas[0]), id, deltas[1..])
  }

  function Sum(deltas: seq<int>): int {
    if deltas == [] then 0 else deltas[0] + Sum(deltas[1..])
  }

  /** After any run of clicks the counter is non-negative and at least the
      starting count plus the clicks' sum (clamping only ever raises it),
      and no other dish's counter has moved. */
  lemma {:induction false} ClicksBound(quantities: map<string, int>, id: string, deltas: seq<int>)
    requires NonNegative(quantities)
    ensures NonNegative(Clicks(quantities, id, deltas))
    ensures QuantityOf(Clicks(quantities, id, deltas), id) >= QuantityOf(quantities, id) + Sum(deltas)
    ensures forall k :: k != id ==> QuantityOf(Clicks(quantities, id, deltas), k) == QuantityOf(quantities, k)
    decreases |deltas|
  {
    if deltas != [] {
      var next := Bumped(quantities, id, deltas[0]);
      BumpedClamps(quantities, id, deltas[0]);
      ClicksBound(next, id, deltas[1..]);
    }
  }

  /** `n` presses of "+" from any count add exactly `n`. */
  lemma {:induction false} PlusClicksAdd(quantities: map<string, int>, id: string, deltas: seq<int>)
    requires NonNegative(quantities)
    requires forall j :: 0 <= j < |deltas| ==> deltas[j] == 1
    ensures QuantityOf(Clicks(quantities, id, deltas), id) == QuantityOf(quantities, id) + |deltas|
    decreases |deltas|
  {
    if deltas != [] {
      var next := Bumped(quantities, id, 1);
      BumpedClamps(quantities, id, 1);
      PlusClicksAdd(next, id, deltas[1..]);
    }
  }

  /** The "−" and "Add to Cart" buttons are disabled while the counter reads 0. */
  predicate AddDisabled(quantities: map<string, int>, id: string) {
    QuantityOf(quantities, id) == 0
  }

  // ---------------------------------------------------------------------------
  // Order lines

  /** `notes[id]`: `None` when no note was ever typed for the dish. */
  function NoteOf(notes: map<string, string>, id: string): Option<string> {
    if id in notes then Some(notes[id]) else None
  }

  /** The order line `handleAddToCart` sends to the cart. */
  function OrderLine(item: MenuItem, quantities: map<string, int>, notes: map<string, string>): OrderItem {
    var q := QuantityOf(quantities, item.id);
    OrderItem(item.id, item.name, item.price, if q != 0 then q else 1,
      NoteOf(notes, item.id), item.category, item.isVeg)
  }

  /** The order line carries the dish's own id, name, price, category and
      veg flag and the dish's note, and orders at least one; when the button
      is enabled it orders exactly the count shown, and otherwise one. */
  lemma OrderLineFromItem(item: MenuItem, quantities: map<string, int>, notes: map<string, string>)
    requires NonNegative(quantities)
    ensures var line := OrderLine(item, quantities, notes);
      && line.id == item.id && line.name == item.name && line.price == item.price
      && line.category == item.category && line.isVeg == item.isVeg
      && line.notes == NoteOf(notes, item.id)
      && line.quantity >= 1
      && (!AddDisabled(quantities, item.id) ==> line.quantity == QuantityOf(quantities, item.id))
      && (AddDisabled(quantities, item.id) ==> line.quantity == 1)
  {
  }

  /** A line built from a dish of the table has a positive price and one of
      the four tab categories. */
  lemma MenuLineIsPriced(i: nat, quantities: map<string, int>, notes: map<string, string>)
    requires i < |MenuItems| && NonNegative(quantities)
    ensures OrderLine(MenuItems[i], quantities, notes).price > 0
    ensures OrderLine(MenuItems[i], quantities, notes).category in Categories
  {
    MenuIsWellFormed();
  }

  // ---------------------------------------------------------------------------

  /** The menu screen's state: the `quantities` and `notes` records. */
  class MenuSelection {
    var quantities: map<string, int>
    var notes: map<string, string>

    ghost predicate Valid()
      reads this
    {
      NonNegative(quantities)
    }

    /** Both records start empty. */
    constructor ()
      ensures Valid()
      ensures quantities == map[] && notes == map[]
    {
      quantities := map[];
      notes := map[];
    }

    /** `updateQuantity`: the "+" (`delta` 1) and "−" (`delta` -1) buttons. */
    method UpdateQuantity(id: string, delta: int)
      requires Valid()
      modifies this
      ensures Valid()
      ensures quantities == Bumped(old(quantities), id, delta)
      ensures notes == old(notes)
    {
      BumpedClamps(quantities, id, delta);
      quantities := Bumped(quantities, id, delta);
    }

    /** Typing into a dish's note box. */
    method SetNote(id: string, text: string)
      requires Valid()
      modifies this
      ensures Valid()
      ensures notes == old(notes)[id := text]
      ensures quantities == old(quantities)
    {
      notes := notes[id := text];
    }

    /** `handleAddToCart`: returns the line for the cart, then resets the
        dish's counter to 0 and its note to "", leaving the other dishes'
        entries as they were. */
    method HandleAddToCart(item: MenuItem) returns (line: OrderItem)
      requires Valid()
      modifies this
      ensures Valid()
      ensures line == OrderLine(item, old(quantities), old(notes))
      ensures line.quantity >= 1
      ensures quantities == old(quantities)[item.id := 0]
      ensures notes == old(notes)[item.id := ""]
      ensures AddDisabled(quantities, item.id)
    {
      OrderLineFromItem(item, quantities, notes);
      line := OrderLine(item, quantities, notes);
      quantities := quantities[item.id := 0];
      notes := notes[item.id := ""];
    }
  }

  /** On Samosa: "+", "+", "−", "+", "+", a note, then "Add to Cart": the cart
      receives three Samosas with that note, and the counter is back at 0. */
  method SamosaScenario() returns (line: OrderItem, after: int)
    ensures line == OrderItem("4", "Samosa", 60, 3, Some("extra spicy"), "starter", true)
    ensures after == 0
  {
    var m := new MenuSelection();
    m.UpdateQuantity("4", 1);
    m.UpdateQuantity("4", 1);
    m.UpdateQuantity("4", -1);
    m.UpdateQuantity("4", 1);
    m.UpdateQuantity("4", 1);
    m.SetNote("4", "extra spicy");
    line := m.HandleAddToCart(MenuItems[3]);
    after := QuantityOf(m.quantities, "4");
  }
}
