/** The menu section of the landing page: which menu window is active at a
    given time of day, the category buttons, the visible items, and adding
    an item to the cart. */
module Menu {
  import opened Common
  import opened Catalog
  import opened Records
  import opened CartLines
  import opened Sequences

  /** A window's half-open range of minutes since midnight. */
  datatype TimeRange = TimeRange(window: Window, start: int, end: int)

  /** Breakfast 8:00-11:30, lunch 11:00-16:00, snacks 15:00-18:30,
      dinner 18:30-22:30. Breakfast overlaps lunch and lunch overlaps
      snacks; the list order decides. */
  const MenuRanges: seq<TimeRange> := [
    TimeRange(Breakfast, 8 * 60, 690),
    TimeRange(Lunch, 11 * 60, 16 * 60),
    TimeRange(Snacks, 15 * 60, 1110),
    TimeRange(Dinner, 1110, 1350)
  ]

  predicate Covers(range: TimeRange, minute: int)
  {
    range.start <= minute < range.end
  }

  /** The window of the first range that covers `minute`, if any. */
  function FirstMatch(ranges: seq<TimeRange>, minute: int): (w: Option<Window>)
    ensures w.None? <==> forall k :: 0 <= k < |ranges| ==> !Covers(ranges[k], minute)
    ensures w.Some? ==> exists k :: (0 <= k < |ranges| && Covers(ranges[k], minute) &&
      ranges[k].window == w.value && forall j :: 0 <= j < k ==> !Covers(ranges[j], minute))
  {
    if ranges == [] then None
    else if Covers(ranges[0], minute) then Some(ranges[0].window)
    else
      var w := FirstMatch(ranges[1..], minute);
      assert forall k :: 1 <= k < |ranges| ==> ranges[k] == ranges[1..][k - 1];
      w
  }

  /** The active window after the clock reads `minute`: the first covering
      range wins, and outside every range the window stays as it was. */
  function Resolve(minute: int, current: Window): (w: Window)
    ensures (forall k :: 0 <= k < |MenuRanges| ==> !Covers(MenuRanges[k], minute)) ==> w == current
    ensures (exists k :: 0 <= k < |MenuRanges| && Covers(MenuRanges[k], minute)) ==>
      exists k :: (0 <= k < |MenuRanges| && Covers(MenuRanges[k], minute) &&
        MenuRanges[k].window == w && forall j :: 0 <= j < k ==> !Covers(MenuRanges[j], minute))
  {
    match FirstMatch(MenuRanges, minute)
    case Some(w) => w
    case None => current
  }

  function MinuteOfDay(hours: int, minutes: int): int
  {
    hours * 60 + minutes
  }

  /** What the resolver gives over the whole day, overlaps included. */
  lemma ResolveByTime(minute: int, current: Window)
    ensures 480 <= minute < 690 ==> Resolve(minute, current) == Breakfast
    ensures 690 <= minute < 960 ==> Resolve(minute, current) == Lunch
    ensures 960 <= minute < 1110 ==> Resolve(minute, current) == Snacks
    ensures 1110 <= minute < 1350 ==> Resolve(minute, current) == Dinner
    ensures minute < 480 || 1350 <= minute ==> Resolve(minute, current) == current
  {
    var m := FirstMatch(MenuRanges, minute);
    if m.Some? {
      var k :| 0 <= k < |MenuRanges| && Covers(MenuRanges[k], minute) &&
        MenuRanges[k].window == m.value && forall j :: 0 <= j < k ==> !Covers(MenuRanges[j], minute);
      if 480 <= minute < 690 {
        assert Covers(MenuRanges[0], minute);
        assert k == 0;
      } else if 690 <= minute < 960 {
        assert Covers(MenuRanges[1], minute);
        assert k == 1;
      } else if 960 <= minute < 1110 {
        assert Covers(MenuRanges[2], minute);
        assert k == 2;
      } else if 1110 <= minute < 1350 {
        assert Covers(MenuRanges[3], minute);
        assert k == 3;
      }
    }
  }

  /** The entries of `items` offered in window `w`, in order. */
  function Offered(items: seq<MenuItem>, w: Window): (r: seq<MenuItem>)
    ensures forall it :: it in r <==> it in items && w in it.availableTime
    ensures IsSubsequence(r, items)
  {
    Filter(items, (it: MenuItem) => w in it.availableTime)
  }

  /** Each entry offered in `w` appears as often as in `items`; the others
      not at all. */
  lemma OfferedCounts(items: seq<MenuItem>, w: Window)
    ensures forall it :: (multiset(Offered(items, w))[it] ==
      if w in it.availableTime then multiset(items)[it] else 0)
  {
    FilterCounts(items, (it: MenuItem) => w in it.availableTime);
  }

  /** The catalog entries offered in window `w`. */
  function OfferedIn(w: Window): seq<MenuItem>
  {
    Offered(Items, w)
  }

  function CategoryNames(items: seq<MenuItem>): (names: seq<string>)
    ensures |names| == |items|
    ensures forall k :: 0 <= k < |items| ==> names[k] == items[k].category
  {
    if items == [] then [] else [items[0].category] + CategoryNames(items[1..])
  }

  /** The category buttons for window `w`: "All", then each category of
      an item offered in `w`, once. */
  function Categories(w: Window): (cs: seq<string>)
    ensures |cs| >= 1 && cs[0] == "All"
    ensures Distinct(cs[1..])
    ensures forall c :: c in cs[1..] <==>
      exists it :: it in Items && w in it.availableTime && it.category == c
  {
    OfferedCategories(Items, w);
    var cs := ["All"] + Dedup(CategoryNames(OfferedIn(w)));
    assert cs[1..] == Dedup(CategoryNames(OfferedIn(w)));
    cs
  }

  /** The names of the entries offered in `w` are exactly the categories
      of the entries available in `w`. */
  lemma OfferedCategories(items: seq<MenuItem>, w: Window)
    ensures forall c :: c in CategoryNames(Offered(items, w)) <==>
      exists it :: it in items && w in it.availableTime && it.category == c
  {
    var offered := Offered(items, w);
    var names := CategoryNames(offered);
    forall c
      ensures c in names <==> exists it :: it in items && w in it.availableTime && it.category == c
    {
      if c in names {
        var k :| 0 <= k < |names| && names[k] == c;
        assert offered[k] in offered;
      }
      if exists it :: it in items && w in it.availableTime && it.category == c {
        var it :| it in items && w in it.availableTime && it.category == c;
        var k :| 0 <= k < |offered| && offered[k] == it;
        assert names[k] == c;
      }
    }
  }

  /** The category buttons follow the catalog: a category comes before
      another when its first offered item does. */
  lemma CategoriesInCatalogOrder(w: Window)
    ensures forall i, j :: 1 <= i < j < |Categories(w)| ==>
      FirstIndex(CategoryNames(OfferedIn(w)), Categories(w)[i]) <
      FirstIndex(CategoryNames(OfferedIn(w)), Categories(w)[j])
  {
    var names := CategoryNames(OfferedIn(w));
    DedupOrder(names);
    assert Categories(w)[1..] == Dedup(names);
    forall i, j | 1 <= i < j < |Categories(w)|
      ensures FirstIndex(names, Categories(w)[i]) < FirstIndex(names, Categories(w)[j])
    {
      assert Categories(w)[i] == Dedup(names)[i - 1];
      assert Categories(w)[j] == Dedup(names)[j - 1];
    }
  }

  /** The items on show. With "view all" the window is ignored; the
      category filters unless it is "All". */
  function FilteredItems(showAll: bool, category: string, w: Window): (r: seq<MenuItem>)
    ensures IsSubsequence(r, Items)
    ensures forall it :: it in r <==>
      it in Items && (showAll || w in it.availableTime) && (category == "All" || it.category == category)
  {
    if showAll then
      if category == "All" then Items
      else Filter(Items, (it: MenuItem) => it.category == category)
    else
      if category == "All" then Filter(Items, (it: MenuItem) => w in it.availableTime)
      else Filter(Items, (it: MenuItem) => it.category == category && w in it.availableTime)
  }

  /** The menu component's state: the active window, the chosen category,
      the "view all" toggle and its copy of the cart. */
  class MenuComponent {
    var activeCategory: string
    var activeMenu: Window
    var showAllItems: bool
    var cart: seq<CartLine>
    const store: LocalStorage

    /** Mounting: defaults, and the cart read from storage (an unreadable
        cart leaves the empty one). The clock is read by `Tick`. */
    constructor(store: LocalStorage)
      ensures this.store == store
      ensures activeCategory == "All" && activeMenu == Breakfast && !showAllItems
      ensures cart == Loaded(store.cart)
    {
      this.store := store;
      activeCategory := "All";
      activeMenu := Breakfast;
      showAllItems := false;
      cart := Loaded(store.cart);
    }

    /** The clock reads `hours`:`minutes` (on mount and once a minute). */
    method Tick(hours: int, minutes: int)
      modifies this`activeMenu
      ensures activeMenu == Resolve(MinuteOfDay(hours, minutes), old(activeMenu))
    {
      var m := FirstMatch(MenuRanges, MinuteOfDay(hours, minutes));
      if m.Some? {
        activeMenu := m.value;
      }
    }

    /** A window button (shown only while "view all" is off). */
    method ChooseWindow(w: Window)
      requires !showAllItems
      modifies this`activeMenu
      ensures activeMenu == w
    {
      activeMenu := w;
    }

    /** The "view all" button: flips the toggle, and turning it on resets
        the category to "All". */
    method ToggleShowAll()
      modifies this`showAllItems, this`activeCategory
      ensures showAllItems == !old(showAllItems)
      ensures showAllItems ==> activeCategory == "All"
      ensures !showAllItems ==> activeCategory == old(activeCategory)
    {
      var wasShowingAll := showAllItems;
      showAllItems := !wasShowingAll;
      if !wasShowingAll {
        activeCategory := "All";
      }
    }

    /** A category button: selects it and turns "view all" off. */
    method PickCategory(category: string)
      requires category in Categories(activeMenu) && category != "All"
      modifies this`activeCategory, this`showAllItems
      ensures activeCategory == category && !showAllItems
    {
      activeCategory := category;
      showAllItems := false;
    }

    /** The button shown when nothing matches: back to "All". */
    method ResetCategory()
      requires FilteredItems(showAllItems, activeCategory, activeMenu) == []
      modifies this`activeCategory
      ensures activeCategory == "All"
    {
      activeCategory := "All";
    }

    /** "Add to Order": the cart gains the item and is written back. */
    method AddToCart(id: int)
      modifies this`cart, store`cart
      ensures cart == Added(old(cart), id)
      ensures store.cart == Holds(cart)
      ensures UniqueIds(old(cart)) ==> UniqueIds(cart) && Count(cart) == Count(old(cart)) + 1
    {
      if UniqueIds(cart) {
        AddedKeepsUnique(cart, id);
        AddedCount(cart, id);
      }
      cart := Added(cart, id);
      store.cart := Holds(cart);
    }
  }
}
