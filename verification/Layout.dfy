/** Which components fit the taskbar: the order of the visible ones, and the greedy folding. */
module Layout {
  import opened Common

  datatype Kind =
    | ActivityLight | QuotaRings | ResetCountdown | CurrentThreadTokens | TodayTokens
    | InputTokens | OutputTokens | CacheHitRate | DataFreshness

  datatype Item = Item(kind: Kind, visible: bool, order: nat, width: nat, priority: nat)

  /** An item and its place in a list. */
  datatype Placed = Placed(place: nat, item: Item)

  function Enumerated(items: seq<Item>): seq<Placed> {
    seq(|items|, i requires 0 <= i < |items| => Placed(i, items[i]))
  }

  function ItemsOf(placed: seq<Placed>): seq<Item> {
    seq(|placed|, i requires 0 <= i < |placed| => placed[i].item)
  }

  predicate IsAscending(placed: seq<Placed>) {
    forall a, b :: 0 <= a < b < |placed| ==> placed[a].place < placed[b].place
  }

  // ---------------------------------------------------------------- display order

  predicate Precedes(x: Placed, y: Placed) {
    x.item.order < y.item.order || (x.item.order == y.item.order && x.place < y.place)
  }

  ghost predicate IsOrdered(placed: seq<Placed>) {
    forall a, b :: 0 <= a < b < |placed| ==> Precedes(placed[a], placed[b])
  }

  /** The visible items, each once, by order; equal orders keep the order of the configuration. */
  ghost predicate IsDisplayOrder(items: seq<Item>, shown: seq<Placed>) {
    IsOrdered(shown) && forall p :: p in shown <==> p.place < |items| && p.item == items[p.place] && p.item.visible
  }

  function Inserted(placed: seq<Placed>, p: Placed): seq<Placed> {
    if placed == [] then [p]
    else
      var init, last := placed[..|placed| - 1], placed[|placed| - 1];
      if Precedes(last, p) then placed + [p] else Inserted(init, p) + [last]
  }

  lemma {:induction false} InsertedInOrder(placed: seq<Placed>, p: Placed)
    requires IsOrdered(placed) && forall q :: q in placed ==> q.place < p.place
    ensures IsOrdered(Inserted(placed, p))
    ensures forall q :: q in Inserted(placed, p) <==> q == p || q in placed
  {
    if placed != [] {
      var init, last := placed[..|placed| - 1], placed[|placed| - 1];
      assert placed == init + [last];
      if Precedes(last, p) {
        assert forall q :: q in placed ==> Precedes(q, p) by {
          forall a | 0 <= a < |placed| ensures Precedes(placed[a], p) {
            assert a < |init| ==> Precedes(placed[a], last);
          }
        }
      } else {
        InsertedInOrder(init, p);
        assert forall q :: q in init ==> Precedes(q, last) by {
          forall a | 0 <= a < |init| ensures Precedes(init[a], last) { assert Precedes(placed[a], placed[|init|]); }
        }
        var before := Inserted(init, p);
        assert forall a :: 0 <= a < |before| ==> before[a] in before;
      }
    }
  }

  method OrderedVisibleItems(items: seq<Item>) returns (shown: seq<Placed>)
    ensures IsDisplayOrder(items, shown)
  {
    shown := [];
    for i := 0 to |items|
      invariant IsOrdered(shown)
      invariant forall p :: p in shown <==> p.place < i && p.item == items[p.place] && p.item.visible
    {
      if items[i].visible {
        InsertedInOrder(shown, Placed(i, items[i]));
        shown := Inserted(shown, Placed(i, items[i]));
      }
    }
  }

  // ---------------------------------------------------------------- folding

  function Width(items: seq<Item>): nat {
    if items == [] then 0 else Width(items[..|items| - 1]) + items[|items| - 1].width
  }

  /** Kept longer: the higher priority, and the one further left among equals. */
  predicate Outranks(x: Placed, y: Placed) {
    x.item.priority > y.item.priority || (x.item.priority == y.item.priority && x.place < y.place)
  }

  /** `kept` is, left to right, a prefix of the ranking of `all`: each outranks all that are left out. */
  ghost predicate IsTop(all: seq<Placed>, kept: seq<Placed>) {
    && IsAscending(kept) && (forall p :: p in kept ==> p in all)
    && forall p, q :: p in kept && q in all && q !in kept ==> Outranks(p, q)
  }

  function Without<T>(s: seq<T>, i: nat): seq<T>
    requires i < |s|
  {
    s[..i] + s[i + 1..]
  }

  /** The item to fold next: the lowest priority, the rightmost among equals. */
  method FindLast(selected: seq<Item>) returns (worst: nat)
    requires selected != []
    ensures worst < |selected|
    ensures forall i :: 0 <= i < |selected| && i != worst ==>
      selected[i].priority > selected[worst].priority || (selected[i].priority == selected[worst].priority && i < worst)
  {
    worst := 0;
    for i := 1 to |selected|
      invariant worst < i
      invariant forall j :: 0 <= j < i && j != worst ==>
        selected[j].priority > selected[worst].priority
          || (selected[j].priority == selected[worst].priority && j < worst)
    {
      if selected[i].priority <= selected[worst].priority { worst := i; }
    }
  }

  lemma WithoutMembers(kept: seq<Placed>, i: nat)
    requires IsAscending(kept) && i < |kept|
    ensures IsAscending(Without(kept, i))
    ensures forall p :: p in Without(kept, i) <==> p in kept && p != kept[i]
  {
    var rest := Without(kept, i);
    forall p | p in kept && p != kept[i] ensures p in rest {
      var k :| 0 <= k < |kept| && kept[k] == p;
      assert if k < i then rest[k] == p else rest[k - 1] == p;
    }
    forall p | p in rest ensures p in kept && p != kept[i] {
      var k :| 0 <= k < |rest| && rest[k] == p;
      assert p == if k < i then kept[k] else kept[k + 1];
    }
  }

  /** Folding the last-ranked of a prefix of the ranking leaves the next shorter prefix. */
  lemma FoldingKeepsTop(all: seq<Placed>, kept: seq<Placed>, worst: nat)
    requires IsTop(all, kept) && worst < |kept|
    requires forall i :: 0 <= i < |kept| && i != worst ==> Outranks(kept[i], kept[worst])
    ensures IsTop(all, Without(kept, worst))
    ensures ItemsOf(Without(kept, worst)) == Without(ItemsOf(kept), worst)
  {
    WithoutMembers(kept, worst);
    forall p | p in kept && p != kept[worst] ensures Outranks(p, kept[worst]) {
      var i :| 0 <= i < |kept| && kept[i] == p;
    }
  }

  lemma TopsAreNested(all: seq<Placed>, a: seq<Placed>, b: seq<Placed>)
    requires IsTop(all, a) && IsTop(all, b)
    ensures Elements(a) <= Elements(b) || Elements(b) <= Elements(a)
  {
    if p :| p in a && p !in b {
      assert forall q :: q in b ==> Outranks(q, p);
    }
  }

  /** There is one prefix of the ranking of each length. */
  lemma TopIsUnique(all: seq<Placed>, a: seq<Placed>, b: seq<Placed>)
    requires IsTop(all, a) && IsTop(all, b) && |a| == |b|
    ensures a == b
  {
    TopsAreNested(all, a, b);
    DistinctSize(a);
    DistinctSize(b);
    if Elements(a) <= Elements(b) {
      SubsetSize(Elements(a), Elements(b));
    } else {
      SubsetSize(Elements(b), Elements(a));
    }
    SortedIsUnique(a, b, (x: Placed, y: Placed) => x.place < y.place);
  }

  /** The longest prefix of the ranking that fits the budget, or the single top item. */
  ghost predicate IsBestFit(all: seq<Placed>, kept: seq<Placed>, budget: nat) {
    && IsTop(all, kept)
    && (all != [] ==> kept != [])
    && (|kept| > 1 ==> Width(ItemsOf(kept)) <= budget)
    && forall longer :: IsTop(all, longer) && |longer| > |kept| ==> Width(ItemsOf(longer)) > budget
  }

  lemma NoLongerThanAll(all: seq<Placed>, longer: seq<Placed>)
    requires IsTop(all, longer) && IsAscending(all)
    ensures |longer| <= |all|
  {
    DistinctSize(longer);
    DistinctSize(all);
    SubsetSize(Elements(longer), Elements(all));
  }

  /** The width of the taskbar, taken as one at least. */
  function Budget(taskbarWidth: nat): nat { if taskbarWidth < 1 then 1 else taskbarWidth }

  /** Folds item by item while the minimum widths exceed the budget. */
  method Fold(items: seq<Item>, taskbarWidth: nat) returns (selected: seq<Item>)
    ensures exists kept :: IsBestFit(Enumerated(items), kept, Budget(taskbarWidth)) && selected == ItemsOf(kept)
  {
    var budget := Budget(taskbarWidth);
    ghost var all := Enumerated(items);
    selected := items;
    ghost var kept := all;
    assert ItemsOf(all) == items;
    forall longer | IsTop(all, longer) ensures |longer| <= |kept| { NoLongerThanAll(all, longer); }
    while |selected| > 1 && Width(selected) > budget
      invariant IsTop(all, kept) && selected == ItemsOf(kept)
      invariant items != [] ==> selected != []
      invariant forall longer :: IsTop(all, longer) && |longer| > |kept| ==> Width(ItemsOf(longer)) > budget
      decreases |selected|
    {
      var worst := FindLast(selected);
      assert forall i :: 0 <= i < |kept| && i != worst ==> Outranks(kept[i], kept[worst]) by {
        forall i | 0 <= i < |kept| && i != worst ensures Outranks(kept[i], kept[worst]) {
          assert selected[i] == kept[i].item;
        }
      }
      FoldingKeepsTop(all, kept, worst);
      forall longer | IsTop(all, longer) && |longer| >= |kept| ensures Width(ItemsOf(longer)) > budget {
        if |longer| == |kept| { TopIsUnique(all, longer, kept); }
      }
      kept := Without(kept, worst);
      selected := Without(selected, worst);
    }
  }

  /** The best fit is one and the same, however it is found. */
  lemma BestFitIsUnique(all: seq<Placed>, a: seq<Placed>, b: seq<Placed>, budget: nat)
    requires IsBestFit(all, a, budget) && IsBestFit(all, b, budget)
    ensures a == b
  {
    if all == [] {
      NoLongerThanAll(all, a);
      NoLongerThanAll(all, b);
    } else if |a| == |b| {
      TopIsUnique(all, a, b);
    }
  }

  // ---------------------------------------------------------------- the whole layout

  /** The lamp and the rings are always drawn; any other kind needs a text to show. */
  predicate IsDrawn(kind: Kind, texts: set<Kind>) { kind.ActivityLight? || kind.QuotaRings? || kind in texts }

  /** The visible items that can be drawn, each once, in display order. */
  ghost predicate IsDrawnOrder(items: seq<Item>, texts: set<Kind>, drawn: seq<Placed>) {
    && IsOrdered(drawn)
    && forall p :: p in drawn <==>
         p.place < |items| && p.item == items[p.place] && p.item.visible && IsDrawn(p.item.kind, texts)
  }

  /** The best fit of the items that are drawn. */
  ghost predicate IsFitted(items: seq<Item>, texts: set<Kind>, taskbarWidth: nat, selected: seq<Item>) {
    exists drawn, kept ::
      && IsDrawnOrder(items, texts, drawn)
      && IsBestFit(Enumerated(ItemsOf(drawn)), kept, Budget(taskbarWidth))
      && selected == ItemsOf(kept)
  }

  method DrawnOnly(items: seq<Item>, texts: set<Kind>, shown: seq<Placed>) returns (drawn: seq<Placed>)
    requires IsDisplayOrder(items, shown)
    ensures IsDrawnOrder(items, texts, drawn)
  {
    drawn := [];
    for i := 0 to |shown|
      invariant IsOrdered(drawn)
      invariant forall p :: p in drawn <==> p in shown[..i] && IsDrawn(p.item.kind, texts)
    {
      assert shown[..i + 1] == shown[..i] + [shown[i]];
      assert forall p :: p in shown[..i] ==> Precedes(p, shown[i]);
      assert forall k :: 0 <= k < |drawn| ==> drawn[k] in drawn;
      if IsDrawn(shown[i].item.kind, texts) { drawn := drawn + [shown[i]]; }
    }
    assert shown[..|shown|] == shown;
  }

  /** Orders, filters and folds. */
  method FittedDisplayItems(items: seq<Item>, texts: set<Kind>, taskbarWidth: nat) returns (selected: seq<Item>)
    ensures IsFitted(items, texts, taskbarWidth, selected)
  {
    var shown := OrderedVisibleItems(items);
    var drawn := DrawnOnly(items, texts, shown);
    selected := Fold(ItemsOf(drawn), taskbarWidth);
  }

  lemma DrawnOrderIsUnique(items: seq<Item>, texts: set<Kind>, a: seq<Placed>, b: seq<Placed>)
    requires IsDrawnOrder(items, texts, a) && IsDrawnOrder(items, texts, b)
    ensures a == b
  {
    assert Elements(a) == Elements(b);
    SortedIsUnique(a, b, Precedes);
  }

  /** A configuration, the kinds with a text, and a width determine the layout. */
  lemma FittedIsUnique(items: seq<Item>, texts: set<Kind>, taskbarWidth: nat, a: seq<Item>, b: seq<Item>)
    requires IsFitted(items, texts, taskbarWidth, a) && IsFitted(items, texts, taskbarWidth, b)
    ensures a == b
  {
    var budget := Budget(taskbarWidth);
    var drawn, kept :| IsDrawnOrder(items, texts, drawn) && IsBestFit(Enumerated(ItemsOf(drawn)), kept, budget)
      && a == ItemsOf(kept);
    var other, also :| IsDrawnOrder(items, texts, other) && IsBestFit(Enumerated(ItemsOf(other)), also, budget)
      && b == ItemsOf(also);
    DrawnOrderIsUnique(items, texts, drawn, other);
    BestFitIsUnique(Enumerated(ItemsOf(drawn)), kept, also, budget);
  }

  /** Only a layout too wide is folded: otherwise all that can be drawn is there, in display order. */
  lemma RoomyKeepsAll(items: seq<Item>, texts: set<Kind>, taskbarWidth: nat, drawn: seq<Placed>, selected: seq<Item>)
    requires IsFitted(items, texts, taskbarWidth, selected) && IsDrawnOrder(items, texts, drawn)
    ensures Width(ItemsOf(drawn)) <= Budget(taskbarWidth) ==> selected == ItemsOf(drawn)
  {
    var budget, all := Budget(taskbarWidth), Enumerated(ItemsOf(drawn));
    assert ItemsOf(all) == ItemsOf(drawn);
    if Width(ItemsOf(drawn)) <= budget {
      forall longer | IsTop(all, longer) ensures |longer| <= |all| { NoLongerThanAll(all, longer); }
      assert IsTop(all, all) && IsBestFit(all, all, budget);
      FittedIsUnique(items, texts, taskbarWidth, selected, ItemsOf(drawn));
    }
  }
}
