/**
 Dashboard packing of frontend/src/stores/layoutStore.ts: arrangements derived for the
 narrower screens, moves that repack a grid in reading order, and added widgets.
 */
module LayoutPacking {
  import opened Options

  type Widget = int

  const LIVE_MAP: Widget := 0

  datatype Item = Item(id: Widget, x: int, y: int, w: int, h: int)

  datatype Breakpoint = Lg | Md | Sm | Xs

  function Columns(b: Breakpoint): nat {
    match b case Lg => 12 case Md => 10 case Sm => 6 case Xs => 4
  }

  predicate Narrow(b: Breakpoint) { b == Sm || b == Xs }

  predicate Disjoint(a: Item, b: Item) {
    a.x + a.w <= b.x || b.x + b.w <= a.x || a.y + a.h <= b.y || b.y + b.h <= a.y
  }

  predicate Inside(a: Item, cols: int) { 0 <= a.x && a.x + a.w <= cols && 0 <= a.y && a.w > 0 && a.h > 0 }

  /** No two widgets overlap and none leaves the columns. */
  ghost predicate Packed(items: seq<Item>, cols: int) {
    && (forall i :: 0 <= i < |items| ==> Inside(items[i], cols))
    && forall i, j :: 0 <= i < j < |items| ==> Disjoint(items[i], items[j])
  }

  lemma PackedGrows(items: seq<Item>, a: Item, cols: int)
    requires Packed(items, cols) && Inside(a, cols) && forall i :: 0 <= i < |items| ==> Disjoint(items[i], a)
    ensures Packed(items + [a], cols)
  {}

  function Max(a: int, b: int): int { if a >= b then a else b }

  function Tallest(items: seq<Item>): int {
    if items == [] then 0 else Max(Tallest(items[..|items| - 1]), items[|items| - 1].h)
  }

  /** The same widgets in the same order at the same heights, and maybe widths. */
  ghost predicate SameWidgets(r: seq<Item>, items: seq<Item>, widths: bool) {
    |r| == |items| && forall i :: 0 <= i < |r| ==>
      r[i].id == items[i].id && r[i].h == items[i].h && (widths ==> r[i].w == items[i].w)
  }

  lemma SameGrows(r: seq<Item>, a: Item, items: seq<Item>, widths: bool)
    requires items != [] && SameWidgets(r, items[..|items| - 1], widths)
    requires var e := items[|items| - 1]; a.id == e.id && a.h == e.h && (widths ==> a.w == e.w)
    ensures SameWidgets(r + [a], items, widths)
  {}

  // ---- Arrangements for the narrower screens ----------------------------------------------

  function FindItem(items: seq<Item>, id: Widget): (r: Option<Item>)
    ensures r.Some? ==> r.value in items && r.value.id == id
    ensures r.None? ==> forall i :: 0 <= i < |items| ==> items[i].id != id
  {
    if items == [] then None
    else if items[0].id == id then Some(items[0])
    else FindItem(items[1..], id)
  }

  /** The items placed so far, and how far each of the two columns is filled. */
  datatype Columned = Columned(items: seq<Item>, left: int, right: int)

  function Reserve(c: Columned, b: Breakpoint, saved: Item): Columned {
    var bottom := saved.y + saved.h;
    var items := c.items + [saved];
    if b == Md && saved.w <= Columns(b) / 2 then
      if saved.x < Columns(b) / 2 then c.(items := items, left := Max(c.left, bottom))
      else c.(items := items, right := Max(c.right, bottom))
    else Columned(items, Max(c.left, bottom), Max(c.right, bottom))
  }

  predicate FullWidth(b: Breakpoint, source: Item) { b != Md || source.id == LIVE_MAP }

  function Place(c: Columned, b: Breakpoint, source: Item): Columned {
    var cols := Columns(b);
    var full := FullWidth(b, source);
    var toLeft := c.left <= c.right;
    var y := if full then Max(c.left, c.right) else if toLeft then c.left else c.right;
    var item := if b == Lg then source
                else source.(x := if full || toLeft then 0 else cols / 2, y := y, w := if full then cols else cols / 2);
    if full then Columned(c.items + [item], y + item.h, y + item.h)
    else if toLeft then Columned(c.items + [item], y + item.h, c.right)
    else Columned(c.items + [item], c.left, y + item.h)
  }

  function Arrange(desktop: seq<Item>, existing: seq<Item>, b: Breakpoint): Columned {
    if desktop == [] then Columned([], 0, 0)
    else
      var n := |desktop| - 1;
      var c := Arrange(desktop[..n], existing, b);
      match FindItem(existing, desktop[n].id)
      case Some(saved) => Reserve(c, b, saved)
      case None => Place(c, b, desktop[n])
  }

  function Widen(items: seq<Item>, b: Breakpoint): (r: seq<Item>)
    ensures |r| == |items|
    ensures forall i :: 0 <= i < |r| ==> r[i] == if Narrow(b) then items[i].(x := 0, w := Columns(b)) else items[i]
  {
    seq(|items|, i requires 0 <= i < |items| => if Narrow(b) then items[i].(x := 0, w := Columns(b)) else items[i])
  }

  /** One breakpoint of deriveLayouts: `desktop` is in reading order. */
  method Derive(desktop: seq<Item>, existing: seq<Item>, b: Breakpoint) returns (r: seq<Item>)
    ensures r == Widen(Arrange(desktop, existing, b).items, b)
  {
    var cols := Columns(b);
    var items: seq<Item> := [];
    var left, right := 0, 0;
    for i := 0 to |desktop|
      invariant Columned(items, left, right) == Arrange(desktop[..i], existing, b)
    {
      assert desktop[..i + 1][..i] == desktop[..i];
      var source := desktop[i];
      var saved := FindItem(existing, source.id);
      if saved.Some? {
        var bottom := saved.value.y + saved.value.h;
        items := items + [saved.value];
        if b == Md && saved.value.w <= cols / 2 {
          if saved.value.x < cols / 2 { left := Max(left, bottom); } else { right := Max(right, bottom); }
        } else {
          left, right := Max(left, bottom), Max(right, bottom);
        }
      } else {
        var full := b != Md || source.id == LIVE_MAP;
        var toLeft := left <= right;
        var y := if full then Max(left, right) else if toLeft then left else right;
        var item := source;
        if b != Lg {
          item := source.(x := if full || toLeft then 0 else cols / 2, y := y, w := if full then cols else cols / 2);
        }
        items := items + [item];
        if full { left, right := y + item.h, y + item.h; }
        else if toLeft { left := y + item.h; }
        else { right := y + item.h; }
      }
    }
    assert desktop[..|desktop|] == desktop;
    r := Widen(items, b);
  }

  /** Every item ends above the fill line of each column it touches. */
  ghost predicate Below(c: Columned, cols: int) {
    forall i :: 0 <= i < |c.items| ==>
      var a := c.items[i];
      (a.x < cols / 2 ==> a.y + a.h <= c.left) && (a.x + a.w > cols / 2 ==> a.y + a.h <= c.right)
  }

  ghost predicate Fresh(b: Breakpoint, desktop: seq<Item>, c: Columned) {
    && SameWidgets(c.items, desktop, false)
    && Packed(c.items, Columns(b)) && Below(c, Columns(b))
    && 0 <= c.left && 0 <= c.right
    && -Tallest(desktop) <= c.left - c.right <= Tallest(desktop)
    && (Narrow(b) ==> forall i :: 0 <= i < |c.items| ==> c.items[i].x == 0 && c.items[i].w == Columns(b))
  }

  lemma PlacePacked(c: Columned, b: Breakpoint, source: Item)
    requires b != Lg && Packed(c.items, Columns(b)) && Below(c, Columns(b)) && 0 <= c.left && 0 <= c.right
    requires source.h > 0
    ensures Packed(Place(c, b, source).items, Columns(b)) && Below(Place(c, b, source), Columns(b))
  {
    var n := Place(c, b, source);
    var a := n.items[|c.items|];
    assert Inside(a, Columns(b));
    forall i | 0 <= i < |c.items| ensures Disjoint(c.items[i], a) {
      assert Inside(c.items[i], Columns(b));
    }
    PackedGrows(c.items, a, Columns(b));
  }

  /** The lower column gets the next widget, so the difference stays within one widget. */
  lemma PlaceLevels(c: Columned, b: Breakpoint, source: Item, tallest: int)
    requires 0 <= c.left && 0 <= c.right && -tallest <= c.left - c.right <= tallest && source.h > 0
    ensures var n := Place(c, b, source);
            0 <= n.left && 0 <= n.right && -Max(tallest, source.h) <= n.left - n.right <= Max(tallest, source.h)
  {}

  lemma PlaceFresh(b: Breakpoint, desktop: seq<Item>, c: Columned)
    requires b != Lg && desktop != [] && desktop[|desktop| - 1].h > 0 && Fresh(b, desktop[..|desktop| - 1], c)
    ensures Fresh(b, desktop, Place(c, b, desktop[|desktop| - 1]))
  {
    var n := |desktop| - 1;
    var r := Place(c, b, desktop[n]);
    PlacePacked(c, b, desktop[n]);
    PlaceLevels(c, b, desktop[n], Tallest(desktop[..n]));
    var a := r.items[|c.items|];
    assert r.items == c.items + [a];
    SameGrows(c.items, a, desktop, false);
    assert Narrow(b) ==> a.x == 0 && a.w == Columns(b);
    hide Packed, Below, SameWidgets, Place;
  }

  /** For a screen without a saved arrangement: each widget once, at its own height,
      inside the columns and clear of the others; and the two columns never differ by
      more than the tallest widget. */
  lemma {:induction false} DerivedIsPacked(desktop: seq<Item>, b: Breakpoint)
    requires b != Lg && forall i :: 0 <= i < |desktop| ==> desktop[i].h > 0
    ensures Fresh(b, desktop, Arrange(desktop, [], b))
  {
    if desktop != [] {
      DerivedIsPacked(desktop[..|desktop| - 1], b);
      hide Fresh, Place;
      PlaceFresh(b, desktop, Arrange(desktop[..|desktop| - 1], [], b));
    }
  }

  /** What Derive returns for such a screen is that packing. */
  lemma DerivedResult(desktop: seq<Item>, b: Breakpoint)
    requires b != Lg && forall i :: 0 <= i < |desktop| ==> desktop[i].h > 0
    ensures var r := Widen(Arrange(desktop, [], b).items, b); SameWidgets(r, desktop, false) && Packed(r, Columns(b))
  {
    DerivedIsPacked(desktop, b);
    hide Packed, Arrange;
    assert Widen(Arrange(desktop, [], b).items, b) == Arrange(desktop, [], b).items;
  }

  // ---- Moving a widget in reading order ----------------------------------------------------------

  predicate Before(a: Item, b: Item) { a.y < b.y || (a.y == b.y && a.x < b.x) }

  /** Positions rise strictly in reading order. */
  ghost predicate InReadingOrder(items: seq<Item>) {
    forall i, j :: 0 <= i < j < |items| ==> Before(items[i], items[j])
  }

  /** The row being filled. */
  datatype Shelf = Shelf(items: seq<Item>, x: int, y: int, rowHeight: int)

  function Put(s: Shelf, e: Item, cols: int): Shelf {
    var r := if s.x + e.w > cols then s.(x := 0, y := s.y + s.rowHeight, rowHeight := 0) else s;
    Shelf(r.items + [e.(x := r.x, y := r.y)], r.x + e.w, r.y, Max(r.rowHeight, e.h))
  }

  function Shelve(items: seq<Item>, cols: int): Shelf {
    if items == [] then Shelf([], 0, 0, 0)
    else Put(Shelve(items[..|items| - 1], cols), items[|items| - 1], cols)
  }

  function Pile(items: seq<Item>): (r: (seq<Item>, int)) {
    if items == [] then ([], 0)
    else
      var n := |items| - 1;
      var (below, y) := Pile(items[..n]);
      (below + [items[n].(x := 0, y := y)], y + items[n].h)
  }

  function Repacked(items: seq<Item>, b: Breakpoint): seq<Item> {
    if Narrow(b) then Pile(items).0 else Shelve(items, Columns(b)).items
  }

  /** One row per item, for the phone screens. */
  method PileUp(a: array<Item>)
    modifies a
    ensures a[..] == Pile(old(a[..])).0
  {
    ghost var was := a[..];
    var y := 0;
    for i := 0 to a.Length
      invariant (a[..i], y) == Pile(was[..i]) && a[i..] == was[i..]
    {
      assert was[..i + 1][..i] == was[..i];
      assert a[i] == a[i..][0] == was[i];
      a[i] := a[i].(x := 0, y := y);
      y := y + a[i].h;
      assert a[..i + 1] == a[..i] + [a[i]];
      assert a[i + 1..] == was[i..][1..];
    }
    assert was[..a.Length] == was && a[..a.Length] == a[..];
  }

  lemma ShelveOne(items: seq<Item>, i: nat, cols: nat)
    requires i < |items|
    ensures Shelve(items[..i + 1], cols) == Put(Shelve(items[..i], cols), items[i], cols)
  {
    assert items[..i + 1][..i] == items[..i];
  }

  /** Row after row, each begun where the next item no longer fits. */
  method FillShelves(a: array<Item>, cols: nat)
    modifies a
    ensures a[..] == Shelve(old(a[..]), cols).items
  {
    ghost var was := a[..];
    var x, y, rowHeight := 0, 0, 0;
    for i := 0 to a.Length
      invariant Shelf(a[..i], x, y, rowHeight) == Shelve(was[..i], cols) && a[i..] == was[i..]
    {
      ShelveOne(was, i, cols);
      hide Shelve;
      assert a[i] == a[i..][0] == was[i];
      if x + a[i].w > cols { x, y, rowHeight := 0, y + rowHeight, 0; }
      a[i] := a[i].(x := x, y := y);
      x, rowHeight := x + a[i].w, Max(rowHeight, a[i].h);
      assert a[..i + 1] == a[..i] + [a[i]];
      assert a[i + 1..] == was[i..][1..];
    }
    assert was[..a.Length] == was && a[..a.Length] == a[..];
  }

  /** Places the items of an array anew, in their order there. */
  method Repack(a: array<Item>, b: Breakpoint)
    modifies a
    ensures a[..] == Repacked(old(a[..]), b)
  {
    if Narrow(b) { PileUp(a); } else { FillShelves(a, Columns(b)); }
  }

  predicate Sized(e: Item, cols: int) { 0 < e.w <= cols && e.h > 0 }

  /** Earlier rows end where the current one begins; in it the items lie left of `x`. */
  ghost predicate Shelved(s: Shelf) {
    && 0 <= s.x && 0 <= s.y && 0 <= s.rowHeight && (s.x > 0 ==> s.rowHeight > 0)
    && forall i :: 0 <= i < |s.items| ==>
         var a := s.items[i];
         a.y <= s.y && ((a.y + a.h <= s.y && a.y < s.y) || (a.y == s.y && a.x + a.w <= s.x && a.h <= s.rowHeight))
  }

  lemma PutPacked(s: Shelf, e: Item, cols: int)
    requires Packed(s.items, cols) && Shelved(s) && s.x <= cols && Sized(e, cols) && InReadingOrder(s.items)
    ensures var n := Put(s, e, cols); Packed(n.items, cols) && Shelved(n) && n.x <= cols && InReadingOrder(n.items)
  {
    var n := Put(s, e, cols);
    var a := n.items[|s.items|];
    forall i | 0 <= i < |s.items| ensures Disjoint(s.items[i], a) && Before(s.items[i], a) {
      assert Inside(s.items[i], cols);
    }
    PackedGrows(s.items, a, cols);
    hide Packed, Disjoint;
  }

  lemma {:induction false} ShelvePacked(items: seq<Item>, cols: nat)
    requires forall i :: 0 <= i < |items| ==> Sized(items[i], cols)
    ensures var s := Shelve(items, cols);
            Packed(s.items, cols) && Shelved(s) && s.x <= cols && InReadingOrder(s.items) &&
                SameWidgets(s.items, items, true)
  {
    if items != [] {
      var n := |items| - 1;
      ShelvePacked(items[..n], cols);
      var s := Shelve(items[..n], cols);
      var r := Put(s, items[n], cols);
      PutPacked(s, items[n], cols);
      var a := r.items[|s.items|];
      assert r.items == s.items + [a];
      hide Packed, Shelved, InReadingOrder;
      SameGrows(s.items, a, items, true);
    }
  }

  ghost predicate Piled(r: seq<Item>, y: int) {
    y >= 0 && forall i :: 0 <= i < |r| ==> r[i].y + r[i].h <= y && r[i].h > 0
  }

  lemma PilePut(r: seq<Item>, y: int, a: Item, cols: int)
    requires Piled(r, y) && Packed(r, cols) && InReadingOrder(r) && a.x == 0 && a.y == y && Sized(a, cols)
    ensures Piled(r + [a], y + a.h) && Packed(r + [a], cols) && InReadingOrder(r + [a])
  {
    PackedGrows(r, a, cols);
    hide Packed, Disjoint;
  }

  lemma {:induction false} PilePacked(items: seq<Item>, cols: int)
    requires forall i :: 0 <= i < |items| ==> Sized(items[i], cols)
    ensures var (r, y) := Pile(items);
            Piled(r, y) && Packed(r, cols) && InReadingOrder(r) && SameWidgets(r, items, true)
  {
    if items != [] {
      var n := |items| - 1;
      PilePacked(items[..n], cols);
      var (s, y) := Pile(items[..n]);
      var a := items[n].(x := 0, y := y);
      hide Packed, Piled, InReadingOrder;
      PilePut(s, y, a, cols);
      SameGrows(s, a, items, true);
    }
  }

  /** A repacked grid holds the same widgets at the same sizes, clear of each other, and
      reading it gives back the requested order. */
  lemma RepackedIsSound(items: seq<Item>, b: Breakpoint)
    requires forall i :: 0 <= i < |items| ==> Sized(items[i], Columns(b))
    ensures var r := Repacked(items, b);
            Packed(r, Columns(b)) && InReadingOrder(r) && SameWidgets(r, items, true)
  {
    if Narrow(b) { PilePacked(items, Columns(b)); } else { ShelvePacked(items, Columns(b)); }
    hide Packed, InReadingOrder, SameWidgets;
  }

  // ---- Reading order -------------------------------------------------------------------------------

  /** Stable insertion: after everything that does not come after it. */
  function Insert(sorted: seq<Item>, a: Item): seq<Item> {
    if sorted == [] || !Before(a, sorted[|sorted| - 1]) then sorted + [a]
    else Insert(sorted[..|sorted| - 1], a) + [sorted[|sorted| - 1]]
  }

  function Reading(items: seq<Item>): seq<Item> {
    if items == [] then [] else Insert(Reading(items[..|items| - 1]), items[|items| - 1])
  }

  ghost predicate Ordered(items: seq<Item>) {
    forall i, j :: 0 <= i < j < |items| ==> !Before(items[j], items[i])
  }

  lemma {:induction false} InsertKeeps(sorted: seq<Item>, a: Item)
    ensures multiset(Insert(sorted, a)) == multiset(sorted) + multiset{a}
  {
    if sorted != [] {
      var n := |sorted| - 1;
      assert sorted == sorted[..n] + [sorted[n]];
      InsertKeeps(sorted[..n], a);
    }
  }

  lemma InsertMembers(sorted: seq<Item>, a: Item, e: Item)
    requires e in Insert(sorted, a)
    ensures e in sorted || e == a
  {
    InsertKeeps(sorted, a);
    hide Insert;
    assert e in multiset(Insert(sorted, a));
  }

  lemma {:induction false} InsertOrdered(sorted: seq<Item>, a: Item)
    requires Ordered(sorted)
    ensures Ordered(Insert(sorted, a))
  {
    if sorted != [] {
      var n := |sorted| - 1;
      if Before(a, sorted[n]) {
        InsertOrdered(sorted[..n], a);
        var r := Insert(sorted[..n], a);
        forall i | 0 <= i < |r| ensures !Before(sorted[n], r[i]) {
          InsertMembers(sorted[..n], a, r[i]);
        }
      }
    }
  }

  lemma {:induction false} ReadingOrdered(items: seq<Item>)
    ensures Ordered(Reading(items)) && multiset(Reading(items)) == multiset(items)
  {
    if items != [] {
      var n := |items| - 1;
      ReadingOrdered(items[..n]);
      hide Insert, Ordered;
      InsertOrdered(Reading(items[..n]), items[n]);
      InsertKeeps(Reading(items[..n]), items[n]);
      assert items == items[..n] + [items[n]];
    }
  }

  /** What is already in reading order stays as it is. */
  lemma {:induction false} ReadingFixed(items: seq<Item>)
    requires InReadingOrder(items)
    ensures Reading(items) == items
  {
    if items != [] {
      var n := |items| - 1;
      ReadingFixed(items[..n]);
      assert items == items[..n] + [items[n]];
      if n > 0 { assert Before(items[n - 1], items[n]); }
    }
  }

  function IndexOf(items: seq<Item>, id: Widget): (r: Option<nat>)
    ensures r.Some? ==>
              r.value < |items| && items[r.value].id == id && forall i :: 0 <= i < r.value ==> items[i].id != id
    ensures r.None? ==> forall i :: 0 <= i < |items| ==> items[i].id != id
  {
    if items == [] then None
    else if IndexOf(items[..|items| - 1], id).Some? then IndexOf(items[..|items| - 1], id)
    else if items[|items| - 1].id == id then Some(|items| - 1)
    else None
  }

  function Swap(items: seq<Item>, i: nat, j: nat): (r: seq<Item>)
    requires i < |items| && j < |items|
    ensures |r| == |items|
  {
    items[i := items[j]][j := items[i]]
  }

  /** The order a move asks for, if the widget has a neighbour on that side. */
  function Requested(items: seq<Item>, id: Widget, up: bool): Option<seq<Item>> {
    var sorted := Reading(items);
    match IndexOf(sorted, id)
    case None => None
    case Some(i) =>
      if up && i > 0 then Some(Swap(sorted, i, i - 1))
      else if !up && i + 1 < |sorted| then Some(Swap(sorted, i, i + 1))
      else None
  }

  function Moved(items: seq<Item>, id: Widget, up: bool, b: Breakpoint): seq<Item> {
    match Requested(items, id, up)
    case None => items
    case Some(order) => Repacked(order, b)
  }

  ghost predicate Unique(items: seq<Item>) {
    forall i, j :: 0 <= i < j < |items| ==> items[i].id != items[j].id
  }

  ghost predicate AllSized(items: seq<Item>, cols: int) {
    forall i :: 0 <= i < |items| ==> Sized(items[i], cols)
  }

  lemma RequestedSized(items: seq<Item>, id: Widget, up: bool, cols: int)
    requires AllSized(items, cols)
    ensures AllSized(Reading(items), cols)
    ensures Requested(items, id, up).Some? ==> AllSized(Requested(items, id, up).value, cols)
  {
    ReadingOrdered(items);
    var sorted := Reading(items);
    forall i | 0 <= i < |sorted| ensures Sized(sorted[i], cols) {
      assert sorted[i] in multiset(sorted);
      assert sorted[i] in items;
    }
  }

  /** A move leaves the same widgets at the same sizes, clear of each other, reading in
      the order that swaps the widget with its neighbour and changes nothing else. */
  lemma MoveIsSound(items: seq<Item>, id: Widget, up: bool, b: Breakpoint)
    requires AllSized(items, Columns(b)) && Requested(items, id, up).Some?
    ensures var r := Moved(items, id, up, b);
            && Packed(r, Columns(b)) && SameWidgets(r, Requested(items, id, up).value, true)
            && Reading(r) == r
  {
    RequestedSized(items, id, up, Columns(b));
    hide Requested, Packed, SameWidgets;
    RepackedIsSound(Requested(items, id, up).value, b);
    ReadingFixed(Moved(items, id, up, b));
  }

  lemma SwapBack(sorted: seq<Item>, r: seq<Item>, i: nat, j: nat)
    requires i < |sorted| && j < |sorted| && i != j && SameWidgets(r, Swap(sorted, i, j), true)
    ensures SameWidgets(Swap(r, j, i), sorted, true)
  {}

  lemma SwapFinds(sorted: seq<Item>, r: seq<Item>, i: nat, j: nat)
    requires i < |sorted| && j < |sorted| && i != j && Unique(sorted) && SameWidgets(r, Swap(sorted, i, j), true)
    ensures IndexOf(r, sorted[i].id) == Some(j)
  {
    var order := Swap(sorted, i, j);
    forall k | 0 <= k < |r| && k != j ensures r[k].id != sorted[i].id {
      assert r[k].id == order[k].id;
      assert order[k] == if k == i then sorted[j] else sorted[k];
    }
    FoundAt(r, sorted[i].id, j);
  }

  /** The opposite move asks for the two places to be swapped back. */
  lemma RequestedBack(sorted: seq<Item>, r: seq<Item>, id: Widget, up: bool, i: nat, j: nat)
    requires i < |sorted| && j < |sorted| && (if up then j == i - 1 else j == i + 1) && sorted[i].id == id
    requires Unique(sorted) && SameWidgets(r, Swap(sorted, i, j), true) && Reading(r) == r
    ensures Requested(r, id, !up) == Some(Swap(r, j, i)) && SameWidgets(Swap(r, j, i), sorted, true)
  {
    SwapFinds(sorted, r, i, j);
    SwapBack(sorted, r, i, j);
    SameLength(r, Swap(sorted, i, j));
    hide IndexOf, Reading, Unique, SameWidgets;
  }

  /** Moving a widget one way and back restores the reading order. */
  lemma MoveAndBack(items: seq<Item>, id: Widget, up: bool, b: Breakpoint)
    requires AllSized(items, Columns(b)) && Unique(Reading(items)) && Requested(items, id, up).Some?
    ensures SameWidgets(Moved(Moved(items, id, up, b), id, !up, b), Reading(items), true)
  {
    hide Packed, Reading, InReadingOrder, Repacked, SameWidgets, Unique, IndexOf, AllSized, Swap;
    var sorted := Reading(items);
    var r := Moved(items, id, up, b);
    RequestedSized(items, id, up, Columns(b));
    MoveIsSound(items, id, up, b);
    var i := IndexOf(sorted, id).value;
    var j := if up then i - 1 else i + 1;
    RequestedBack(sorted, r, id, up, i, j);
    SameLength(r, Swap(sorted, i, j));
    hide Requested;
    var again := Swap(r, j, i);
    SameSized(again, sorted, Columns(b));
    RepackedIsSound(again, b);
    SameTrans(Repacked(again, b), again, sorted);
  }

  lemma SameLength(r: seq<Item>, items: seq<Item>)
    requires SameWidgets(r, items, true)
    ensures |r| == |items|
  {}

  lemma SameTrans(a: seq<Item>, b: seq<Item>, c: seq<Item>)
    requires SameWidgets(a, b, true) && SameWidgets(b, c, true)
    ensures SameWidgets(a, c, true)
  {}

  lemma SameSized(r: seq<Item>, items: seq<Item>, cols: int)
    requires SameWidgets(r, items, true) && AllSized(items, cols)
    ensures AllSized(r, cols) && forall i :: 0 <= i < |r| ==> Sized(r[i], cols)
  {
    forall i | 0 <= i < |r| ensures Sized(r[i], cols) { assert Sized(items[i], cols); }
  }

  /** A move keeps a clear arrangement clear. */
  lemma MoveKeepsPacked(items: seq<Item>, id: Widget, up: bool, b: Breakpoint)
    requires Packed(items, Columns(b))
    ensures Packed(Moved(items, id, up, b), Columns(b))
  {
    if Requested(items, id, up).Some? {
      forall i | 0 <= i < |items| ensures Sized(items[i], Columns(b)) { assert Inside(items[i], Columns(b)); }
      hide Packed;
      MoveIsSound(items, id, up, b);
    }
  }

  lemma FoundAt(items: seq<Item>, id: Widget, j: nat)
    requires j < |items| && items[j].id == id && forall i :: 0 <= i < |items| && i != j ==> items[i].id != id
    ensures IndexOf(items, id) == Some(j)
  {}

  // ---- Added widgets ---------------------------------------------------------------------------------

  function Bottom(items: seq<Item>): (y: int)
    ensures y >= 0
    ensures forall i :: 0 <= i < |items| ==> items[i].y + items[i].h <= y
  {
    if items == [] then 0
    else
      var n := |items| - 1;
      assert forall i :: 0 <= i < n ==> items[i] == items[..n][i];
      Max(Bottom(items[..n]), items[n].y + items[n].h)
  }

  function AddedWidth(b: Breakpoint, id: Widget, w: int): int {
    if b == Lg then w else if b == Md && id != LIVE_MAP then Columns(b) / 2 else Columns(b)
  }

  function Added(items: seq<Item>, b: Breakpoint, id: Widget, w: int, h: int): seq<Item> {
    items + [Item(id, 0, Bottom(items), AddedWidth(b, id, w), h)]
  }

  /** A widget added below everything overlaps nothing. */
  lemma AddedIsPacked(items: seq<Item>, b: Breakpoint, id: Widget, w: int, h: int)
    requires Packed(items, Columns(b)) && 0 < w <= Columns(Lg) && h > 0
    ensures Packed(Added(items, b, id, w, h), Columns(b))
  {
    PackedGrows(items, Item(id, 0, Bottom(items), AddedWidth(b, id, w), h), Columns(b));
  }

  function Without(items: seq<Item>, id: Widget): (r: seq<Item>)
    ensures forall i :: 0 <= i < |r| ==> r[i] in items && r[i].id != id
  {
    if items == [] then []
    else
      var n := |items| - 1;
      Without(items[..n], id) + if items[n].id == id then [] else [items[n]]
  }

  lemma {:induction false} WithoutIsPacked(items: seq<Item>, id: Widget, cols: int)
    requires Packed(items, cols)
    ensures Packed(Without(items, id), cols)
  {
    if items != [] {
      var n := |items| - 1;
      WithoutIsPacked(items[..n], id, cols);
      var r := Without(items[..n], id);
      forall i | 0 <= i < |r| ensures Disjoint(r[i], items[n]) {
        var k :| 0 <= k < n && items[..n][k] == r[i];
        assert Disjoint(items[k], items[n]);
      }
      assert Inside(items[n], cols);
      PackedGrows(r, items[n], cols);
    }
  }

  // ---- The store ----------------------------------------------------------------------------------------

  class LayoutStore {
    var widgets: set<Widget>
    var layouts: map<Breakpoint, seq<Item>>
    var breakpoint: Breakpoint
    var dirty: bool
    var revision: nat

    function Items(b: Breakpoint): seq<Item>
      reads this
    {
      if b in layouts then layouts[b] else []
    }

    /** Every screen's arrangement is clear of overlaps. */
    ghost predicate Clear()
      reads this
    {
      forall b :: Packed(Items(b), Columns(b))
    }

    constructor ()
      ensures Clear() && widgets == {} && revision == 0
    {
      widgets, layouts, breakpoint, dirty, revision := {}, map[], Lg, false, 0;
    }

    method AddWidget(id: Widget, w: int, h: int)
      requires 0 < w <= Columns(Lg) && h > 0
      modifies this
      ensures id in old(widgets) ==> widgets == old(widgets) && layouts == old(layouts) && revision == old(revision)
      ensures id !in old(widgets) ==>
        && widgets == old(widgets) + {id} && dirty && revision == old(revision) + 1
        && forall b :: Items(b) == Added(old(Items(b)), b, id, w, h)
      ensures old(Clear()) ==> Clear()
    {
      hide Added;
      if id in widgets { return; }
      var l, m, s, x := Items(Lg), Items(Md), Items(Sm), Items(Xs);
      widgets := widgets + {id};
      layouts := layouts[Lg := Added(l, Lg, id, w, h)][Md := Added(m, Md, id, w, h)];
      layouts := layouts[Sm := Added(s, Sm, id, w, h)][Xs := Added(x, Xs, id, w, h)];
      dirty, revision := true, revision + 1;
      if old(Clear()) {
        forall b ensures Packed(Items(b), Columns(b)) { AddedIsPacked(old(Items(b)), b, id, w, h); }
      }
    }

    method RemoveWidget(id: Widget)
      modifies this
      ensures widgets == old(widgets) - {id} && revision == old(revision) + 1
      ensures forall b :: Items(b) == Without(old(Items(b)), id)
      ensures old(Clear()) ==> Clear()
    {
      widgets := widgets - {id};
      layouts := map b | b in layouts :: Without(layouts[b], id);
      dirty, revision := true, revision + 1;
      if old(Clear()) {
        forall b ensures Packed(Items(b), Columns(b)) { WithoutIsPacked(old(Items(b)), id, Columns(b)); }
      }
    }

    /** The up and down actions on the screen in use. */
    method MoveWidget(id: Widget, up: bool)
      modifies this
      ensures Items(breakpoint) == Moved(old(Items(breakpoint)), id, up, breakpoint) && breakpoint == old(breakpoint)
      ensures forall b :: b != breakpoint ==> Items(b) == old(Items(b))
      ensures revision == old(revision) + if Requested(old(Items(breakpoint)), id, up).Some? then 1 else 0
      ensures old(Clear()) ==> Clear()
    {
      hide Requested, Repacked, Packed;
      var items := Items(breakpoint);
      var order := Requested(items, id, up);
      if order.None? { return; }
      var a := new Item[|order.value|](i requires 0 <= i < |order.value| => order.value[i]);
      assert a[..] == order.value;
      Repack(a, breakpoint);
      layouts := layouts[breakpoint := a[..]];
      dirty, revision := true, revision + 1;
      if old(Clear()) {
        assert Packed(items, Columns(breakpoint));
        MoveKeepsPacked(items, id, up, breakpoint);
      }
    }
  }
}
