/**
 The bounded scan of an in-memory payload, contracts/validate_robot_tuning.py:260-350:
 an explicit stack with depth, item and byte budgets over an arbitrary object graph,
 proved to accept exactly the payloads that unfold into a small enough valid tree.
 */
module PayloadScan {
  import opened Options

  type Ref = int

  /** A string as its code points; surrogates are code points UTF-8 cannot encode. */
  type Text = seq<nat>

  datatype Key = TextKey(text: Text) | OtherKey

  datatype Node =
    | Plain                                   // null or a boolean
    | Float(finite: bool)
    | Integer(value: int)
    | String(text: Text)
    | Object(entries: seq<(Key, Ref)>)
    | Array(elements: seq<Ref>)
    | Unsupported

  datatype Code = TooDeep | TooLarge | Cyclic | NonFinite | IntegerTooLarge | InvalidText | BadType

  /** Only findings about single values, after which the scan goes on. */
  predicate OfValues(errors: seq<Code>) {
    TooDeep !in errors && TooLarge !in errors && Cyclic !in errors
  }

  type Heap = map<Ref, Node>

  datatype Limits = Limits(depth: nat, items: nat, bytes: nat)

  const SCALAR_BYTES := 8
  const MAX_INT := 0x7fff_ffff_ffff_ffff
  const REQUEST_LIMITS := Limits(64, 200_000, 16 * 1024)

  predicate Container(n: Node) { n.Object? || n.Array? }

  function Refs(entries: seq<(Key, Ref)>): (r: seq<Ref>)
    ensures |r| == |entries|
  {
    if entries == [] then [] else Refs(entries[..|entries| - 1]) + [entries[|entries| - 1].1]
  }

  function Children(n: Node): seq<Ref> {
    match n
    case Object(entries) => Refs(entries)
    case Array(elements) => elements
    case _ => []
  }

  ghost predicate Closed(h: Heap) {
    forall r, i :: r in h && 0 <= i < |Children(h[r])| ==> Children(h[r])[i] in h
  }

  // ---- The size of text ------------------------------------------------------------

  function Width(c: nat): (w: Option<nat>)
    ensures w.Some? ==> 1 <= w.value <= 4
  {
    if c < 0x80 then Some(1)
    else if c < 0x800 then Some(2)
    else if 0xD800 <= c < 0xE000 then None
    else if c < 0x10000 then Some(3)
    else Some(4)
  }

  function Utf8Size(t: Text): (n: Option<nat>)
    ensures n.Some? ==> |t| <= n.value <= 4 * |t|
  {
    if t == [] then Some(0)
    else
      match (Utf8Size(t[..|t| - 1]), Width(t[|t| - 1]))
      case (Some(m), Some(w)) => Some(m + w)
      case _ => None
  }

  /** What a string adds to the byte count; unencodable text counts its characters. */
  function TextBytes(t: Text): (n: nat)
    ensures |t| <= n
  {
    match Utf8Size(t) case Some(n) => n case None => |t|
  }

  datatype Cost = Oversized | Unencodable(length: nat) | Sized(bytes: nat)

  function TextCost(t: Text, remaining: int): Cost {
    if |t| > remaining then Oversized
    else
      match Utf8Size(t)
      case None => Unencodable(|t|)
      case Some(n) => if n > remaining then Oversized else Sized(n)
  }

  /** The early exit on the character count never changes the verdict. */
  lemma TextCostSound(t: Text, remaining: int)
    ensures TextCost(t, remaining).Oversized? <==> TextBytes(t) > remaining
    ensures TextCost(t, remaining).Unencodable? ==> Utf8Size(t).None? && TextCost(t, remaining).length == TextBytes(t)
    ensures TextCost(t, remaining).Sized? ==> Utf8Size(t).Some? && TextCost(t, remaining).bytes == TextBytes(t)
  {}

  // ---- What the budgets mean ---------------------------------------------------------

  predicate KeySound(k: Key) { k.TextKey? && Utf8Size(k.text).Some? }

  function KeyCost(k: Key): nat { if k.TextKey? then TextBytes(k.text) else SCALAR_BYTES }

  predicate KeysSound(entries: seq<(Key, Ref)>) {
    forall i :: 0 <= i < |entries| ==> KeySound(entries[i].0)
  }

  function KeysCost(entries: seq<(Key, Ref)>): nat {
    if entries == [] then 0 else KeysCost(entries[..|entries| - 1]) + KeyCost(entries[|entries| - 1].0)
  }

  /** Whether a node is acceptable on its own. */
  predicate Sound(n: Node) {
    match n
    case Plain => true
    case Float(finite) => finite
    case Integer(v) => -MAX_INT <= v <= MAX_INT
    case String(t) => Utf8Size(t).Some?
    case Object(entries) => KeysSound(entries)
    case Array(_) => true
    case Unsupported => false
  }

  function OwnCost(n: Node): nat {
    match n
    case String(t) => TextBytes(t)
    case Object(entries) => SCALAR_BYTES + KeysCost(entries)
    case Unsupported => 0
    case _ => SCALAR_BYTES
  }

  /** A payload written out as a finite tree. */
  datatype Tree = Tree(node: Node, kids: seq<Tree>)

  ghost predicate Unfolds(h: Heap, r: Ref, t: Tree)
    decreases t
  {
    && r in h && t.node == h[r]
    && |t.kids| == |Children(t.node)|
    && forall i :: 0 <= i < |t.kids| ==> Unfolds(h, Children(t.node)[i], t.kids[i])
  }

  ghost predicate AllSound(t: Tree) {
    Sound(t.node) && forall i :: 0 <= i < |t.kids| ==> AllSound(t.kids[i])
  }

  /** No node is more than `d` steps below the root. */
  ghost predicate Shallow(t: Tree, d: nat)
    decreases d
  {
    forall i :: 0 <= i < |t.kids| ==> d > 0 && Shallow(t.kids[i], d - 1)
  }

  datatype Measure = Items | Bytes | Steps

  function Weight(m: Measure, n: Node): nat {
    match m
    case Items => |Children(n)|
    case Bytes => OwnCost(n)
    case Steps => 1 + |Children(n)|
  }

  ghost function TreeWeight(m: Measure, t: Tree): nat {
    Weight(m, t.node) + TreesWeight(m, t.kids)
  }

  ghost function TreesWeight(m: Measure, ts: seq<Tree>): nat {
    if ts == [] then 0
    else
      var n := |ts| - 1;
      assert ts[..n] < ts;
      TreesWeight(m, ts[..n]) + TreeWeight(m, ts[n])
  }

  /** The contract of the scan: the payload is a finite tree of acceptable nodes
      within all three budgets. */
  ghost predicate Acceptable(h: Heap, root: Ref, l: Limits, t: Tree) {
    && Unfolds(h, root, t) && AllSound(t) && Shallow(t, l.depth)
    && TreeWeight(Items, t) <= l.items
    && TreeWeight(Bytes, t) <= l.bytes
  }

  // ---- The same, on the graph itself -----------------------------------------------------

  /** Everything below `r` is acceptable and ends within `room` levels. */
  ghost predicate Fits(h: Heap, r: Ref, room: nat)
    requires Closed(h) && r in h
    decreases room
  {
    && room > 0 && Sound(h[r])
    && forall i :: 0 <= i < |Children(h[r])| ==> Fits(h, Children(h[r])[i], room - 1)
  }

  ghost predicate Inside(h: Heap, rs: seq<Ref>) {
    forall i :: 0 <= i < |rs| ==> rs[i] in h
  }

  ghost function Weigh(m: Measure, h: Heap, r: Ref, room: nat): nat
    requires Closed(h) && r in h
    decreases room, 0
  {
    if room == 0 then 0 else Weight(m, h[r]) + WeighAll(m, h, Children(h[r]), room - 1)
  }

  ghost function WeighAll(m: Measure, h: Heap, rs: seq<Ref>, room: nat): nat
    requires Closed(h) && Inside(h, rs)
    decreases room, 1, |rs|
  {
    if rs == [] then 0 else WeighAll(m, h, rs[..|rs| - 1], room) + Weigh(m, h, rs[|rs| - 1], room)
  }

  ghost function Unfold(h: Heap, r: Ref, room: nat): Tree
    requires Closed(h) && r in h && Fits(h, r, room)
    decreases room
  {
    Tree(h[r], seq(|Children(h[r])|, i requires 0 <= i < |Children(h[r])| => Unfold(h, Children(h[r])[i], room - 1)))
  }

  lemma {:induction false} UnfoldUnfolds(h: Heap, r: Ref, room: nat)
    requires Closed(h) && r in h && Fits(h, r, room)
    ensures Unfolds(h, r, Unfold(h, r, room)) && AllSound(Unfold(h, r, room)) && Shallow(Unfold(h, r, room), room - 1)
    decreases room
  {
    var t := Unfold(h, r, room);
    forall i | 0 <= i < |t.kids|
      ensures room > 1 && Shallow(t.kids[i], room - 2)
      ensures Unfolds(h, Children(h[r])[i], t.kids[i]) && AllSound(t.kids[i])
    {
      assert Fits(h, Children(h[r])[i], room - 1);
      assert t.kids[i] == Unfold(h, Children(h[r])[i], room - 1);
      UnfoldUnfolds(h, Children(h[r])[i], room - 1);
    }
  }

  lemma {:induction false} UnfoldedFits(h: Heap, r: Ref, t: Tree, room: nat)
    requires Closed(h) && Unfolds(h, r, t) && AllSound(t) && room > 0 && Shallow(t, room - 1)
    ensures r in h && Fits(h, r, room)
    decreases room
  {
    forall i | 0 <= i < |Children(h[r])| ensures Fits(h, Children(h[r])[i], room - 1) {
      UnfoldedFits(h, Children(h[r])[i], t.kids[i], room - 1);
    }
  }

  lemma {:induction false} UnfoldedWeigh(m: Measure, h: Heap, r: Ref, t: Tree, room: nat)
    requires Closed(h) && Unfolds(h, r, t) && room > 0 && Shallow(t, room - 1)
    ensures r in h && Weigh(m, h, r, room) == TreeWeight(m, t)
    decreases room, 0
  {
    if |t.kids| > 0 {
      assert Unfolds(h, Children(h[r])[0], t.kids[0]) && room - 1 > 0;
      UnfoldedWeighAll(m, h, Children(h[r]), t.kids, room - 1);
    }
  }

  lemma {:induction false} UnfoldedWeighAll(m: Measure, h: Heap, rs: seq<Ref>, ts: seq<Tree>, room: nat)
    requires Closed(h) && room > 0 && |rs| == |ts|
    requires forall i :: 0 <= i < |rs| ==> Unfolds(h, rs[i], ts[i]) && Shallow(ts[i], room - 1)
    ensures Inside(h, rs) && WeighAll(m, h, rs, room) == TreesWeight(m, ts)
    decreases room, 1, |rs|
  {
    if rs != [] {
      var n := |rs| - 1;
      UnfoldedWeighAll(m, h, rs[..n], ts[..n], room);
      UnfoldedWeigh(m, h, rs[n], ts[n], room);
    }
  }

  ghost predicate Clean(h: Heap, root: Ref, l: Limits)
    requires Closed(h) && root in h
  {
    && Fits(h, root, l.depth + 1)
    && Weigh(Items, h, root, l.depth + 1) <= l.items
    && Weigh(Bytes, h, root, l.depth + 1) <= l.bytes
  }

  lemma CleanMeansAcceptable(h: Heap, root: Ref, l: Limits)
    requires Closed(h) && root in h
    ensures Clean(h, root, l) <==> exists t :: Acceptable(h, root, l, t)
  {
    if Fits(h, root, l.depth + 1) {
      var t := Unfold(h, root, l.depth + 1);
      UnfoldUnfolds(h, root, l.depth + 1);
      UnfoldedWeigh(Items, h, root, t, l.depth + 1);
      UnfoldedWeigh(Bytes, h, root, t, l.depth + 1);
      assert Clean(h, root, l) ==> Acceptable(h, root, l, t);
    }
    if t :| Acceptable(h, root, l, t) {
      UnfoldedFits(h, root, t, l.depth + 1);
      UnfoldedWeigh(Items, h, root, t, l.depth + 1);
      UnfoldedWeigh(Bytes, h, root, t, l.depth + 1);
    }
  }

  // ---- Paths and cycles --------------------------------------------------------------------

  ghost predicate Path(h: Heap, p: seq<Ref>) {
    && p != [] && Inside(h, p)
    && forall i :: 0 <= i < |p| - 1 ==> p[i + 1] in Children(h[p[i]])
  }

  /** Reachable from the root and below itself. */
  ghost predicate Loops(h: Heap, root: Ref, p: seq<Ref>) {
    Path(h, p) && p[0] == root && p[|p| - 1] in p[..|p| - 1]
  }

  lemma {:induction false} FitsAlong(h: Heap, p: seq<Ref>, room: nat)
    requires Closed(h) && Path(h, p) && Fits(h, p[0], room)
    ensures |p| <= room && Fits(h, p[|p| - 1], room - (|p| - 1))
    decreases |p|
  {
    if |p| > 1 {
      var i :| 0 <= i < |Children(h[p[0]])| && Children(h[p[0]])[i] == p[1];
      assert Path(h, p[1..]) by {
        forall k | 0 <= k < |p[1..]| - 1 ensures p[1..][k + 1] in Children(h[p[1..][k]]) {
          assert p[k + 1 + 1] in Children(h[p[k + 1]]);
        }
      }
      FitsAlong(h, p[1..], room - 1);
    }
  }

  lemma {:induction false} LoopNeverFits(h: Heap, p: seq<Ref>, room: nat)
    requires Closed(h) && Path(h, p) && |p| > 1 && p[0] == p[|p| - 1]
    ensures !Fits(h, p[0], room)
    decreases room
  {
    if Fits(h, p[0], room) {
      FitsAlong(h, p, room);
      LoopNeverFits(h, p, room - (|p| - 1));
    }
  }

  /** A payload with a reachable cycle fits no depth limit whatever. */
  lemma CycleNeverFits(h: Heap, root: Ref, p: seq<Ref>, room: nat)
    requires Closed(h) && Loops(h, root, p)
    ensures !Fits(h, root, room)
  {
    var j :| 0 <= j < |p| - 1 && p[j] == p[|p| - 1];
    if Fits(h, root, room) {
      assert Path(h, p[..j + 1]);
      FitsAlong(h, p[..j + 1], room);
      var q := p[j..];
      assert Path(h, q) by {
        forall k | 0 <= k < |q| - 1 ensures q[k + 1] in Children(h[q[k]]) {
          assert p[j + k + 1] in Children(h[p[j + k]]);
        }
      }
      LoopNeverFits(h, q, room - j);
    }
  }

  // ---- The work still to do ------------------------------------------------------------------

  datatype Entry = Entry(ref: Ref, depth: nat, leaving: bool)

  function Room(l: Limits, e: Entry): nat { if e.depth <= l.depth then l.depth + 1 - e.depth else 0 }

  ghost predicate Known(h: Heap, stack: seq<Entry>) {
    forall i :: 0 <= i < |stack| ==> stack[i].ref in h
  }

  /** Everything the entries on the stack still have to contribute. */
  ghost function Pending(m: Measure, h: Heap, l: Limits, stack: seq<Entry>): nat
    requires Closed(h) && Known(h, stack)
  {
    if stack == [] then 0
    else
      var e := stack[|stack| - 1];
      Pending(m, h, l, stack[..|stack| - 1]) + if e.leaving then 0 else Weigh(m, h, e.ref, Room(l, e))
  }

  ghost predicate PendingFits(h: Heap, l: Limits, stack: seq<Entry>)
    requires Closed(h) && Known(h, stack)
  {
    forall i :: 0 <= i < |stack| && !stack[i].leaving ==> Fits(h, stack[i].ref, Room(l, stack[i]))
  }

  /** The containers being visited, outermost first. */
  ghost function Trail(stack: seq<Entry>): seq<Ref> {
    if stack == [] then []
    else
      var e := stack[|stack| - 1];
      Trail(stack[..|stack| - 1]) + if e.leaving then [e.ref] else []
  }

  ghost predicate Distinct(s: seq<Ref>) {
    forall i, j :: 0 <= i < j < |s| ==> s[i] != s[j]
  }

  /** An entry sits below the containers it was reached through. */
  ghost predicate Placed(h: Heap, root: Ref, e: Entry, trail: seq<Ref>) {
    && e.depth == |trail|
    && (if trail == [] then e.ref == root else trail[|trail| - 1] in h && e.ref in Children(h[trail[|trail| - 1]]))
  }

  ghost predicate Arranged(h: Heap, root: Ref, stack: seq<Entry>) {
    forall i {:trigger stack[i]} :: 0 <= i < |stack| ==> Placed(h, root, stack[i], Trail(stack[..i]))
  }

  /** The entries pushed for a container. */
  function Below(refs: seq<Ref>, depth: nat): (s: seq<Entry>)
    ensures |s| == |refs|
    ensures forall i :: 0 <= i < |s| ==> s[i] == Entry(refs[i], depth, false)
  {
    seq(|refs|, i requires 0 <= i < |refs| => Entry(refs[i], depth, false))
  }

  lemma {:induction false} PendingBelow(m: Measure, h: Heap, l: Limits, stack: seq<Entry>, refs: seq<Ref>, depth: nat)
    requires Closed(h) && Known(h, stack) && Inside(h, refs)
    ensures Known(h, stack + Below(refs, depth))
    ensures Pending(m, h, l, stack + Below(refs, depth))
         == Pending(m, h, l, stack) + WeighAll(m, h, refs, Room(l, Entry(0, depth, false)))
  {
    hide Weigh, Pending, Closed;
    var all := stack + Below(refs, depth);
    if refs == [] {
      assert all == stack;
    } else {
      var n := |refs| - 1;
      var e := Entry(refs[n], depth, false);
      var some := stack + Below(refs[..n], depth);
      PendingBelow(m, h, l, stack, refs[..n], depth);
      assert all == some + [e];
      hide Below;
      PopPending(m, h, l, some, e);
    }
  }

  /** Visiting a container trades its own pending work for what it adds now. */
  lemma EnterPending(m: Measure, h: Heap, l: Limits, stack: seq<Entry>, e: Entry)
    requires Closed(h) && Known(h, stack) && e.ref in h && !e.leaving && e.depth <= l.depth
    ensures var next := stack + [e.(leaving := true)] + Below(Children(h[e.ref]), e.depth + 1);
            && Known(h, next)
            && Pending(m, h, l, stack + [e]) == Pending(m, h, l, next) + Weight(m, h[e.ref])
  {
    var entered := stack + [e.(leaving := true)];
    assert entered[..|stack|] == stack;
    assert (stack + [e])[..|stack|] == stack;
    PendingBelow(m, h, l, entered, Children(h[e.ref]), e.depth + 1);
  }

  lemma EnterFits(h: Heap, l: Limits, stack: seq<Entry>, e: Entry)
    requires Closed(h) && Known(h, stack) && e.ref in h && !e.leaving && e.depth <= l.depth
    ensures var next := stack + [e.(leaving := true)] + Below(Children(h[e.ref]), e.depth + 1);
            && Known(h, next)
            && (PendingFits(h, l, stack + [e]) <==> Sound(h[e.ref]) && PendingFits(h, l, next))
  {
    var children := Children(h[e.ref]);
    var next := stack + [e.(leaving := true)] + Below(children, e.depth + 1);
    var room := l.depth + 1 - e.depth;
    if PendingFits(h, l, stack + [e]) {
      assert Fits(h, (stack + [e])[|stack|].ref, room);
      forall i | 0 <= i < |next| && !next[i].leaving ensures Fits(h, next[i].ref, Room(l, next[i])) {
        if i < |stack| { assert (stack + [e])[i] == next[i]; }
        else { assert Fits(h, children[i - |stack| - 1], room - 1); }
      }
    }
    if Sound(h[e.ref]) && PendingFits(h, l, next) {
      forall i | 0 <= i < |children| ensures Fits(h, children[i], room - 1) {
        assert next[|stack| + 1 + i] == Entry(children[i], e.depth + 1, false);
      }
      forall i | 0 <= i < |stack + [e]| && !(stack + [e])[i].leaving
        ensures Fits(h, (stack + [e])[i].ref, Room(l, (stack + [e])[i]))
      {
        if i < |stack| { assert next[i] == (stack + [e])[i]; }
      }
    }
  }

  lemma PushArranged(h: Heap, root: Ref, stack: seq<Entry>, e: Entry)
    requires Arranged(h, root, stack) && Placed(h, root, e, Trail(stack))
    ensures Arranged(h, root, stack + [e])
    ensures Trail(stack + [e]) == Trail(stack) + if e.leaving then [e.ref] else []
  {
    hide Placed;
    var next := stack + [e];
    assert next[..|stack|] == stack;
    forall i | 0 <= i < |next| ensures Placed(h, root, next[i], Trail(next[..i])) {
      if i < |stack| { assert next[i] == stack[i] && next[..i] == stack[..i]; }
    }
  }

  lemma PopArranged(h: Heap, root: Ref, stack: seq<Entry>, e: Entry)
    requires Arranged(h, root, stack + [e])
    ensures Arranged(h, root, stack)
    ensures Trail(stack + [e]) == Trail(stack) + if e.leaving then [e.ref] else []
    ensures Placed(h, root, e, Trail(stack))
  {
    assert (stack + [e])[..|stack|] == stack && (stack + [e])[|stack|] == e;
    forall i | 0 <= i < |stack| ensures Placed(h, root, stack[i], Trail(stack[..i])) {
      assert (stack + [e])[i] == stack[i] && (stack + [e])[..i] == stack[..i];
    }
  }

  lemma {:induction false} BelowArranged(h: Heap, root: Ref, stack: seq<Entry>, refs: seq<Ref>, depth: nat)
    requires Arranged(h, root, stack)
    requires forall i :: 0 <= i < |refs| ==> Placed(h, root, Entry(refs[i], depth, false), Trail(stack))
    ensures Arranged(h, root, stack + Below(refs, depth)) && Trail(stack + Below(refs, depth)) == Trail(stack)
  {
    hide Arranged, Placed, Trail;
    if refs == [] {
      assert stack + Below(refs, depth) == stack;
    } else {
      var n := |refs| - 1;
      BelowArranged(h, root, stack, refs[..n], depth);
      var some, e := stack + Below(refs[..n], depth), Entry(refs[n], depth, false);
      PushArranged(h, root, some, e);
      assert stack + Below(refs, depth) == some + [e];
      assert Trail(some) + [] == Trail(some);
    }
  }

  lemma EnterArranged(h: Heap, root: Ref, stack: seq<Entry>, e: Entry)
    requires Arranged(h, root, stack + [e]) && e.ref in h && !e.leaving
    ensures var next := stack + [e.(leaving := true)] + Below(Children(h[e.ref]), e.depth + 1);
            Arranged(h, root, next) && Trail(next) == Trail(stack) + [e.ref]
  {
    hide Arranged, Trail, Children, Below;
    PopArranged(h, root, stack, e);
    PushArranged(h, root, stack, e.(leaving := true));
    BelowArranged(h, root, stack + [e.(leaving := true)], Children(h[e.ref]), e.depth + 1);
  }

  /** The containers being visited form a path from the root. */
  lemma {:induction false} TrailIsPath(h: Heap, root: Ref, stack: seq<Entry>)
    requires Arranged(h, root, stack) && Known(h, stack)
    ensures Trail(stack) != [] ==> Path(h, Trail(stack)) && Trail(stack)[0] == root
  {
    hide Arranged, Path;
    if stack != [] {
      var n := |stack| - 1;
      assert stack[..n] + [stack[n]] == stack;
      PopArranged(h, root, stack[..n], stack[n]);
      TrailIsPath(h, root, stack[..n]);
      var trail, r := Trail(stack[..n]), stack[n].ref;
      ExtendPath(h, trail, r);
      assert trail + [] == trail;
      if trail == [] { assert trail + [r] == [r]; }
    }
  }

  lemma ExtendPath(h: Heap, p: seq<Ref>, r: Ref)
    requires r in h
    ensures p == [] ==> Path(h, [r])
    ensures p != [] && Path(h, p) && r in Children(h[p[|p| - 1]]) ==> Path(h, p + [r])
  {
    if p != [] && Path(h, p) && r in Children(h[p[|p| - 1]]) {
      var q := p + [r];
      forall i | 0 <= i < |q| - 1 ensures q[i + 1] in Children(h[q[i]]) {
        if i < |p| - 1 { assert p[i + 1] in Children(h[p[i]]); }
      }
    }
  }

  // ---- The scan --------------------------------------------------------------------------------

  /** The loop over the entries of an object: `stopped` when a budget ran out. */
  method VisitEntries(entries: seq<(Key, Ref)>, depth: nat, items0: nat, bytes0: nat, l: Limits)
    returns (stopped: bool, found: seq<Code>, pushed: seq<Entry>, items: nat, bytes: nat)
    requires items0 <= l.items
    ensures stopped ==> items0 + |entries| > l.items || bytes0 + KeysCost(entries) > l.bytes
    ensures !stopped ==> pushed == Below(Refs(entries), depth + 1)
    ensures !stopped ==> items == items0 + |entries| <= l.items && bytes == bytes0 + KeysCost(entries)
    ensures !stopped ==> (found == [] <==> KeysSound(entries)) && OfValues(found)
  {
    hide KeysCost, KeysSound, Refs, Below, Utf8Size, TextBytes, TextCost;
    stopped, found, pushed, items, bytes := false, [], [], items0, bytes0;
    NoEntries(depth + 1);
    for i := 0 to |entries|
      invariant items == items0 + i <= l.items && bytes == bytes0 + KeysCost(entries[..i])
      invariant pushed == Below(Refs(entries[..i]), depth + 1)
      invariant found == [] <==> KeysSound(entries[..i])
      invariant OfValues(found)
    {
      OneMoreEntry(entries, i, depth + 1);
      KeysCostGrows(entries, i + 1);
      var (key, value) := entries[i];
      items := items + 1;
      if items > l.items { stopped := true; return; }
      if key.TextKey? {
        TextCostSound(key.text, l.bytes - bytes);
        match TextCost(key.text, l.bytes - bytes)
        case Oversized => stopped := true; return;
        case Unencodable(length) => found := found + [InvalidText]; bytes := bytes + length;
        case Sized(size) => bytes := bytes + size;
      } else {
        bytes := bytes + SCALAR_BYTES;
        found := found + [BadType];
      }
      pushed := pushed + [Entry(value, depth + 1, false)];
    }
    assert entries[..|entries|] == entries;
  }

  lemma NoEntries(depth: nat)
    ensures KeysSound([]) && KeysCost([]) == 0 && Below(Refs([]), depth) == []
  {}

  lemma OneMoreEntry(entries: seq<(Key, Ref)>, i: nat, depth: nat)
    requires i < |entries|
    ensures KeysSound(entries[..i + 1]) <==> KeysSound(entries[..i]) && KeySound(entries[i].0)
    ensures KeysCost(entries[..i + 1]) == KeysCost(entries[..i]) + KeyCost(entries[i].0)
    ensures Below(Refs(entries[..i + 1]), depth) == Below(Refs(entries[..i]), depth) +
        [Entry(entries[i].1, depth, false)]
  {
    assert entries[..i + 1][..i] == entries[..i];
    assert forall j :: 0 <= j < i ==> entries[..i + 1][j] == entries[..i][j];
    assert entries[..i + 1][i] == entries[i];
  }

  lemma {:induction false} KeysCostGrows(entries: seq<(Key, Ref)>, i: nat)
    requires i <= |entries|
    ensures KeysCost(entries[..i]) <= KeysCost(entries)
    decreases |entries|
  {
    if i == |entries| {
      assert entries[..i] == entries;
    } else {
      var n := |entries| - 1;
      assert entries[..n][..i] == entries[..i];
      KeysCostGrows(entries[..n], i);
    }
  }

  /** What one node adds, whatever its type. */
  method Visit(node: Node, depth: nat, items0: nat, bytes0: nat, l: Limits)
    returns (stopped: bool, found: seq<Code>, pushed: seq<Entry>, items: nat, bytes: nat)
    requires items0 <= l.items
    ensures stopped ==> items0 + |Children(node)| > l.items || bytes0 + OwnCost(node) > l.bytes
    ensures !stopped ==> pushed == Below(Children(node), depth + 1)
    ensures !stopped ==> items == items0 + |Children(node)| <= l.items && bytes == bytes0 + OwnCost(node)
    ensures !stopped ==> (found == [] <==> Sound(node))
    ensures !stopped ==> OfValues(found)
  {
    hide KeysCost, KeysSound, Refs, Utf8Size, TextBytes, TextCost;
    stopped, found, pushed, items, bytes := false, [], [], items0, bytes0;
    match node
    case Plain =>
      bytes := bytes + SCALAR_BYTES;
    case Float(finite) =>
      bytes := bytes + SCALAR_BYTES;
      if !finite { found := [NonFinite]; }
    case Integer(value) =>
      bytes := bytes + SCALAR_BYTES;
      if value < -MAX_INT || value > MAX_INT { found := [IntegerTooLarge]; }
    case String(text) =>
      TextCostSound(text, l.bytes - bytes);
      match TextCost(text, l.bytes - bytes) {
        case Oversized => stopped := true;
        case Unencodable(length) => found := [InvalidText]; bytes := bytes + length;
        case Sized(size) => bytes := bytes + size;
      }
    case Object(entries) =>
      stopped, found, pushed, items, bytes := VisitEntries(entries, depth, items, bytes + SCALAR_BYTES, l);
    case Array(elements) =>
      bytes := bytes + SCALAR_BYTES;
      for i := 0 to |elements|
        invariant items == items0 + i <= l.items && pushed == Below(elements[..i], depth + 1)
      {
        items := items + 1;
        if items > l.items { stopped := true; return; }
        pushed := pushed + [Entry(elements[i], depth + 1, false)];
      }
      assert elements[..|elements|] == elements;
    case Unsupported =>
      found := [BadType];
  }

  /** What the loop of the scan keeps true. */
  ghost predicate Scanning(h: Heap, root: Ref, l: Limits, stack: seq<Entry>, onPath: set<Ref>, items: nat, bytes: nat,
                           errors: seq<Code>)
    requires Closed(h) && root in h
  {
    && Known(h, stack) && Arranged(h, root, stack)
    && OnTrail(stack, onPath)
    && items + Pending(Items, h, l, stack) == Weigh(Items, h, root, l.depth + 1) && items <= l.items
    && bytes + Pending(Bytes, h, l, stack) == Weigh(Bytes, h, root, l.depth + 1) && bytes <= l.bytes
    && (Fits(h, root, l.depth + 1) <==> errors == [] && PendingFits(h, l, stack))
    && OfValues(errors)
  }

  /** The path set holds exactly the containers being visited, each once. */
  ghost predicate OnTrail(stack: seq<Entry>, onPath: set<Ref>) {
    Distinct(Trail(stack)) && forall r :: r in onPath <==> r in Trail(stack)
  }

  lemma Started(h: Heap, root: Ref, l: Limits)
    requires Closed(h) && root in h
    ensures Scanning(h, root, l, [Entry(root, 0, false)], {}, 0, 0, [])
  {
    var stack := [Entry(root, 0, false)];
    assert stack[..0] == [];
    assert Pending(Items, h, l, stack[..0]) == 0 && Pending(Bytes, h, l, stack[..0]) == 0;
    assert PendingFits(h, l, stack) <==> Fits(h, stack[0].ref, l.depth + 1);
  }

  lemma PopTrail(stack: seq<Entry>, e: Entry, onPath: set<Ref>)
    requires e.leaving && OnTrail(stack + [e], onPath)
    ensures OnTrail(stack, onPath - {e.ref})
  {
    assert (stack + [e])[..|stack|] == stack;
    var trail := Trail(stack);
    assert Trail(stack + [e]) == trail + [e.ref];
    hide Trail;
    forall r ensures r in onPath - {e.ref} <==> r in trail {
      if r in trail {
        var i :| 0 <= i < |trail| && trail[i] == r;
        assert (trail + [e.ref])[i] == r && (trail + [e.ref])[|trail|] == e.ref;
      }
    }
    assert forall i :: 0 <= i < |trail| ==> (trail + [e.ref])[i] == trail[i];
  }

  lemma PushTrail(stack: seq<Entry>, r: Ref, onPath: set<Ref>, next: seq<Entry>)
    requires OnTrail(stack, onPath) && r !in onPath && Trail(next) == Trail(stack) + [r]
    ensures OnTrail(next, onPath + {r})
  {
    hide Trail;
  }

  /** An entry contributes its own weight and that of what lies below it. */
  lemma PopPending(m: Measure, h: Heap, l: Limits, stack: seq<Entry>, e: Entry)
    requires Closed(h) && Known(h, stack + [e])
    ensures Known(h, stack) && e.ref in h
    ensures Pending(m, h, l, stack + [e]) ==
              Pending(m, h, l, stack) + if e.leaving then 0 else Weigh(m, h, e.ref, Room(l, e))
  {
    assert (stack + [e])[..|stack|] == stack && (stack + [e])[|stack|] == e;
    assert forall i :: 0 <= i < |stack| ==> stack[i] == (stack + [e])[i];
  }

  lemma PopFits(h: Heap, l: Limits, stack: seq<Entry>, e: Entry)
    requires Closed(h) && Known(h, stack + [e]) && Known(h, stack) && e.ref in h
    ensures PendingFits(h, l, stack + [e]) <==> PendingFits(h, l, stack) && (e.leaving || Fits(h, e.ref, Room(l, e)))
  {
    hide Fits;
    assert (stack + [e])[|stack|] == e;
    assert forall i :: 0 <= i < |stack| ==> stack[i] == (stack + [e])[i];
  }

  lemma Left(h: Heap, root: Ref, l: Limits, stack: seq<Entry>, e: Entry, onPath: set<Ref>, items: nat, bytes: nat,
             errors: seq<Code>)
    requires Closed(h) && root in h && e.leaving && Scanning(h, root, l, stack + [e], onPath, items, bytes, errors)
    ensures Scanning(h, root, l, stack, onPath - {e.ref}, items, bytes, errors)
    ensures Pending(Steps, h, l, stack) == Pending(Steps, h, l, stack + [e])
  {
    hide Weigh, Fits, Pending, PendingFits, OnTrail, Known, Arranged;
    forall m { PopPending(m, h, l, stack, e); }
    PopFits(h, l, stack, e);
    PopArranged(h, root, stack, e);
    PopTrail(stack, e, onPath);
  }

  function After(h: Heap, stack: seq<Entry>, e: Entry): seq<Entry>
    requires e.ref in h
  {
    if Container(h[e.ref]) then stack + [e.(leaving := true)] + Below(Children(h[e.ref]), e.depth + 1) else stack
  }

  lemma PassedPending(m: Measure, h: Heap, l: Limits, stack: seq<Entry>, e: Entry)
    requires Closed(h) && Known(h, stack + [e]) && e.ref in h && !e.leaving && e.depth <= l.depth
    ensures Known(h, stack) && Known(h, After(h, stack, e))
    ensures Pending(m, h, l, stack + [e]) == Pending(m, h, l, After(h, stack, e)) + Weight(m, h[e.ref])
  {
    PopPending(m, h, l, stack, e);
    if Container(h[e.ref]) { EnterPending(m, h, l, stack, e); }
  }

  lemma PassedFits(h: Heap, l: Limits, stack: seq<Entry>, e: Entry)
    requires Closed(h) && Known(h, stack + [e]) && Known(h, stack) && e.ref in h && !e.leaving && e.depth <= l.depth
    ensures Known(h, After(h, stack, e))
    ensures PendingFits(h, l, stack + [e]) <==> Sound(h[e.ref]) && PendingFits(h, l, After(h, stack, e))
  {
    if Container(h[e.ref]) {
      EnterFits(h, l, stack, e);
    } else {
      PopFits(h, l, stack, e);
    }
  }

  lemma PassedTrail(h: Heap, root: Ref, stack: seq<Entry>, e: Entry, onPath: set<Ref>)
    requires e.ref in h && !e.leaving && Arranged(h, root, stack + [e]) && OnTrail(stack + [e], onPath)
    requires Container(h[e.ref]) ==> e.ref !in onPath
    ensures Arranged(h, root, After(h, stack, e))
    ensures OnTrail(After(h, stack, e), if Container(h[e.ref]) then onPath + {e.ref} else onPath)
  {
    hide Arranged, Trail, Below, Children;
    PopArranged(h, root, stack, e);
    assert Trail(stack + [e]) == Trail(stack);
    if Container(h[e.ref]) {
      EnterArranged(h, root, stack, e);
      PushTrail(stack, e.ref, onPath, After(h, stack, e));
    }
  }

  lemma Passed(h: Heap, root: Ref, l: Limits, stack: seq<Entry>, e: Entry, onPath: set<Ref>, items: nat, bytes: nat,
               errors: seq<Code>, found: seq<Code>)
    requires Closed(h) && root in h && Scanning(h, root, l, stack + [e], onPath, items, bytes, errors)
    requires e.ref in h && !e.leaving && e.depth <= l.depth && (Container(h[e.ref]) ==> e.ref !in onPath)
    requires (found == [] <==> Sound(h[e.ref])) && OfValues(found)
    requires items + |Children(h[e.ref])| <= l.items && bytes + OwnCost(h[e.ref]) <= l.bytes
    ensures Scanning(h, root, l, After(h, stack, e), if Container(h[e.ref]) then onPath + {e.ref} else onPath,
                     items + |Children(h[e.ref])|, bytes + OwnCost(h[e.ref]), errors + found)
    ensures Pending(Steps, h, l, After(h, stack, e)) + 1 + |Children(h[e.ref])| == Pending(Steps, h, l, stack + [e])
  {
    hide Weigh, Fits, Pending, PendingFits, OnTrail, Known, Arranged, After, Sound, Container, Children, OwnCost;
    PassedPending(Items, h, l, stack, e);
    PassedPending(Bytes, h, l, stack, e);
    PassedPending(Steps, h, l, stack, e);
    PassedFits(h, l, stack, e);
    PassedTrail(h, root, stack, e, onPath);
  }

  /** A budget that runs out at a node was too small for the whole payload. */
  lemma OverBudget(h: Heap, root: Ref, l: Limits, stack: seq<Entry>, e: Entry, onPath: set<Ref>, items: nat,
                   bytes: nat, errors: seq<Code>)
    requires Closed(h) && root in h && Scanning(h, root, l, stack + [e], onPath, items, bytes, errors)
    requires e.ref in h && !e.leaving && e.depth <= l.depth
    requires items + |Children(h[e.ref])| > l.items || bytes + OwnCost(h[e.ref]) > l.bytes
    ensures !Clean(h, root, l)
  {
    hide Weigh, Fits, Pending, PendingFits, OnTrail, Known, Arranged, After, Children, OwnCost;
    PassedPending(Items, h, l, stack, e);
    PassedPending(Bytes, h, l, stack, e);
  }

  lemma TooFarDown(h: Heap, root: Ref, l: Limits, stack: seq<Entry>, e: Entry, onPath: set<Ref>, items: nat,
                   bytes: nat, errors: seq<Code>)
    requires Closed(h) && root in h && Scanning(h, root, l, stack + [e], onPath, items, bytes, errors)
    requires !e.leaving && e.depth > l.depth
    ensures !Clean(h, root, l)
    ensures exists p :: Path(h, p) && p[0] == root && |p| > l.depth + 1
  {
    PopPending(Items, h, l, stack, e);
    PopFits(h, l, stack, e);
    hide Weigh, Fits, Pending, PendingFits, Arranged, Known, Path, OnTrail;
    PopArranged(h, root, stack, e);
    TrailIsPath(h, root, stack);
    ExtendPath(h, Trail(stack), e.ref);
    var p := Trail(stack) + [e.ref];
    assert Path(h, p) && p[0] == root && |p| > l.depth + 1;
  }

  /** A container met again while it is being visited closes a reachable cycle. */
  lemma Revisited(h: Heap, root: Ref, l: Limits, stack: seq<Entry>, e: Entry, onPath: set<Ref>, items: nat, bytes: nat,
                  errors: seq<Code>)
    requires Closed(h) && root in h && Scanning(h, root, l, stack + [e], onPath, items, bytes, errors)
    requires !e.leaving && e.ref in onPath
    ensures e.ref in h && Loops(h, root, Trail(stack) + [e.ref])
    ensures !Clean(h, root, l)
  {
    hide Weigh, Fits, Pending, PendingFits, Arranged, Known, Trail, Path, Children;
    PopPending(Items, h, l, stack, e);
    PopArranged(h, root, stack, e);
    assert e.ref in Trail(stack + [e]) && Trail(stack + [e]) == Trail(stack);
    hide OnTrail, Scanning;
    TrailIsPath(h, root, stack);
    ExtendPath(h, Trail(stack), e.ref);
    var p := Trail(stack) + [e.ref];
    assert p[..|p| - 1] == Trail(stack);
    CycleNeverFits(h, root, p, l.depth + 1);
  }

  lemma Finished(h: Heap, root: Ref, l: Limits, onPath: set<Ref>, items: nat, bytes: nat, errors: seq<Code>)
    requires Closed(h) && root in h && Scanning(h, root, l, [], onPath, items, bytes, errors)
    ensures Clean(h, root, l) <==> errors == []
    ensures OfValues(errors)
  {
    hide Weigh, Fits, Arranged, OnTrail;
  }

  /** The whole scan. */
  method Scan(h: Heap, root: Ref, l: Limits) returns (errors: seq<Code>)
    requires Closed(h) && root in h
    ensures errors == [] <==> exists t :: Acceptable(h, root, l, t)
    ensures errors != [] && errors[|errors| - 1] == Cyclic ==> exists p :: Loops(h, root, p)
    ensures errors != [] && errors[|errors| - 1] == TooDeep ==>
              exists p :: Path(h, p) && p[0] == root && |p| > l.depth + 1
  {
    hide Scanning, Pending, PendingFits, Children, OwnCost, Sound, Below;
    var stack := [Entry(root, 0, false)];
    var onPath: set<Ref> := {};
    var items: nat, bytes: nat := 0, 0;
    errors := [];
    CleanMeansAcceptable(h, root, l);
    Started(h, root, l);
    while stack != []
      invariant Scanning(h, root, l, stack, onPath, items, bytes, errors)
      invariant Known(h, stack) && items <= l.items && OfValues(errors)
      decreases Pending(Steps, h, l, stack) + |stack|, |stack|
    {
      ghost var before := stack;
      var e := stack[|stack| - 1];
      stack := stack[..|stack| - 1];
      assert before == stack + [e];
      if e.leaving {
        Left(h, root, l, stack, e, onPath, items, bytes, errors);
        onPath := onPath - {e.ref};
      } else {
        if e.depth > l.depth {
          TooFarDown(h, root, l, stack, e, onPath, items, bytes, errors);
          return errors + [TooDeep];
        }
        var node := h[e.ref];
        if Container(node) && e.ref in onPath {
          Revisited(h, root, l, stack, e, onPath, items, bytes, errors);
          return errors + [Cyclic];
        }
        var stopped, found, pushed, items', bytes' := Visit(node, e.depth, items, bytes, l);
        if stopped || bytes' > l.bytes {
          OverBudget(h, root, l, stack, e, onPath, items, bytes, errors);
          return errors + found + [TooLarge];
        }
        Passed(h, root, l, stack, e, onPath, items, bytes, errors, found);
        if Container(node) {
          onPath := onPath + {e.ref};
          stack := stack + [e.(leaving := true)] + pushed;
        }
        items, bytes, errors := items', bytes', errors + found;
      }
    }
    Finished(h, root, l, onPath, items, bytes, errors);
  }

  /** No payload with a reachable cycle is accepted, under any limits. */
  lemma CyclesAreRefused(h: Heap, root: Ref, l: Limits, p: seq<Ref>, t: Tree)
    requires Closed(h) && root in h && Loops(h, root, p)
    ensures !Acceptable(h, root, l, t)
  {
    CycleNeverFits(h, root, p, l.depth + 1);
    CleanMeansAcceptable(h, root, l);
  }
}
