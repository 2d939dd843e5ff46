/**
 The save check of contracts/validate_robot_tuning.py and the browser's own check of the
 same batch in frontend/src/lib/tuning.ts: what an accepted save guarantees, over any
 sequence of saves, and how the two checks are related.
 */
module TuningSave {
  import opened Options

  // ---- The registry ---------------------------------------------------------------------

  datatype Value = Number(x: real) | Whole(n: int) | NonFinite | Boolean(b: bool) | Text(s: string) | Missing

  datatype Declared = NumberType | IntegerType | BooleanType | StringType

  datatype Kind = LessOrEqual | SumEquals | OtherKind

  datatype Dependency = Dependency(kind: Kind, target: string, equals: Option<real>, tolerance: Option<real>)

  datatype Param = Param(id: string, declared: Declared, default: Value, lower: Option<real>, upper: Option<real>,
                         lowerInclusive: bool, upperInclusive: bool, protected: bool, notApplicable: bool,
                         acceptsEdits: bool, speed: bool, dependencies: seq<Dependency>)

  /** The index of a registry: one entry per identifier, in order. */
  type Index = seq<Param>

  type Values = map<string, Value>

  function Lookup(index: Index, id: string): (r: Option<Param>)
    ensures r.Some? ==> r.value in index && r.value.id == id
    ensures r.None? ==> forall i :: 0 <= i < |index| ==> index[i].id != id
  {
    if index == [] then None
    else if index[|index| - 1].id == id then Some(index[|index| - 1])
    else Lookup(index[..|index| - 1], id)
  }

  predicate Finite(v: Value) { v.Number? || v.Whole? }

  /** Numbers compare by amount; in the validator a truth value compares as 0 or 1. */
  function Amount(v: Value): real {
    match v
    case Number(x) => x
    case Whole(n) => n as real
    case Boolean(b) => if b then 1.0 else 0.0
    case _ => 0.0
  }

  predicate Injected(id: string) {
    '/' in id || '\\' in id || '\0' in id || exists i :: 0 <= i < |id| - 1 && id[i] == '.' && id[i + 1] == '.'
  }

  // ---- What a good save is -----------------------------------------------------------------

  predicate TypedEdit(p: Param, v: Value) {
    match p.declared
    case BooleanType => v.Boolean?
    case NumberType => Finite(v)
    case IntegerType => v.Whole?
    case StringType => false
  }

  predicate TypedBase(p: Param, v: Value) {
    match p.declared
    case BooleanType => v.Boolean?
    case NumberType => Finite(v)
    case IntegerType => v.Whole?
    case StringType => v.Text?
  }

  predicate InBounds(p: Param, v: Value) {
    && (p.lower.Some? ==> if p.lowerInclusive then p.lower.value <= Amount(v) else p.lower.value < Amount(v))
    && (p.upper.Some? ==> if p.upperInclusive then Amount(v) <= p.upper.value else Amount(v) < p.upper.value)
  }

  predicate Editable(p: Param) { !p.protected && !p.notApplicable && p.acceptsEdits }

  datatype Change = NotAnObject | NoIdentifier | Change(id: string, value: Value)

  predicate GoodChange(index: Index, c: Change) {
    && c.Change? && !Injected(c.id)
    && Lookup(index, c.id).Some?
    && var p := Lookup(index, c.id).value; Editable(p) && TypedEdit(p, c.value) && InBounds(p, c.value)
  }

  function Merge(base: Values, changes: seq<Change>): Values {
    if changes == [] then base
    else
      var merged := Merge(base, changes[..|changes| - 1]);
      var c := changes[|changes| - 1];
      if c.Change? then merged[c.id := c.value] else merged
  }

  /** A value as the checks see it: stored, or the reviewed default. */
  function Resolve(id: string, values: Values, index: Index): Value {
    if id in values then values[id]
    else match Lookup(index, id) case Some(p) => p.default case None => Missing
  }

  const TOLERANCE: real := 0.000000001

  predicate Satisfied(d: Dependency, left: Value, right: Value) {
    && Finite(left) && Finite(right)
    && match d.kind
       case LessOrEqual => Amount(left) <= Amount(right)
       case SumEquals =>
         var off := Amount(left) + Amount(right) - d.equals.GetOr(0.0);
         d.equals.Some? && (if off < 0.0 then -off else off) <= d.tolerance.GetOr(TOLERANCE)
       case OtherKind => true
  }

  predicate Holds(source: string, d: Dependency, values: Values, index: Index) {
    Satisfied(d, Resolve(source, values, index), Resolve(d.target, values, index))
  }

  /** Every dependency of the registry holds on these values over the defaults. */
  ghost predicate Coherent(index: Index, values: Values) {
    forall i, k :: 0 <= i < |index| && 0 <= k < |index[i].dependencies| ==>
      Holds(index[i].id, index[i].dependencies[k], values, index)
  }

  ghost predicate BaseGood(index: Index, base: Values) {
    forall id :: id in base ==> !Injected(id) && Lookup(index, id).Some? && TypedBase(Lookup(index, id).value, base[id])
  }

  ghost predicate Once(changes: seq<Change>) {
    forall i, j :: 0 <= i < j < |changes| && changes[i].Change? && changes[j].Change? ==> changes[i].id != changes[j].id
  }

  predicate Touches(changes: seq<Change>, id: string) {
    exists i :: 0 <= i < |changes| && changes[i].Change? && changes[i].id == id
  }

  ghost predicate EdgesGood(index: Index, changes: seq<Change>, values: Values) {
    forall i, k :: 0 <= i < |index| && 0 <= k < |index[i].dependencies| ==>
      (Touches(changes, index[i].id) || Touches(changes, index[i].dependencies[k].target)) ==>
        Holds(index[i].id, index[i].dependencies[k], values, index)
  }

  /** What the validator accepts. */
  ghost predicate Acceptable(index: Index, base: Values, changes: seq<Change>) {
    && BaseGood(index, base)
    && (forall i :: 0 <= i < |changes| ==> GoodChange(index, changes[i]))
    && Once(changes)
    && EdgesGood(index, changes, Merge(base, changes))
  }

  // ---- The validator --------------------------------------------------------------------------

  datatype Finding =
    | BadType | PathInjection | UnknownId | Protected | NotApplicable | NotEditable | BoolAsNumber
    | OutOfBounds | InvalidBase | DuplicateChange | DependencyOperand | DependencyViolation

  function CheckBounds(p: Param, v: Value): seq<Finding> {
    var low := p.lower.Some? && if p.lowerInclusive then Amount(v) < p.lower.value else Amount(v) <= p.lower.value;
    var high := p.upper.Some? && if p.upperInclusive then Amount(v) > p.upper.value else Amount(v) >= p.upper.value;
    (if low then [OutOfBounds] else []) + (if high then [OutOfBounds] else [])
  }

  function CheckSingleValue(p: Param, v: Value): seq<Finding> {
    if v.Boolean? then if p.declared.BooleanType? then [] else [BoolAsNumber]
    else if p.declared.NumberType? || p.declared.IntegerType? then
      if !Finite(v) then [BadType]
      else if p.declared.IntegerType? && !v.Whole? then [BadType]
      else []
    else [BadType]
  }

  method CheckChange(c: Change, index: Index, resolved: Values) returns (errors: seq<Finding>, next: Values)
    ensures errors == [] <==> GoodChange(index, c)
    ensures errors == [] ==> next == resolved[c.id := c.value]
  {
    next := resolved;
    if !c.Change? { return [BadType], next; }
    if Injected(c.id) { return [PathInjection], next; }
    var found := Lookup(index, c.id);
    if found.None? { return [UnknownId], next; }
    var p := found.value;
    if p.protected { return [Protected], next; }
    if p.notApplicable { return [NotApplicable], next; }
    if !p.acceptsEdits { return [NotEditable], next; }
    errors := CheckSingleValue(p, c.value);
    if errors != [] { return; }
    next := next[c.id := c.value];
    errors := errors + CheckBounds(p, c.value);
  }

  method BaseValueErrors(base: Option<Values>, index: Index) returns (errors: seq<Finding>)
    ensures errors == [] <==> BaseGood(index, base.GetOr(map[]))
  {
    errors := [];
    if base.None? { return; }
    var left := base.value.Keys;
    while left != {}
      invariant left <= base.value.Keys
      invariant errors == [] <==>
        forall id :: id in base.value.Keys - left ==>
          !Injected(id) && Lookup(index, id).Some? && TypedBase(Lookup(index, id).value, base.value[id])
      decreases |left|
    {
      hide Injected, Lookup, TypedBase;
      var id :| id in left;
      left := left - {id};
      if Injected(id) || Lookup(index, id).None? || !TypedBase(Lookup(index, id).value, base.value[id]) {
        errors := errors + [InvalidBase];
      }
    }
  }

  /** Checks one edge, if it is incident to a change. */
  function EdgeErrors(source: string, d: Dependency, changed: set<string>, index: Index,
                      resolved: Values): seq<Finding> {
    if source !in changed && d.target !in changed then []
    else
      var left, right := Resolve(source, resolved, index), Resolve(d.target, resolved, index);
      if !Finite(left) || !Finite(right) then [DependencyOperand]
      else if Satisfied(d, left, right) then []
      else [DependencyViolation]
  }

  method DependencyErrors(changed: set<string>, index: Index, resolved: Values) returns (errors: seq<Finding>)
    ensures errors == [] <==>
      forall i, k :: 0 <= i < |index| && 0 <= k < |index[i].dependencies| ==>
        EdgeErrors(index[i].id, index[i].dependencies[k], changed, index, resolved) == []
  {
    hide EdgeErrors;
    errors := [];
    if changed == {} { NoEdges(index, resolved); return; }
    for i := 0 to |index|
      invariant errors == [] <==>
        forall j, k :: 0 <= j < i && 0 <= k < |index[j].dependencies| ==>
          EdgeErrors(index[j].id, index[j].dependencies[k], changed, index, resolved) == []
    {
      var ds := index[i].dependencies;
      var before := errors;
      for k := 0 to |ds|
        invariant errors == [] <==>
          && before == []
          && forall m :: 0 <= m < k ==> EdgeErrors(index[i].id, ds[m], changed, index, resolved) == []
      {
        errors := errors + EdgeErrors(index[i].id, ds[k], changed, index, resolved);
      }
    }
  }

  lemma NoEdges(index: Index, resolved: Values)
    ensures forall i, k :: 0 <= i < |index| && 0 <= k < |index[i].dependencies| ==>
      EdgeErrors(index[i].id, index[i].dependencies[k], {}, index, resolved) == []
  {}

  /** The save branch of the semantic checks. */
  method SaveErrors(changes: seq<Change>, base: Option<Values>, index: Index) returns (errors: seq<Finding>)
    ensures errors == [] <==> Acceptable(index, base.GetOr(map[]), changes)
  {
    hide BaseGood, GoodChange, Merge;
    errors := BaseValueErrors(base, index);
    var resolved := base.GetOr(map[]);
    var seen: set<string> := {};
    MergeNothing(resolved);
    for i := 0 to |changes|
      invariant errors == [] <==>
        BaseGood(index, base.GetOr(map[])) && AllGood(index, changes[..i]) && Once(changes[..i])
      invariant errors == [] ==> resolved == Merge(base.GetOr(map[]), changes[..i])
      invariant errors == [] ==> forall id :: id in seen <==> Touches(changes[..i], id)
    {
      OneMore(index, base.GetOr(map[]), changes, i);
      var before := errors;
      var found, next := CheckChange(changes[i], index, resolved);
      resolved := next;
      errors := errors + found;
      if found == [] {
        GoodIsKnown(index, changes[i]);
        if changes[i].id in seen {
          errors := errors + [DuplicateChange];
        } else {
          seen := seen + {changes[i].id};
        }
      }
    }
    assert changes[..|changes|] == changes;
    var broken := DependencyErrors(seen, index, resolved);
    if errors == [] { EdgesAgree(index, changes, resolved, seen); }
    errors := errors + broken;
  }

  ghost predicate AllGood(index: Index, changes: seq<Change>) {
    forall i :: 0 <= i < |changes| ==> GoodChange(index, changes[i])
  }

  lemma MergeNothing(base: Values)
    ensures Merge(base, []) == base
  {}

  lemma GoodIsKnown(index: Index, c: Change)
    requires GoodChange(index, c)
    ensures c.Change? && Lookup(index, c.id).Some?
  {}

  lemma OneMore(index: Index, base: Values, changes: seq<Change>, i: nat)
    requires i < |changes|
    ensures AllGood(index, changes[..i + 1]) <==> AllGood(index, changes[..i]) && GoodChange(index, changes[i])
    ensures changes[i].Change? ==>
              Merge(base, changes[..i + 1]) == Merge(base, changes[..i])[changes[i].id := changes[i].value]
    ensures changes[i].Change? ==>
              (Once(changes[..i + 1]) <==> Once(changes[..i]) && !Touches(changes[..i], changes[i].id))
    ensures changes[i].Change? ==>
              forall id :: Touches(changes[..i + 1], id) <==> Touches(changes[..i], id) || id == changes[i].id
  {
    hide GoodChange;
    var prefix, more := changes[..i], changes[..i + 1];
    assert more[..i] == prefix && more[i] == changes[i];
    assert forall j :: 0 <= j < i ==> more[j] == prefix[j];
    if changes[i].Change? {
      forall id ensures Touches(more, id) <==> Touches(prefix, id) || id == changes[i].id {
        if Touches(prefix, id) {
          var j :| 0 <= j < i && prefix[j].Change? && prefix[j].id == id;
          assert more[j].id == id;
        }
      }
    }
  }

  lemma EdgesAgree(index: Index, changes: seq<Change>, resolved: Values, seen: set<string>)
    requires forall id :: id in seen <==> Touches(changes, id)
    ensures EdgesGood(index, changes, resolved) <==>
      forall i, k :: 0 <= i < |index| && 0 <= k < |index[i].dependencies| ==>
        EdgeErrors(index[i].id, index[i].dependencies[k], seen, index, resolved) == []
  {
    forall i, k | 0 <= i < |index| && 0 <= k < |index[i].dependencies|
      ensures EdgeErrors(index[i].id, index[i].dependencies[k], seen, index, resolved) == [] <==>
        (Touches(changes, index[i].id) || Touches(changes, index[i].dependencies[k].target) ==>
           Holds(index[i].id, index[i].dependencies[k], resolved, index))
    {
      EdgeAgrees(index[i].id, index[i].dependencies[k], changes, seen, index, resolved);
    }
    hide Touches, Holds, EdgeErrors;
  }

  lemma EdgeAgrees(source: string, d: Dependency, changes: seq<Change>, seen: set<string>, index: Index,
                   resolved: Values)
    requires forall id :: id in seen <==> Touches(changes, id)
    ensures EdgeErrors(source, d, seen, index, resolved) == [] <==>
      (Touches(changes, source) || Touches(changes, d.target) ==> Holds(source, d, resolved, index))
  {
    hide Touches, Resolve;
    assert Satisfied(d, Resolve(source, resolved, index), Resolve(d.target, resolved, index)) ==>
      Finite(Resolve(source, resolved, index)) && Finite(Resolve(d.target, resolved, index));
  }

  // ---- What accepted saves guarantee ------------------------------------------------------------

  /** A merged value is the change's if there is one, and the old one otherwise. */
  lemma {:induction false} MergeAt(base: Values, changes: seq<Change>, id: string)
    ensures !Touches(changes, id) ==>
      (id in Merge(base, changes) <==> id in base) && (id in base ==> Merge(base, changes)[id] == base[id])
    ensures Touches(changes, id) ==>
      exists i :: 0 <= i < |changes| && changes[i].Change? && changes[i].id == id
        && id in Merge(base, changes) && Merge(base, changes)[id] == changes[i].value
  {
    if changes != [] {
      var n := |changes| - 1;
      var prefix := changes[..n];
      MergeAt(base, prefix, id);
      assert forall i :: 0 <= i < n ==> changes[i] == prefix[i];
      if changes[n].Change? && changes[n].id == id {
        assert id in Merge(base, changes) && Merge(base, changes)[id] == changes[n].value;
      } else if Touches(prefix, id) {
        var i :| 0 <= i < n && prefix[i].Change? && prefix[i].id == id && Merge(base, prefix)[id] == prefix[i].value;
        assert changes[i] == prefix[i];
      } else {
        assert !Touches(changes, id);
      }
    }
  }

  lemma UntouchedResolves(index: Index, base: Values, changes: seq<Change>, id: string)
    requires !Touches(changes, id)
    ensures Resolve(id, Merge(base, changes), index) == Resolve(id, base, index)
  {
    MergeAt(base, changes, id);
    hide Touches, Merge, Lookup;
  }

  /** After an accepted save everything is coherent exactly when the dependencies the
      save did not concern were satisfied before it. */
  lemma SaveCoherence(index: Index, base: Values, changes: seq<Change>)
    requires Acceptable(index, base, changes)
    ensures Coherent(index, Merge(base, changes)) <==>
      forall i, k :: 0 <= i < |index| && 0 <= k < |index[i].dependencies| ==>
        (Touches(changes, index[i].id) || Touches(changes, index[i].dependencies[k].target)
         || Holds(index[i].id, index[i].dependencies[k], base, index))
  {
    forall i, k | 0 <= i < |index| && 0 <= k < |index[i].dependencies|
      ensures Holds(index[i].id, index[i].dependencies[k], Merge(base, changes), index) <==>
        (Touches(changes, index[i].id) || Touches(changes, index[i].dependencies[k].target)
         || Holds(index[i].id, index[i].dependencies[k], base, index))
    {
      var d := index[i].dependencies[k];
      hide Touches, Satisfied, Resolve, Merge, GoodChange;
      if !Touches(changes, index[i].id) && !Touches(changes, d.target) {
        UntouchedResolves(index, base, changes, index[i].id);
        UntouchedResolves(index, base, changes, d.target);
      }
    }
    hide Touches, Holds, Merge, BaseGood, Once, EdgesGood, GoodChange;
  }

  /** A changed value has the parameter's type and lies inside its bounds. */
  ghost predicate Proper(index: Index, id: string, values: Values) {
    && Lookup(index, id).Some? && id in values
    && var p := Lookup(index, id).value; Editable(p) && TypedEdit(p, values[id]) && InBounds(p, values[id])
  }

  lemma SavedIsProper(index: Index, base: Values, changes: seq<Change>, id: string)
    requires Acceptable(index, base, changes)
    ensures Touches(changes, id) || Proper(index, id, base) ==> Proper(index, id, Merge(base, changes))
  {
    MergeAt(base, changes, id);
    hide Merge, BaseGood, Once, EdgesGood, Lookup, InBounds, TypedEdit, Editable, Injected;
    if Touches(changes, id) {
      var i :| 0 <= i < |changes| && changes[i].Change? && changes[i].id == id &&
          Merge(base, changes)[id] == changes[i].value;
      assert GoodChange(index, changes[i]);
    }
  }

  /** The stored values stay fit to be the base of the next save. */
  lemma SavedIsBase(index: Index, base: Values, changes: seq<Change>)
    requires Acceptable(index, base, changes)
    ensures BaseGood(index, Merge(base, changes))
  {
    forall id | id in Merge(base, changes)
      ensures !Injected(id) && Lookup(index, id).Some? && TypedBase(Lookup(index, id).value, Merge(base, changes)[id])
    {
      MergeAt(base, changes, id);
      hide Merge, Once, EdgesGood, Lookup, InBounds, Injected;
      if Touches(changes, id) {
        var i :| 0 <= i < |changes| && changes[i].Change? && changes[i].id == id &&
            Merge(base, changes)[id] == changes[i].value;
        assert GoodChange(index, changes[i]);
      }
    }
  }

  function SaveAll(base: Values, saves: seq<seq<Change>>): Values {
    if saves == [] then base else Merge(SaveAll(base, saves[..|saves| - 1]), saves[|saves| - 1])
  }

  /** Each save was accepted against the values stored by the ones before it. */
  ghost predicate AllAccepted(index: Index, base: Values, saves: seq<seq<Change>>) {
    saves != [] ==>
      && AllAccepted(index, base, saves[..|saves| - 1])
      && Acceptable(index, SaveAll(base, saves[..|saves| - 1]), saves[|saves| - 1])
  }

  /** Over any sequence of accepted saves: all dependencies keep holding, and every value
      ever changed is of its parameter's type and inside its bounds. */
  lemma {:induction false} SavesKeepCoherence(index: Index, base: Values, saves: seq<seq<Change>>)
    requires Coherent(index, base) && BaseGood(index, base) && AllAccepted(index, base, saves)
    ensures var r := SaveAll(base, saves);
            && Coherent(index, r) && BaseGood(index, r)
            && forall id, k :: 0 <= k < |saves| && Touches(saves[k], id) ==> Proper(index, id, r)
  {
    if saves != [] {
      var n := |saves| - 1;
      var prefix := saves[..n];
      SavesKeepCoherence(index, base, prefix);
      var before, r := SaveAll(base, prefix), SaveAll(base, saves);
      SaveCoherence(index, before, saves[n]);
      SavedIsBase(index, before, saves[n]);
      hide Merge, BaseGood, Acceptable, Touches, Proper, Holds;
      forall id, k | 0 <= k < |saves| && Touches(saves[k], id) ensures Proper(index, id, r) {
        SavedIsProper(index, before, saves[n], id);
        if k < n { assert prefix[k] == saves[k]; }
      }
    }
  }

  // ---- The browser's own check ---------------------------------------------------------------------

  const BROWSER_SLACK: real := 0.000000001
  const BROWSER_TOLERANCE: real := 0.000001

  /** The stored values over the reviewed defaults, for the parameters of the catalogue. */
  method EffectiveValues(index: Index, desired: Values) returns (base: Values)
    ensures base == Effective(index, desired)
  {
    base := map[];
    for i := 0 to |index|
      invariant base == Effective(index[..i], desired)
    {
      var p := index[i];
      assert index[..i + 1][..i] == index[..i];
      base := base[p.id := if p.id in desired then desired[p.id] else p.default];
    }
    assert index[..|index|] == index;
  }

  function Effective(index: Index, desired: Values): Values {
    if index == [] then map[]
    else
      var p := index[|index| - 1];
      Effective(index[..|index| - 1], desired)[p.id := if p.id in desired then desired[p.id] else p.default]
  }

  lemma {:induction false} EffectiveResolves(index: Index, desired: Values, id: string)
    ensures id in Effective(index, desired) <==> Lookup(index, id).Some?
    ensures id in Effective(index, desired) ==> Effective(index, desired)[id] == Resolve(id, desired, index)
  {
    if index != [] { EffectiveResolves(index[..|index| - 1], desired, id); }
  }

  /** Whether an edge of the catalogue lets a batch through in the browser. */
  predicate Passes(p: Param, d: Dependency, touched: set<string>, effective: Values) {
    || (p.id !in touched && d.target !in touched)
    || p.id !in effective || d.target !in effective
    || var a, b := effective[p.id], effective[d.target];
       || !Finite(a) || !Finite(b)
       || match d.kind
          case LessOrEqual => Amount(a) <= Amount(b) + BROWSER_SLACK || (p.id !in touched && p.speed)
          case SumEquals =>
            var off := Amount(a) + Amount(b) - d.equals.GetOr(1.0);
            (if off < 0.0 then -off else off) <= d.tolerance.GetOr(BROWSER_TOLERANCE)
          case OtherKind => true
  }

  /** The check before a batch is sent. */
  method ValidateBatch(changes: seq<Change>, baseValues: Values, index: Index) returns (ok: bool)
    requires forall i :: 0 <= i < |changes| ==> changes[i].Change?
    ensures ok <==> BatchGood(changes, baseValues, index)
  {
    hide Passes;
    var touched: set<string> := {};
    var effective := baseValues;
    for i := 0 to |changes|
      invariant Once(changes[..i])
      invariant touched == TouchedBy(changes[..i])
      invariant effective == Merge(baseValues, changes[..i])
    {
      TouchedMore(changes, i);
      OneMore(index, baseValues, changes, i);
      if changes[i].id in touched {
        assert !Once(changes) by { OnceShrinks(changes, i + 1); }
        return false;
      }
      touched := touched + {changes[i].id};
      effective := effective[changes[i].id := changes[i].value];
    }
    assert changes[..|changes|] == changes;
    for i := 0 to |index|
      invariant forall j, k :: 0 <= j < i && 0 <= k < |index[j].dependencies| ==>
          Passes(index[j], index[j].dependencies[k], touched, effective)
    {
      for k := 0 to |index[i].dependencies|
        invariant forall m :: 0 <= m < k ==> Passes(index[i], index[i].dependencies[m], touched, effective)
      {
        if !Passes(index[i], index[i].dependencies[k], touched, effective) { return false; }
      }
    }
    ok := true;
  }

  function TouchedBy(changes: seq<Change>): set<string> {
    set i | 0 <= i < |changes| && changes[i].Change? :: changes[i].id
  }

  lemma TouchedMore(changes: seq<Change>, i: nat)
    requires i < |changes| && changes[i].Change?
    ensures TouchedBy(changes[..i + 1]) == TouchedBy(changes[..i]) + {changes[i].id}
    ensures forall id :: id in TouchedBy(changes[..i]) <==> Touches(changes[..i], id)
  {
    var prefix, more := changes[..i], changes[..i + 1];
    assert forall j :: 0 <= j < i ==> more[j] == prefix[j];
    assert more[i] == changes[i];
    forall id | id in TouchedBy(prefix) ensures id in TouchedBy(more) {
      var j :| 0 <= j < i && prefix[j].Change? && prefix[j].id == id;
      assert more[j].id == id;
    }
  }

  lemma OnceShrinks(changes: seq<Change>, i: nat)
    requires i <= |changes|
    ensures Once(changes) ==> Once(changes[..i])
  {}

  ghost predicate BatchGood(changes: seq<Change>, baseValues: Values, index: Index) {
    && Once(changes)
    && forall i, k :: 0 <= i < |index| && 0 <= k < |index[i].dependencies| ==>
         Passes(index[i], index[i].dependencies[k], TouchedBy(changes), Merge(baseValues, changes))
  }

  /** For the same catalogue and stored values, no batch the validator accepts is refused
      by the browser. */
  lemma BrowserNeverRefusesAccepted(index: Index, desired: Values, changes: seq<Change>)
    requires Acceptable(index, desired, changes)
    ensures BatchGood(changes, Effective(index, desired), index)
  {
    var effective := Merge(Effective(index, desired), changes);
    forall i, k | 0 <= i < |index| && 0 <= k < |index[i].dependencies|
      ensures Passes(index[i], index[i].dependencies[k], TouchedBy(changes), effective)
    {
      AcceptedEdgePasses(index, desired, changes, i, k);
    }
  }

  lemma AcceptedEdgePasses(index: Index, desired: Values, changes: seq<Change>, i: nat, k: nat)
    requires Acceptable(index, desired, changes) && i < |index| && k < |index[i].dependencies|
    ensures Passes(index[i], index[i].dependencies[k], TouchedBy(changes), Merge(Effective(index, desired), changes))
  {
    var p, d := index[i], index[i].dependencies[k];
    var effective := Merge(Effective(index, desired), changes);
    if (p.id in TouchedBy(changes) || d.target in TouchedBy(changes)) && p.id in effective && d.target in effective {
      assert Touches(changes, p.id) || Touches(changes, d.target);
      assert Holds(p.id, d, Merge(desired, changes), index);
      hide Acceptable, Touches, Merge, Resolve;
      MergedEffective(index, desired, changes, p.id);
      MergedEffective(index, desired, changes, d.target);
    }
  }

  /** Both checks see the same value of a parameter. */
  lemma MergedEffective(index: Index, desired: Values, changes: seq<Change>, id: string)
    requires id in Merge(Effective(index, desired), changes)
    ensures Merge(Effective(index, desired), changes)[id] == Resolve(id, Merge(desired, changes), index)
  {
    EffectiveResolves(index, desired, id);
    SameMerge(Effective(index, desired), desired, changes, id);
    MergeAt(Effective(index, desired), changes, id);
    MergeAt(desired, changes, id);
    hide Merge, Touches, Effective, Lookup;
  }

  lemma {:induction false} SameMerge(a: Values, b: Values, changes: seq<Change>, id: string)
    ensures Touches(changes, id) ==>
      id in Merge(a, changes) && id in Merge(b, changes) && Merge(a, changes)[id] == Merge(b, changes)[id]
  {
    if changes != [] {
      var n := |changes| - 1;
      SameMerge(a, b, changes[..n], id);
      assert forall i :: 0 <= i < n ==> changes[i] == changes[..n][i];
    }
  }

  function Distance(a: Value, b: Value, sum: real): real {
    var off := Amount(a) + Amount(b) - sum;
    if off < 0.0 then -off else off
  }

  /** The ways in which the browser lets an edge through that the validator refuses, on the
      merged values of its two ends: an end without a finite number; an excess within the
      slack, or any excess of a speed that was not changed itself; and a sum without a
      declared total that is near 1, or without a declared tolerance that is off by more than
      the validator's but not the browser's. */
  predicate Lenient(p: Param, d: Dependency, touched: bool, a: Value, b: Value) {
    || !Finite(a) || !Finite(b)
    || (d.kind == LessOrEqual && Amount(b) < Amount(a)
        && (Amount(a) <= Amount(b) + BROWSER_SLACK || (!touched && p.speed)))
    || (d.kind == SumEquals && d.equals.None? && Distance(a, b, 1.0) <= d.tolerance.GetOr(BROWSER_TOLERANCE))
    || (d.kind == SumEquals && d.equals.Some? && d.tolerance.None?
        && TOLERANCE < Distance(a, b, d.equals.value) <= BROWSER_TOLERANCE)
  }

  /** An edge that a batch concerns and that only the browser lets through. */
  ghost predicate Gap(index: Index, values: Values, changes: seq<Change>, i: nat, k: nat)
    requires i < |index| && k < |index[i].dependencies|
  {
    var p, d := index[i], index[i].dependencies[k];
    && (Touches(changes, p.id) || Touches(changes, d.target))
    && Lenient(p, d, Touches(changes, p.id), Resolve(p.id, values, index), Resolve(d.target, values, index))
  }

  ghost predicate NoGap(index: Index, values: Values, changes: seq<Change>) {
    forall i, k :: 0 <= i < |index| && 0 <= k < |index[i].dependencies| ==> !Gap(index, values, changes, i, k)
  }

  /** For every catalogue, stored values and batch of well-formed changes: the validator
      accepts it exactly when the browser does and no edge falls in one of those gaps. */
  lemma BrowserDiffersExactly(index: Index, desired: Values, changes: seq<Change>)
    requires BaseGood(index, desired) && AllGood(index, changes)
    ensures Acceptable(index, desired, changes)
       <==> BatchGood(changes, Effective(index, desired), index) && NoGap(index, Merge(desired, changes), changes)
  {
    var values, effective := Merge(desired, changes), Merge(Effective(index, desired), changes);
    if Acceptable(index, desired, changes) {
      forall i, k | 0 <= i < |index| && 0 <= k < |index[i].dependencies|
        ensures Passes(index[i], index[i].dependencies[k], TouchedBy(changes), effective)
        ensures !Gap(index, values, changes, i, k)
      {
        EdgeDiffersExactly(index, desired, changes, i, k);
      }
    }
    if BatchGood(changes, Effective(index, desired), index) && NoGap(index, values, changes) {
      forall i, k | 0 <= i < |index| && 0 <= k < |index[i].dependencies|
                    && (Touches(changes, index[i].id) || Touches(changes, index[i].dependencies[k].target))
        ensures Holds(index[i].id, index[i].dependencies[k], values, index)
      {
        EdgeDiffersExactly(index, desired, changes, i, k);
      }
      hide Holds, Touches, Passes, Gap, Merge, GoodChange;
    }
  }

  lemma EdgeDiffersExactly(index: Index, desired: Values, changes: seq<Change>, i: nat, k: nat)
    requires BaseGood(index, desired) && AllGood(index, changes) && i < |index| && k < |index[i].dependencies|
    ensures var p, d := index[i], index[i].dependencies[k];
            var values, effective := Merge(desired, changes), Merge(Effective(index, desired), changes);
            (Passes(p, d, TouchedBy(changes), effective) && !Gap(index, values, changes, i, k)) <==>
              (Touches(changes, p.id) || Touches(changes, d.target) ==> Holds(p.id, d, values, index))
  {
    var p, d := index[i], index[i].dependencies[k];
    var effective := Merge(Effective(index, desired), changes);
    assert p.id in TouchedBy(changes) <==> Touches(changes, p.id);
    assert d.target in TouchedBy(changes) <==> Touches(changes, d.target);
    EffectiveKnows(index, desired, changes, p.id);
    EffectiveKnows(index, desired, changes, d.target);
    hide BaseGood, AllGood, Touches, TouchedBy, Merge, Effective, Lookup, Resolve;
  }

  /** The browser's table holds what the validator resolves, and nothing it finds missing. */
  lemma EffectiveKnows(index: Index, desired: Values, changes: seq<Change>, id: string)
    requires BaseGood(index, desired) && AllGood(index, changes)
    ensures var effective, v := Merge(Effective(index, desired), changes), Resolve(id, Merge(desired, changes), index);
            (id in effective ==> effective[id] == v) && (id !in effective ==> !Finite(v))
  {
    EffectiveResolves(index, desired, id);
    MergeAt(Effective(index, desired), changes, id);
    MergeAt(desired, changes, id);
    hide Merge, Effective, Injected, TypedBase, GoodChange;
    if id in Merge(Effective(index, desired), changes) {
      hide Lookup, Touches;
      MergedEffective(index, desired, changes, id);
    }
  }

  /** One such gap: a hair's excess. */
  lemma BrowserIsLaxer()
    ensures var high := Param("high", NumberType, Number(1.0), None, None, true, true, false, false, true, false, []);
            var low := Param("low", NumberType, Number(0.5), None, None, true, true, false, false, true, false,
                             [Dependency(LessOrEqual, "high", None, None)]);
            var changes := [Change("low", Number(1.0000000005))];
            BatchGood(changes, Effective([low, high], map[]), [low, high]) && !Acceptable([low, high], map[], changes)
  {
    var high := Param("high", NumberType, Number(1.0), None, None, true, true, false, false, true, false, []);
    var low := Param("low", NumberType, Number(0.5), None, None, true, true, false, false, true, false,
                     [Dependency(LessOrEqual, "high", None, None)]);
    var index := [low, high];
    var changes := [Change("low", Number(1.0000000005))];
    EffectiveResolves(index, map[], "high");
    MergeAt(Effective(index, map[]), changes, "low");
    MergeAt(Effective(index, map[]), changes, "high");
    MergeAt(map[], changes, "low");
    MergeAt(map[], changes, "high");
    assert Lookup(index, "high") == Some(high);
    assert Touches(changes, "low") by { assert changes[0].id == "low"; }
    assert !Touches(changes, "high");
    assert !Holds("low", index[0].dependencies[0], Merge(map[], changes), index);
  }
}
