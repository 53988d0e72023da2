/**
 * The flex item component: defaulting and validation of the `grow`, `shrink`
 * and `basis` props, and the list of class names the item renders with.
 * Rendering itself (the element tag, forwarded attributes, children) is not
 * part of this model.
 */
module FlexItem {
  import opened Wrappers
  import opened JsValues
  import opened Classnames

  // ---------------------------------------------------------------- tables

  const GROW_SIZES: seq<Value> :=
    [Num(1.0), Num(2.0), Num(3.0), Num(4.0), Num(5.0), Num(6.0), Num(7.0), Num(8.0), Num(9.0), Num(10.0)]

  const SHRINK_SIZES: seq<Value> :=
    [Num(1.0), Num(2.0), Num(3.0), Num(4.0), Num(5.0), Num(6.0), Num(7.0), Num(8.0), Num(9.0), Num(10.0)]

  const BASIS_VALUES: seq<Value> :=
    [Str("auto"), Str("max-content"), Str("min-content"), Str("fit-content")]

  // ----------------------------------------------------- class name constants

  const FLEX_ITEM := "ouiFlexItem"
  const GROW_ZERO := "ouiFlexItem--flexGrowZero"
  const SHRINK_ZERO := "ouiFlexItem--flexShrinkZero"
  const GROW_PREFIX := "ouiFlexItem--flexGrow"
  const SHRINK_PREFIX := "ouiFlexItem--flexShrink"
  const BASIS_PREFIX := "ouiFlexItem--flexBasis"

  /** The class selecting grow factor `k`. */
  function GrowClass(k: nat): string {
    GROW_PREFIX + DecimalText(k)
  }

  /** The class selecting shrink factor `k`. */
  function ShrinkClass(k: nat): string {
    SHRINK_PREFIX + DecimalText(k)
  }

  /** The class selecting flex basis `b`. */
  function BasisClass(b: string): string {
    BASIS_PREFIX + b
  }

  // ------------------------------------------------------------------ props

  /** The props the model covers; an omitted prop is `Undefined`. */
  datatype Props = Props(grow: Value, shrink: Value, basis: Value, className: Option<string>)

  datatype PropName = Grow | Shrink | Basis

  /** The error thrown for a prop outside its table, naming the prop and the value. */
  datatype InvalidProp = InvalidProp(prop: PropName, received: Value)

  // ------------------------------------------------- reference definitions

  /** `null`, `undefined`, `true` or `false`. */
  predicate IsBoolOrNullish(v: Value) {
    v.Undefined? || v.Null? || v.Bool?
  }

  /** A whole number from 1 to 10. */
  predicate IsSize(v: Value) {
    v.Num? && IsWhole(v.n) && 1.0 <= v.n <= 10.0
  }

  /** A value the grow and shrink props accept. */
  predicate AcceptedSize(v: Value) {
    IsBoolOrNullish(v) || IsSize(v)
  }

  /** One of the four basis keywords. */
  predicate IsBasisKeyword(v: Value) {
    v.Str? && v.s in {"auto", "max-content", "min-content", "fit-content"}
  }

  /** A value the basis prop accepts. */
  predicate AcceptedBasis(v: Value) {
    IsBoolOrNullish(v) || IsBasisKeyword(v)
  }

  lemma SizeTable(v: Value)
    ensures v in GROW_SIZES <==> IsSize(v)
    ensures v in SHRINK_SIZES <==> IsSize(v)
  {
  }

  // ------------------------------------------------------------- defaults

  /**
   * Destructuring defaults: an undefined `grow` becomes `true`, `shrink`
   * becomes `1` and `basis` becomes `'auto'`. A `null` is kept.
   */
  function ApplyDefaults(p: Props): (q: Props)
    ensures !q.grow.Undefined? && !q.shrink.Undefined? && !q.basis.Undefined?
    ensures p.grow.Undefined? ==> q.grow == Bool(true)
    ensures p.shrink.Undefined? ==> q.shrink == Num(1.0)
    ensures p.basis.Undefined? ==> q.basis == Str("auto")
    ensures !p.grow.Undefined? ==> q.grow == p.grow
    ensures !p.shrink.Undefined? ==> q.shrink == p.shrink
    ensures !p.basis.Undefined? ==> q.basis == p.basis
    ensures q.className == p.className
  {
    Props(
      if p.grow.Undefined? then Bool(true) else p.grow,
      if p.shrink.Undefined? then Num(1.0) else p.shrink,
      if p.basis.Undefined? then Str("auto") else p.basis,
      p.className)
  }

  // ----------------------------------------------------------- validators

  /** Throws unless `v` is `null`, `undefined`, a boolean or one of GROW_SIZES. */
  function ValidateGrow(v: Value): (r: Result<Value, InvalidProp>)
    ensures r.Ok? <==> AcceptedSize(v)
    ensures r.Ok? ==> r.value == v
    ensures r.Err? ==> r.error == InvalidProp(Grow, v)
  {
    var validValues := [Null, Undefined, Bool(true), Bool(false)] + GROW_SIZES;
    SizeTable(v);
    if IndexOf(validValues, v) == -1 then Err(InvalidProp(Grow, v)) else Ok(v)
  }

  /** Throws unless `v` is `null`, `undefined`, a boolean or one of SHRINK_SIZES. */
  function ValidateShrink(v: Value): (r: Result<Value, InvalidProp>)
    ensures r.Ok? <==> AcceptedSize(v)
    ensures r.Ok? ==> r.value == v
    ensures r.Err? ==> r.error == InvalidProp(Shrink, v)
  {
    var validValues := [Null, Undefined, Bool(true), Bool(false)] + SHRINK_SIZES;
    SizeTable(v);
    if IndexOf(validValues, v) == -1 then Err(InvalidProp(Shrink, v)) else Ok(v)
  }

  /** Throws unless `v` is `null`, `undefined`, a boolean or one of BASIS_VALUES. */
  function ValidateBasis(v: Value): (r: Result<Value, InvalidProp>)
    ensures r.Ok? <==> AcceptedBasis(v)
    ensures v.Str? ==> (r.Ok? <==> Str(v.s) in BASIS_VALUES)
    ensures r.Ok? ==> r.value == v
    ensures r.Err? ==> r.error == InvalidProp(Basis, v)
  {
    var validValues := [Null, Undefined, Bool(true), Bool(false)] + BASIS_VALUES;
    if v !in validValues then Err(InvalidProp(Basis, v)) else Ok(v)
  }

  /** The three validators in order; the first failure aborts. */
  function Validate(p: Props): (r: Result<Props, InvalidProp>)
    ensures r.Ok? <==> AcceptedSize(p.grow) && AcceptedSize(p.shrink) && AcceptedBasis(p.basis)
    ensures r.Ok? ==> r.value == p
    ensures r.Err? && !AcceptedSize(p.grow) ==> r.error == InvalidProp(Grow, p.grow)
    ensures r.Err? && AcceptedSize(p.grow) && !AcceptedSize(p.shrink) ==> r.error == InvalidProp(Shrink, p.shrink)
    ensures r.Err? && AcceptedSize(p.grow) && AcceptedSize(p.shrink) ==> r.error == InvalidProp(Basis, p.basis)
  {
    match ValidateGrow(p.grow)
    case Err(e) => Err(e)
    case Ok(_) =>
      match ValidateShrink(p.shrink)
      case Err(e) => Err(e)
      case Ok(_) =>
        match ValidateBasis(p.basis)
        case Err(e) => Err(e)
        case Ok(_) => Ok(p)
  }

  // ------------------------------------------------------- class derivation

  /** `typeof x === 'number' ? table.indexOf(x) >= 0 : undefined` */
  function NumberIn(table: seq<Value>, x: Value): Value {
    if x.Num? then Bool(IndexOf(table, x) >= 0) else Undefined
  }

  /** `typeof x === 'string' ? table.indexOf(x) >= 0 : undefined` */
  function StringIn(table: seq<Value>, x: Value): Value {
    if x.Str? then Bool(IndexOf(table, x) >= 0) else Undefined
  }

  /**
   * The object literal of conditional classes, as written: the basis entry is
   * keyed on `basis` but its condition tests `shrink`.
   */
  function FlagEntries(grow: Value, shrink: Value, basis: Value): seq<Entry>
    requires AcceptedSize(grow) && AcceptedSize(shrink) && AcceptedBasis(basis)
  {
    [ (GROW_ZERO, Bool(!Truthy(grow))),
      (SHRINK_ZERO, Bool(!Truthy(shrink))),
      (GROW_PREFIX + ToJsString(grow), NumberIn(GROW_SIZES, grow)),
      (SHRINK_PREFIX + ToJsString(shrink), NumberIn(SHRINK_SIZES, shrink)),
      (BASIS_PREFIX + ToJsString(basis), StringIn(BASIS_VALUES, shrink)) ]
  }

  /** The same object literal with the basis condition testing `basis`. */
  function IntendedFlagEntries(grow: Value, shrink: Value, basis: Value): seq<Entry>
    requires AcceptedSize(grow) && AcceptedSize(shrink) && AcceptedBasis(basis)
  {
    FlagEntries(grow, shrink, basis)[4 := (BASIS_PREFIX + ToJsString(basis), StringIn(BASIS_VALUES, basis))]
  }

  /** The suffix a grow or shrink key gets from an accepted value never starts like `Zero`. */
  lemma SizeKeySuffix(v: Value)
    requires AcceptedSize(v)
    ensures |ToJsString(v)| >= 1 && ToJsString(v)[0] != 'Z'
  {
  }

  /**
   * The keys fall in three families told apart by the character after
   * `ouiFlexItem--flex`; within the grow and the shrink family, the zero key
   * and the numbered key differ right after the family's prefix.
   */
  lemma KeyCharacters(grow: Value, shrink: Value, basis: Value)
    requires AcceptedSize(grow) && AcceptedSize(shrink) && AcceptedBasis(basis)
    ensures |GROW_ZERO| > 21 && GROW_ZERO[17] == 'G' && GROW_ZERO[21] == 'Z'
    ensures |SHRINK_ZERO| > 23 && SHRINK_ZERO[17] == 'S' && SHRINK_ZERO[23] == 'Z'
    ensures var k := GROW_PREFIX + ToJsString(grow); |k| > 21 && k[17] == 'G' && k[21] != 'Z'
    ensures var k := SHRINK_PREFIX + ToJsString(shrink); |k| > 23 && k[17] == 'S' && k[23] != 'Z'
    ensures var k := BASIS_PREFIX + ToJsString(basis); |k| > 17 && k[17] == 'B'
  {
    SizeKeySuffix(grow);
    SizeKeySuffix(shrink);
  }

  /** The five keys of the object literal are pairwise distinct for validated props. */
  lemma FlagKeysDistinct(grow: Value, shrink: Value, basis: Value)
    requires AcceptedSize(grow) && AcceptedSize(shrink) && AcceptedBasis(basis)
    ensures DistinctKeys(FlagEntries(grow, shrink, basis))
    ensures DistinctKeys(IntendedFlagEntries(grow, shrink, basis))
  {
    KeyCharacters(grow, shrink, basis);
    FamiliesDistinct(FlagEntries(grow, shrink, basis));
    FamiliesDistinct(IntendedFlagEntries(grow, shrink, basis));
  }

  /**
   * Five keys shaped like the grow-zero, shrink-zero, grow, shrink and basis
   * keys are pairwise distinct: only keys of the same family share the
   * character at 17, and those differ at 21 or 23.
   */
  lemma FamiliesDistinct(e: seq<Entry>)
    requires |e| == 5
    requires |e[0].0| > 21 && e[0].0[17] == 'G' && e[0].0[21] == 'Z'
    requires |e[1].0| > 23 && e[1].0[17] == 'S' && e[1].0[23] == 'Z'
    requires |e[2].0| > 21 && e[2].0[17] == 'G' && e[2].0[21] != 'Z'
    requires |e[3].0| > 23 && e[3].0[17] == 'S' && e[3].0[23] != 'Z'
    requires |e[4].0| > 17 && e[4].0[17] == 'B'
    ensures DistinctKeys(e)
  {
    forall i, j | 0 <= i < j < |e|
      ensures Key(e, i) != Key(e, j)
    {
      if e[i].0[17] == e[j].0[17] {
        assert (i, j) == (0, 2) || (i, j) == (1, 3);
      }
    }
  }

  /** The conditional classes as written, in object order. */
  function Flags(grow: Value, shrink: Value, basis: Value): seq<string>
    requires AcceptedSize(grow) && AcceptedSize(shrink) && AcceptedBasis(basis)
  {
    TruthyKeys(FlagEntries(grow, shrink, basis))
  }

  /** The conditional classes with the basis condition testing `basis`. */
  function IntendedFlags(grow: Value, shrink: Value, basis: Value): seq<string>
    requires AcceptedSize(grow) && AcceptedSize(shrink) && AcceptedBasis(basis)
  {
    TruthyKeys(IntendedFlagEntries(grow, shrink, basis))
  }

  /** `classNames('ouiFlexItem', {...}, className)` for validated props. */
  function Classes(p: Props): seq<string>
    requires AcceptedSize(p.grow) && AcceptedSize(p.shrink) && AcceptedBasis(p.basis)
  {
    FlagKeysDistinct(p.grow, p.shrink, p.basis);
    ClassNames(FLEX_ITEM, FlagEntries(p.grow, p.shrink, p.basis), p.className)
  }

  /** The class list with the basis condition testing `basis`. */
  function IntendedClasses(p: Props): seq<string>
    requires AcceptedSize(p.grow) && AcceptedSize(p.shrink) && AcceptedBasis(p.basis)
  {
    FlagKeysDistinct(p.grow, p.shrink, p.basis);
    ClassNames(FLEX_ITEM, IntendedFlagEntries(p.grow, p.shrink, p.basis), p.className)
  }

  /** The error the first failing validator throws, in the order grow, shrink, basis. */
  function FirstInvalid(p: Props): InvalidProp {
    if !AcceptedSize(p.grow) then InvalidProp(Grow, p.grow)
    else if !AcceptedSize(p.shrink) then InvalidProp(Shrink, p.shrink)
    else InvalidProp(Basis, p.basis)
  }

  /**
   * One render of the item as far as its class attribute goes: defaults,
   * validation, then the class list. A thrown error yields no class list.
   */
  function Render(p: Props): (r: Result<seq<string>, InvalidProp>)
    ensures var q := ApplyDefaults(p);
      r.Ok? <==> AcceptedSize(q.grow) && AcceptedSize(q.shrink) && AcceptedBasis(q.basis)
    ensures r.Err? ==> r.error == FirstInvalid(ApplyDefaults(p))
    ensures r.Ok? ==> |r.value| >= 1 && r.value[0] == FLEX_ITEM
    ensures r.Ok? && p.className.Some? && p.className.value != "" ==> r.value[|r.value| - 1] == p.className.value
  {
    match Validate(ApplyDefaults(p))
    case Err(e) => Err(e)
    case Ok(q) => Ok(Classes(q))
  }

  /** Render with the basis condition testing `basis`. */
  function RenderIntended(p: Props): (r: Result<seq<string>, InvalidProp>)
    ensures r.Ok? <==> Render(p).Ok?
    ensures r.Err? ==> r.error == FirstInvalid(ApplyDefaults(p))
    ensures r.Ok? ==> |r.value| >= 1 && r.value[0] == FLEX_ITEM
    ensures r.Ok? && p.className.Some? && p.className.value != "" ==> r.value[|r.value| - 1] == p.className.value
  {
    match Validate(ApplyDefaults(p))
    case Err(e) => Err(e)
    case Ok(q) => Ok(IntendedClasses(q))
  }
}
