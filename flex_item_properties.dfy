/**
 * What the flex item promises about its class list: the order of the classes,
 * when each grow and shrink class appears, the basis gate, the defaults, and
 * the values its tests render.
 */
module FlexItemProperties {
  import opened Wrappers
  import opened JsValues
  import opened Classnames
  import opened FlexItem

  /** `[c]` when `on`, else nothing. */
  function When(on: bool, c: string): seq<string> {
    if on then [c] else []
  }

  /** The factor a grow or shrink size stands for. */
  function SizeOf(v: Value): nat
    requires IsSize(v)
  {
    v.n.Floor
  }

  /**
   * The conditional classes the item is meant to carry, in their fixed order:
   * grow-zero when `grow` is falsy, shrink-zero when `shrink` is falsy, then
   * the class of the grow factor and that of the shrink factor.
   */
  function ExpectedFlags(grow: Value, shrink: Value): seq<string> {
    When(!Truthy(grow), GROW_ZERO) + When(!Truthy(shrink), SHRINK_ZERO)
    + (if IsSize(grow) then [GrowClass(SizeOf(grow))] else [])
    + (if IsSize(shrink) then [ShrinkClass(SizeOf(shrink))] else [])
  }

  /** The conditional classes followed by the class of a basis keyword. */
  function IntendedExpectedFlags(grow: Value, shrink: Value, basis: Value): seq<string> {
    ExpectedFlags(grow, shrink) + (if IsBasisKeyword(basis) then [BasisClass(basis.s)] else [])
  }

  /** The truthy keys of an object are those of its first entry, then the rest. */
  lemma TruthyKeysUnfold(e: seq<Entry>)
    requires |e| >= 1
    ensures TruthyKeys(e) == When(Truthy(e[0].1), e[0].0) + TruthyKeys(e[1..])
  {
  }

  /** Concatenation regrouped from the right to the left. */
  lemma Reassociate(w0: seq<string>, w1: seq<string>, w2: seq<string>, w3: seq<string>, w4: seq<string>)
    ensures w0 + (w1 + (w2 + (w3 + w4))) == w0 + w1 + w2 + w3 + w4
  {
  }

  /** The truthy keys of a five-entry object, one entry at a time. */
  lemma TruthyKeysOfFive(e: seq<Entry>)
    requires |e| == 5
    ensures TruthyKeys(e) == When(Truthy(e[0].1), e[0].0) + When(Truthy(e[1].1), e[1].0)
      + When(Truthy(e[2].1), e[2].0) + When(Truthy(e[3].1), e[3].0) + When(Truthy(e[4].1), e[4].0)
  {
    var w0, w1, w2 := When(Truthy(e[0].1), e[0].0), When(Truthy(e[1].1), e[1].0), When(Truthy(e[2].1), e[2].0);
    var w3, w4 := When(Truthy(e[3].1), e[3].0), When(Truthy(e[4].1), e[4].0);
    TruthyKeysUnfold(e[4..]);
    assert e[4..][1..] == [];
    assert TruthyKeys(e[4..]) == w4;
    TruthyKeysUnfold(e[3..]);
    assert e[3..][1..] == e[4..];
    assert TruthyKeys(e[3..]) == w3 + w4;
    TruthyKeysUnfold(e[2..]);
    assert e[2..][1..] == e[3..];
    assert TruthyKeys(e[2..]) == w2 + (w3 + w4);
    TruthyKeysUnfold(e[1..]);
    assert e[1..][1..] == e[2..];
    assert TruthyKeys(e[1..]) == w1 + (w2 + (w3 + w4));
    TruthyKeysUnfold(e);
    Reassociate(w0, w1, w2, w3, w4);
  }

  /**
   * The conditional classes as written: grow-zero, shrink-zero, the grow
   * factor, the shrink factor, each under its own condition, and never a
   * basis class.
   */
  lemma FlagsInOrder(grow: Value, shrink: Value, basis: Value)
    requires AcceptedSize(grow) && AcceptedSize(shrink) && AcceptedBasis(basis)
    ensures Flags(grow, shrink, basis) == ExpectedFlags(grow, shrink)
  {
    var e := FlagEntries(grow, shrink, basis);
    TruthyKeysOfFive(e);
    ZeroEntry(GROW_ZERO, grow);
    ZeroEntry(SHRINK_ZERO, shrink);
    SizeEntry(GROW_PREFIX, GROW_SIZES, grow);
    SizeEntry(SHRINK_PREFIX, SHRINK_SIZES, shrink);
    WrittenBasisEntry(shrink, BASIS_PREFIX + ToJsString(basis));
  }

  /** With the basis condition testing `basis`, a basis keyword adds its class last. */
  lemma IntendedFlagsInOrder(grow: Value, shrink: Value, basis: Value)
    requires AcceptedSize(grow) && AcceptedSize(shrink) && AcceptedBasis(basis)
    ensures IntendedFlags(grow, shrink, basis) == IntendedExpectedFlags(grow, shrink, basis)
  {
    var e := IntendedFlagEntries(grow, shrink, basis);
    TruthyKeysOfFive(e);
    assert e[..4] == FlagEntries(grow, shrink, basis)[..4];
    ZeroEntry(GROW_ZERO, grow);
    ZeroEntry(SHRINK_ZERO, shrink);
    SizeEntry(GROW_PREFIX, GROW_SIZES, grow);
    SizeEntry(SHRINK_PREFIX, SHRINK_SIZES, shrink);
    BasisEntry(basis);
  }

  /** A zero entry contributes its key exactly when the prop is falsy. */
  lemma ZeroEntry(key: string, v: Value)
    ensures When(Truthy(Bool(!Truthy(v))), key) == When(!Truthy(v), key)
  {
  }

  /** A size entry contributes the class of the factor exactly when the prop is a size. */
  lemma SizeEntry(prefix: string, table: seq<Value>, v: Value)
    requires AcceptedSize(v)
    requires table == GROW_SIZES || table == SHRINK_SIZES
    ensures When(Truthy(NumberIn(table, v)), prefix + ToJsString(v))
      == (if IsSize(v) then [prefix + DecimalText(SizeOf(v))] else [])
  {
    SizeTable(v);
  }

  /** The basis entry as written contributes nothing, since its condition tests a size prop. */
  lemma WrittenBasisEntry(shrink: Value, key: string)
    requires AcceptedSize(shrink)
    ensures When(Truthy(StringIn(BASIS_VALUES, shrink)), key) == []
  {
  }

  /** The basis entry with the intended condition contributes the class of a keyword. */
  lemma BasisEntry(basis: Value)
    requires AcceptedBasis(basis)
    ensures When(Truthy(StringIn(BASIS_VALUES, basis)), BASIS_PREFIX + ToJsString(basis))
      == (if IsBasisKeyword(basis) then [BasisClass(basis.s)] else [])
  {
  }

  // ------------------------------------------------------ class name shapes

  /** The families of flex classes differ at the character after `ouiFlexItem--flex`. */
  lemma ClassFamilies(k: nat, x: string)
    ensures |GrowClass(k)| > 21 && GrowClass(k)[17] == 'G' && '0' <= GrowClass(k)[21] <= '9'
    ensures |ShrinkClass(k)| > 23 && ShrinkClass(k)[17] == 'S' && '0' <= ShrinkClass(k)[23] <= '9'
    ensures |BasisClass(x)| >= 22 && BasisClass(x)[17] == 'B'
    ensures GROW_ZERO[17] == 'G' && GROW_ZERO[21] == 'Z'
    ensures SHRINK_ZERO[17] == 'S' && SHRINK_ZERO[23] == 'Z'
    ensures GROW_PREFIX[17] == 'G' && SHRINK_PREFIX[17] == 'S' && BASIS_PREFIX[17] == 'B'
  {
    assert GrowClass(k)[21] == DecimalText(k)[0];
    assert ShrinkClass(k)[23] == DecimalText(k)[0];
  }

  /** Distinct factors give distinct grow classes and distinct shrink classes. */
  lemma SizeClassInjective(k: nat, m: nat)
    ensures GrowClass(k) == GrowClass(m) ==> k == m
    ensures ShrinkClass(k) == ShrinkClass(m) ==> k == m
  {
    if GrowClass(k) == GrowClass(m) {
      assert DecimalText(k) == GrowClass(k)[|GROW_PREFIX|..];
      assert DecimalText(m) == GrowClass(m)[|GROW_PREFIX|..];
      DecimalTextInjective(k, m);
    }
    if ShrinkClass(k) == ShrinkClass(m) {
      assert DecimalText(k) == ShrinkClass(k)[|SHRINK_PREFIX|..];
      assert DecimalText(m) == ShrinkClass(m)[|SHRINK_PREFIX|..];
      DecimalTextInjective(k, m);
    }
  }

  /** Membership in the expected conditional classes, one condition per class. */
  lemma ExpectedFlagsMembers(grow: Value, shrink: Value, c: string)
    ensures c in ExpectedFlags(grow, shrink) <==>
      || (c == GROW_ZERO && !Truthy(grow))
      || (c == SHRINK_ZERO && !Truthy(shrink))
      || (IsSize(grow) && c == GrowClass(SizeOf(grow)))
      || (IsSize(shrink) && c == ShrinkClass(SizeOf(shrink)))
  {
  }

  /** The grow class for factor k is expected exactly when `grow` is the number k. */
  lemma GrowClassExpected(grow: Value, shrink: Value, k: nat)
    requires AcceptedSize(grow) && AcceptedSize(shrink)
    ensures GrowClass(k) in ExpectedFlags(grow, shrink) <==> grow == Num(k as real)
  {
    ExpectedFlagsMembers(grow, shrink, GrowClass(k));
    ClassFamilies(k, "");
    if IsSize(grow) {
      SizeClassInjective(k, SizeOf(grow));
    }
    if IsSize(shrink) {
      ClassFamilies(SizeOf(shrink), "");
    }
  }

  /** The shrink class for factor k is expected exactly when `shrink` is the number k. */
  lemma ShrinkClassExpected(grow: Value, shrink: Value, k: nat)
    requires AcceptedSize(grow) && AcceptedSize(shrink)
    ensures ShrinkClass(k) in ExpectedFlags(grow, shrink) <==> shrink == Num(k as real)
  {
    ExpectedFlagsMembers(grow, shrink, ShrinkClass(k));
    ClassFamilies(k, "");
    if IsSize(shrink) {
      SizeClassInjective(k, SizeOf(shrink));
    }
    if IsSize(grow) {
      ClassFamilies(SizeOf(grow), "");
    }
  }

  /** The zero classes are expected exactly when their prop is falsy. */
  lemma ZeroClassesExpected(grow: Value, shrink: Value)
    requires AcceptedSize(grow) && AcceptedSize(shrink)
    ensures GROW_ZERO in ExpectedFlags(grow, shrink) <==> !Truthy(grow)
    ensures SHRINK_ZERO in ExpectedFlags(grow, shrink) <==> !Truthy(shrink)
  {
    ExpectedFlagsMembers(grow, shrink, GROW_ZERO);
    ExpectedFlagsMembers(grow, shrink, SHRINK_ZERO);
    ClassFamilies(0, "");
    if IsSize(grow) {
      ClassFamilies(SizeOf(grow), "");
    }
    if IsSize(shrink) {
      ClassFamilies(SizeOf(shrink), "");
    }
  }

  /** With `true`, no expected class starts with the grow or the shrink prefix respectively. */
  lemma TrueGivesNoClass(grow: Value, shrink: Value, c: string)
    requires AcceptedSize(grow) && AcceptedSize(shrink)
    requires c in ExpectedFlags(grow, shrink)
    ensures grow == Bool(true) ==> !(GROW_PREFIX <= c)
    ensures shrink == Bool(true) ==> !(SHRINK_PREFIX <= c)
  {
    ExpectedFlagsMembers(grow, shrink, c);
    ClassFamilies(0, "");
    if IsSize(grow) {
      ClassFamilies(SizeOf(grow), "");
    }
    if IsSize(shrink) {
      ClassFamilies(SizeOf(shrink), "");
    }
  }

  // ------------------------------------------------------------- grow flags

  /**
   * The grow-zero class appears exactly when `grow` is falsy; the class for
   * factor k exactly when `grow` is the number k; never both; and `true`
   * gives no grow class at all.
   */
  lemma GrowFlags(grow: Value, shrink: Value, basis: Value)
    requires AcceptedSize(grow) && AcceptedSize(shrink) && AcceptedBasis(basis)
    ensures GROW_ZERO in Flags(grow, shrink, basis) <==> !Truthy(grow)
    ensures !Truthy(grow) <==> grow == Bool(false) || grow == Null || grow == Undefined
    ensures forall k: nat :: GrowClass(k) in Flags(grow, shrink, basis) <==> grow == Num(k as real)
    ensures !(GROW_ZERO in Flags(grow, shrink, basis) && exists k: nat :: GrowClass(k) in Flags(grow, shrink, basis))
    ensures grow == Bool(true) ==> forall c :: c in Flags(grow, shrink, basis) ==> !(GROW_PREFIX <= c)
  {
    FlagsInOrder(grow, shrink, basis);
    ZeroClassesExpected(grow, shrink);
    forall k: nat
      ensures GrowClass(k) in ExpectedFlags(grow, shrink) <==> grow == Num(k as real)
    {
      GrowClassExpected(grow, shrink, k);
    }
    forall c | c in ExpectedFlags(grow, shrink)
      ensures grow == Bool(true) ==> !(GROW_PREFIX <= c)
    {
      TrueGivesNoClass(grow, shrink, c);
    }
  }

  // ----------------------------------------------------------- shrink flags

  /**
   * The shrink-zero class appears exactly when `shrink` is falsy; the class
   * for factor k exactly when `shrink` is the number k; never both; and
   * `true` gives no shrink class at all.
   */
  lemma ShrinkFlags(grow: Value, shrink: Value, basis: Value)
    requires AcceptedSize(grow) && AcceptedSize(shrink) && AcceptedBasis(basis)
    ensures SHRINK_ZERO in Flags(grow, shrink, basis) <==> !Truthy(shrink)
    ensures !Truthy(shrink) <==> shrink == Bool(false) || shrink == Null || shrink == Undefined
    ensures forall k: nat :: ShrinkClass(k) in Flags(grow, shrink, basis) <==> shrink == Num(k as real)
    ensures !(SHRINK_ZERO in Flags(grow, shrink, basis) && exists k: nat :: ShrinkClass(k) in Flags(grow, shrink, basis))
    ensures shrink == Bool(true) ==> forall c :: c in Flags(grow, shrink, basis) ==> !(SHRINK_PREFIX <= c)
  {
    FlagsInOrder(grow, shrink, basis);
    ZeroClassesExpected(grow, shrink);
    forall k: nat
      ensures ShrinkClass(k) in ExpectedFlags(grow, shrink) <==> shrink == Num(k as real)
    {
      ShrinkClassExpected(grow, shrink, k);
    }
    forall c | c in ExpectedFlags(grow, shrink)
      ensures shrink == Bool(true) ==> !(SHRINK_PREFIX <= c)
    {
      TrueGivesNoClass(grow, shrink, c);
    }
  }

  // ------------------------------------------------------------- basis gate

  /** No expected conditional class starts with the basis prefix. */
  lemma ExpectedHasNoBasisClass(grow: Value, shrink: Value, c: string)
    requires AcceptedSize(grow) && AcceptedSize(shrink)
    requires c in ExpectedFlags(grow, shrink)
    ensures !(BASIS_PREFIX <= c)
  {
    ExpectedFlagsMembers(grow, shrink, c);
    ClassFamilies(0, "");
    if IsSize(grow) {
      ClassFamilies(SizeOf(grow), "");
    }
    if IsSize(shrink) {
      ClassFamilies(SizeOf(shrink), "");
    }
  }

  /** As written, no conditional class is ever a basis class. */
  lemma NoBasisFlag(grow: Value, shrink: Value, basis: Value)
    requires AcceptedSize(grow) && AcceptedSize(shrink) && AcceptedBasis(basis)
    ensures forall c :: c in Flags(grow, shrink, basis) ==> !(BASIS_PREFIX <= c)
  {
    FlagsInOrder(grow, shrink, basis);
    forall c | c in ExpectedFlags(grow, shrink)
      ensures !(BASIS_PREFIX <= c)
    {
      ExpectedHasNoBasisClass(grow, shrink, c);
    }
  }

  /** The intended basis class for `x` is expected exactly when `basis` is the keyword `x`. */
  lemma BasisClassExpected(grow: Value, shrink: Value, basis: Value, x: string)
    requires AcceptedSize(grow) && AcceptedSize(shrink) && AcceptedBasis(basis)
    ensures BasisClass(x) in IntendedExpectedFlags(grow, shrink, basis) <==> basis == Str(x) && IsBasisKeyword(basis)
  {
    ClassFamilies(0, x);
    if BasisClass(x) in ExpectedFlags(grow, shrink) {
      ExpectedHasNoBasisClass(grow, shrink, BasisClass(x));
    }
    if IsBasisKeyword(basis) && BasisClass(x) == BasisClass(basis.s) {
      assert x == BasisClass(x)[|BASIS_PREFIX|..];
    }
  }

  /**
   * With the basis condition testing `basis`, the class for `x` appears
   * exactly when `basis` is the keyword `x`.
   */
  lemma IntendedBasisFlag(grow: Value, shrink: Value, basis: Value)
    requires AcceptedSize(grow) && AcceptedSize(shrink) && AcceptedBasis(basis)
    ensures forall x :: BasisClass(x) in IntendedFlags(grow, shrink, basis) <==> basis == Str(x) && IsBasisKeyword(basis)
  {
    IntendedFlagsInOrder(grow, shrink, basis);
    forall x
      ensures BasisClass(x) in IntendedExpectedFlags(grow, shrink, basis) <==> basis == Str(x) && IsBasisKeyword(basis)
    {
      BasisClassExpected(grow, shrink, basis, x);
    }
  }

  // ------------------------------------------------------------- rendering

  /** A successful render returns the class list of the defaulted props. */
  lemma RenderedIsClasses(p: Props)
    requires Render(p).Ok?
    ensures var q := ApplyDefaults(p);
      && AcceptedSize(q.grow) && AcceptedSize(q.shrink) && AcceptedBasis(q.basis)
      && Render(p) == Ok(Classes(q)) && RenderIntended(p) == Ok(IntendedClasses(q))
  {
  }

  /** The class list is `ouiFlexItem`, the conditional classes, then the caller's class. */
  lemma ClassesParts(q: Props)
    requires AcceptedSize(q.grow) && AcceptedSize(q.shrink) && AcceptedBasis(q.basis)
    ensures Classes(q) == [FLEX_ITEM] + Flags(q.grow, q.shrink, q.basis) + OptionalArg(q.className)
    ensures IntendedClasses(q) == [FLEX_ITEM] + IntendedFlags(q.grow, q.shrink, q.basis) + OptionalArg(q.className)
  {
    assert StringArg(FLEX_ITEM) == [FLEX_ITEM];
  }

  /**
   * A successful render gives `ouiFlexItem`, then the conditional classes in
   * their fixed order, then the caller's class if it is a non-empty string.
   */
  lemma RenderInOrder(p: Props)
    requires Render(p).Ok?
    ensures var q := ApplyDefaults(p);
      Render(p).value == [FLEX_ITEM] + ExpectedFlags(q.grow, q.shrink) + OptionalArg(p.className)
  {
    var q := ApplyDefaults(p);
    RenderedIsClasses(p);
    ClassesParts(q);
    FlagsInOrder(q.grow, q.shrink, q.basis);
  }

  /** With the intended basis gate, a basis keyword adds its class before the caller's class. */
  lemma RenderIntendedInOrder(p: Props)
    requires Render(p).Ok?
    ensures var q := ApplyDefaults(p);
      RenderIntended(p).value == [FLEX_ITEM] + IntendedExpectedFlags(q.grow, q.shrink, q.basis) + OptionalArg(p.className)
  {
    var q := ApplyDefaults(p);
    RenderedIsClasses(p);
    ClassesParts(q);
    IntendedFlagsInOrder(q.grow, q.shrink, q.basis);
  }

  /** A rendered basis class can only come from the caller's own class name. */
  lemma NoBasisClassRendered(p: Props)
    requires Render(p).Ok?
    ensures forall c :: c in Render(p).value && c !in OptionalArg(p.className) ==> !(BASIS_PREFIX <= c)
  {
    var q := ApplyDefaults(p);
    RenderedIsClasses(p);
    ClassesParts(q);
    NoBasisFlag(q.grow, q.shrink, q.basis);
    var f := Flags(q.grow, q.shrink, q.basis);
    forall c | c in Render(p).value && c !in OptionalArg(p.className)
      ensures !(BASIS_PREFIX <= c)
    {
      assert c == FLEX_ITEM || c in f;
    }
  }

  /** As written, the basis prop only decides whether the render throws. */
  lemma BasisIgnored(p: Props)
    requires Render(p).Ok?
    ensures Render(p) == Render(p.(basis := Undefined))
  {
    var p' := p.(basis := Undefined);
    assert ApplyDefaults(p').basis == Str("auto");
    RenderInOrder(p);
    RenderInOrder(p');
  }

  /** The class for shrink factor 1, the shrink default. */
  lemma ShrinkOneClass()
    ensures ShrinkClass(1) == "ouiFlexItem--flexShrink1"
  {
    assert DecimalText(1) == "1";
  }

  /** With every prop omitted: `ouiFlexItem`, the shrink-1 class, then the caller's class. */
  lemma DefaultClasses(className: Option<string>)
    ensures Render(Props(Undefined, Undefined, Undefined, className))
      == Ok([FLEX_ITEM, "ouiFlexItem--flexShrink1"] + OptionalArg(className))
  {
    var p := Props(Undefined, Undefined, Undefined, className);
    DefaultsAccepted(p);
    RenderInOrder(p);
    DefaultFlags();
    Prepend(FLEX_ITEM, ["ouiFlexItem--flexShrink1"]);
  }

  /** The defaults are accepted values. */
  lemma DefaultsAccepted(p: Props)
    requires p.grow == Undefined && p.shrink == Undefined && p.basis == Undefined
    ensures ApplyDefaults(p) == Props(Bool(true), Num(1.0), Str("auto"), p.className)
    ensures AcceptedSize(Bool(true)) && AcceptedSize(Num(1.0)) && AcceptedBasis(Str("auto"))
  {
  }

  /** The conditional classes of the defaults: the shrink-1 class alone. */
  lemma DefaultFlags()
    ensures ExpectedFlags(Bool(true), Num(1.0)) == ["ouiFlexItem--flexShrink1"]
  {
    assert ExpectedFlags(Bool(true), Num(1.0)) == [ShrinkClass(1)];
    ShrinkOneClass();
  }

  /** A render with the intended basis gate and no caller class. */
  lemma RenderIntendedWithoutCaller(p: Props, flags: seq<string>)
    requires p.className == None
    requires var q := ApplyDefaults(p); AcceptedSize(q.grow) && AcceptedSize(q.shrink) && AcceptedBasis(q.basis)
    requires var q := ApplyDefaults(p); IntendedExpectedFlags(q.grow, q.shrink, q.basis) == flags
    ensures RenderIntended(p) == Ok([FLEX_ITEM] + flags)
  {
    RenderIntendedInOrder(p);
    assert [FLEX_ITEM] + flags + [] == [FLEX_ITEM] + flags;
  }

  /**
   * The basis gate as written against the intended one: with the defaults the
   * item renders no `ouiFlexItem--flexBasisauto`, which the intended gate adds.
   */
  lemma BasisGateDefect()
    ensures Render(Props(Undefined, Undefined, Undefined, None)) == Ok([FLEX_ITEM, "ouiFlexItem--flexShrink1"])
    ensures RenderIntended(Props(Undefined, Undefined, Undefined, None))
      == Ok([FLEX_ITEM, "ouiFlexItem--flexShrink1", "ouiFlexItem--flexBasisauto"])
  {
    var omitted, auto := Props(Undefined, Undefined, Undefined, None), Props(Undefined, Undefined, Str("auto"), None);
    assert ApplyDefaults(omitted) == ApplyDefaults(auto);
    assert IsBasisKeyword(Str("auto"));
    BasisOnlyRender(Str("auto"));
    ShrinkOneClass();
    BasisAutoClass();
  }

  /** The class for basis `'auto'`, the basis default. */
  lemma BasisAutoClass()
    ensures BasisClass("auto") == "ouiFlexItem--flexBasisauto"
  {
  }

  // ------------------------------------------------------ rendered examples

  /** Prepending a class to a list of one or two classes. */
  lemma Prepend(a: string, rest: seq<string>)
    requires |rest| <= 2
    ensures |rest| == 1 ==> [a] + rest == [a, rest[0]]
    ensures |rest| == 2 ==> [a] + rest == [a, rest[0], rest[1]]
  {
  }

  /** A render with no caller class: `ouiFlexItem`, then the conditional classes. */
  lemma RenderWithoutCaller(p: Props, flags: seq<string>)
    requires p.className == None
    requires var q := ApplyDefaults(p); AcceptedSize(q.grow) && AcceptedSize(q.shrink) && AcceptedBasis(q.basis)
    requires var q := ApplyDefaults(p); ExpectedFlags(q.grow, q.shrink) == flags
    ensures Render(p) == Ok([FLEX_ITEM] + flags)
  {
    RenderInOrder(p);
    assert [FLEX_ITEM] + flags + [] == [FLEX_ITEM] + flags;
  }

  /** Each grow size, `true` and `false` render, each with its grow class. */
  lemma GrowValuesRender(v: Value)
    requires v in GROW_SIZES || v == Bool(true) || v == Bool(false)
    ensures Render(Props(v, Undefined, Undefined, None)).Ok?
    ensures v == Bool(true) ==> Render(Props(v, Undefined, Undefined, None)).value == [FLEX_ITEM, ShrinkClass(1)]
    ensures v == Bool(false) ==> Render(Props(v, Undefined, Undefined, None)).value == [FLEX_ITEM, GROW_ZERO, ShrinkClass(1)]
    ensures v in GROW_SIZES ==> IsSize(v)
    ensures IsSize(v) ==>
      Render(Props(v, Undefined, Undefined, None)).value == [FLEX_ITEM, GrowClass(SizeOf(v)), ShrinkClass(1)]
  {
    SizeTable(v);
    GrowOnlyRender(v);
  }

  /** The expected conditional classes when `grow` is the only prop given. */
  lemma GrowOnlyFlags(v: Value)
    requires v.Bool? || IsSize(v)
    ensures ExpectedFlags(v, Num(1.0)) ==
      if v == Bool(true) then [ShrinkClass(1)]
      else if v == Bool(false) then [GROW_ZERO, ShrinkClass(1)]
      else [GrowClass(SizeOf(v)), ShrinkClass(1)]
  {
  }

  /** A boolean or a size as the only prop given is rendered with its grow class. */
  lemma GrowOnlyRender(v: Value)
    requires v.Bool? || IsSize(v)
    ensures Render(Props(v, Undefined, Undefined, None)).Ok?
    ensures v == Bool(true) ==> Render(Props(v, Undefined, Undefined, None)).value == [FLEX_ITEM, ShrinkClass(1)]
    ensures v == Bool(false) ==> Render(Props(v, Undefined, Undefined, None)).value == [FLEX_ITEM, GROW_ZERO, ShrinkClass(1)]
    ensures IsSize(v) ==>
      Render(Props(v, Undefined, Undefined, None)).value == [FLEX_ITEM, GrowClass(SizeOf(v)), ShrinkClass(1)]
  {
    var p := Props(v, Undefined, Undefined, None);
    assert ApplyDefaults(p) == Props(v, Num(1.0), Str("auto"), None);
    var flags := ExpectedFlags(v, Num(1.0));
    GrowOnlyFlags(v);
    RenderWithoutCaller(p, flags);
    Prepend(FLEX_ITEM, flags);
  }

  /** Each shrink size renders with its shrink class. */
  lemma ShrinkValuesRender(v: Value)
    requires v in SHRINK_SIZES
    ensures IsSize(v)
    ensures Render(Props(Undefined, v, Undefined, None)) == Ok([FLEX_ITEM, ShrinkClass(SizeOf(v))])
  {
    SizeTable(v);
    ShrinkOnlyRender(v);
  }

  /** A size as the only prop given is rendered with its shrink class. */
  lemma ShrinkOnlyRender(v: Value)
    requires IsSize(v)
    ensures Render(Props(Undefined, v, Undefined, None)) == Ok([FLEX_ITEM, ShrinkClass(SizeOf(v))])
  {
    var p := Props(Undefined, v, Undefined, None);
    assert ApplyDefaults(p) == Props(Bool(true), v, Str("auto"), None);
    var flags := ExpectedFlags(Bool(true), v);
    assert flags == [ShrinkClass(SizeOf(v))];
    RenderWithoutCaller(p, flags);
    Prepend(FLEX_ITEM, flags);
  }

  /** Each basis value renders; as written it adds no class, the intended gate adds its class. */
  lemma BasisValuesRender(v: Value)
    requires v in BASIS_VALUES
    ensures IsBasisKeyword(v)
    ensures Render(Props(Undefined, Undefined, v, None)) == Ok([FLEX_ITEM, ShrinkClass(1)])
    ensures RenderIntended(Props(Undefined, Undefined, v, None)) == Ok([FLEX_ITEM, ShrinkClass(1), BasisClass(v.s)])
  {
    assert IsBasisKeyword(v);
    BasisOnlyRender(v);
  }

  /** A basis keyword as the only prop given: no class as written, its class with the intended gate. */
  lemma BasisOnlyRender(v: Value)
    requires IsBasisKeyword(v)
    ensures Render(Props(Undefined, Undefined, v, None)) == Ok([FLEX_ITEM, ShrinkClass(1)])
    ensures RenderIntended(Props(Undefined, Undefined, v, None)) == Ok([FLEX_ITEM, ShrinkClass(1), BasisClass(v.s)])
  {
    var p := Props(Undefined, Undefined, v, None);
    assert ApplyDefaults(p) == Props(Bool(true), Num(1.0), v, None);
    var flags := ExpectedFlags(Bool(true), Num(1.0));
    assert flags == [ShrinkClass(1)];
    var intended := IntendedExpectedFlags(Bool(true), Num(1.0), v);
    assert intended == [ShrinkClass(1), BasisClass(v.s)];
    RenderWithoutCaller(p, flags);
    RenderIntendedWithoutCaller(p, intended);
    Prepend(FLEX_ITEM, flags);
    Prepend(FLEX_ITEM, intended);
  }

  /** Grow values outside the table throw: 0 and 11. */
  lemma RejectedGrow()
    ensures Render(Props(Num(11.0), Undefined, Undefined, None)) == Err(InvalidProp(Grow, Num(11.0)))
    ensures Render(Props(Num(0.0), Undefined, Undefined, None)) == Err(InvalidProp(Grow, Num(0.0)))
  {
    assert ApplyDefaults(Props(Num(11.0), Undefined, Undefined, None)).grow == Num(11.0);
    assert ApplyDefaults(Props(Num(0.0), Undefined, Undefined, None)).grow == Num(0.0);
  }

  /** A shrink value outside the table throws: 'big'. */
  lemma RejectedShrink()
    ensures Render(Props(Undefined, Str("big"), Undefined, None)) == Err(InvalidProp(Shrink, Str("big")))
  {
    assert ApplyDefaults(Props(Undefined, Str("big"), Undefined, None)).shrink == Str("big");
  }

  /** Basis values outside the table throw: 123 and '50%'. */
  lemma RejectedBasis()
    ensures Render(Props(Undefined, Undefined, Num(123.0), None)) == Err(InvalidProp(Basis, Num(123.0)))
    ensures Render(Props(Undefined, Undefined, Str("50%"), None)) == Err(InvalidProp(Basis, Str("50%")))
  {
    BasisOnlyRejected(Num(123.0));
    assert !IsBasisKeyword(Str("50%"));
    BasisOnlyRejected(Str("50%"));
  }

  /** With grow and shrink omitted, a basis outside the table makes the render throw. */
  lemma BasisOnlyRejected(b: Value)
    requires !AcceptedBasis(b)
    ensures Render(Props(Undefined, Undefined, b, None)) == Err(InvalidProp(Basis, b))
  {
    var p := Props(Undefined, Undefined, b, None);
    assert ApplyDefaults(p) == Props(Bool(true), Num(1.0), b, None);
    assert AcceptedSize(Bool(true)) && AcceptedSize(Num(1.0));
  }
}
