# Flex item: prop validation and class derivation

This project models the logic inside the `OuiFlexItem` component of the OUI
component library: how its `grow`, `shrink` and `basis` props are defaulted and
validated, and which CSS class names the item is rendered with. Everything else
the component does is React rendering and is left out.

- `wrappers.dfy` (`Wrappers`): `Option` and `Result`, standing in for an
  optional prop and for the error the component throws.
- `js_values.dfy` (`JsValues`): the JavaScript values a prop can hold
  (`undefined`, `null`, booleans, numbers, strings), truthiness,
  `Array.prototype.indexOf`, and the string conversion a template literal
  applies to a value.
- `class_names.dfy` (`Classnames`): the observable contract of the
  `classnames` helper for the call the component makes. An object literal is a
  sequence of (class name, condition) entries with distinct keys. The result
  keeps the first string, then the keys whose conditions are truthy in
  insertion order, then the caller's class if it is a non-empty string.
- `flex_item.dfy` (`FlexItem`): the `GROW_SIZES`, `SHRINK_SIZES` and
  `BASIS_VALUES` tables and the defaults. It has the three validators as
  functions returning `Result`, composed in the order grow, shrink, basis. It
  builds the object literal of conditional classes exactly as written, and
  `Render` returns the class list, or the first validation error.
- `flex_item_properties.dfy` (`FlexItemProperties`): what the class list
  means. `ExpectedFlags` lists the conditional classes in their fixed order,
  each under its own condition. The module also holds the grow and shrink
  if-and-only-if properties, the basis gate, the defaults, and the values the
  component's tests render.

A failed validation is `Err(InvalidProp(prop, value))`: it names the prop and
the value received, and it yields no class list. This replaces the thrown
`Error`. The validators return the value they accept; the source's validators
return nothing and only throw.

The basis class is gated on `typeof shrink === 'string'`
(src/components/flex/flex_item.tsx:120-123). A validated `shrink` is never a
string, so as written no basis class is ever emitted. `Render` models this
behaviour as written. `RenderIntended` gates on `basis` instead, and both are
proved about (see "Findings").

## Model

| member | source | states |
|---|---|---|
| `JsValues.IndexOf` | src/components/flex/flex_item.tsx:139 | `indexOf` gives -1 exactly when the value is absent; otherwise it gives the index of the first element equal to the value |
| `JsValues.Truthy` | src/components/flex/flex_item.tsx:112-113 | no ensures: ToBoolean, the truthiness that `!grow` and `!shrink` negate; its meaning is stated by `FalsyValues` |
| `JsValues.FalsyValues` | src/components/flex/flex_item.tsx:112-113 | a value is falsy exactly when it is `undefined`, `null`, `false`, `0` or `''` |
| `JsValues.ToJsString` | src/components/flex/flex_item.tsx:114-120 | the `${grow}`, `${shrink}` and `${basis}` conversion: a number gives a non-empty text that starts with `-` exactly when the number is negative, and a non-negative number gives decimal digits only |
| `JsValues.NumberTextInjective` | src/components/flex/flex_item.tsx:114-119 | two whole numbers (below 1e21 in magnitude) that convert to the same text are equal, so the numbered grow and shrink keys name one number each |
| `JsValues.DecimalTextInjective` | src/components/flex/flex_item.tsx:114-119 | the decimal text that `${grow}` / `${shrink}` builds into a class name is different for different numbers, so distinct sizes give distinct classes |
| `Classnames.TruthyKeys` | src/components/flex/flex_item.tsx:109-126 | the object argument of `classnames`: keeps at most one class per entry; which keys it keeps is stated by `TruthyKeysMembers`, and their order for the flex item's object by `FlagsInOrder` |
| `Classnames.TruthyKeysMembers` | src/components/flex/flex_item.tsx:109-126 | `classnames` keeps a key exactly when some entry with that key has a truthy value |
| `Classnames.ClassNames` | src/components/flex/flex_item.tsx:109-126 | the first string argument (`'ouiFlexItem'`) comes first, and a non-empty caller `className` comes last |
| `FlexItem.SizeTable` | src/components/flex/flex_item.tsx:72-84 | a value is in `GROW_SIZES` (and in `SHRINK_SIZES`) exactly when it is a whole number from 1 to 10 |
| `FlexItem.ApplyDefaults` | src/components/flex/flex_item.tsx:99-101 | an undefined `grow` becomes `true`, `shrink` becomes `1` and `basis` becomes `'auto'`; a given value, `null` included, is kept; afterwards no prop is undefined |
| `FlexItem.ValidateGrow` | src/components/flex/flex_item.tsx:136-144 | accepts exactly `null`, `undefined`, `true`, `false` and whole numbers 1..10; anything else (0, 11, 1.5, any string) fails, naming `grow` and the value |
| `FlexItem.ValidateShrink` | src/components/flex/flex_item.tsx:146-155 | accepts and rejects the same set as the grow validator, and a failure names `shrink` |
| `FlexItem.ValidateBasis` | src/components/flex/flex_item.tsx:157-167 | accepts exactly `null`, `undefined`, `true`, `false` and the four keywords; a string is accepted only if it is one of `BASIS_VALUES`, although the declared type admits any string |
| `FlexItem.Validate` | src/components/flex/flex_item.tsx:105-107 | succeeds exactly when all three props are accepted; otherwise the error is that of grow if grow is bad, else shrink if shrink is bad, else basis |
| `FlexItem.FlagEntries` | src/components/flex/flex_item.tsx:111-124 | no ensures: the object literal as written, including the basis entry whose condition tests `shrink` (line 120-123); its meaning is stated by `FlagsInOrder` and `NoBasisFlag` |
| `FlexItem.IntendedFlagEntries` | src/components/flex/flex_item.tsx:120-123 | no ensures: the same object literal with the basis condition testing `basis`; its meaning is stated by `IntendedFlagsInOrder` and `IntendedBasisFlag` |
| `FlexItem.Flags` | src/components/flex/flex_item.tsx:111-124 | no ensures: the keys `classnames` keeps from the object as written; its meaning is stated by `FlagsInOrder` |
| `FlexItem.IntendedFlags` | src/components/flex/flex_item.tsx:120-123 | no ensures: the same with the intended basis condition; its meaning is stated by `IntendedFlagsInOrder` |
| `FlexItem.Classes` | src/components/flex/flex_item.tsx:109-126 | no ensures: the `classNames('ouiFlexItem', {...}, className)` call for validated props; its meaning is stated by `RenderInOrder` |
| `FlexItem.IntendedClasses` | src/components/flex/flex_item.tsx:109-126 | no ensures: the same call with the intended basis condition; its meaning is stated by `RenderIntendedInOrder` |
| `FlexItem.FlagKeysDistinct` | src/components/flex/flex_item.tsx:111-124 | for validated props the five keys of the object literal are pairwise distinct, so no entry overwrites another (with either basis gate) |
| `FlexItem.Render` | src/components/flex/flex_item.tsx:96-126 | a render succeeds exactly when the defaulted props are all accepted; a failure carries the first invalid prop in the order grow, shrink, basis and no class list; a success starts with `ouiFlexItem` and ends with a non-empty caller class |
| `FlexItem.RenderIntended` | src/components/flex/flex_item.tsx:120-123 | with the basis gate on `basis`, succeeds and fails exactly when `Render` does, with the same error, the same first class and the same last class |
| `FlexItemProperties.FlagsInOrder` | src/components/flex/flex_item.tsx:109-126 | the conditional classes are exactly grow-zero if grow is falsy, shrink-zero if shrink is falsy, the grow-N class if grow is a size, and the shrink-N class if shrink is a size, in that order, with no basis class |
| `FlexItemProperties.IntendedFlagsInOrder` | src/components/flex/flex_item.tsx:120-123 | with the gate on `basis`, the same classes, followed by the basis class when `basis` is one of the keywords |
| `FlexItemProperties.RenderInOrder` | src/components/flex/flex_item.tsx:109-126 | a successful render is `ouiFlexItem`, then the conditional classes in their fixed order, then the caller's class if it is a non-empty string |
| `FlexItemProperties.RenderIntendedInOrder` | src/components/flex/flex_item.tsx:109-126 | with the intended gate, the basis class sits after the other conditional classes and before the caller's class |
| `FlexItemProperties.ExpectedFlagsMembers` | src/components/flex/flex_item.tsx:112-119 | a class is among the conditional classes exactly when its own condition holds |
| `FlexItemProperties.GrowClassExpected` | src/components/flex/flex_item.tsx:114-115 | the grow class for factor k is present exactly when `grow` is the number k |
| `FlexItemProperties.ShrinkClassExpected` | src/components/flex/flex_item.tsx:116-119 | the shrink class for factor k is present exactly when `shrink` is the number k |
| `FlexItemProperties.ZeroClassesExpected` | src/components/flex/flex_item.tsx:112-113 | grow-zero is present exactly when `grow` is falsy, and shrink-zero exactly when `shrink` is falsy |
| `FlexItemProperties.GrowFlags` | src/components/flex/flex_item.tsx:112-115 | `ouiFlexItem--flexGrowZero` is present exactly when `grow` is falsy (`false`, `null` or `undefined`); `ouiFlexItem--flexGrow{k}` exactly when `grow` is k; never both; `grow = true` gives no grow class |
| `FlexItemProperties.ShrinkFlags` | src/components/flex/flex_item.tsx:113-119 | the same four facts for `shrink`, `ouiFlexItem--flexShrinkZero` and `ouiFlexItem--flexShrink{k}` |
| `FlexItemProperties.NoBasisFlag` | src/components/flex/flex_item.tsx:120-123 | as written, for validated props no conditional class starts with `ouiFlexItem--flexBasis` |
| `FlexItemProperties.NoBasisClassRendered` | src/components/flex/flex_item.tsx:120-123 | in a successful render, the only class that can start with `ouiFlexItem--flexBasis` is the caller's own class |
| `FlexItemProperties.BasisIgnored` | src/components/flex/flex_item.tsx:120-123 | as written, a valid `basis` has no effect on the class list: it renders like an omitted one |
| `FlexItemProperties.BasisClassExpected` | src/components/flex/flex_item.tsx:120-123 | with the intended gate, the basis class for `x` is expected exactly when `basis` is the keyword `x` |
| `FlexItemProperties.IntendedBasisFlag` | src/components/flex/flex_item.tsx:120-123 | with the intended gate, `ouiFlexItem--flexBasis{x}` is present exactly when `basis` is the keyword `x` |
| `FlexItemProperties.DefaultClasses` | src/components/flex/flex_item.tsx:99-126 | with all three props omitted the class list is `['ouiFlexItem', 'ouiFlexItem--flexShrink1']` followed by the caller's class, if any |
| `FlexItemProperties.BasisGateDefect` | src/components/flex/flex_item.tsx:120-123 | with the defaults, the item as written renders no `ouiFlexItem--flexBasisauto`, and the intended gate adds it |
| `FlexItemProperties.GrowValuesRender` | src/components/flex/flex_item.test.tsx:56-64 | every grow size, `true` and `false` render without error: a size gives its grow class, `false` gives grow-zero, `true` gives no grow class |
| `FlexItemProperties.ShrinkValuesRender` | src/components/flex/flex_item.test.tsx:66-74 | every shrink size renders without error and gives exactly its shrink class |
| `FlexItemProperties.BasisValuesRender` | src/components/flex/flex_item.test.tsx:76-84 | every basis value renders without error; as written it adds no class, and with the intended gate it adds its own basis class |
| `FlexItemProperties.RejectedGrow` | src/components/flex/flex_item.tsx:136-144 | `grow` 11 and 0 make the render fail with the grow error |
| `FlexItemProperties.RejectedShrink` | src/components/flex/flex_item.tsx:146-155 | `shrink` `'big'` makes the render fail with the shrink error |
| `FlexItemProperties.RejectedBasis` | src/components/flex/flex_item.tsx:157-167 | `basis` 123 and `'50%'` make the render fail with the basis error; `'50%'` is named in the error message but is not in the table |

## Left out

- React rendering: the `component` tag (default `'div'`), forwarding of `...rest` attributes and `children`. These are passed through unchanged and hold no logic.
- The text of the error messages. Only the prop and the value are modelled. The basis message lists `'0%'`, `'25%'`, … which disagree with the table the validator checks.
- The final `join(' ')` that `classnames` applies. The model stops at the list of class names.
- `className` values other than a string or `undefined`: the props type declares a string.
- Prop values that are NaN, ±Infinity, -0, objects, functions, symbols or bigints. None of them is in any table. `indexOf` (strict equality) and `includes` (SameValueZero) differ only on NaN, so the model treats both as structural equality.
- `JsValues.ToJsString` converts only whole numbers below 1e21 in magnitude; larger ones print in exponent form in JavaScript. After validation, only 1 to 10 reaches a class-name key.
- The TypeScript type unions: they exist only at compile time.
- Idempotence of rendering: every member here is a pure function, so equal props give equal results by construction. No lemma states it.

## Findings

| source | as written | input that shows it | evidently intended | confidence | as-written member | corrected member |
|---|---|---|---|---|---|---|
| src/components/flex/flex_item.tsx:120-123 | the `ouiFlexItem--flexBasis${basis}` entry is gated on `typeof shrink === 'string' ? BASIS_VALUES.indexOf(shrink) >= 0`. A validated `shrink` is never a string, so no basis class is ever emitted | all props omitted (`basis` defaults to `'auto'`): the classes are `ouiFlexItem ouiFlexItem--flexShrink1` | gate on `typeof basis === 'string' ? BASIS_VALUES.indexOf(basis) >= 0`, giving `ouiFlexItem--flexBasisauto` | high; not executed | `FlexItemProperties.BasisGateDefect` | `FlexItemProperties.IntendedBasisFlag` |

`Render` and the lemmas about it keep the gate as written, because that is the
class list callers of the component actually get. `RenderIntended` and its
lemmas (`IntendedFlagsInOrder`, `IntendedBasisFlag`, `BasisValuesRender`)
describe the corrected gate.
