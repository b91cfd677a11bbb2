# Jellyfin web card builder helpers, in Dafny

This project models the small pure helpers the jellyfin-web card builder uses
when it renders a media card, together with the boolean setting parser of the
string utilities, and proves what each of them promises.

- **Live-TV naming** (`CardBuilder.IsUsingLiveTvNaming`): an item type is
  live TV exactly when it is `Program`, `Timer` or `Recording`.
- **Resizability** (`CardBuilder.IsResizable`): the window counts as resizable
  when a screen is present and its available width exceeds the window width by
  more than 20 pixels. The browser's `window.screen` becomes the parameter
  `screenAvailWidth`, where `None` means no screen.
- **Mixed shape** (`CardBuilder.ResolveMixedShapeByAspectRatio`): an aspect
  ratio of at least 1.33 gives `mixedBackdrop`. Above 0.71 it gives
  `mixedSquare`, and otherwise `mixedPortrait`. A missing ratio gives
  `mixedSquare`.
- **Card class list** (`CardBuilder.ResolveCardCssClassNames`): the class
  attribute of a card. The method follows the source step by step: it starts
  from `["card"]` and appends one class name per satisfied condition, in a
  fixed order, then joins the names with single spaces. Its specification is
  `ClassNames`, which works in two layers:
  - a list of `ClassToken`s, one per rule that fires;
  - the rendering of each token to its class name.

  The token layer keeps the proved properties exact even when a custom class
  repeats a built-in name, as in `cardClass: 'card'`. The method is proved to
  append exactly what each rule contributes (`RuleNames`, `RenderedPrefix`).
  Lemmas then show that the token list holds exactly the tokens whose
  conditions hold, in emission order. The membership, ordering and nesting
  properties are derived from that.
- **Boolean settings** (`StringUtils.ToBoolean`): `"true"` reads as true and
  `"false"` as false. Any other value, including an absent one, reads as the
  default, which is false when omitted.

JavaScript's `undefined` and `null` are both modelled as `Option.None`.
JavaScript truthiness of an optional string is modelled as "present and
non-empty", and of an optional number as "present and non-zero".
`Array.prototype.join` is `StringJoin.Join`.

## Model

| member | source | states |
|---|---|---|
| CardBuilder.IsUsingLiveTvNaming | src/components/cardbuilder/extracted.ts:8 | holds exactly when the item type is one of the three live-TV names `Program`, `Timer`, `Recording` |
| CardBuilder.LiveTvNamingIsCaseSensitive | src/components/cardbuilder/extracted.ts:8 | the comparison is exact: other casings, padding and the empty string are not live TV |
| CardBuilder.IsResizable | src/components/cardbuilder/extracted.ts:15-26 | resizable exactly when a screen is present and its available width exceeds the window width by more than 20 |
| CardBuilder.ResizableThreshold | src/components/cardbuilder/extracted.ts:17-25 | a difference of exactly 20 is not resizable, 21 is, and no screen is never resizable |
| CardBuilder.ResizableMonotone | src/components/cardbuilder/extracted.ts:15-26 | a narrower window on a wider screen stays resizable |
| CardBuilder.ResolveMixedShapeByAspectRatio | src/components/cardbuilder/extracted.ts:28-40 | the shape is one of the three mixed shapes. It is backdrop exactly at or above 1.33 and portrait exactly at or below 0.71. It is square exactly when the ratio is absent or strictly between the two |
| CardBuilder.MixedShapeMonotone | src/components/cardbuilder/extracted.ts:33-39 | a wider aspect ratio never gets a narrower shape (portrait, then square, then backdrop) |
| CardBuilder.MixedShapeBoundaries | src/components/cardbuilder/extracted.test.ts:37-58 | 1.33 is backdrop and 1.32 is square. 0.72 is square and 0.71 is portrait. A missing ratio is square |
| CardBuilder.ClassNameOpts | src/components/cardbuilder/extracted.ts:42-53 | the options of a card: the four optional strings and the optional child count as `Option`s, the item type and the four flags as plain fields |
| CardBuilder.Emitted | src/components/cardbuilder/extracted.ts:56-92 | the ten push conditions, one per class token, with JavaScript truthiness as `IsSetString` (present and non-empty) and `IsSetCount` (present and non-zero) |
| CardBuilder.Text | src/components/cardbuilder/extracted.ts:58-92 | the class name each token renders to: the shape followed by `Card`, the custom classes' own text, and the seven fixed names |
| CardBuilder.ClassTokens | src/components/cardbuilder/extracted.ts:56-92 | the class list: what the ten rules contribute, in rule order, each rule adding its token when `Emitted` holds |
| CardBuilder.ClassNames | src/components/cardbuilder/extracted.ts:56-94 | the class attribute: the class names of `ClassTokens` joined with single spaces |
| CardBuilder.ResolveCardCssClassNames | src/components/cardbuilder/extracted.ts:55-95 | the class attribute built by appending rule by rule equals `ClassNames`, the class list joined with single spaces |
| CardBuilder.PrefixIsClassListUpTo | src/components/cardbuilder/extracted.ts:56-92 | after the first k rules, the list holds exactly the emitted tokens of rank below k, in strictly increasing emission order |
| CardBuilder.ClassTokensCharacterized | src/components/cardbuilder/extracted.ts:56-92 | the class list holds a token exactly when that token's condition holds, in emission order and without repeats |
| CardBuilder.RenderedPrefixIsTexts | src/components/cardbuilder/extracted.ts:56-92 | appending each rule's class names in turn renders the token list of those rules |
| CardBuilder.ClassListBounds | src/components/cardbuilder/extracted.ts:56-92 | the class list has between 1 and 10 entries and its first entry is `card` |
| CardBuilder.ClassNamesStartWithCard | src/components/cardbuilder/extracted.ts:56 | the class attribute always begins with `card` |
| CardBuilder.OptionalClassesOnlyWhenSet | src/components/cardbuilder/extracted.ts:58-67 | the shape class, the CSS class and the card class each appear exactly when that option is present and non-empty. The shape class carries the shape's own text |
| CardBuilder.ShowAnimationNestedInShowFocus | src/components/cardbuilder/extracted.ts:73-79 | `show-focus` appears exactly on TV. `show-animation` appears exactly on TV with focus transform, and always right after `show-focus` |
| CardBuilder.GroupedCardCondition | src/components/cardbuilder/extracted.ts:81-83 | `groupedCard` appears exactly when the indicator is on and the child count is present and non-zero |
| CardBuilder.WithUserDataUnlessMusic | src/components/cardbuilder/extracted.ts:85-88 | `card-withuserdata` appears exactly when the item type is none of `MusicAlbum`, `MusicArtist`, `Audio` |
| CardBuilder.ItemActionLast | src/components/cardbuilder/extracted.ts:90-92 | `itemAction` appears exactly for a `button` tag, and is then the last class |
| CardBuilder.OnlyCardWhenNothingSet | src/components/cardbuilder/extracted.ts:55-95 | the class list is just `card` exactly when no later rule's condition holds |
| CardBuilder.MusicItemOnlyCard | src/components/cardbuilder/extracted.test.ts:135-159 | a music item with no optional field and every flag off renders as exactly `card` |
| CardBuilder.DefaultCardClassList | src/components/cardbuilder/extracted.ts:56-94 | a non-music item with nothing set gets exactly the class names `card` and `card-withuserdata`, in that order |
| CardBuilder.DefaultCard | src/components/cardbuilder/extracted.test.ts:62-70 | a non-music item with nothing set renders as exactly `card card-withuserdata` |
| CardBuilder.EverythingSetAllClasses | src/components/cardbuilder/extracted.ts:55-95 | when every condition holds, all ten class names are emitted once each, in rule order |
| CardBuilder.AllOptionsSet | src/components/cardbuilder/extracted.test.ts:183-196 | the fully-set card of the test, with custom class `card`, renders the ten names of the test in its order |
| CardBuilder.ClassNamesSplitBack | src/components/cardbuilder/extracted.ts:94 | when no class name contains a space, splitting the attribute on spaces gives back the class names |
| StringJoin.Join | src/components/cardbuilder/extracted.ts:94 | the joined string starts with the first part, and a single part joins to itself |
| StringJoin.Split | src/components/cardbuilder/extracted.ts:94 | the inverse of the `join` at this line (the source never splits), used by `SplitJoin` and `ClassNamesSplitBack`: splitting gives at least one piece and no piece contains the separator |
| StringJoin.SplitJoin | src/components/cardbuilder/extracted.ts:94 | splitting a join gives back the parts when no part contains the separator |
| StringUtils.ToBoolean | src/utils/string.ts:7-13 | `"true"` gives true and `"false"` gives false, whatever the default. Every other value, absent included, gives the default |
| StringUtils.ToBooleanRoundTrip | src/utils/string.ts:7-13 | reading back `"true"`/`"false"` written from a boolean gives that boolean, whatever the default |
| StringUtils.DefaultMattersOnlyWhenUnrecognised | src/utils/string.ts:8-12 | the result depends on the default exactly when the value is neither `"true"` nor `"false"` |
| StringUtils.ToBooleanIsCaseSensitive | src/utils/string.ts:8 | `"True"`, `"FALSE"`, `" true"`, `""` and `"1"` all fall back to the default |
| StringUtils.OmittedDefaultIsFalse | src/utils/string.ts:7 | with the default omitted, anything but `"true"` reads as false |

## Left out

- `toFloat` (src/utils/string.ts:21-27) is not modelled. It relies on `isNaN` and `parseFloat`, that is, on JavaScript's floating-point parsing.
- `getLocationSearch` and `getParameterByName`: url.ts is not part of this model.
- `getSquareShape`, `getBackdropShape` and `getPortraitShape`: card.ts is not part of this model.
- The browser's `window.screen` global is not modelled. Its available width is a parameter of `IsResizable`, where `None` means no screen.
- CardBuilder.IsResizable: widths are unbounded integers. JavaScript doubles and fractional widths are not modelled, nor is a `NaN` or missing `availWidth`, either of which makes the comparison false.
- CardBuilder.ResolveMixedShapeByAspectRatio: ratios are exact reals and the thresholds are the exact rationals 133/100 and 71/100. The IEEE-754 rounding of `1.33` and `0.71` is not modelled. Nor is a `NaN` ratio, which JavaScript sends to `mixedPortrait`.
- CardBuilder.ResolveCardCssClassNames: the child count is an integer. A `NaN` child count, which is falsy in JavaScript, is not modelled. The in-place `push` onto the array is modelled as reassigning a sequence, so aliasing of the array is not captured (the source never shares it).
- CardBuilder.AllOptionsSet: the expected attribute is stated as the test's ten class names joined with single spaces, not as one string literal.
- Options whose runtime type differs from their declared TypeScript type (for example a number passed as `shape`) are outside the model.
