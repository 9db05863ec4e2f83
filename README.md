# md2html converter — a Dafny model

This project models `MarkdownConverter` and `convertMarkdownToHtml` from
`src/converter.ts` of the md2html package: the class that turns Markdown into
themed HTML plus reading statistics and a table-of-contents title list.

The converter is modelled in its own imperative shape:

- `Converter.MarkdownConverter` is a class with the source's four fields:
  `renderer` (a nullable `RendererHandle`), `output`, `readingTime` and
  `titleList`. Its methods assign those fields as the source does.
- `readingTime` is a `ReadingStats` object. `render` assigns its fields one by
  one, `reset` replaces it with a new zeroed object, and `getResult` hands out
  the object itself. The aliasing this causes is part of the model.
- The renderer handle is a class holding a `HandleConfig` record. Its `Reset`
  replaces the render options and its `SetOptions` replaces theme, fonts and
  size.
- `extractTitles` is a `for` loop over the selected headings. It stamps
  `id = i` on each one and appends `{url: "#i", title, level}`. It is proved
  against `Stamp` and `Titles`, which are defined element by element.

Everything outside the file is a parameter of type `Host`, given as function
values whose bodies are not modelled:
- the rendering engine and theme utilities of `@md/core` and `@md/shared`
  (`renderMarkdown`, `postProcessHtml`, `customizeTheme`,
  `customCssWithTemplate`, `css2json`, `themeMap.default`);
- JavaScript's `Number()`;
- the browser document. It is either `Undefined` or gives a parser from HTML
  to the element sequence in document order and a serialiser back.

The string built-ins the file uses are modelled in `JsString`:
`replace` with a string pattern (first occurrence only), `${i}` and
`slice(1)`. `HeadingDom` holds the element model, the heading selection
(`querySelectorAll('[data-heading]')`) and the id stamping.

Behaviour of the code that the model keeps as it is:
- `getResult` hands out the converter's live stats object, not a copy. A
  result taken earlier therefore shows the numbers of a later `render`, and
  keeps the old numbers after `reset`. `ConverterUsage.ResultSharesStats` and
  `ConverterUsage.ResetDetachesStats` show both.
- Titles are the element's text content as it is, without trimming.
- Every `init` creates a new handle, replacing any earlier one.
- `"# Title\n\nSome text."` has 19 characters, and
  `ConverterUsage.TitleExample` proves `chars == 19` for it.

## Model

| member | source | states |
|---|---|---|
| `JsString.IndexOf` | src/converter.ts:117 | the result is the first index where the pattern occurs, with no earlier occurrence; `None` exactly when it occurs nowhere |
| `JsString.ReplaceFirst` | src/converter.ts:117 | `replace` with a string pattern: without an occurrence the string is unchanged; otherwise only the first occurrence is replaced |
| `JsString.StripPx` | src/converter.ts:117 | `size.replace('px', '')` leaves a size without `px` unchanged and otherwise removes exactly two characters |
| `JsString.StripPxSuffix` | src/converter.ts:117 | a size with no other `px` loses exactly its one trailing `px` |
| `JsString.StripPxNoSuffix` | src/converter.ts:227 | a size without any `px` is passed through unchanged |
| `JsString.StripPxOnlyFirst` | src/converter.ts:227 | only the first `px` is removed: `"16pxpx"` becomes `"16px"` |
| `JsString.StripPxDefault` | src/converter.ts:109-117 | the default size `"16px"` is read as `"16"` |
| `JsString.NatToDecimal` | src/converter.ts:198-200 | `${i}` is a non-empty digit string with no leading zero unless `i` is 0 |
| `JsString.DecimalRoundTrip` | src/converter.ts:198-200 | reading the digits of `${i}` back gives `i` |
| `JsString.DecimalInjective` | src/converter.ts:198 | `${m}` equals `${n}` exactly when `m == n`, so counter ids never repeat |
| `JsString.SliceFrom` | src/converter.ts:202 | `slice(1)` is the suffix after the first character, or empty for an empty tag name |
| `HeadingDom.HeadingIndices` | src/converter.ts:193 | the selection holds exactly the `data-heading` elements, in strictly increasing document order |
| `HeadingDom.HeadingIndicesPrefix` | src/converter.ts:193 | the headings of a document prefix are a prefix of the selection |
| `HeadingDom.RankOfSelected` | src/converter.ts:196-204 | the k-th selected heading has exactly k headings before it, so the counter `i` equals its rank |
| `HeadingDom.StampedUpToStep` | src/converter.ts:197-198 | stamping the i-th heading with `${i}` extends the stamped prefix by one element and leaves the rest alone |
| `HeadingDom.TitlesPerHeading` | src/converter.ts:197-204 | each heading element has the entry at its rank: url `#rank`, its untrimmed text, and `Number` of its tag name after the first character |
| `HeadingDom.StampNumbersHeadings` | src/converter.ts:198 | the k-th heading gets the id `${k}` and nothing else about it changes |
| `HeadingDom.StampKeepsHeadings` | src/converter.ts:198 | stamping changes only ids: heading marks, text and tag names are kept, so the same headings are selected |
| `HeadingDom.SameMarksSameHeadings` | src/converter.ts:193 | the selection depends only on which elements carry `data-heading` |
| `HeadingDom.StampIdempotent` | src/converter.ts:191-206 | extracting again from the stamped fragment assigns the same ids |
| `HeadingDom.HeadingIdsDistinct` | src/converter.ts:198-200 | entry k's url is `#` plus its heading's new id, and no other heading shares that id |
| `HeadingDom.PreexistingIdKept` | src/converter.ts:196-198 | a non-heading element that already has `id="0"` keeps it, so it and the first heading both carry `0` |
| `HeadingDom.Stamp` | src/converter.ts:196-206 | the fragment after the loop: same length, non-headings untouched, headings changed only in their id, and every heading has an id |
| `HeadingDom.Titles` | src/converter.ts:196-205 | the list the loop builds: one entry per heading, entry k with url `#k` and the k-th heading's text |
| `Converter.ResolveThemeOptions` | src/converter.ts:105-110 | each theme option that is given is kept; an absent one becomes `""`, the default theme, the system font stack, `16px` or `#3f51b5` |
| `Converter.ResolveLayout` | src/converter.ts:111-114 | indent, justify and Mac code blocks are on only when given as `true`; line numbers are off only when given as `false` |
| `Converter.ResolveRenderOptions` | src/converter.ts:150-158 | `??` per field: given values, `false` included, are kept; missing ones become citeStatus off, legend `alt`, indent/justify/Mac off, count on, line numbers on |
| `Converter.ComposeTheme` | src/converter.ts:117-124 | empty `cssContent`: the default-or-given theme customised with `Number` of the stripped size and the colour; otherwise the parsed CSS merged with the colour over that customised theme |
| `Converter.InitialConfig` | src/converter.ts:105-134 | the handle `init` creates has the composed theme, the given-or-default fonts and raw size string, the resolved layout flags, and no render options yet |
| `Converter.ThemeUpdate` | src/converter.ts:219-240 | `updateTheme` gives the handle the composed theme and the given-or-default fonts and size, and keeps its layout and render options |
| `Converter.InitPart` | src/converter.ts:290-300 | `convertMarkdownToHtml` passes its nine init fields to `init` unchanged |
| `Converter.RenderPart` | src/converter.ts:303-311 | `convertMarkdownToHtml` passes its seven render fields to `render` unchanged, the four layout flags included |
| `Converter.Ceil` | src/converter.ts:169 | the result is the least integer not below the engine's estimate |
| `Converter.InitDefaults` | src/converter.ts:104-137 | `init({})` creates the handle from the customised default theme at font size `Number("16")` and colour `#3f51b5`, with the default fonts, size `16px`, line numbers on and the other flags off |
| `Converter.EmptyCssSkipsTemplate` | src/converter.ts:118-124 | with empty `cssContent` the theme does not depend on `css2json` or `customCssWithTemplate` |
| `Converter.CssMergedOverBase` | src/converter.ts:118-124 | non-empty `cssContent` is merged with the primary colour over exactly the theme empty CSS would give |
| `Converter.PxSuffixIrrelevant` | src/converter.ts:117-124 | a size with one trailing `px` composes the same theme as the bare number |
| `Converter.RenderDefaults` | src/converter.ts:150-161 | `render` without options resets the handle to the documented default record, whatever it held |
| `Converter.RenderConfigIndependent` | src/converter.ts:150-161 | each `render` replaces the render options whole, so earlier calls leave no trace |
| `Converter.UpdateAfterInit` | src/converter.ts:213-241 | `updateTheme(o)` after `init` gives what `init` with `o` would have given, but with the first `init`'s layout flags |
| `Converter.ConvertLayoutAgrees` | src/converter.ts:289-311 | `convertMarkdownToHtml` gives the handle and the render call the same four layout flags |
| `Converter.MinutesRoundUp` | src/converter.ts:169 | a positive minute estimate gives at least one minute; a zero estimate gives zero |
| `Converter.RendererHandle.constructor` | src/converter.ts:126-134 | a new handle holds exactly the configuration it is created with |
| `Converter.RendererHandle.Reset` | src/converter.ts:161 | `reset` replaces the render options and keeps theme, fonts, size and layout |
| `Converter.RendererHandle.SetOptions` | src/converter.ts:236-240 | `setOptions` replaces theme, fonts and size and keeps layout and render options |
| `Converter.ReadingStats.Zero` | src/converter.ts:90-94 | a new stats object is `{0, 0, 0}` |
| `Converter.MarkdownConverter.constructor` | src/converter.ts:84-97 | a new converter has no handle, empty output, an empty title list and zeroed stats |
| `Converter.MarkdownConverter.Init` | src/converter.ts:104-137 | returns the converter itself with a newly created non-null handle in `InitialConfig`; output, stats and title list are untouched |
| `Converter.MarkdownConverter.Render` | src/converter.ts:145-178 | without a handle: an error and no state change. Otherwise: the same handle reset with the resolved options; chars is `content.length`; words is the engine's count; minutes is the ceiling of its estimate; output and title list come from extraction on the post-processed HTML; the output is returned |
| `Converter.MarkdownConverter.ExtractTitles` | src/converter.ts:184-207 | without a document: output unchanged and an empty list. With one: output is the serialised stamped fragment and the list has one entry per heading in order |
| `Converter.MarkdownConverter.UpdateTheme` | src/converter.ts:213-241 | without a handle nothing changes. With one: only its theme, fonts and size are replaced; the converter's own fields and stats stay as they were |
| `Converter.MarkdownConverter.GetRenderer` | src/converter.ts:247-249 | returns the live handle, or null before `init` |
| `Converter.MarkdownConverter.Reset` | src/converter.ts:254-262 | output `""`, a new stats object `{0,0,0}`, an empty list; the handle is kept |
| `Converter.MarkdownConverter.GetResult` | src/converter.ts:268-274 | returns the current output, the stats object itself and the list, changing nothing |
| `Converter.ConvertMarkdownToHtml` | src/converter.ts:283-318 | the result is that of `init` with the init subset and `render` with the render subset on a new converter, with a new stats object |
| `ConverterUsage.RenderBeforeInit` | src/converter.ts:145-148 | `render` on a new converter fails and the result stays `{"", {0,0,0}, []}` |
| `ConverterUsage.UpdateThemeBeforeInit` | src/converter.ts:213-217 | `updateTheme` on a new converter creates no handle and changes no result |
| `ConverterUsage.ResetKeepsHandle` | src/converter.ts:254-262 | after `reset` the result is empty and zeroed, and `render` succeeds again without another `init` |
| `ConverterUsage.UpdateKeepsHandle` | src/converter.ts:213-241 | `updateTheme` reconfigures the handle `init` created, in place |
| `ConverterUsage.ResultSharesStats` | src/converter.ts:167-169 | a result taken before a second `render` shows the second render's character count |
| `ConverterUsage.ResetDetachesStats` | src/converter.ts:254-274 | after `reset`, a result taken earlier keeps the old stats object and its counts |
| `ConverterUsage.TitleExample` | src/converter.ts:167 | converting `"# Title\n\nSome text."` reports 19 characters |

## Left out

- Markdown parsing, post-processing, theme merging and `css2json` in `@md/core` and `@md/shared`. They are foreign code, so they are uninterpreted function values of `Host.engine`. The engine is assumed not to throw.
- How the handle uses its configuration internally. `reset` is modelled as replacing the render options and `setOptions` as replacing theme, fonts and size.
- `Number()` coercion, including `NaN` for a malformed size or tag name. It is the uninterpreted `Host.number`. Only the first-occurrence `px` removal before it is modelled.
- HTML parsing and serialisation (`innerHTML`, `querySelectorAll`). A fragment is an abstract sequence of elements in document order, with parse and serialise functions from `Host.document`. Setting an id is modelled as a value update of one element of that sequence.
- The floating-point minute estimate. It is a `real`, and `Math.ceil` is the exact ceiling.
- Text outside the Basic Multilingual Plane. `content.length` counts UTF-16 code units, while a Dafny `char` is a Unicode scalar value. So `readingTime.chars == |content|` in `Render` equals `content.length` only when every character of `content` lies in the Basic Multilingual Plane, and the model covers only such text.
- The title list as a shared array. `getResult` in the source hands out the converter's own `titleList` array, so a caller's `push` on it would change the converter. In the model the list is a value, so that aliasing is not captured. The converter itself always assigns a new array before pushing, so its own behaviour is the same.
- Side effects of `renderMarkdown` and `postProcessHtml` on the handle. They are assumed to leave it unchanged. `Render`'s promise that the handle ends in `RenderConfig(old config, options)` rests on this assumption.
- `ReplaceFirst`: the replacement string is inserted literally, without JavaScript's `$&`, `$$`, `` $` `` and `$'` expansion. The converter only replaces with `""`.
- Option fields set to `null`. JavaScript applies destructuring defaults only to `undefined`; the model has only present (`Some`) or absent (`None`) fields.
- `console.warn` in `updateTheme`. Only its "no state change" effect is modelled.
- `tsup.config.ts` (build configuration) and `src/index.ts` (re-exports) carry no behaviour.
