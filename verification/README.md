# Rack & rail grid tables and the TWLayout generator, in Dafny

This project models the table logic behind a 12-column responsive grid with two
container kinds: the *rack*, a CSS Grid, and the *rail*, a horizontally scrolling
flexbox row of fixed-width columns.

- `demo.dfy` (module `Demo`) models the demo page script's constants and its
  classifier. It covers the four viewports `sm`/`md`/`lg`/`xl` with their pixel
  ranges, `getCurrentBreakpoint`, the rack span of every column class `.col-1` …
  `.col-12` per breakpoint, the fixed rail widths, and the centring placements.
  The tables are integer or structured tables indexed by column, and a column
  outside a table's keys yields `None`, as a JavaScript lookup yields `undefined`.
  Their strings (`"span 6"`, `"5 / span 3"`, `"16rem"`, `"100%"`) are rendered at the
  edge. Each rendering comes with a parser and a proved round trip.
- `twlayout.dfy` (module `TwLayout`) models the TWLayout plugin.
  - `generateCSSVariables` and `generateColumnClasses` are methods. Their loops
    follow the source's `forEach` over `Object.entries(table)`, and each is proved
    equal to a fold (`Assign`) over the table entries.
  - `generateBaseComponents` is a constant style object.
  - The plugin body is a method that appends what it hands to the framework to a
    sequence. The validation verdict is an input.
  - Style objects are maps from selector or property name to a `Value`: a string, a
    number, `undefined` or a nested object.
  - The imported grid configuration (`SYSTEM`, `VIEWPORTS`, `RACK_COLUMNS`,
    `RAIL_COLUMNS`, `OFFSETS`, `RAIL_GAPS`) is a `GridConfig` parameter whose contents
    are not fixed.
  - A breakpoint missing from one of its tables makes `Object.entries(undefined)`
    throw. The model has that as `None`. In the plugin body the throw ends the viewport
    loop, after the blocks already added, because the body's `try`/`catch` swallows it.
- `layout_refs.dfy` (module `LayoutRefs`) collects the custom properties that the
  styles refer to through `var(...)`. It proves that, for each breakpoint other than
  xs, every name the components and classes use is a key of that breakpoint's
  variables. At xs, `generateCSSVariables` returns an empty object. The xs block's
  `:root` is then empty, while its `.rail .col-{c}` and `.page-wrapper` classes still
  refer to `--tw-rail-col-{c}` and `--tw-layout-max-width`. The xs block's own `:root`
  does not define those names (`LayoutRefs.XsReferencesUndefined`); only another
  viewport's block whose media query also matches can.
- `numerals.dfy` (module `Numerals`) holds the decimal text of naturals, as the tables'
  string literals write the numbers inside them, and the parser that reads it back. `wrappers.dfy` holds `Option`.

The Jest tests in the repository mock the computed styles they then read back, so
they are only statements of intent. One of them expects md spans of 1, 2, 3, 4, 6 and
12 for columns 1, 2, 3, 4, 6 and 12 (tests/responsive-behavior.test.js:91-99). That
disagrees with the `md` row of the demo's rack table
(public/js/demo.js:39-42: 2, 3, 5, 7, 9, 10, then 12). The model follows the code's table.

## Model

| member | source | states |
|---|---|---|
| `Demo.CurrentBreakpoint` | public/js/demo.js:88-95 | the result is xl iff width ≥ 1280, lg iff 1024 ≤ width < 1280, md iff 768 ≤ width < 1024, and sm otherwise, including widths below 375 |
| `Demo.Viewports` | public/js/demo.js:10-31 | only xl is unbounded above (`Infinity`), and every bounded viewport's minWidth lies below its maxWidth |
| `Demo.ClassifierMonotone` | public/js/demo.js:91-94 | a wider window never gives an earlier breakpoint in sm < md < lg < xl |
| `Demo.ViewportsContiguous` | public/js/demo.js:10-31 | each viewport's maxWidth is the next viewport's minWidth minus one; xl has no upper bound |
| `Demo.ClassifierMatchesRanges` | public/js/demo.js:88-95 | from 375 px up, the chosen viewport's range contains the width; a width inside a viewport's range is classified as that viewport; below 375 px the answer is sm though sm's range excludes the width |
| `Demo.RackSpan` | public/js/demo.js:34-51 | a rack span exists exactly for columns 1..12 |
| `Demo.RackSpanBounds` | public/js/demo.js:34-51 | every span lies between the column number and 12 |
| `Demo.RackIdentityWide` | public/js/demo.js:43-50 | at lg and xl, column n spans exactly n |
| `Demo.RackSmall` | public/js/demo.js:35-38 | at sm, columns 1 and 2 span 6 and columns 3..12 span 12 |
| `Demo.RackMedium` | public/js/demo.js:39-42 | at md, spans never decrease as the column grows, and columns 7..12 span 12 |
| `Demo.RackShrinksWithBreakpoint` | public/js/demo.js:34-51 | moving to a larger breakpoint never widens a column (mobile first) |
| `Demo.RailWidths` | public/js/demo.js:54-57 | a rail width exists exactly for columns 1..12 |
| `Demo.RailWidthFormula` | public/js/demo.js:54-57 | column n in 1..11 is 16 + 4·(n−1) rem wide; column 12 is 100% |
| `Demo.RailWidthsIncreasing` | public/js/demo.js:54-57 | fixed rail widths strictly increase with the column number |
| `Demo.CenterPosition` | public/js/demo.js:60-72 | a centring placement exists exactly for blocks of 1..11 columns |
| `Demo.CenterFormula` | public/js/demo.js:60-72 | the placement of an n-column block starts at 6 − (n−1) div 2 and spans n |
| `Demo.CenterBalanced` | public/js/demo.js:60-72 | the block starts at column 1 or later and ends by column 12; the right margin equals the left margin for even n and exceeds it by one for odd n |
| `Demo.SpanTextRoundTrip` | public/js/demo.js:36-49 | the text `span n` parses back to n |
| `Demo.PlacementTextRoundTrip` | public/js/demo.js:61-71 | the text `s / span n` parses back to the placement |
| `Demo.RailWidthTextRoundTrip` | public/js/demo.js:55-56 | the texts `nrem` and `100%` parse back to the width |
| `Demo.TablesTextRoundTrip` | public/js/demo.js:34-72 | every string entry of the rack, rail and centring tables reads back as the integer table's entry |
| `Demo.SpanTextsWritten` | public/js/demo.js:34-51 | rendering spans 1..12 gives exactly the strings `span 1` … `span 12` written in the rack table |
| `Demo.RailWidthTextsWritten` | public/js/demo.js:54-57 | rendering the twelve rail widths gives exactly the strings `16rem` … `56rem` and `100%` written in the rail table |
| `Demo.NarrowPlacementTextsWritten` | public/js/demo.js:60-66 | rendering the placements of 1..6-column blocks gives exactly the strings `6 / span 1` … `4 / span 6` written in the centring table |
| `Demo.WidePlacementTextsWritten` | public/js/demo.js:67-71 | rendering the placements of 7..11-column blocks gives exactly the strings `3 / span 7` … `1 / span 11` written in the centring table |
| `TwLayout.AssignEach` | plugins/psp-layout/scripts/twlayout-plugin.js:46-57 | the `forEach` loop leaves the style equal to the fold that assigns each entry's prefixed key in table order |
| `TwLayout.AssignKeys` | plugins/psp-layout/scripts/twlayout-plugin.js:46-57 | the loop adds exactly the prefixed table keys to what was there |
| `TwLayout.AssignAt` | plugins/psp-layout/scripts/twlayout-plugin.js:46-57 | with distinct table keys, every entry's prefixed key holds that entry's value |
| `TwLayout.AssignKeeps` | plugins/psp-layout/scripts/twlayout-plugin.js:46-57 | a key outside the prefixed family keeps its presence and value |
| `TwLayout.CssVariables` | plugins/psp-layout/scripts/twlayout-plugin.js:27-60 | xs yields the empty map whatever the configuration; any other breakpoint yields its variables exactly when its rack, rail and offset tables all exist, and `None` (the throw of `Object.entries(undefined)`) otherwise |
| `TwLayout.GenerateCssVariables` | plugins/psp-layout/scripts/twlayout-plugin.js:27-60 | the method's result is the specified property map, or `None` where the source throws |
| `TwLayout.BaseVariablesSpec` | plugins/psp-layout/scripts/twlayout-plugin.js:33-43 | the six base properties: padding and gap from the system settings, max-width is the available space followed by `px`, the breakpoint property is the breakpoint's name, and the standard and slide rail gaps (`undefined` when the slide table lacks the breakpoint) |
| `TwLayout.VariableFamiliesApart` | plugins/psp-layout/scripts/twlayout-plugin.js:33-57 | the rack, rail and offset property families and the six base names never collide |
| `TwLayout.CssVariablesKeys` | plugins/psp-layout/scripts/twlayout-plugin.js:33-59 | for any breakpoint but xs, the property names are exactly the six base names plus `--tw-rack-col-{col}`, `--tw-rail-col-{col}` and `--tw-offset-{col}` for the entries of the three tables |
| `TwLayout.CssVariablesBase` | plugins/psp-layout/scripts/twlayout-plugin.js:33-59 | no table entry overwrites a base property |
| `TwLayout.CssVariablesEntries` | plugins/psp-layout/scripts/twlayout-plugin.js:46-57 | every rack, rail and offset entry is published under its prefixed name with the entry's own value |
| `TwLayout.GenerateColumnClasses` | plugins/psp-layout/scripts/twlayout-plugin.js:125-150 | the method's result is the specified class map, or `None` where the source throws |
| `TwLayout.ClassFamiliesApart` | plugins/psp-layout/scripts/twlayout-plugin.js:129-147 | `.col-{c}`, `.rail .col-{c}` and `.page-wrapper` cannot collide |
| `TwLayout.ColumnClasses` | plugins/psp-layout/scripts/twlayout-plugin.js:125-150 | the classes exist exactly when the breakpoint has both a rack and a rail table; otherwise `None`, where the source throws |
| `TwLayout.ColumnClassesKeys` | plugins/psp-layout/scripts/twlayout-plugin.js:126-149 | the class names are exactly `.col-{c}` per rack entry, `.rail .col-{c}` per rail entry, and `.page-wrapper` |
| `TwLayout.ColumnClassesSpec` | plugins/psp-layout/scripts/twlayout-plugin.js:129-147 | `.col-{c}`'s only property is gridColumn set to the rack span; `.rail .col-{c}` has exactly width, minWidth and flexShrink, width and minWidth both `var(--tw-rail-col-{c})`, flexShrink 0; `.page-wrapper` is capped at `var(--tw-layout-max-width)` |
| `TwLayout.RackRailKeys` | plugins/psp-layout/scripts/twlayout-plugin.js:129-142 | after the two loops and before `.page-wrapper` is set, the keys are exactly the `.col-{c}` and `.rail .col-{c}` families, and `.page-wrapper` is not among them |
| `TwLayout.RackClassAt` | plugins/psp-layout/scripts/twlayout-plugin.js:129-142 | the rail loop leaves each `.col-{c}` as the rack loop wrote it: gridColumn set to the entry's span |
| `TwLayout.RailClassAt` | plugins/psp-layout/scripts/twlayout-plugin.js:136-142 | each `.rail .col-{c}` holds its column's fixed-width rule with exactly width, minWidth and flexShrink |
| `TwLayout.BaseComponents` | plugins/psp-layout/scripts/twlayout-plugin.js:66-119 | the fixed components define `.rack`, `.rail` and `.page-wrapper` |
| `TwLayout.BaseComponentsGaps` | plugins/psp-layout/scripts/twlayout-plugin.js:86-109 | `.rail.slide-mode` and `.rail:has(.col-12)` both set the gap to the slide variable; the default `.rail` gap is the standard variable |
| `TwLayout.RackTemplateTwelve` | plugins/psp-layout/scripts/twlayout-plugin.js:77 | the rack template is `repeat` of 12 tracks, and its track count reads back as 12 |
| `TwLayout.BaseComponentsRack` | plugins/psp-layout/scripts/twlayout-plugin.js:75-79 | `.rack` is a grid whose template declares 12 tracks |
| `TwLayout.PaddingBase` | plugins/psp-layout/scripts/twlayout-plugin.js:187-192 | the padding base is one rule, `.rack, .rail`, with exactly paddingLeft and paddingRight, both `var(--tw-layout-padding)` |
| `TwLayout.RootIsNoClass` | plugins/psp-layout/scripts/twlayout-plugin.js:205-208 | no class name is `:root`, so spreading the classes beside `:root` loses nothing |
| `TwLayout.MediaBlock` | plugins/psp-layout/scripts/twlayout-plugin.js:195-213 | a viewport's block generates exactly when its rack and rail tables exist, plus its offset table for every breakpoint but xs, and it is always handed to `addBase` |
| `TwLayout.MediaRun` | plugins/psp-layout/scripts/twlayout-plugin.js:195-214 | the viewport loop adds at most one block per viewport, and exactly one per viewport when nothing throws |
| `TwLayout.MediaRunStops` | plugins/psp-layout/scripts/twlayout-plugin.js:195-214 | once a viewport throws, later viewports add nothing |
| `TwLayout.MediaRunSpec` | plugins/psp-layout/scripts/twlayout-plugin.js:195-214 | the loop adds the blocks of the longest run of leading viewports that generate without throwing, in viewport order, and stops at the first that throws |
| `TwLayout.MediaBlockSpec` | plugins/psp-layout/scripts/twlayout-plugin.js:196-213 | a viewport's block is one `@media (min-width: {minWidth})` rule holding `:root` with the breakpoint's variables and all of its column classes, and nothing else |
| `TwLayout.GenerateMediaBlock` | plugins/psp-layout/scripts/twlayout-plugin.js:195-213 | one iteration of the viewport loop yields the specified block, or `None` where generating the variables or the classes throws |
| `TwLayout.RunPlugin` | plugins/psp-layout/scripts/twlayout-plugin.js:171-214 | the plugin body's emissions are the specified sequence |
| `TwLayout.PluginEmissions` | plugins/psp-layout/scripts/twlayout-plugin.js:171-253 | a configuration that fails validation emits nothing; a valid one first emits the base components to `addComponents` and then the padding base to `addBase` |
| `TwLayout.PluginSpec` | plugins/psp-layout/scripts/twlayout-plugin.js:171-217 | a valid configuration whose viewports all generate emits the base components, the padding base, exactly one media block per viewport in viewport order, and then the utilities |
| `TwLayout.UtilitiesOnlyWhenComplete` | plugins/psp-layout/scripts/twlayout-plugin.js:171-253 | the utilities are emitted exactly when the configuration is valid and no viewport's block throws |
| `LayoutRefs.AssignRefs` | plugins/psp-layout/scripts/twlayout-plugin.js:46-57 | the `forEach` loop adds to a style no custom-property references beyond those of the entries it writes |
| `LayoutRefs.RailRuleRefs` | plugins/psp-layout/scripts/twlayout-plugin.js:136-142 | a `.rail .col-{c}` rule refers to `--tw-rail-col-{c}` and nothing else |
| `LayoutRefs.ColumnClassesRefs` | plugins/psp-layout/scripts/twlayout-plugin.js:125-150 | the column classes refer only to `--tw-layout-max-width`, to `--tw-rail-col-{c}` for the rail table's columns, and to whatever the rack span values themselves name |
| `LayoutRefs.BaseComponentsRefs` | plugins/psp-layout/scripts/twlayout-plugin.js:66-119 | the fixed components refer only to the padding, the gap and the two rail gaps |
| `LayoutRefs.PaddingBaseRefs` | plugins/psp-layout/scripts/twlayout-plugin.js:187-192 | the padding base refers only to `--tw-layout-padding` |
| `LayoutRefs.ReferencedVariablesDefined` | plugins/psp-layout/scripts/twlayout-plugin.js:27-150 | for every breakpoint but xs, every custom property the base components, the padding base and the column classes refer to is a key of that breakpoint's variables, unless a rack span value itself names it; padding, gap, max-width and the standard rail gap hold the configured values, and the slide gap holds the breakpoint's slide-gap entry, or `undefined` when the slide-gap table lacks the breakpoint |
| `LayoutRefs.XsReferencesUndefined` | plugins/psp-layout/scripts/twlayout-plugin.js:27-150 | at xs the variables are empty, yet the column classes refer to `--tw-layout-max-width` and to `--tw-rail-col-{c}` for every rail column |

## Left out

- The demo page's DOM code is not modelled. That is `updateBreakpointIndicator`, the
  `update*Info` functions, `setupContainerToggle`, `getDebugModeClass`, the event
  listeners and `debugGridSystem` (public/js/demo.js:75-86, 97-254, 257-277). It reads
  and writes the browser's document and computed styles.
- `formatMeasurement`, `remToPx` and the width percentages use floating point
  (`parseFloat`, `toFixed`, `Math.round`) and are not modelled.
- `getCurrentBreakpoint` reads `window.innerWidth`. That width is an integer parameter here.
- The viewport descriptions are carried in the table but not used by any modelled operation.
- `handleErrors` and all console logging are not modelled. Both are output only.
- The `plugin`, `addBase`, `addComponents` and `addUtilities` calls of the CSS
  framework are not modelled. The model records what is handed to them as a sequence
  of `Emission` values.
- The constant utility classes (twlayout-plugin.js:217-246) are one opaque `Utilities`
  emission; their literal contents are not modelled.
- The grid configuration module and `validateGridConfig` are not part of this model.
  Their tables are a `GridConfig` parameter and their verdict a boolean.
  - The `minWidth` and `availableSpace` of its viewports are taken as the text the
    template literals at twlayout-plugin.js:37 and :196 render for them. Their type is
    not shown. The media query is built exactly as written, `@media (min-width: ` then
    that text then `)`, so a value without a unit gives a query without a unit.
  - Its table values are arbitrary `Value`s.
- Object key order is not modelled. JavaScript objects keep insertion order and list
  integer-like keys first; the model's style objects are maps. The order in which the
  plugin emits blocks is modelled.
- `CssVariablesEntries`, `AssignAt` and `ColumnClassesSpec` take distinct table keys
  as a precondition. Every JavaScript object has distinct keys, so the entries of any
  real table meet it.
- `LayoutRefs.ReferencedVariablesDefined`: a rack span value is copied into
  `gridColumn` as it is. If such a value is itself a `var(...)` text, the name it refers
  to is not required to be defined, because the configuration's table values are arbitrary.
- `LayoutRefs.ReferencedVariablesDefined` proves that each referenced name is a key of
  the variables, not that its value is defined. `--tw-rail-gap-slide` is a key whose
  value is `undefined` for a breakpoint missing from `RAIL_GAPS.SLIDE_MODE`
  (twlayout-plugin.js:42), and `.rail.slide-mode` and `.rail:has(.col-12)` still refer
  to it. The lemma states this value.
- The page-serving shim, the Jest test setup and the build configuration are not modelled.
