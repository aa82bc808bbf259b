# Dithered homepage: a Dafny model

This project models the logic of a small personal homepage made of three
scripts:

- `background.js`: an animated, ordered-dither (Bayer) background drawn by a fragment shader. Its JavaScript side is the `BayerDitherBackground` class. That class keeps a clock, a scroll-driven speed-up and eased scroll value, and a record of shader uniforms. Its event handlers and public setters update them. A per-page table, built from a palette and six page descriptors, chooses colours, shape and cell size for each page and theme.
- `generate.js`: a static HTML generator. It escapes text, renders the navigation bar and the content sections, and fills the page template with fallbacks.
- `script.js`: the light/dark theme toggle and the settings panel. The panel merges stored dither settings over defaults and pushes them into the background. It also keeps per-page colour overrides, including a migration of legacy keys, and marks the current navigation link with `aria-current`.

Shader arithmetic is modelled on `real` numbers (exact rationals), not on
floats. Colours in the uniforms and the page table are the hex strings
they are set from; the compositing step works on RGB triples of reals.
Local storage is modelled as map-valued fields. The window is modelled as
method parameters: its size, pixel ratio, scroll position, path, theme
attributes and `performance.now()`.

Modules, one per concern:

- `StringUtil`: optional values with JavaScript truthiness, `join`, `split`, `trim`.
- `Location`: the page key taken from the path.
- `Html`: `generate.js`.
- `Shader`: the fragment shader.
- `PageConfig`: the palette, the descriptors and `PAGE_CONFIG`.
- `Theme`: the theme rules and the theme state.
- `Background`: the `BayerDitherBackground` class.
- `Settings`: the settings panel.

Where the code's behaviour and its comments differ, the model follows the code:

- The shader computes a scroll-shifted `screenUV` (background.js:282-293) but never reads it, so `uParallaxScale` has no visible effect. The model keeps the uniform and its setter, and leaves `screenUV` out.
- The cross shape is selected for `2.5 <= shapeType < 3.5` (background.js:341). Its alpha boost applies only for `2.5 < shapeType < 3.5` (background.js:358). `Shader.ShapeAlpha` and `Shader.Fragment` keep both bounds as written.
- On `bayerbgready`, `initInputs` applies the defaults merged with the stored settings (script.js:295-297, 338). Through `applySettings` this sets the pattern seed, shape and cell size, so the page's own values from `PAGE_CONFIG` are replaced at load. They return only when a `themechange` re-runs `applyPageConfig`. `Settings.LoadReplacesPageLayout` states this; whether it is intended cannot be read from the code, so the model keeps it as written.
- The `aria-current` loop tests `!currentPage && href === 'index.html'` (script.js:446). The current page is never empty at that point, so that test never holds. `Settings.MarkCurrentLinks` keeps it, and its contract shows it has no effect.

## Model

| member | source | states |
|---|---|---|
| Location.LastSegment | background.js:153 | the result is the suffix after the last `/` and holds no `/` |
| Location.PageKey | background.js:152-156 | the key is never empty and holds no `/`; an empty path, or one ending in `/`, gives `index.html`; any other path gives its last segment (`currentPageFile` at script.js:161 and the `aria-current` pass use the same rule) |
| Html.ReplaceAll | generate.js:26 | a global replace leaves no occurrence of the replaced character when the replacement does not hold it, and any other character not in the replacement occurs in the result exactly when it occurs in the input |
| Html.Replacements | generate.js:26-29 | the four replacements leave no `<`, `>` or `"` |
| Html.EscapeHtml | generate.js:24-30 | the output has no `<`, `>` or `"`; it is at least as long as the input; a string without `&<>"` comes back unchanged; decoding the output gives back the input |
| Html.ReplacementsEscapeOnce | generate.js:24-30 | the chain of four replacements, `&` first, equals escaping each character once, so an introduced entity is never escaped again |
| Html.ReplacementsOfChar | generate.js:26-29 | on a single character the chain gives `&amp;`, `&lt;`, `&gt;`, `&quot;` or the character itself |
| Html.UnescapeEscapeEach | generate.js:24-30 | decoding the four entities recovers the original string |
| Html.EscapeHtmlInjective | generate.js:24-30 | two strings with the same escaped form are equal |
| Html.NavHtml | generate.js:18-22 | the block opens with the `<nav class="navigation" aria-label="Primary">` line and ends with the closing `</nav>` line |
| Html.NavLinkOneLine | generate.js:20 | a link line holds no line break when its path and label hold none |
| Html.NavHtmlLines | generate.js:18-22 | the navigation HTML splits at line breaks into the opening tag, one link line per entry in input order, and the closing tag |
| Html.NavMarksExactlyCurrent | generate.js:20 | link `i` carries `aria-current="page"` exactly when its path equals the current file |
| Html.SectionBlockFramed | generate.js:33-44 | a section block (`Html.SectionBlock`, one entry of the `sections.map`) opens with the section markup, the escaped heading and the text up to the paragraph, and ends with the closing section markup |
| Html.SectionHtml | generate.js:32-44 | an empty list of sections gives the empty string |
| Html.SectionBlockReadsBack | generate.js:33-43 | a section block is read back as its heading and its trimmed body, whatever follows it |
| Html.SectionHtmlFirst | generate.js:32-44 | the sections HTML starts with the first section's block |
| Html.SectionHtmlAppend | generate.js:43 | one more section adds a blank line and its block at the end, so sections stay in input order |
| Html.ResolveFields | generate.js:47-58 | hero is the escaped hero, else the escaped title, else empty; title and description are escaped or empty; charset and viewport are the site's own when given, else `UTF-8` and the standard viewport; none of hero, title or description holds markup; no sections gives `""` |
| Html.BuildPage | generate.js:46-80 | the page is the template with charset, viewport, escaped description, escaped title, navigation, hero heading and sections in their places, so the navigation, hero and sections follow one another in that order |
| Html.BuildPageHead | generate.js:54-58 | reading the head back gives the resolved charset and viewport, the escaped description and the escaped title (when the charset and viewport hold no quote) |
| Html.BuildPageTitle | generate.js:48-58 | the `<title>` text of the page is the escaped head title or empty, and the description attribute is the escaped description or empty |
| Html.BuildPageHero | generate.js:71 | the hero text sits inside the `<h1 class="website-title">` heading |
| Shader.Fract | background.js:256 | `fract` lies in [0, 1) and differs from its argument by a whole number, which fixes it as `x - floor(x)` |
| Shader.FractShift | background.js:256 | adding a whole number leaves `fract` unchanged |
| Shader.Step | background.js:334 | `step(edge, x)` is 0 or 1, and 1 exactly when `x >= edge` |
| Shader.Clamp01 | background.js:345 | `clamp` lies in [0, 1], fixes values already in it, and sends values below 0 to 0 and above 1 to 1 |
| Shader.Hermite | background.js:305 | the smoothstep polynomial maps [0, 1] into [0, 1], with 0 and 1 at the ends |
| Shader.SmoothStep | background.js:305 | `smoothstep` lies in [0, 1]; it is 0 on the near side of the first edge and 1 on the far side of the second, for either edge order |
| Shader.Bayer2 | background.js:256 | the value is the 2x2 Bayer digit of the cell's column and row parities, in quarters |
| Shader.Bayer2Quarters | background.js:256 | `Bayer2` is one of 0, 0.25, 0.5 and 0.75 |
| Shader.Bayer2Parity | background.js:256 | `fract(i/2 + j*j*0.75)` depends only on the parities of `i` and `j` |
| Shader.Bayer4 | background.js:257 | `Bayer4` is the cell's rank in the 4x4 Bayer order over 16, the finer level the more significant digit, so it lies in [0, 15/16] |
| Shader.Bayer8 | background.js:258 | `Bayer8` lies in [0, 63/64] |
| Shader.Bayer8Rank | background.js:256-258 | `Bayer8` is the cell's rank in the 8x8 Bayer order over 64 |
| Shader.Bayer8Bounds | background.js:256-258 | `Bayer8` lies in [0, 63/64] |
| Shader.Bayer8Periodic | background.js:256-258 | `Bayer8` repeats with period 8 in each axis |
| Shader.Bayer8Distinct | background.js:256-258 | the 64 cells of one 8x8 tile get 64 different thresholds |
| Shader.DitherCoverage | background.js:302-305 | `bw` lies in [0, 1]; a field value at most 1.23 gives 0 and one at least 3.4 gives 1 for every threshold |
| Shader.SquareMonotone | background.js:334 | comparing lengths is comparing squared lengths |
| Shader.ShapeMask | background.js:329-355 | the mask lies in [0, 1]. Circle, square, diamond and point are 0/1 tests with thresholds 0.42, 0.42, 0.60 and 0.18. The cross is the union of bars 0.17 wide and 0.55 long. Ids below 0.5 select the circle and ids from 4.5 up select the ring |
| Shader.ShapeMaskCentre | background.js:329-355 | every shape but the ring covers the cell centre; the ring does not |
| Shader.ShapeAlpha | background.js:356-360 | alpha lies in [0, 1]; outside the cross it is 0 exactly when coverage or mask is 0 and equals the coverage under a full mask; for the cross it is at least 0.05 and saturates at 1 |
| Shader.MixChannel | background.js:361 | `mix` gives the first value at 0 and the second at 1, and stays within [0, 1] for inputs in [0, 1] |
| Shader.Mix | background.js:361-362 | on colours, `mix` gives the first colour at 0 and the second at 1, and keeps colours in the unit cube |
| Shader.ToneMix | background.js:306-327 | `toneMix` lies in [0, 1]; the selected statistic at or below the low threshold gives 0 and at or above the high threshold gives 1 |
| Shader.Composite | background.js:361-364 | alpha 0 gives the background colour and output alpha 0; alpha 1 gives the boosted dot colour; the output alpha is the shape alpha times the opacity |
| Shader.Fragment | background.js:279-364 | for a non-negative opacity the output alpha lies in [0, opacity]; a low field value outside the cross shape leaves the pixel at the background colour, fully transparent |
| PageConfig.Palette | background.js:23-35 | a name gives a colour exactly when the palette holds it, and that colour is the palette's entry for it |
| PageConfig.MakeEntry | background.js:124-135 | a missing or empty `dot2` is derived from the dot colour; each light variant falls back to its dark colour, and `dot2Light` to the final `dot2`; the other fields are copied |
| PageConfig.BuildPageConfig | background.js:123-138 | the table's keys are exactly the descriptors' files |
| PageConfig.BuildPageConfigEntry | background.js:136 | each file maps to the entry of its last descriptor |
| PageConfig.BuildPageConfigDistinct | background.js:123-138 | with distinct files, every descriptor's file maps to its own entry |
| PageConfig.RawPagesWith | background.js:54-104 | the six descriptors; the second dot colour of page3 and about is the given palette lookup, every other descriptor has one; every cell size is 10 and every light background `#dedccb` |
| PageConfig.RawColoursArePalette | background.js:54-104 | the hex values in the descriptors are the palette entries they name |
| PageConfig.RawFilesDistinct | background.js:54-104 | no two descriptors name the same file |
| PageConfig.RawPagesEntries | background.js:54-138 | the site's table holds each descriptor's entry |
| PageConfig.BuildPageConfigDot2 | background.js:124-131 | if the derivation never gives the empty string, no entry has an empty second colour |
| PageConfig.BuildPageConfigCellSizes | background.js:123-138 | positive cell sizes in the descriptors stay positive in the table |
| PageConfig.RawPagesWithTable | background.js:54-138 | the site's table has an `index.html` entry and only positive cell sizes |
| PageConfig.VermillionDerived | background.js:85 | as written, page3.html and about.html get a derived second colour instead of vermilion |
| PageConfig.VermilionIntended | background.js:30 | with the palette's key, both pages get `#D55E00` |
| PageConfig.Lookup | background.js:380 | a known page gets its own entry, an unknown one the `index.html` entry |
| PageConfig.ShapeId | background.js:401-402 | the shape id lies in 0..5 |
| PageConfig.ShapeIdNames | background.js:401-402 | only the five names other than `circle` give a non-zero id, and the six names give six different ids |
| PageConfig.ShapeIdSelectsShape | background.js:401-402 | circle, square, diamond, cross, point and ring get ids 0 to 5 (as the uniform comment at background.js:207 lists), and the shader draws for each id the shape of that name (its thresholds at background.js:332-355); any other name is drawn as a circle |
| PageConfig.Resolve | background.js:381-405 | the dark theme uses the dark colours; the light theme uses each light variant if it is non-empty, else the dark one; an empty second colour is replaced by the HSL fallback; the shape is mapped by name |
| PageConfig.HslFallbackUnused | background.js:388-397 | for the site's table the second colour candidate is never empty, so the HSL fallback is never taken |
| Theme.CurrentTheme | script.js:44 | the body's theme if set, else the root element's, else `dark`; never empty |
| Theme.NextTheme | script.js:54 | the toggle gives `light` exactly from `dark`, and `dark` otherwise; from `dark` or `light` it always changes |
| Theme.InitialTheme | script.js:20-24 | a stored theme wins; without one the theme is `dark` exactly when the system prefers dark |
| Theme.ThemeColor | script.js:14 | `#dedccb` for the light theme, `#001d1d` otherwise |
| Theme.ToggleTwice | script.js:53-59 | two toggles from `dark` or `light` come back to it |
| Theme.ThemeState.constructor | script.js:20-25 | the start-up theme is the initial theme, on both attributes, the meta colour and the icon |
| Theme.ThemeState.ApplyTheme | script.js:9-16 | both attributes get the theme; the meta colour follows it when the meta element exists |
| Theme.ThemeState.OnSystemSchemeChange | script.js:26-31 | with a stored theme nothing changes; without one the theme follows the system |
| Theme.ThemeState.Toggle | script.js:53-59 | the theme becomes the next theme, is stored, and one `themechange` event carries it |
| Theme.ToggleThenSchemeChange | script.js:26-59 | after a toggle, a system scheme change leaves the toggled theme in place |
| Background.InitialUniforms | background.js:196-209 | the initial values of all fourteen uniforms (the resolution as two fields, width and height) |
| Background.WithAppearance | background.js:457-464 | colours are written only when non-empty, tone fields whenever given (0 included); all other uniforms are kept; an empty call changes nothing |
| Background.WithAppearanceIdempotent | background.js:457-464 | applying the same appearance twice equals applying it once |
| Background.WithCellSize | background.js:466 | a positive size is stored; any other size changes nothing |
| Background.WithParallaxScale | background.js:467 | the stored scale is `max(0, s)`, and only that uniform changes |
| Background.SpeedMultiplier | background.js:469 | the multiplier is `max(0.05, m)` |
| Background.ScrollFraction | background.js:422-423 | the target times the scrollable height is the scroll position when the page scrolls, else it is 0; a position within the page gives a value in [0, 1] |
| Background.BumpTimeScale | background.js:426 | one event adds 0.05 up to the cap of 3, and never lowers a time scale at or below 3 |
| Background.TimeScaleClosedForm | background.js:421-427 | after `n` scroll events the time scale is `min(ts + 0.05n, 3)`; from 1 it stays in [1, 3] |
| Background.TimeScaleMonotone | background.js:421-427 | the time scale never decreases over scroll events |
| Background.Ease | background.js:445 | the new value lies between the old value and the target, and the gap shrinks by the factor 0.92 |
| Background.EaseGap | background.js:445 | with a fixed target the gap after `n` frames is `0.92^n` times the first gap |
| Background.ConfigureUniforms | background.js:378-406 | colours and shape come from the resolved entry; seed and cell size are written only when the entry has them; all other uniforms are kept |
| Background.UnknownPageUsesIndex | background.js:380 | a page missing from the table is configured exactly as `index.html` |
| Background.SiteSecondColour | background.js:384-397 | on the site's table the second dot colour is always the entry's own, in the light theme its light variant |
| Background.BayerDitherBackground.constructor | background.js:157-176 | clock 0, time scale 1, speed 1, scroll 0; pixel ratio `min(dpr, 2)`; the uniforms are the initial ones configured for the page and theme |
| Background.BayerDitherBackground.ApplyPageConfig | background.js:378-406 | the uniforms become the configuration of the page's entry (or `index.html`'s) for the current theme, and the cell size stays positive |
| Background.BayerDitherBackground.OnScroll | background.js:421-427 | the scroll target becomes the scroll fraction, the time scale is bumped and never decreases, and the state stays valid |
| Background.BayerDitherBackground.Resize | background.js:430-436 | the pixel ratio becomes `min(dpr, 2)` and is remembered; the resolution is the window size times it |
| Background.BayerDitherBackground.Animate | background.js:438-447 | the clock advances by elapsed seconds times the time scale (no time on the first frame); the scroll value eases toward the target; `uTime` is the clock times the speed multiplier |
| Background.BayerDitherBackground.SetOpacity | background.js:452-454 | only the opacity uniform changes |
| Background.BayerDitherBackground.SetAppearance | background.js:457-464 | the uniforms become `WithAppearance` of the old ones |
| Background.BayerDitherBackground.SetPatternSeed | background.js:465 | only the seed uniform changes |
| Background.BayerDitherBackground.SetCellSize | background.js:466 | the cell size changes only for a positive size and so stays positive |
| Background.BayerDitherBackground.SetParallaxScale | background.js:467 | the parallax uniform becomes `max(0, s)` |
| Background.BayerDitherBackground.SetShapeType | background.js:468 | only the shape uniform changes |
| Background.BayerDitherBackground.SetAnimationSpeed | background.js:469 | the speed multiplier becomes `max(0.05, m)` |
| Background.FrameKeepsValid | background.js:438-447 | a frame keeps the state valid and, with a clock that does not run backwards, does not move the time back |
| Settings.SettingsAppearance | script.js:264-268 | the appearance passes the tone fields that are present and no colours |
| Settings.SettingsUniforms | script.js:259-268 | each setting reaches its uniform only when its key is present; the cell size only when positive, the parallax as `max(0, s)`; absent tone keys leave their uniforms as they were |
| Settings.DefaultsMatchInitial | script.js:286 | the defaults give the same seed, cell size, parallax, shape and tone uniforms as the background's initial uniforms |
| Settings.FullSettingsDecide | script.js:295-297 | settings holding every key decide those uniforms whatever they held before |
| Settings.LoadReplacesPageLayout | script.js:295-297 | once the background is ready (`bayerbgready`, script.js:338), the pattern seed, shape and cell size become the stored ones, else the defaults 0, 0 and 4, whatever the page's configuration set (a stored non-positive cell size keeps the old one) |
| Settings.MergeAbsorbs | script.js:297 | merging the overlay of defaults and stored settings over the stored settings gives the overlay |
| Settings.OverrideAppearance | script.js:168-173 | `bg`, `dotPrimary` and `dotSecondary` become background, dot and second dot colour when non-empty; the appearance is empty exactly when none of them is |
| Settings.Migrate | script.js:180-184 | an entry with no `bg` but a dark or light background gets `bg` from the dark one, else the light one, and loses both legacy keys; other keys and other entries are kept |
| Settings.MigrateOnce | script.js:180-184 | a migrated entry needs no further migration |
| Settings.MarkCurrentLinks | script.js:441-451 | a link is marked exactly when its `href` equals the current page key |
| Settings.PushSettings | script.js:259-268 | the setters for the present keys leave the uniforms at `SettingsUniforms` and the speed at `max(0.05, animSpeed)` when given |
| Settings.SettingsPanel.constructor | script.js:161 | the panel's page is the page key of the path |
| Settings.SettingsPanel.ApplySettings | script.js:253-270 | without a background nothing changes; otherwise the stored settings become the old ones overlaid by the partial ones, the uniforms and speed follow them, and the clock and scroll state are untouched |
| Settings.SettingsPanel.InitInputs | script.js:295-310 | the settings become the defaults overlaid by the stored ones, and are applied |
| Settings.SettingsPanel.Reset | script.js:332-336 | the stored settings become exactly the defaults and the speed returns to 1 |
| Settings.SettingsPanel.OnSettingInput | script.js:311-316 | one moved slider stores and applies that one key |
| Settings.SettingsPanel.ApplyPageColorOverrides | script.js:162-174 | with an entry for the page the uniforms take its mapped colours; with no entry nothing changes; the clock is untouched |
| Settings.SettingsPanel.InitColorInputs | script.js:175-184 | a legacy entry for the page is migrated and saved, anything else is left alone; afterwards no migration is pending |
| Settings.SettingsPanel.OnColorInput | script.js:323-330 | the key is stored in the page's entry (created if missing) and the page's override colours are applied, so a non-empty picked colour reaches its uniform |

## Left out

- Noise: `hash11`, `vnoise`, `fbmStable`, `noise` and `fbm` (background.js:232-277) rest on `sin`-based hashing and float rounding. The field value and the tone statistics enter `Shader.Fragment` as parameters.
- Colour-space maths: `deriveSecondary`, `relLum` and `contrast` (background.js:38-51, 107-120), and the HSL fallback of `applyPageConfig` (background.js:391-397). `deriveSecondary` and the fallback are function parameters; `relLum` and `contrast` only serve a debug log.
- `THREE.Color` parsing and `getHexString` normalisation: uniform colours are kept as the strings they are set from.
- Float rounding throughout: numbers are exact reals.
- Shader.ShapeMask: the ring's `smoothstep(0.44, 0.41, d)` has reversed edges, which section 8.3 of the OpenGL ES Shading Language 1.00 specification leaves undefined. The model uses the common polynomial `smoothstep` for both edge orders, and states the ring mask only away from its soft edges.
- Shader.SmoothStep: requires distinct edges, because GLSL leaves `smoothstep` with equal edges undefined.
- Shader.ToneMix: requires `toneLow != toneHigh` for the same reason. The panel's sliders can set them equal; the shader's result is then undefined.
- Shader.Fragment: requires `toneLow != toneHigh` as above, and a positive cell size, which the background keeps as an invariant. It takes the cell-offset length as a parameter whose square is the squared offset, in place of `sqrt`.
- Background.BayerDitherBackground.Animate: `performance.now()` is read twice, once to set a missing `lastTimestamp` and once for `now`. The model reads it once, so the first frame advances the clock by exactly 0.
- Background.BayerDitherBackground.constructor: the renderer, scene, camera, canvas styling, `requestAnimationFrame` scheduling and `destroy` (background.js:2-13, 158-165, 178-189, 370-372, 471-499) are rendering plumbing. They are not modelled.
- Settings.SettingsPanel.ApplySettings: setting values are numbers. The `Number(...)` conversion of input strings, and the badge texts of `updateValueBadges`, are not modelled.
- Settings.SettingsPanel.InitColorInputs: the values written into the colour pickers are DOM output and are not modelled; only the migration is.
- The order in which the two `themechange` listeners run (background.js:416-418, script.js:344) depends on script loading, so the model has no combined handler for them.
- `shapeMap[cfg.shape]` also finds inherited object keys such as `toString`. The page table uses only the six shape names, so `PageConfig.ShapeId` maps every other name to 0.
- `navHtml` inserts paths and link texts without escaping (generate.js:20). The model reproduces this and claims nothing about markup in them.
- UI preferences (high contrast, reduced motion), settings export, the panel's focus handling and dialog wiring, and the page animations of `script.js` are DOM behaviour, not bookkeeping. They are not modelled.
- `loadYaml`, file writing and `process.exit` in `generate.js` are I/O. They are not modelled.

## Findings

| source | as written | input that shows it | evidently intended | confidence | as-written member | corrected member |
|---|---|---|---|---|---|---|
| background.js:85 | page3.html and about.html take `dot2: PALETTE.vermillion` (also background.js:101), but the palette key is `vermilion` (background.js:30), so the value is undefined | the built table's entry for `page3.html`: its `dot2` is `deriveSecondary('#009E73')`, not `#D55E00` | `PALETTE.vermilion`, giving both pages `#D55E00` as second dot colour | high; not executed | PageConfig.VermillionDerived | PageConfig.VermilionIntended |
