# Scrollbar designer core, in Dafny

This project models the logic behind a web app for designing custom
scrollbars. The model covers:

- the scrollbar configuration and its shallow merge;
- `applyScrollbarStyles`, the routine that writes the configuration into the live document;
- the three code exports: CSS, SCSS and a JavaScript snippet;
- the randomizer and the `hexToRgba` colour helper;
- saving to and loading from local storage;
- the `useScrollbarConfig` hook, which keeps the configuration, the document and the storage in step;
- the preset catalogue and the test that marks a preset as current.

Modules:

- `Config` (`config.dfy`): the configuration record and its visibility, theme and partial update.
- `Text` (`text.dfy`): decimal rendering of numbers. It also splits text into lines, and proves that a template joined line by line reads back line by line.
- `Codec` (`codec.dfy`): the text form of a configuration. It has a proved round trip, so serialising is injective.
- `ScrollbarRules` (`scrollbar_rules.dfy`): the shared `::-webkit-scrollbar` rule block, written from seven shown values.
- `StyleApplier` (`style_applier.dfy`): `applyScrollbarStyles`. It has a `Document` class (root custom properties, head style elements, body overflow) and the pure function `Applied` that specifies it.
- `CssExport` (`css_export.dfy`): `generateScrollbarCSS`.
- `CodeExport` (`code_export.dfy`): the SCSS and JS templates, `getCurrentCode`, `getFileExtension` and the download file name.
- `Randomizer` (`randomizer.dfy`): `randomizeConfig`, with the calls to `Math.random` made explicit inputs.
- `HexColor` (`hex_color.dfy`): `hexToRgba`.
- `Storage` (`storage.dfy`): `saveConfigToStorage` and `loadConfigFromStorage`, over a `BrowserStorage` class that can be unavailable or full.
- `Presets` (`presets.dfy`): the ten presets and `isCurrentPreset`.
- `ConfigState` (`config_state.dfy`): the hook, as the class `ScrollbarConfigState`.

The generated texts are modelled character for character, as sequences of lines joined by newlines, except the configuration object embedded in the JS export, which is `Codec.Encode`'s text in place of `JSON.stringify` (see "## Left out"). Sizes are natural numbers rendered in decimal.

## Model

| member | source | states |
|---|---|---|
| Config.VisibilityName | src/types/index.ts:9 | a visibility is written as one of `auto`, `visible`, `hidden` |
| Config.VisibilityNameInjective | src/types/index.ts:9 | two visibilities have the same name exactly when they are the same |
| Config.ConfigExtensionality | src/types/index.ts:1-11 | configurations that agree on every one of the nine fields are equal |
| Config.Merge | src/hooks/useScrollbarConfig.ts:51-53 | `{...prev, ...update}`: each field given in the update takes its value, and every other field keeps the previous one |
| Config.MergeEmpty | src/hooks/useScrollbarConfig.ts:51-53 | merging an empty update leaves the configuration unchanged |
| Config.MergeIdempotent | src/hooks/useScrollbarConfig.ts:51-53 | merging the same update twice gives what merging it once gives |
| Config.Toggled | src/hooks/useScrollbarConfig.ts:59-61 | toggling always changes the theme |
| Config.ToggleTwice | src/hooks/useScrollbarConfig.ts:59-61 | toggling twice gives back the original theme |
| Text.NatToStringRoundTrip | src/utils/scrollbar.ts:75 | a size written in decimal reads back as the same number |
| Text.NatToStringInjective | src/utils/scrollbar.ts:75 | different sizes are written as different texts |
| Codec.DecodeEncode | src/utils/scrollbar.ts:134-150 | parsing the serialised text of a configuration gives that configuration back |
| Codec.EncodeInjective | src/components/Presets.tsx:13-15 | two configurations serialise to the same text exactly when they are equal |
| ScrollbarRules.Px | src/utils/scrollbar.ts:75 | a `${n}px` size is at least three characters long and ends in `px` |
| ScrollbarRules.PxInjective | src/utils/scrollbar.ts:75-76 | different sizes give different `px` texts |
| ScrollbarRules.PxZero | src/utils/scrollbar.ts:13 | a size's `px` text is `0px` exactly when the size is 0 |
| ScrollbarRules.Stored | src/utils/scrollbar.ts:71-98 | the values shown without collapse: the stored colours as they are, and width, height and both radii as `Px` of the stored sizes |
| ScrollbarRules.StoredInjective | src/utils/scrollbar.ts:71-98 | the stored values are equal exactly when the configurations agree on all fields except visibility and `customCSS` |
| ScrollbarRules.RuleLines | src/utils/scrollbar.ts:74-92 | the rule block is nineteen lines |
| ScrollbarRules.RuleLinesInjective | src/utils/scrollbar.ts:74-92 | two rule blocks are equal exactly when the values they show are equal |
| StyleApplier.Effective | src/utils/scrollbar.ts:13-19 | custom-property values: when hidden, every size is `0px` and every colour is `transparent`; otherwise the stored values |
| StyleApplier.CustomProperties | src/utils/scrollbar.ts:13-20 | the eight custom properties are exactly the names set. When hidden, the sizes and radii are `0px` and the three colours are `transparent`. Otherwise each holds its stored value, with `px` on sizes. `--scrollbar-visibility` is the raw visibility in both cases |
| StyleApplier.Injected | src/utils/scrollbar.ts:25-47 | injected-rule values: when hidden, only width, height, thumb background and track background collapse; radii and the hover colour keep their stored values |
| StyleApplier.InjectedLines | src/utils/scrollbar.ts:25-47 | the injected style text as its twenty-three lines: a blank line, the WebKit comment, the four rules written with the injected values and ` !important`, and the closing indentation |
| StyleApplier.InjectedCss | src/utils/scrollbar.ts:25-47 | the injected text is `InjectedLines` joined by newlines; InjectedCssShowsInjected and InjectedRuleUnderHidden state what it holds |
| StyleApplier.InjectedAgreesWithEffective | src/utils/scrollbar.ts:13-47 | the injected rule and the custom properties agree exactly when the scrollbar is not hidden, or when it is hidden with square corners and a `transparent` hover colour |
| StyleApplier.InjectedRuleUnderHidden | src/utils/scrollbar.ts:25-45 | under `hidden`, the injected CSS contains width and height 0px and a transparent background, each `!important`; it still holds both stored radii and the stored hover background |
| StyleApplier.InjectedCssShowsInjected | src/utils/scrollbar.ts:25-47 | two injected style texts are equal exactly when the injected values are equal for colours without a line break |
| StyleApplier.Applied | src/utils/scrollbar.ts:3-69 | the document after `apply`: the root keeps its other properties and gains the eight names. The overflow is `scroll` for `visible` and `auto` for `auto`, and stays unchanged for `hidden` |
| StyleApplier.AppliedLeavesOneDynamicStyle | src/utils/scrollbar.ts:6-50 | given at most one `dynamic-scrollbar-styles` element before, exactly one remains after. It is the last element and holds the CSS for the configuration. The other elements keep their order |
| StyleApplier.AppliedIdempotent | src/utils/scrollbar.ts:3-69 | applying the same configuration twice gives the same document as applying it once |
| StyleApplier.AppliedCustomProperties | src/utils/scrollbar.ts:13-20 | after `apply`, each of the eight properties holds the configuration's value, whatever was there before |
| StyleApplier.Document.GetElementById | src/utils/scrollbar.ts:6 | finds the first style element with the id, or reports that none has it |
| StyleApplier.Document.SetProperty | src/utils/scrollbar.ts:13 | sets one root custom property and leaves the others |
| StyleApplier.Document.RemoveElementById | src/utils/scrollbar.ts:6-10 | removes the first element with the id, and only that one, if there is one |
| StyleApplier.Document.WriteCustomProperties | src/utils/scrollbar.ts:12-20 | the eight `setProperty` calls leave the root holding the old properties overridden by the eight values |
| StyleApplier.Document.Apply | src/utils/scrollbar.ts:3-69 | the step-by-step `apply` leaves the document in the state `Applied` describes |
| CssExport.IeOverflowStyle | src/utils/scrollbar.ts:97 | `-ms-overflow-style` is `none` exactly when the scrollbar is hidden, and `scrollbar` otherwise |
| CssExport.CssLines | src/utils/scrollbar.ts:73-98 | the exported CSS is twenty-six lines |
| CssExport.GenerateCss | src/utils/scrollbar.ts:71-98 | `generateScrollbarCSS` is `CssLines` joined by newlines; GenerateCssShowsSizes, GenerateCssShowsColors, CssIeLine and GenerateCssInjective state what the text holds |
| CssExport.CssIeLine | src/utils/scrollbar.ts:95-98 | line 25 of the CSS is the `-ms-overflow-style` declaration for the visibility for colours without a line break |
| CssExport.GenerateCssInjective | src/utils/scrollbar.ts:71-98 | two CSS exports are equal exactly when the stored values are equal and both configurations are hidden or both are not. So the export uses no hidden collapse and ignores `customCSS` for colours without a line break |
| CssExport.GenerateCssShowsSizes | src/utils/scrollbar.ts:74-87 | the CSS contains `width: <w>px;`, `height: <h>px;` and both `border-radius` declarations with the stored values |
| CssExport.GenerateCssShowsColors | src/utils/scrollbar.ts:79-92 | the CSS contains `background: <c>;` for the stored track, thumb and hover colours |
| CssExport.GenerateCssOfDefault | src/utils/scrollbar.ts:73-92 | any configuration with the default's thumb colour and width, the default included, exports CSS containing `background: #94a3b8;` and `width: 8px;` |
| CssExport.DefaultConfigOnOneLine | src/hooks/useScrollbarConfig.ts:5-14 | the default configuration's colours carry no line break, so every lemma about the texts applies to it |
| Randomizer.RandomIndex | src/utils/scrollbar.ts:108 | `Math.floor(r * n)` for a draw in [0, 1) is an index below `n` |
| Randomizer.RandomColor | src/utils/scrollbar.ts:108 | `getRandomColor` gives a palette colour |
| Randomizer.RandomSize | src/utils/scrollbar.ts:109 | `getRandomSize(min, max)` lies in [min, max] |
| Randomizer.Randomize | src/utils/scrollbar.ts:111-120 | thumb and hover are palette colours, and the track is `transparent` or a palette colour followed by `20`. Width and height lie in [6, 20] and radii in [0, 10]. Visibility is never `visible`, and there is no `customCSS` |
| Randomizer.RandomizeIsRandomShape | src/utils/scrollbar.ts:111-120 | every result has the random shape (the ranges above) |
| Randomizer.RandomizeTransparentTrack | src/utils/scrollbar.ts:112-119 | with the coin above 0.5 the track is `transparent` and no palette draw is spent on it |
| Randomizer.RandomizePaletteTrack | src/utils/scrollbar.ts:112-119 | with the coin at most 0.5 the track is the next draw's palette colour followed by `20` |
| Randomizer.RandomizeReachesEveryShape | src/utils/scrollbar.ts:101-120 | every configuration of the random shape comes from some valid draws, so the shape is exactly the set of outcomes |
| Randomizer.RandomShapeOnOneLine | src/utils/scrollbar.ts:101-120 | every configuration of the random shape has colours without a line break, so the text lemmas apply to every randomized configuration |
| HexColor.ParseChannel | src/utils/scrollbar.ts:127-129 | `parseInt(pair, 16)` of two hex digits is at most 255 |
| HexColor.HexDigitsOf | src/utils/scrollbar.ts:124 | a match is six hex digits, the capture of `([a-f\d]{2}){3}`; HexDigitsOfMatches says exactly which inputs match |
| HexColor.HexDigitsOfMatches | src/utils/scrollbar.ts:124 | the pattern matches exactly when the input is six hex digits, with or without one leading `#`, and the capture is the input's last six characters |
| HexColor.HashOptional | src/utils/scrollbar.ts:124 | six hex digits match without a `#`, and parse to the same channels as with one |
| HexColor.ParseHex | src/utils/scrollbar.ts:124-129 | channels exist exactly when the pattern matches, and each is at most 255 |
| HexColor.HexToRgba | src/utils/scrollbar.ts:123-132 | a non-matching input comes back unchanged; a matching one becomes `rgba(r, g, b, alpha)` |
| HexColor.HexToRgbaUnchangedIff | src/utils/scrollbar.ts:124-125 | the output equals the input exactly when the input does not match |
| HexColor.ShortHexUnchanged | src/utils/scrollbar.ts:124-125 | `#fff` is returned as it is |
| HexColor.ParseHexIgnoresCase | src/utils/scrollbar.ts:124 | lower-casing the input changes neither whether it matches nor its channels |
| HexColor.HexToRgbaIgnoresCase | src/utils/scrollbar.ts:123-132 | upper- and lower-case spellings of a colour convert to the same text |
| HexColor.ParseToHex | src/utils/scrollbar.ts:124-129 | parsing `#rrggbb` written from three channels gives those channels back |
| HexColor.HexToRgbaOfToHex | src/utils/scrollbar.ts:123-132 | every `rgba(r, g, b, alpha)` with channels up to 255 is the conversion of a hex colour |
| Storage.Loaded | src/utils/scrollbar.ts:142-150 | loading gives nothing exactly when storage is unavailable, the key is missing, the text is empty, or the text does not parse |
| Storage.LoadedStored | src/utils/scrollbar.ts:134-150 | after the configuration's text is stored under `scrollbar-config`, loading gives the configuration |
| Storage.LoadedUnparsable | src/utils/scrollbar.ts:145 | a stored text that does not parse loads as nothing |
| Storage.BrowserStorage.SetItem | src/utils/scrollbar.ts:136 | the write succeeds exactly when storage is available and not full, and changes only that key |
| Storage.BrowserStorage.GetItem | src/utils/scrollbar.ts:144 | reads the key's text, or nothing for a missing key; fails only when storage is unavailable |
| Storage.BrowserStorage.SaveConfig | src/utils/scrollbar.ts:134-140 | a failed write leaves storage unchanged and is swallowed; after a successful one, loading gives the configuration |
| Storage.BrowserStorage.LoadConfig | src/utils/scrollbar.ts:142-150 | returns what `Loaded` describes for the current storage |
| CodeExport.ScssVariableLines | src/components/CodeExport.tsx:18-24 | the seven `$scrollbar-...` variables in fixed order, each bound to its stored value |
| CodeExport.ScssLines | src/components/CodeExport.tsx:17-45 | the SCSS export is twenty-nine lines |
| CodeExport.ScssCode | src/components/CodeExport.tsx:17-45 | the SCSS export is `ScssLines` joined by newlines; ScssDeclaresVariables and ScssCodeInjective state what the text holds |
| CodeExport.ScssDeclaresVariables | src/components/CodeExport.tsx:17-24 | lines 2 to 8 of the SCSS text are the seven variables, with the stored values and `px` on sizes and radii for colours without a line break |
| CodeExport.ScssCodeInjective | src/components/CodeExport.tsx:17-45 | two SCSS exports are equal exactly when the stored values are equal, so visibility and `customCSS` play no part for colours without a line break |
| CodeExport.ConfigOfJsCode | src/components/CodeExport.tsx:47-48 | the configuration object embedded in the JS snippet reads back as the configuration |
| CodeExport.JsCode | src/components/CodeExport.tsx:47-69 | the JS export is the fixed header, the configuration's text and the fixed trailer rendered from the snippet's `setProperty` calls; ConfigOfJsCode and JsCodeInjective state what it carries |
| CodeExport.JsCodeInjective | src/components/CodeExport.tsx:47-69 | two JS snippets are equal exactly when the configurations are equal |
| CodeExport.SnippetShown | src/components/CodeExport.tsx:54-65 | the snippet's hidden branch sets only width and height to `0px`; every other value is the stored one |
| CodeExport.SnippetProperties | src/components/CodeExport.tsx:54-65 | the snippet sets seven properties, all of `apply`'s except `--scrollbar-visibility` |
| CodeExport.RunSnippet | src/components/CodeExport.tsx:50-65 | the root properties the snippet's function sets when run: the seven unconditional calls in order, then the two `0px` overrides when hidden; RunSnippetSetsSnippetProperties gives the result exactly |
| CodeExport.RunSnippetSetsSnippetProperties | src/components/CodeExport.tsx:50-65 | the snippet's function, run line by line on a configuration, sets exactly `SnippetProperties`: the seven unconditional calls and, when hidden, the two `0px` overrides |
| CodeExport.SnippetAgreesWithApply | src/components/CodeExport.tsx:54-65 | the snippet and `apply` set the same values exactly when the scrollbar is not hidden, or when it is hidden with transparent colours and square corners |
| CodeExport.SnippetKeepsHiddenColors | src/components/CodeExport.tsx:54-65 | when hidden, the snippet keeps the stored thumb colour and radius where `apply` writes `transparent` and `0px`; both write width `0px` |
| CodeExport.CurrentCode | src/components/CodeExport.tsx:71-80 | `css` gives `generateScrollbarCSS(config)`, `scss` gives the SCSS template, and `js` gives the JS template |
| CodeExport.FileExtension | src/components/CodeExport.tsx:82-91 | css downloads as `.css`, scss as `.scss` and js as `.js`, each exactly for its own format, so the extension always starts with a dot |
| CodeExport.FileExtensionInjective | src/components/CodeExport.tsx:82-91 | different formats have different extensions |
| CodeExport.DownloadName | src/components/CodeExport.tsx:106 | the download name is `scrollbar-styles` followed by the format's extension |
| CodeExport.DownloadNameInjective | src/components/CodeExport.tsx:106 | different formats download under different names |
| Presets.CatalogueSize | src/utils/presets.ts:3-164 | there are exactly ten presets |
| Presets.NamesDistinct | src/utils/presets.ts:3-164 | no two presets share a name |
| Presets.DefaultPresetIsDefault | src/utils/presets.ts:4-19 | the `Default` preset's configuration is the hook's default configuration |
| Presets.PresetFieldConstraints | src/utils/presets.ts:3-164 | no preset has `customCSS`. In each one width equals height and the two radii are equal. Sizes are at most 30 and radii at most 15 |
| Presets.OnlyInvisibleHides | src/utils/presets.ts:148-163 | `Invisible` is hidden, with zero sizes and radii. Every other preset is `auto`, 8 pixels wide and high |
| Presets.ConfigsDistinct | src/utils/presets.ts:3-164 | no two presets have the same configuration |
| Presets.PresetsOnOneLine | src/utils/presets.ts:3-164 | no preset's colours carry a line break, so the text lemmas apply to every preset |
| Presets.IsCurrentPreset | src/components/Presets.tsx:13-15 | a preset is current exactly when its configuration equals the current one, although the test compares serialised texts |
| Presets.IsCurrentPresetIff | src/components/Presets.tsx:13-15 | a preset is current exactly when its configuration equals the current one field by field |
| Presets.ChangedFieldNotCurrent | src/components/Presets.tsx:13-15 | changing any one field of the configuration makes a current preset stop being current |
| Presets.AtMostOneCurrent | src/components/Presets.tsx:13-15 | at most one preset is current at a time |
| Presets.CustomCssMatchesNoPreset | src/components/Presets.tsx:13-15 | a configuration with custom CSS matches no preset |
| ConfigState.AppliedShows | src/utils/scrollbar.ts:3-69 | after `apply(c)` the document shows `c`. That means one dynamic style element, the last, holding `c`'s rules, plus `c`'s custom properties and `c`'s overflow |
| ConfigState.MountAsWritten | src/hooks/useScrollbarConfig.ts:21-49 | the mount sequence as written: load-and-apply, the save effect for the first render, its re-run after a load, then the timer applying the closure's default; MountAsWrittenShowsDefault and StaleTimerLosesSaved state its outcome |
| ConfigState.MountAsWrittenShowsDefault | src/hooks/useScrollbarConfig.ts:42-49 | as written, the mount sequence always ends with the document showing the default configuration, whatever was loaded |
| ConfigState.StaleTimerLosesSaved | src/hooks/useScrollbarConfig.ts:42-49 | a saved, visible configuration with a thumb colour other than the default's is not what the document shows after mount |
| ConfigState.StaleTimerCounterexample | src/hooks/useScrollbarConfig.ts:42-49 | with the `Dark Mode` configuration saved, the document's thumb colour after mount is `#94a3b8`, not `#374151` |
| ConfigState.MountIntended | src/hooks/useScrollbarConfig.ts:21-49 | the same sequence with the timer applying the current configuration; MountIntendedShowsLoaded states its outcome |
| ConfigState.MountIntendedShowsLoaded | src/hooks/useScrollbarConfig.ts:21-49 | corrected, the mount sequence ends with the document showing the loaded configuration, or the default when none loads |
| ConfigState.MountAgreesWithoutSaved | src/hooks/useScrollbarConfig.ts:21-49 | with nothing saved, the two sequences give the same document |
| ConfigState.ScrollbarConfigState.constructor | src/hooks/useScrollbarConfig.ts:17-49 | mounting takes the loaded configuration or the default, and the theme from the system preference. The document is left as the corrected sequence leaves it, and the hook starts in step with document and storage; the storage gets the configuration's text under `scrollbar-config` when writable, and every other item and an unwritable storage are left as they were |
| ConfigState.ScrollbarConfigState.Mount | src/hooks/useScrollbarConfig.ts:21-49 | the mount effects settle on the loaded configuration or the default; the document is left as the corrected sequence leaves it; the storage gets the configuration's text under `scrollbar-config` when writable, and every other item and an unwritable storage are left as they were |
| ConfigState.ScrollbarConfigState.RunMountEffects | src/hooks/useScrollbarConfig.ts:21-49 | load, apply and save in effect order. The result is the loaded configuration or the default, the document shows it, and the storage gets the configuration's text under `scrollbar-config` when writable, and every other item and an unwritable storage are left as they were |
| ConfigState.ScrollbarConfigState.ConfigEffect | src/hooks/useScrollbarConfig.ts:36-39 | the `[config]` effect: the document becomes `Applied` of the old one and the configuration; the storage gets the configuration's text under `scrollbar-config` when writable, and every other item and an unwritable storage are left as they were, so loading gives the configuration back |
| ConfigState.ScrollbarConfigState.SetConfig | src/hooks/useScrollbarConfig.ts:36-39 | a new configuration is applied to the document and saved, and the theme is unchanged. Document and storage stay in step |
| ConfigState.ScrollbarConfigState.UpdateConfig | src/hooks/useScrollbarConfig.ts:51-53 | the configuration becomes the merge: fields given take the new value and the others keep theirs. The document becomes `Applied` of the old one and the merge; the storage gets the configuration's text under `scrollbar-config` when writable, and every other item and an unwritable storage are left as they were |
| ConfigState.ScrollbarConfigState.ResetConfig | src/hooks/useScrollbarConfig.ts:55-57 | the configuration becomes exactly the default, whatever it was. The document becomes `Applied` of the old one and the default; the storage gets the configuration's text under `scrollbar-config` when writable, and every other item and an unwritable storage are left as they were |
| ConfigState.ScrollbarConfigState.SelectPreset | src/components/Presets.tsx:43 | choosing a preset makes it the current preset and no other preset current. The document becomes `Applied` of the old one and the preset; the storage gets the configuration's text under `scrollbar-config` when writable, and every other item and an unwritable storage are left as they were |
| ConfigState.ScrollbarConfigState.SetRandomConfig | src/App.tsx:16-19 | the randomize button's result has the random shape. The document becomes `Applied` of the old one and the result; the storage gets the configuration's text under `scrollbar-config` when writable, and every other item and an unwritable storage are left as they were |
| ConfigState.ScrollbarConfigState.ToggleTheme | src/hooks/useScrollbarConfig.ts:59-61 | the theme flips and nothing else changes |

Every generator is a function, so the same configuration always gives the same text.

## Findings

| source | as written | input that shows it | evidently intended | confidence | as-written member | corrected member |
|---|---|---|---|---|---|---|
| src/hooks/useScrollbarConfig.ts:42-49 | The "apply on mount" timer applies the `config` its closure captured at the first render. That is always `defaultConfig`, because the effect has an empty dependency list. It fires 100 ms after mount, after the load effect and the re-render have applied the saved configuration, so the document goes back to the default styles. The hook's state and storage keep the saved configuration | a stored `Dark Mode` configuration: after mount the page's thumb colour is `#94a3b8` while the hook's configuration says `#374151` | the timer applies the current configuration, so the page shows what was loaded | medium; not executed | ConfigState.MountAsWritten, ConfigState.MountAsWrittenShowsDefault, ConfigState.StaleTimerCounterexample | ConfigState.MountIntended, ConfigState.MountIntendedShowsLoaded |

## Left out

- InjectedCssShowsInjected, CssIeLine, GenerateCssInjective, ScssDeclaresVariables and ScssCodeInjective hold for colours without a line break (`ColorsOnOneLine`). Colours are free text, and a colour holding the template text between two values could make two different configurations give the same export. The default, every preset and every randomized configuration meet the condition (DefaultConfigOnOneLine, PresetsOnOneLine, RandomShapeOnOneLine), and the colour picker's single-line text input cannot produce a line break. A configuration loaded from storage is not checked, and for such a colour these lemmas promise nothing.
- The `console.warn` that `saveConfigToStorage` and `loadConfigFromStorage` log when storage throws is not modelled, because it is console output; the model keeps only the outcome (items left as they were, or no configuration).
- `copyToClipboard` is not modelled, because it is the asynchronous clipboard API with an `execCommand` fallback, which is foreign I/O.
- The forced reflow reads (`document.body.offsetHeight`) are not modelled, because they have no effect on the state.
- The Blob and object-URL download mechanics are not modelled. Only the file name rule is.
- The `handleSave` list of saved configurations in `App.tsx` is not modelled, because it is storage I/O behind a hidden button and promises nothing.
- `window.matchMedia` becomes the constructor's `prefersDark` parameter.
- The 100 ms delay is not modelled as time. The model keeps only the order of the applications it causes.
- React scheduling is reduced to a fixed order of effects. `setConfig` with the same object skips the re-render, but the model re-applies and re-saves instead. `AppliedIdempotent` shows that re-applying leaves the document unchanged.
- `Math.random` becomes a sequence of draws in [0, 1) read in evaluation order.
- Randomizer.Randomize: draws are exact reals, not IEEE doubles.
- Randomizer.Randomize: Controls' wiring, which calls the randomizer twice, is not modelled.
- Sizes are natural numbers. The slider can produce fractional widths, and the JavaScript text of such numbers is not modelled.
- HexColor.HexToRgba: `alpha` is taken as its already-rendered text, because number-to-string conversion of floats is not modelled.
- `JSON.stringify` and `JSON.parse` are replaced by `Codec.Encode` and `Codec.Decode`. This is a length-prefixed text form with a proved round trip, not JSON syntax. Everything proved rests on its injectivity, which `JSON.stringify` has on these records because the key order is fixed. `Codec.Decode` also accepts leading zeros in numbers.
- Storage.Loaded: `JSON.parse` of stored text that is JSON but not a configuration is not modelled. Such text would give a non-configuration object; the model treats any text it cannot decode as nothing.
- Config.Merge: a partial update that gives a field as explicitly `undefined` is not modelled. A field is either present with a value or absent.
- `document.head` holds only style elements, and `document.documentElement.style` is modelled as a map of custom properties. Other DOM content is not modelled.
- When the configuration is hidden, the injected rule keeps the stored border radii and hover colour, while the custom-property step sets the radii to `0px` and the hover colour to `transparent`; the model keeps both behaviours as the code has them.
- The UI state of the export panel (`copied`, the active tab), animations, icons, and the `TabNavigation`, `ColorPicker`, `Slider` and `Styles` components are not modelled, because they are presentation.
