# 4K tile-skin generator: the generation core and the gallery logic in Dafny

This project models the deterministic core of the 4K tile-skin generator, a web app that
synthesises five 3840×2160 PBR texture maps (albedo, normal, roughness, fluid, metallic)
from a seed and a variation, and lets the user save a generation to a gallery.

The model covers:

- **The seeded generator** (`seeded_random.dfy`). This is the linear congruential generator
  `state' = (state·1664525 + 1013904223) % 2^32`, which returns `state'/2^32`. It is a class
  `Lcg` whose field `state` is the closure's captured variable. Its ghost fields record the
  seed and the number of values drawn, and each draw is tied to the specification
  function `Draw(seed, k)`.
- **The noise field** (`seamless_noise.dfy`). `generateSeamlessNoise` is a method with the
  source's nested loops: y outer, x inner, octaves innermost. The loops run over one shared
  generator and a fresh `array<byte>` of `4·width·height` bytes. The method is proved to
  produce exactly `NoiseField`, byte by byte. `NoiseField` is a specification function built
  from the per-pixel octave recurrence `Accumulate`. Lemmas about these functions cover:
  - the amplitude, frequency and total-amplitude schedule;
  - the range of the gray level;
  - the layout of the RGBA buffer;
  - the number of values drawn.
- **The channel recipes and the run** (`tileable_pbr.dfy`). This covers each channel's seed
  offset, scale, octave count and overlay, and how `generateTileablePBR` assembles the
  `GenerationRun`.
- **The Creative Freedom-B seed transform** (`creative_freedom_b.dfy`).
- **The settings summary** stored with a saved creation (`settings_string.dfy`).
- **The reference-image validator** (`reference_validation.dfy`).
- **The visible gallery list** (`creation_records.dfy`). This is the list shared by the
  gallery and detail pages: the optional usable-only filter followed by the stable
  newest-first sort.
- **The gallery page** (`gallery_page.dfy`): its cards, card clicks, filter toggle and empty
  state.
- **The detail page** (`creation_detail_page.dfy`): its index lookup and back navigation.
- **The "Save to Gallery" dialog** (`save_creation_dialog.dfy`). It is a class `Dialog` with
  the fields `open`, `title` and `markedUsable`. Its methods change those fields as the
  React handlers do.

Shared pieces live in three small modules:

- `js_arith.dfy`: JavaScript's sign-of-dividend `%`, and powers of two.
- `js_string.dfy`: `Array.prototype.join`, `String.prototype.trim` with the ECMAScript
  whitespace set, and decimal rendering and parsing of numbers.
- `generation_types.dfy`: the records of `types/generation.ts`.

Things outside the program become parameters:

- `Math.sin`, `Math.cos` and `Math.PI` become a value `t: Trig`. Its two functions and its
  constant are arbitrary. Properties that need `|sin|, |cos| <= 1` assume `Bounded(t)`.
- Each channel's `Math.random()` draw is a parameter.
- The two `Date.now()` readings of `generateTileablePBR` are parameters.
- The thumbnail rendering and the backend's answer to a save are parameters of
  `HandleSave`.

Each octave draws two values, the first for the sine and the second for the cosine
(generateTileablePbr.ts:42-43). Octave `o` of the pixel whose first draw is number `f` uses
draws `f + 2o` and `f + 2o + 1`.

## Model

| member | source | states |
|---|---|---|
| SeededRandom.Step | src/frontend/src/lib/generation/generateTileablePbr.ts:10 | one generator step, with JavaScript's `%`, maps a non-negative state into [0, 2^32) |
| SeededRandom.StepIsExact | src/frontend/src/lib/generation/generateTileablePbr.ts:10 | for a state in [0, 2^32) the intermediate `state·1664525 + 1013904223` stays below 2^53, so the JavaScript computation is exact |
| SeededRandom.StateAfter | src/frontend/src/lib/generation/generateTileablePbr.ts:8-11 | the state after k calls is non-negative for a non-negative seed, and below 2^32 once a step has been taken |
| SeededRandom.Draw | src/frontend/src/lib/generation/generateTileablePbr.ts:11 | call number k of a generator from `seed` returns the state after k+1 steps divided by 2^32; the range is proved in `DrawInUnitInterval` |
| SeededRandom.DrawInUnitInterval | src/frontend/src/lib/generation/generateTileablePbr.ts:11 | every value returned from a non-negative seed lies in [0, 1) |
| SeededRandom.AllStepsExact | src/frontend/src/lib/generation/generateTileablePbr.ts:7-13 | from a seed in [0, 2^32), every state stays in [0, 2^32) and every step is exact |
| SeededRandom.Lcg.constructor | src/frontend/src/lib/generation/generateTileablePbr.ts:7-8 | a new generator holds the seed as its state and has drawn nothing |
| SeededRandom.Lcg.Next | src/frontend/src/lib/generation/generateTileablePbr.ts:9-12 | call number k returns `Draw(seed, k)`, which depends on the seed and k alone (so two generators from one seed return the same sequence), and lies in [0, 1) for a non-negative seed |
| SeamlessNoise.Accumulate | src/frontend/src/lib/generation/generateTileablePbr.ts:33-49 | the four accumulators after k octaves of one pixel, octave o using draws first+2o (sine) and first+2o+1 (cosine); its properties are the lemmas below |
| SeamlessNoise.OctaveStep | src/frontend/src/lib/generation/generateTileablePbr.ts:45-48 | one pass of the octave loop body: add noise·amplitude, add amplitude to the total, halve the amplitude, double the frequency |
| SeamlessNoise.AccumulateFollowsSchedule | src/frontend/src/lib/generation/generateTileablePbr.ts:45-48 | amplitude, frequency and total amplitude after k octaves do not depend on the noise terms |
| SeamlessNoise.ScheduleClosedForm | src/frontend/src/lib/generation/generateTileablePbr.ts:33-48 | after k octaves: amplitude 2^-k, frequency scale·2^k, total amplitude 2 − 2^(1−k), which is at least 1 once k ≥ 1 |
| SeamlessNoise.HalvingStep | src/frontend/src/lib/generation/generateTileablePbr.ts:46-48 | one pass of the octave loop carries the closed form from 2^(k−1) to 2^k |
| SeamlessNoise.AccumulateClosedForm | src/frontend/src/lib/generation/generateTileablePbr.ts:33-48 | the closed form holds for the accumulators of every pixel; in particular `maxValue > 0`, so the division at line 51 is defined |
| SeamlessNoise.OctaveNoiseBounded | src/frontend/src/lib/generation/generateTileablePbr.ts:42-43 | with bounded sine and cosine, one octave's term lies in [-1, 1] |
| SeamlessNoise.OctaveStepBounded | src/frontend/src/lib/generation/generateTileablePbr.ts:45-47 | a step with a term in [-1, 1] keeps `-maxValue <= value <= maxValue` and a positive amplitude |
| SeamlessNoise.AccumulateBounded | src/frontend/src/lib/generation/generateTileablePbr.ts:38-49 | with bounded sine and cosine, the octave sum never exceeds the total amplitude |
| SeamlessNoise.GrayInRange | src/frontend/src/lib/generation/generateTileablePbr.ts:51-53 | when `-maxValue <= value <= maxValue`, `floor(((value/maxValue)+1)·0.5·255)` lies in [0, 255] |
| SeamlessNoise.Gray | src/frontend/src/lib/generation/generateTileablePbr.ts:51-53 | `floor(((value/maxValue)+1)·0.5·255)`; its range is proved in `GrayInRange` |
| SeamlessNoise.PixelGray | src/frontend/src/lib/generation/generateTileablePbr.ts:33-53 | the gray level of pixel (x, y) after all its octaves, whose first draw is number 2·octaves·(y·width+x); `ShadePixel` computes it and `NoClamping` bounds it |
| SeamlessNoise.Clamp | src/frontend/src/lib/generation/generateTileablePbr.ts:54-56 | a `Uint8ClampedArray` write keeps a value in [0, 255], stores 0 below and 255 above |
| SeamlessNoise.NoClamping | src/frontend/src/lib/generation/generateTileablePbr.ts:51-56 | with bounded sine and cosine, every gray level is in [0, 255], so the clamped write stores it unchanged |
| SeamlessNoise.NoiseField | src/frontend/src/lib/generation/generateTileablePbr.ts:26-27 | the buffer has `4·width·height` bytes |
| SeamlessNoise.PixelNumber | src/frontend/src/lib/generation/generateTileablePbr.ts:52 | `y·width + x` is a pixel number below `width·height`, and it gives back x and y |
| SeamlessNoise.PixelOffsetsDisjoint | src/frontend/src/lib/generation/generateTileablePbr.ts:52-57 | the four-byte ranges at `(y·width+x)·4` of different pixels never overlap |
| SeamlessNoise.PixelOffsetsCover | src/frontend/src/lib/generation/generateTileablePbr.ts:31-57 | every byte of the buffer lies in the range of some pixel inside the image |
| SeamlessNoise.NextPixel | src/frontend/src/lib/generation/generateTileablePbr.ts:31-32 | row-major traversal: the next pixel's index is one more, and its first draw is 2·octaves later |
| SeamlessNoise.PixelBytes | src/frontend/src/lib/generation/generateTileablePbr.ts:52-57 | the noise field holds the clamped gray level in bytes idx, idx+1 and idx+2, and 255 in byte idx+3, all inside the buffer |
| SeamlessNoise.ShadePixel | src/frontend/src/lib/generation/generateTileablePbr.ts:33-53 | the octave loop draws exactly 2·octaves values and returns the pixel's gray level `PixelGray` |
| SeamlessNoise.WritePixel | src/frontend/src/lib/generation/generateTileablePbr.ts:52-57 | writes the four bytes of pixel (x, y), changes nothing else, and extends the filled prefix by four bytes |
| SeamlessNoise.ShadeRow | src/frontend/src/lib/generation/generateTileablePbr.ts:32-58 | one row fills the next `4·width` bytes and advances the generator by the row's draws |
| SeamlessNoise.GenerateSeamlessNoise | src/frontend/src/lib/generation/generateTileablePbr.ts:15-62 | returns a fresh buffer equal to `NoiseField`, after exactly `2·octaves·width·height` draws from one generator seeded with `seed` |
| TileablePbr.SeedOffset | src/frontend/src/lib/generation/generateTileablePbr.ts:70-138 | the channel offsets are multiples of 1000 between 0 and 4000 |
| TileablePbr.Scale | src/frontend/src/lib/generation/generateTileablePbr.ts:71-139 | the scale table 4+v/20, 8+v/15, 6+v/25, 10+v/10, 5+v/30; `ScaleIncreasing` proves each grows with v |
| TileablePbr.ChannelSeed | src/frontend/src/lib/generation/generateTileablePbr.ts:70-138 | disabled: `seed + offset + 100·variation`; enabled with a draw in [0, 1): within 899 above `seed + offset + 225·variation` |
| TileablePbr.OctaveCount | src/frontend/src/lib/generation/generateTileablePbr.ts:71-139 | each channel sums between 3 and 6 octaves |
| TileablePbr.ScaleIncreasing | src/frontend/src/lib/generation/generateTileablePbr.ts:71-139 | every channel's scale grows strictly with the variation |
| TileablePbr.OffsetsApart | src/frontend/src/lib/generation/generateTileablePbr.ts:70-138 | two different channels' offsets are at least 1000 apart |
| TileablePbr.ChannelSeedsDistinct | src/frontend/src/lib/generation/generateTileablePbr.ts:70-138 | the five derived seeds are pairwise distinct in both modes, for draws in [0, 1) |
| TileablePbr.ChannelOverlay | src/frontend/src/lib/generation/generateTileablePbr.ts:74-127 | only albedo gets the hue gradient. Its hues `seed % 360` and `(hue+30) % 360` lie in [0, 360) for a non-negative seed; for a negative seed they follow the dividend's sign. Roughness and metallic get no overlay |
| TileablePbr.ChannelNoise | src/frontend/src/lib/generation/generateTileablePbr.ts:70-71 | the generator's arguments are always valid (positive size, at least one octave) |
| TileablePbr.ChannelMap | src/frontend/src/lib/generation/generateTileablePbr.ts:64-143 | every map is 3840 × 2160 with four bytes per pixel |
| TileablePbr.GenerateChannel | src/frontend/src/lib/generation/generateTileablePbr.ts:64-82 | a channel generator returns the map its recipe specifies |
| TileablePbr.MapPixels | src/frontend/src/lib/generation/generateTileablePbr.ts:52-57 | every pixel of every map has R = G = B and alpha 255; with bounded sine and cosine, the gray value is the unclamped normalised octave sum |
| TileablePbr.RunId | src/frontend/src/lib/generation/generateTileablePbr.ts:159 | the identifier ends in `-` and the decimal seed |
| TileablePbr.PbrRun | src/frontend/src/lib/generation/generateTileablePbr.ts:145-167 | category, seed, variation, Creative Freedom flag and description are echoed; the timestamp is the clock reading |
| TileablePbr.GenerateTileablePbr | src/frontend/src/lib/generation/generateTileablePbr.ts:145-170 | the run is built from the five channel maps in order |
| TileablePbr.RunIgnoresReferences | src/frontend/src/lib/generation/generateTileablePbr.ts:146 | the settings' references play no part in the run |
| TileablePbr.RunIdEndsWithSeed | src/frontend/src/lib/generation/generateTileablePbr.ts:159 | the run identifier ends in `"-" + seed` |
| CreativeFreedomB.Randomness | src/frontend/src/lib/generation/creativeFreedomB.ts:19 | for a draw in [0, 1) the random part is an integer in [0, 899] |
| CreativeFreedomB.ApplyCreativeFreedomB | src/frontend/src/lib/generation/creativeFreedomB.ts:6-22 | disabled: `seed + 100·variation`. Enabled: `seed + 225·variation + randomness`, which lies in a window of 900 seeds |
| CreativeFreedomB.DisabledMonotone | src/frontend/src/lib/generation/creativeFreedomB.ts:12 | disabled, a non-negative variation never lowers the seed, and the result grows strictly with the variation |
| CreativeFreedomB.DisabledIgnoresRandom | src/frontend/src/lib/generation/creativeFreedomB.ts:11-13 | disabled, the draw has no effect |
| CreativeFreedomB.ShiftInvariant | src/frontend/src/lib/generation/creativeFreedomB.ts:12-21 | moving the seed by k moves the result by k, in both modes |
| SettingsString.SettingsParts | src/frontend/src/lib/creationRecords/settingsString.ts:4-15 | six segments in fixed order, plus a seventh (the description) exactly when the description is non-empty. The Creative Freedom segment reads Enabled iff the flag is set. The references count only by number. Resolution is the constant |
| SettingsString.GenerateSettingsString | src/frontend/src/lib/creationRecords/settingsString.ts:3-17 | `generateSettingsString`: the segments of `SettingsParts` joined with the separator (space, vertical bar, space); its beginning and end are proved in `SummaryEnds` |
| SettingsString.SummaryEnds | src/frontend/src/lib/creationRecords/settingsString.ts:4-17 | the summary begins with the category segment and ends with the separator followed by the description segment (or the resolution segment when there is no description) |
| SettingsString.SummaryDependsOnSettingsOnly | src/frontend/src/lib/creationRecords/settingsString.ts:3-17 | the summary is the same for two runs that agree on category, seed, variation, flag and description, with the same number of references |
| SettingsString.WorkedExample | src/frontend/src/lib/creationRecords/settingsString.ts:3-17 | "metal", seed 7, variation 10, flag on, "rusted plate" and two references give exactly the segments `Category: metal`, `Seed: 7`, `Variation: 10%`, `Creative Freedom-B: Enabled (T=1.5, P=0.90)`, `References: 2 image(s)`, `Resolution: 3840×2160 (4K)`, `Description: rusted plate`, joined by the separator |
| SettingsString.ExampleParts | src/frontend/src/lib/creationRecords/settingsString.ts:4-15 | the seven segments of that example |
| JsString.Join | src/frontend/src/lib/creationRecords/settingsString.ts:17 | `parts.join(sep)`: the parts with the separator between neighbours; its shape is proved in `JoinStarts`, `JoinEnds` and `JoinSnoc` |
| JsString.JoinEnds | src/frontend/src/lib/creationRecords/settingsString.ts:17 | a join of at least two parts ends with the separator and the last part |
| JsString.JoinStarts | src/frontend/src/lib/creationRecords/settingsString.ts:17 | a join starts with the first part |
| JsString.JoinSnoc | src/frontend/src/lib/creationRecords/settingsString.ts:13-17 | pushing a part and joining appends the separator and that part |
| JsString.IntToString | src/frontend/src/lib/creationRecords/settingsString.ts:6 | the rendering is non-empty and starts with `-` exactly for negative numbers |
| JsString.Trim | src/frontend/src/components/Workspace/SaveCreationDialog.tsx:28 | `trim()` is empty exactly when every character is ECMAScript whitespace; otherwise it neither starts nor ends with whitespace |
| JsString.TrimContent | src/frontend/src/components/Workspace/SaveCreationDialog.tsx:28 | `trim()` is `s[i..j]` with only whitespace before i and after j |
| JsString.TrimIdempotent | src/frontend/src/components/Workspace/SaveCreationDialog.tsx:43 | trimming the trimmed title changes nothing |
| JsString.NatToString | src/frontend/src/pages/GalleryPage.tsx:40 | `String(index)` is a non-empty digit string without leading zeros |
| JsString.ParseDecimal | src/frontend/src/pages/CreationDetailPage.tsx:32 | `Number(index)` is defined exactly for decimal digits with surrounding whitespace; all-whitespace reads as 0 |
| JsString.DigitsValueOfNatToString | src/frontend/src/pages/CreationDetailPage.tsx:32 | the value of a rendered number is the number |
| JsString.ParseDecimalRoundTrip | src/frontend/src/pages/GalleryPage.tsx:40 | `Number(String(n)) == n` |
| JsArith.JsRemainder | src/frontend/src/lib/generation/generateTileablePbr.ts:75 | JavaScript's `%` with a positive divisor: in [0, b) for a non-negative dividend, in (−b, 0] for a negative one |
| ReferenceValidation.ValidateReferenceImage | src/frontend/src/lib/references/referenceValidation.ts:9-25 | valid iff the type is allowed and the size is at most 10 MiB. An error is present iff invalid. A wrong type gives the type message whatever the size; an allowed type that is too large gives the size message |
| ReferenceValidation.SizeBoundary | src/frontend/src/lib/references/referenceValidation.ts:17 | exactly 10485760 bytes is accepted; one byte more gives the size message |
| ReferenceValidation.NoCaseFolding | src/frontend/src/lib/references/referenceValidation.ts:2-10 | `image/PNG` is refused as unsupported: type matching is exact |
| CreationRecords.FilterUsable | src/frontend/src/pages/GalleryPage.tsx:32-34 | the filter keeps only usable records, a sub-multiset of the input |
| CreationRecords.FilterUsableAppend | src/frontend/src/pages/GalleryPage.tsx:33 | filtering distributes over concatenation, so kept records keep their relative order |
| CreationRecords.FilterUsableMembers | src/frontend/src/pages/GalleryPage.tsx:33 | a record is kept iff it is in the list and usable |
| CreationRecords.FilterUsableCount | src/frontend/src/pages/GalleryPage.tsx:32-34 | the filter keeps one record per usable position |
| CreationRecords.Insert | src/frontend/src/pages/GalleryPage.tsx:35 | one insertion step adds exactly the record |
| CreationRecords.InsertNewestFirst | src/frontend/src/pages/GalleryPage.tsx:35 | inserting into a newest-first list keeps it newest first |
| CreationRecords.SortNewestFirst | src/frontend/src/pages/GalleryPage.tsx:35 | the sorted copy is a permutation whose timestamps never increase |
| CreationRecords.InsertStable | src/frontend/src/pages/GalleryPage.tsx:35 | insertion puts the record ahead of the records with the same timestamp |
| CreationRecords.SortStable | src/frontend/src/pages/GalleryPage.tsx:35 | for every timestamp, the records carrying it keep their original order (the sort is stable) |
| CreationRecords.StableSortUnique | src/frontend/src/pages/GalleryPage.tsx:35 | two newest-first lists with the same records per timestamp in the same order are equal |
| CreationRecords.SortIsStableSort | src/frontend/src/pages/GalleryPage.tsx:35 | any newest-first list that keeps every timestamp's records in order is the sort's result |
| CreationRecords.VisibleRecords | src/frontend/src/pages/CreationDetailPage.tsx:27-31 | the visible list is newest first, and all usable when the filter is on |
| CreationRecords.VisibleContents | src/frontend/src/pages/CreationDetailPage.tsx:27-31 | no data means an empty list. Filter off: the same records as fetched. Filter on: the usable records, one per usable position |
| GalleryPage.FilterFlag | src/frontend/src/pages/GalleryPage.tsx:21 | `search.usableOnly ?? false` is on exactly when the search carries `usableOnly: true` (the same expression is CreationDetailPage.tsx:25) |
| GalleryPage.SearchFor | src/frontend/src/pages/GalleryPage.tsx:41 | the search built for a flag carries that flag |
| GalleryPage.HandleCardClick | src/frontend/src/pages/GalleryPage.tsx:37-43 | card i navigates to a detail index that reads back as i, with the same filter flag |
| GalleryPage.ToggleFilter | src/frontend/src/pages/GalleryPage.tsx:45-51 | on becomes `{}`, off becomes `{usableOnly: true}` |
| GalleryPage.ToggleTwice | src/frontend/src/pages/GalleryPage.tsx:45-51 | toggling twice restores the flag |
| GalleryPage.GalleryContent | src/frontend/src/pages/GalleryPage.tsx:23-97 | loading shows only the spinner. The empty state appears iff the visible list is empty, with the message for the current filter. Otherwise one card per visible record |
| GalleryPage.UsableCards | src/frontend/src/pages/GalleryPage.tsx:32-96 | with the filter on, the number of cards is the number of usable records, and every card is usable |
| GalleryPage.AllCards | src/frontend/src/pages/GalleryPage.tsx:31-35 | with the filter off, the cards are the fetched records, rearranged |
| CreationDetailPage.CreationDetailContent | src/frontend/src/pages/CreationDetailPage.tsx:25-41 | a record is found iff the index reads as a position of the visible list, and it is the record at that position |
| CreationDetailPage.HandleBackToGallery | src/frontend/src/pages/CreationDetailPage.tsx:34-39 | going back keeps the filter flag |
| CreationDetailPage.CardClickShowsSameRecord | src/frontend/src/pages/CreationDetailPage.tsx:27-32 | the detail page opened by card i shows that card's record |
| CreationDetailPage.FoundIsUsable | src/frontend/src/pages/CreationDetailPage.tsx:28-32 | with the filter on, a found record is usable |
| CreationDetailPage.BackRestoresFilter | src/frontend/src/pages/CreationDetailPage.tsx:34-38 | card click, then back, returns to the gallery with the original flag |
| SaveCreationDialog.Dialog.constructor | src/frontend/src/components/Workspace/SaveCreationDialog.tsx:22-24 | the dialog starts closed, with an empty title and no usable mark |
| SaveCreationDialog.Dialog.CanSave | src/frontend/src/components/Workspace/SaveCreationDialog.tsx:70 | `canSave`: a non-blank trimmed title, the usable mark, and no save pending; `HandleOpenChange` and `HandleSave` prove it false after closing or saving |
| SaveCreationDialog.Dialog.SetTitle | src/frontend/src/components/Workspace/SaveCreationDialog.tsx:94 | typing replaces the title and nothing else |
| SaveCreationDialog.Dialog.SetMarkedUsable | src/frontend/src/components/Workspace/SaveCreationDialog.tsx:102 | only a ticked box marks the creation usable; indeterminate counts as unticked |
| SaveCreationDialog.Dialog.HandleOpenChange | src/frontend/src/components/Workspace/SaveCreationDialog.tsx:58-64 | opening only sets `open`; closing also clears the title and the mark, so saving is disabled |
| SaveCreationDialog.Dialog.HandleSave | src/frontend/src/components/Workspace/SaveCreationDialog.tsx:27-56 | a blank title or a missing mark sends nothing and changes nothing. Otherwise the request carries the trimmed title, the run's flag and its settings summary. Only an accepted save closes and clears the dialog; a failure leaves the state as it was |
| SaveCreationDialog.Dialog.HandleTitleKeyDown | src/frontend/src/components/Workspace/SaveCreationDialog.tsx:95 | Enter while `canSave` holds runs the save: the request, if any, carries the trimmed title, the run's flag and its summary; success shows the saved toast, clears the dialog and leaves the pending flag as it was; a failure shows the error toast and leaves the state as it was. Any other key, or Enter while `canSave` fails, does nothing |

## Left out

- Canvas, DOM and PNG encoding: `createImageData`, `putImageData`, `toDataURL` and the overlay compositing with its gradient. A map is modelled as the raster the noise generator fills plus a description of its overlay.
- Floating point: all JavaScript numbers that are not integers are exact reals. `Math.sin`, `Math.cos` and `Math.PI` are uninterpreted, so the "seamless and tileable" claim about the image edges is not modelled.
- The 1500 ms delay in `generateTileablePBR`, and the asynchronous resolution of the promise.
- SeededRandom.Step: JavaScript numbers lose integer precision above 2^53. The model is exact for every seed, and `StepIsExact` shows that every seed in [0, 2^32) stays in the exact range. Seeds outside it are not modelled with rounding.
- SeamlessNoise.GenerateSeamlessNoise: requires width, height and octaves of at least 1. Every caller passes 3840 × 2160 and 3 to 6 octaves. With 0 octaves the source would divide 0 by 0 and store NaN, which the clamped array turns into 0; that path is not modelled.
- JsString.ParseDecimal: `Number(index)` is modelled only for decimal digit strings (after trimming). Strings that JavaScript also reads as a valid index (`-0`, `0x1`, `1e0`, `1.0`) give "not found" in the model.
- TileablePbr.ChannelSeedsDistinct: the seed arithmetic (`seed + offset`, `+ Math.floor(variation·100)`) and the decimal rendering of the seed in the run identifier and the settings summary are exact only for magnitudes below 2^53. Beyond that, JavaScript rounds the sums, so two channels can get the same derived seed (seed `1e20` with variation 50 and creative freedom off gives all five channels `1e20`). From 1e21 up, `${seed}` renders with an exponent (`1e+21`), where `IntToString` writes every digit. The model's integers are exact, so the distinctness and `RunIdEndsWithSeed` hold only for seeds in the exact range.
- Variation is an integer, as the slider produces it, so `Math.floor(variation·100)` and `Math.floor(variation·1.5·150)` are the exact products.
- The seed is modelled as an integer. The seed input (`Number(e.target.value)` in GenerationControls.tsx) accepts fractional values such as `2.5`, which nothing rounds: they would reach the seed transform, the generator's state, the albedo hue and the `Seed:` segment. Fractional seeds are not covered.
- `generateSeamlessNoise`'s default of 4 octaves is not modelled: every caller passes its octave count.
- The thumbnail (`generateThumbnail`) and the backend's `saveCreationRecord` are inputs of `HandleSave`: whether the thumbnail renders and whether the backend stores the record.
- SaveCreationDialog.Dialog.HandleSave: the save is atomic. The mutation's `isPending` is a field the dialog reads but never sets, and toasts are returned values.
- The detail page has no loading state: records not yet fetched count as none, and the page shows "not found" until they arrive. This is what the source does, not a simplification.
- React-query plumbing, authentication (`RequireAuthenticated`, `identity`) and the router's `validateSearch` coercion are not part of this model.
- ReferenceGallery, the export panel and `exportMaps` are not part of this model: they are browser file I/O.
