# Cropea image cropper — a Dafny model

Cropea is a single-page image cropper. The user drops or picks an image and
chooses an aspect ratio from the sidebar: free, 16:9, 9:16, square or
circle. A preset resolution for that ratio can then be picked. The user crops
and downloads the result as PNG, JPEG, WebP or GIF. Everything lives in one
class, `ImageCropper` (`script.js`), which drives Cropper.js and the canvas API.

This project models the decision and string logic of that class and its
session state machine:

- `sizes.dfy` (module `Sizes`): width-and-height pairs and their minimum.
- `text.dfy` (module `Text`): the JavaScript string primitives the class
  relies on, for non-negative integers and plain strings:
  - `${n}`;
  - `Number(s)`;
  - `parseInt(s)`;
  - `split` on one character;
  - `replace`, both global and first-occurrence.
- `presets.dfy` (module `Presets`):
  - the preset table;
  - the `<option>` values `WxH` the preset selector is filled with, and how
    they are read back;
  - how a ratio token becomes Cropper.js's aspect-ratio constraint. The
    constraint is a rational pair or `Free`, never a float.
- `export.dfy` (module `Export`):
  - the format → MIME type and format → extension tables with their PNG
    fallback;
  - the quality given for lossy formats;
  - the dimensions label `"W x H px"`;
  - the download file name built from that label.
- `drawing.dfy` (module `Drawing`): canvases as values (their size and how
  they were produced), plus:
  - the exact geometry of the circular mask: side, clip circle and centring
    offsets;
  - the white-background policy;
  - the format hint shown beside the format selector.
- `session.dfy` (module `Session`): the class `ImageCropper` with the fields
  `cropper`, `imgElement`, `originalFile` and `lastCanvas`, plus the part of
  the page the class reads and writes, held as one `Page` value.
  - There is one method per operation and per event listener.
  - Each method states the whole new state.
  - The invariant `Valid()` says four things:
    - the cropper works on `imgElement`;
    - a stored original file is always an image;
    - the preset selector only ever holds the entries of one ratio;
    - a chosen preset value always parses.
- `scenarios.dfy` (module `Scenarios`): whole sessions driven through the
  methods, each for every file, crop box and preset, and what they end with.

How a session behaves, as the source does it and the model proves it:

- After a crop the cropper is destroyed, so a second crop changes nothing
  until an image is loaded again.
- A preset chosen before switching to 'free' stays selected in the hidden
  selector. The next crop is therefore still requested at the preset's size,
  while the file name follows the crop box shown last. How Cropper.js fits
  that size to the box is not modelled (see "Left out").
- `clearAll` keeps the last canvas but hides the download button. Since the
  button is the only caller of `downloadImage`, the page offers no download
  afterwards; a direct call of `downloadImage` would still yield the old crop,
  named `cropea-0x0px.png`.
- The format selector is hidden until the first crop, so on a fresh page the
  crop is made under the radio checked when the page loaded (PNG). The format
  picked afterwards decides the download's MIME type and extension, but not
  the canvas: a circle cropped under PNG and then downloaded as JPEG has no
  white background, although the hint then announces one.
- A file that is not an image shows the error icon and zeroes the label. The
  running cropper and the original file are kept, and undo reloads that file.

Cropper.js is modelled as a value: the image it works on, its constraint and
its crop box. Its `crop` event is the method `CropBoxChanged`. The crop box
it starts with on a freshly decoded image depends on the image's dimensions
(its natural size, the container and `autoCropArea: 0.8`), so
`LoadImage` and `UndoChanges` take it as a parameter. `getCroppedCanvas`
returns a canvas of the requested size: the crop box, or the preset when
width and height are passed.

## Model

| member | source | states |
|---|---|---|
| Sizes.Min | script.js:407 | `Math.min(a, b)`: at most both arguments and equal to one of them; it is the side the circular canvas gets |
| Text.Decimal | script.js:299 | the numeral of `n` is a non-empty digit string, has value `n`, and has no leading zero |
| Text.ToNumber | script.js:288 | `Number(s)` is a number exactly when `s` is all digits; the empty string gives 0 |
| Text.NumberOfDecimal | script.js:288 | `Number` and `parseInt` both read the numeral of `n` back as `n` |
| Text.ParseInt | script.js:252 | `parseInt(s)` is a number exactly when `s` starts with a digit, and is the value of `s` when `s` is all digits |
| Text.DigitPrefix | script.js:252 | the longest leading run of digits: it is a prefix, all digits, cannot be extended, and is the whole string when that is all digits |
| Text.Split | script.js:251 | `split(sep)` gives at least one piece, no piece contains `sep`, and joining the pieces with `sep` gives the string back |
| Text.SplitJoin | script.js:288 | splitting pieces that lack `sep`, once joined with `sep`, gives back exactly those pieces |
| Text.SplitNoSeparator | script.js:288 | a string without the separator splits into itself alone |
| Text.SplitFirstPiece | script.js:288 | splitting `a + sep + rest`, when `a` lacks `sep`, gives `a` followed by the pieces of `rest` |
| Text.StartsWith | script.js:165 | `s.startsWith(prefix)`: the prefix fits in `s` and `s` begins with it; no contract of its own, it is the test of `Session.ImageCropper.LoadImage` and of the invariant |
| Text.ReplaceAll | script.js:485 | `replace(/ px/g, '')`: scans left to right and replaces every non-overlapping literal match; its meaning is stated by `Text.ReplaceAllAtMatch` and `Text.ReplaceWithoutMatch` |
| Text.ReplaceFirst | script.js:486 | `replace(' x ', 'x')`: scans left to right and replaces only the first literal match; its meaning is stated by `Text.ReplaceFirstAtMatch` and `Text.ReplaceWithoutMatch` |
| Text.ReplaceFirstAtMatch | script.js:486 | when the leftmost occurrence of the pattern is at `k`, the first-occurrence replacement keeps `s[..k]`, puts the replacement, and keeps everything after the match |
| Text.ReplaceAllAtMatch | script.js:485 | when the leftmost occurrence is at `k`, the global replacement keeps `s[..k]`, puts the replacement, and resumes scanning only after the match, so matches never overlap |
| Text.ReplaceAllPastStart | script.js:485 | the same as `Text.ReplaceAllAtMatch` for a leftmost occurrence that is not at the start |
| Text.ReplaceWithoutMatch | script.js:485-486 | a string in which the pattern occurs nowhere is left unchanged by both replacements |
| Text.ReplaceAllSkips | script.js:485 | a global replacement leaves untouched a prefix that lacks the pattern's first character |
| Text.ReplaceFirstSkips | script.js:486 | a first-occurrence replacement leaves untouched a prefix that lacks the pattern's first character |
| Text.DigitsLackChar | script.js:274 | a digit string contains no non-digit character, such as `x`, `/` or a space |
| Presets.PresetsFor | script.js:28-55 | `this.presets[ratio]` as the literal table, empty for a ratio without an entry; its shape is stated by `Presets.PresetTableShape`, `Presets.WidescreenPresets` and `Presets.SquarePresets` |
| Presets.PresetTableShape | script.js:28-55 | exactly 16/9, 9/16, 1 and circle have presets; 'free' has none; every preset has positive width and height |
| Presets.WidescreenPresets | script.js:29-40 | every 16/9 preset has `9*W == 16*H`, and each 9/16 preset is the same-named 16/9 preset transposed |
| Presets.SquarePresets | script.js:41-54 | every '1' and 'circle' preset is square |
| Presets.ParsePresetValue | script.js:288 | a value parses exactly when it has at least two `x`-separated pieces and the first two are all digits |
| Presets.OptionValue | script.js:274 | the option value `${width}x${height}`; `Presets.OptionValueRoundTrip` proves it parses back to the size |
| Presets.OptionValueRoundTrip | script.js:274 | the option value `WxH` of a preset parses back to exactly `(W, H)` |
| Presets.ValueOf | script.js:272-274 | the `value` of a selector entry: `""` for the prompt and `WxH` for a preset, read at script.js:286 and 386; `Presets.OptionValuesParse` states what it gives for every entry |
| Presets.OptionsFor | script.js:272-275 | the selector holds the prompt, then one entry per preset, with value `WxH` and the preset's name, in table order |
| Presets.OptionValuesParse | script.js:288 | every entry after the prompt holds a non-empty value that parses to exactly its preset's size |
| Presets.ParseRatio | script.js:249-253 | '1' gives ratio 1, and a token without '/' gives no constraint |
| Presets.ParseRatioOfFraction | script.js:249-253 | the token `a/b` gives the ratio a:b, except 0/0, which gives no constraint |
| Presets.ChooseRatio | script.js:223-239 | 'free' gives no constraint; 'circle' gives ratio 1; other tokens give `parseRatio`'s result; the circle class is set exactly for 'circle' |
| Presets.WidescreenRatios | script.js:223-239 | the tokens 16/9 and 9/16 constrain the box to 16:9 and 9:16 |
| Presets.PresetsMatchAspect | script.js:223-253 | every preset a token offers has exactly the aspect ratio that token constrains the crop box to |
| Export.MimeType | script.js:352-360 | the MIME type is always an `image/` type |
| Export.Extension | script.js:367-375 | the extension is always one of png, jpg, webp and gif |
| Export.FormatTables | script.js:352-375 | png, jpg, webp and gif keep their name as extension and have the MIME types image/png, image/jpeg, image/webp and image/gif; any other format falls back to image/png and png |
| Export.MimeTypeMatchesExtension | script.js:352-375 | the MIME subtype always equals the extension, except that jpg is spelled jpeg |
| Export.Quality | script.js:479 | a quality is given exactly for the JPEG and WebP types, and it is 0.9 |
| Export.DimensionLabel | script.js:299 | the label `${width} x ${height} px`; `Export.LabelStemIsOptionValue` relates it to the option value |
| Export.LabelStem | script.js:484-486 | the label with every ` px` removed and then the first ` x ` joined to `x`; `Export.StemOfLabel` states what it gives for a numeral label |
| Export.DownloadName | script.js:487 | `cropea-${dimensions}px.${extension}`; `Export.DownloadNameOfLabel` states it for every size's label |
| Export.RemoveUnitSuffix | script.js:485 | removing ` px` from `" H px"` leaves `" H"` |
| Export.RemoveUnit | script.js:485 | removing ` px` everywhere from `"W x H px"` leaves `"W x H"` |
| Export.JoinWithX | script.js:486 | replacing the first ` x ` of `"W x H"` gives `"WxH"` |
| Export.StemOfLabel | script.js:484-486 | the two replacements turn a label `"W x H px"` built from numerals into `"WxH"` |
| Export.LabelStemIsOptionValue | script.js:484-486 | the stem of the dimensions label of a size is that size's option value |
| Export.DownloadNameOfLabel | script.js:484-487 | the file name from the label of `(W, H)` is `cropea-WxHpx.<ext>`, and its dimension part parses back to `(W, H)` |
| Drawing.Size | script.js:407-410 | a canvas's `width` and `height`: the crop's size, or `size` by `size` for the circular canvas; `Drawing.CreateCircularCanvas` and `Session.CropResult` state it for each kind |
| Drawing.PaintsWhite | script.js:419 | a white background is painted exactly for formats other than `png`; `Drawing.CircularLayoutFor` and `Drawing.HintAgreesWithFill` state its use |
| Drawing.CircularLayoutFor | script.js:406-433 | the side is `min(w,h)`; white fill happens exactly for non-PNG formats; `dx, dy <= 0` with one of them 0 and the source centred; the clip circle touches all four sides and lies on the drawn source |
| Drawing.CreateCircularCanvas | script.js:406-437 | the circular canvas is square with side `min(w,h)`, keeps its source, and is white-filled exactly for non-PNG formats |
| Drawing.HintFor | script.js:332-345 | the hint announces transparency exactly when circular and PNG, a white background exactly when circular and not PNG, and nothing when not circular |
| Drawing.HintAgreesWithFill | script.js:413-422 | for one format, the circular hint names exactly the background the circular canvas gets |
| Session.SelectedFormat | script.js:324-327 | the value of the checked format radio, or `png` when none is checked; a reset checks PNG (`Session.ImageCropper.ClearAll`), and `Scenarios.CropThenClearSession` names the file after it as PNG |
| Session.WithPresetOptions | script.js:268-280 | updating the selector changes only its entries, value and visibility, and shows it exactly when the ratio has presets |
| Session.RequestedSize | script.js:383-388 | the canvas size asked of Cropper.js is the crop box without a preset and the parsed preset with one |
| Session.CropResult | script.js:380-396 | the kept canvas has the requested size, or, when circular, is a square of the smaller side that is white-filled exactly for non-PNG formats |
| Session.CropResultOfPreset | script.js:383-396 | with the entry of a preset chosen in the selector, the canvas has that preset's size, squared down to the smaller side when circular |
| Session.ImageCropper.constructor | script.js:7-66 | every field is empty; the page shows the placeholder, a zero label, a hidden selector and no hint; the radio checked on the page is kept |
| Session.ImageCropper.UpdateDimensions | script.js:298-300 | only the label changes, to `"W x H px"` |
| Session.ImageCropper.DestroyCropper | script.js:548-553 | afterwards there is no cropper |
| Session.ImageCropper.ShowError | script.js:520-523 | only the drop area (the error icon) and the label (`0 x 0 px`) change |
| Session.ImageCropper.ResetUI | script.js:528-535 | placeholder, zero label, download button, selector and format selector hidden, empty hint; nothing else changes |
| Session.ImageCropper.UpdateFormatHint | script.js:332-345 | only the hint changes, to the hint for the circle class and the selected format |
| Session.ImageCropper.UpdatePresetOptions | script.js:268-280 | the page becomes `WithPresetOptions` of the ratio, and the invariant records which ratio the entries belong to |
| Session.ImageCropper.InitCropper | script.js:199-211 | without an image nothing changes; otherwise a new unconstrained cropper starts on the image |
| Session.ImageCropper.LoadImage | script.js:163-194 | a non-image shows the error and keeps every field; an image becomes the original file and the displayed image, gets a fresh unconstrained cropper, clears the circle class and hides the download button and both selectors; the last canvas is kept |
| Session.ImageCropper.CropBoxChanged | script.js:212-215 | the crop box and the label take the new size; nothing else changes |
| Session.ImageCropper.SetActiveRatio | script.js:223-242 | without a cropper nothing changes; otherwise the constraint and the circle class follow `ChooseRatio` and the selector is updated for the token |
| Session.ImageCropper.RatioSelected | script.js:84-95 | `setActiveRatio`, then the hint for the new circle class; without a cropper only the hint is refreshed |
| Session.ImageCropper.ApplyPresetDimensions | script.js:285-291 | without a cropper or a chosen preset nothing changes; otherwise the preset parses, and the box and the label take its size |
| Session.ImageCropper.PresetSelected | script.js:98-100 | the entry the user chose becomes the selector's value, then `applyPresetDimensions` runs: the box and the label take the preset's size when there is a cropper and the entry is not the prompt |
| Session.ImageCropper.FormatSelected | script.js:104-109 | the radio is checked and the hint follows the new format; nothing else changes |
| Session.ImageCropper.DisplayCroppedImage | script.js:443-456 | the drop area shows the canvas as a PNG data URL, that image becomes `imgElement`, and the cropper is destroyed |
| Session.ImageCropper.ShowDownloadOptions | script.js:461-466 | the download button and the format selector are shown, and the hint is refreshed |
| Session.ImageCropper.CropImage | script.js:380-399 | without a cropper nothing changes; otherwise `lastCanvas` becomes the crop at the preset or box size, made circular with the circle class, and is displayed; the cropper is gone and the download options are shown |
| Session.ImageCropper.DownloadImage | script.js:471-490 | there is a link exactly when there is a last canvas; it encodes that canvas with the selected format's MIME type and quality; its name is built from the label, and is `cropea-WxHpx.<ext>` whenever the label reads `W x H px` |
| Session.ImageCropper.UndoChanges | script.js:495-499 | without an original file nothing changes; otherwise that file is reloaded with a fresh cropper |
| Session.ImageCropper.ClearAll | script.js:504-515 | the cropper is destroyed, the page is reset, and PNG is checked; the original file, the displayed image and the last canvas are kept |
| Scenarios.CircleKeepsPresetSize | script.js:46-54 | every circle preset is square, so the circular mask keeps its size |
| Scenarios.PickRatio | script.js:84-95 | picking a ratio that has presets, with a cropper, fills the selector with exactly that ratio's entries and sets the circle class exactly for 'circle' |
| Scenarios.PickEntry | script.js:98-100 | choosing a preset's entry sets the box and the label to the preset's size and leaves the circle class and the format alone |
| Scenarios.PickPreset | script.js:84-100 | picking a ratio and then one of its presets sets the box and the label to the preset's size, and leaves the format, the format selector's visibility and the last canvas alone |
| Scenarios.PresetCropSize | script.js:383-396 | with a preset value in the selector, the crop has the preset's size whatever the crop box |
| Scenarios.SwitchToFree | script.js:223-242 | picking 'free' hides the selector and clears the circle class, yet keeps the selected preset value |
| Scenarios.PresetCropSession | script.js:380-399 | load under PNG, ratio, preset, crop, then format, then download: the format selector is hidden before the crop; the canvas has the preset's size, is circular exactly for 'circle' and has no white background; the link has the later format's MIME type and is named `cropea-WxHpx.<ext>` |
| Scenarios.CircleCropUnderPng | script.js:380-399 | loading under PNG, picking 'circle' and cropping keeps a circular canvas without a white background |
| Scenarios.LateFormatSession | script.js:104-109 | picking JPEG after a circle crop under PNG makes the hint announce a white background, while the canvas has none and is encoded as `image/jpeg` |
| Scenarios.HiddenPresetSession | script.js:383-388 | after switching to 'free' and resizing, the crop is still requested at the hidden preset's size, while the file name follows the label |
| Scenarios.RejectedFileSession | script.js:163-167 | a non-image after an image keeps the original file and the running cropper and zeroes the label, and undo reloads the original |
| Scenarios.CropThenClearSession | script.js:504-531 | a second crop changes nothing; clearing hides the download button, and a direct call of the download still yields the first canvas, named `cropea-0x0px.png` |
| Scenarios.ZeroLabelName | script.js:484-487 | the empty label `0 x 0 px` names the file `cropea-0x0px.png` |

## Left out

- DOM and event wiring is not modelled, because it is presentation. This covers:
  - listener registration and drag and drop (`script.js:71-157`);
  - the drop-area click that opens the file dialog;
  - `innerHTML` markup and CSS display toggling, each kept only as a field of `Page`;
  - the radio icons of `updateRadioButtons`;
  - `updateActiveButton` and `clearActiveButtons`, which only style the sidebar and reset the mobile selector.
- Cropper.js internals are not modelled, because the library is external. This covers:
  - how it adjusts the crop box to a new constraint or to `setData`;
  - the `crop` events those adjustments fire;
  - clamping to the image;
  - resampling in `getCroppedCanvas`, including how it fits a requested size to the box's aspect ratio.

  After `setData` the model takes the box to be the preset size exactly.
- Canvas rendering is not modelled, because it is rasteriser and codec work: the anti-aliased clip, `drawImage` and `toDataURL`. Only the geometry and the fill decision are kept, and an encoding is a value naming the canvas, MIME type and quality.
- Floating point is not modelled:
  - `NaN` is `Free`;
  - a division by zero is a ratio with denominator 0;
  - sizes are naturals, and `Text.Decimal` always writes them as plain digits, whereas `${n}` switches to exponent form from 1e21 on; image sizes never come near that;
  - the `Math.round` of crop-event sizes is taken as already done.
- `Number` and `parseInt` are modelled for digit strings only. Whitespace, signs, hexadecimal and exponent forms are left out: every string that reaches them here is a table entry or a numeral.
- An unparsable preset value is treated as no preset by `Session.RequestedSize`. It cannot occur, because the selector only holds table values and the invariant proves every value parses.
- A key such as `toString` of the presets object would find an inherited property instead of `undefined`. Every key that reaches `PresetsFor` comes from the sidebar or the mobile selector, so the model treats all other keys as having no presets.
- Object URLs and `File` objects are not modelled; a file is only its name and its `type` string.
- Text content is an enumeration, not the exact Spanish strings: the format hint, the selector prompt and the placeholder and error icons.
- The page's initial state is taken as given. The radio checked when the page loads is a parameter of the constructor. The `formatHint` and PNG-radio existence checks assume both elements exist.
- Session.ImageCropper.LoadImage: the crop box Cropper.js starts with depends on the decoded image, so it is a parameter rather than 80% of the image.
- Session.ImageCropper.UndoChanges: takes the new crop box as a parameter for the same reason.
- Session.ImageCropper.LoadImage: the cropper is taken to be ready once it returns. On the page the `<img>` still loads from its object URL (script.js:181), and Cropper.js builds itself, fires `crop` and can crop only after that; the model does not capture the interval between the two.
- Export.MimeType, Export.Extension: the lookups are plain object literals (script.js:353-359, 368-374), so a key inherited from `Object.prototype`, such as `toString` or `constructor`, would return that inherited value instead of the PNG fallback. The format only ever comes from the four format radios (script.js:322-326), so the model treats every other key as an unknown format that falls back to PNG.
