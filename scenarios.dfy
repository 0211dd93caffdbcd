/**
 * Whole sessions driven through the `ImageCropper` methods in the order a
 * user can drive the page (the format selector, for one, is shown only after
 * a crop), and what they end with. Each holds for every image
 * file, every crop box Cropper.js produces and every preset.
 */
module Scenarios {
  import opened Text
  import opened Sizes
  import opened Drawing
  import opened Presets
  import opened Export
  import opened Session

  /** Every circle preset is square, so the circular mask keeps its size. */
  lemma CircleKeepsPresetSize(token: string, i: nat)
    requires i < |PresetsFor(token)|
    ensures var p := PresetsFor(token)[i].size;
            token == "circle" ==> Min(p.width, p.height) == p.width == p.height
  {
    if token == "circle" {
      SquarePresets();
      assert PresetsFor(token)[i] in PresetsFor("1") + PresetsFor("circle");
    }
  }

  /** Pick the ratio `token` on a page holding a cropper: the selector lists its presets. */
  method PickRatio(app: ImageCropper, token: string)
    requires app.Valid() && app.cropper.Some? && |PresetsFor(token)| > 0
    modifies app`page, app`cropper, app`optionsRatio
    ensures app.Valid() && app.cropper.Some?
    ensures app.page.presetOptions == OptionsFor(token)
    ensures app.page.circle == (token == "circle")
    ensures app.page.checkedFormat == old(app.page.checkedFormat)
    ensures app.page.formatSelectorShown == old(app.page.formatSelectorShown)
  {
    app.RatioSelected(token);
  }

  /** Choose the entry of the `i`-th preset in a selector filled for `token`. */
  method PickEntry(app: ImageCropper, token: string, i: nat)
    requires app.Valid() && app.cropper.Some? && i < |PresetsFor(token)|
    requires app.page.presetOptions == OptionsFor(token)
    modifies app`page, app`cropper
    ensures app.Valid() && app.cropper.Some?
    ensures app.cropper.value.box == PresetsFor(token)[i].size
    ensures app.page.presetValue == OptionValue(PresetsFor(token)[i].size)
    ensures app.page.dimensions == DimensionLabel(PresetsFor(token)[i].size)
    ensures app.page.circle == old(app.page.circle) && app.page.checkedFormat == old(app.page.checkedFormat)
    ensures app.page.formatSelectorShown == old(app.page.formatSelectorShown)
  {
    var preset := PresetsFor(token)[i].size;
    assert ValueOf(app.page.presetOptions[i + 1]) == OptionValue(preset);
    app.PresetSelected(i + 1);
    OptionValueRoundTrip(preset);
  }

  /**
   * Pick the ratio `token` on a page holding a cropper, then its `i`-th
   * preset: the crop box and the label take the preset's size, and the
   * selected format and the last canvas are left alone.
   */
  method PickPreset(app: ImageCropper, token: string, i: nat)
    requires app.Valid() && app.cropper.Some? && i < |PresetsFor(token)|
    modifies app`page, app`cropper, app`optionsRatio
    ensures app.Valid() && app.cropper.Some?
    ensures app.cropper.value.box == PresetsFor(token)[i].size
    ensures app.page.presetValue == OptionValue(PresetsFor(token)[i].size)
    ensures app.page.circle == (token == "circle")
    ensures app.page.dimensions == DimensionLabel(PresetsFor(token)[i].size)
    ensures app.page.checkedFormat == old(app.page.checkedFormat)
    ensures app.page.formatSelectorShown == old(app.page.formatSelectorShown)
  {
    PickRatio(app, token);
    PickEntry(app, token, i);
  }

  /** Cropping with a preset selected yields the preset's size, whatever the box and, for a preset of the token, whether the crop is circular. */
  lemma PresetCropSize(token: string, i: nat, box: Dims, circular: bool, format: string)
    requires i < |PresetsFor(token)| && (circular ==> token == "circle")
    ensures Size(CropResult(box, OptionValue(PresetsFor(token)[i].size), circular, format)) == PresetsFor(token)[i].size
  {
    OptionValueRoundTrip(PresetsFor(token)[i].size);
    CircleKeepsPresetSize(token, i);
  }

  /** Pick 'free': the preset selector is hidden but keeps its value. */
  method SwitchToFree(app: ImageCropper)
    requires app.Valid() && app.cropper.Some?
    modifies app`page, app`cropper, app`optionsRatio
    ensures app.Valid() && app.cropper.Some? && !app.page.presetShown && !app.page.circle
    ensures app.page.presetValue == old(app.page.presetValue)
    ensures app.page.checkedFormat == old(app.page.checkedFormat)
  {
    PresetTableShape("free");
    app.RatioSelected("free");
  }

  /**
   * Load an image on a page whose PNG radio is checked, pick a ratio and one
   * of its presets, crop, and only then pick a format (the format selector
   * is hidden until the crop) and download. The canvas has exactly the
   * preset's size (a circle preset is square, so the circular mask keeps it)
   * and was made under PNG, so it has no white background; the download is
   * encoded and named for the format picked afterwards.
   */
  method PresetCropSession(file: File, box: Dims, token: string, i: nat, format: string)
    returns (selectorBeforeCrop: bool, size: Dims, circular: bool, whiteFill: bool, mimeType: string, name: string)
    requires StartsWith(file.mimeType, "image/") && i < |PresetsFor(token)|
    ensures !selectorBeforeCrop
    ensures size == PresetsFor(token)[i].size
    ensures circular <==> token == "circle"
    ensures !whiteFill
    ensures mimeType == MimeType(format)
    ensures name == "cropea-" + Decimal(size.width) + "x" + Decimal(size.height) + "px." + Extension(format)
  {
    var app := new ImageCropper(Some("png"));
    app.LoadImage(file, box);
    PickPreset(app, token, i);
    var preset := PresetsFor(token)[i].size;
    selectorBeforeCrop := app.page.formatSelectorShown;
    app.CropImage();
    PresetCropSize(token, i, preset, token == "circle", "png");
    size := Size(app.lastCanvas.value);
    circular := app.lastCanvas.value.Circular?;
    whiteFill := circular && app.lastCanvas.value.layout.whiteFill;
    app.FormatSelected(format);
    var link := app.DownloadImage();
    mimeType, name := link.value.href.mimeType, link.value.filename;
    DownloadNameOfLabel(preset, format);
  }

  /** Load an image on a page whose PNG radio is checked, pick 'circle' and crop. */
  method CircleCropUnderPng(file: File, box: Dims) returns (app: ImageCropper)
    requires StartsWith(file.mimeType, "image/")
    ensures fresh(app) && app.Valid() && app.page.circle && app.page.checkedFormat == Some("png")
    ensures app.lastCanvas.Some? && app.lastCanvas.value.Circular? && !app.lastCanvas.value.layout.whiteFill
  {
    app := new ImageCropper(Some("png"));
    app.LoadImage(file, box);
    PresetTableShape("circle");
    PickRatio(app, "circle");
    app.CropImage();
  }

  /**
   * A circle crop made under PNG, with JPEG picked afterwards: the hint then
   * announces a white background, but the exported canvas was drawn without
   * one and is encoded as JPEG as it is.
   */
  method LateFormatSession(file: File, box: Dims)
    returns (hint: FormatHint, whiteFill: bool, mimeType: string)
    requires StartsWith(file.mimeType, "image/")
    ensures hint == AddsWhiteBackground
    ensures !whiteFill
    ensures mimeType == "image/jpeg"
  {
    var app := CircleCropUnderPng(file, box);
    whiteFill := app.lastCanvas.value.layout.whiteFill;
    app.FormatSelected("jpg");
    hint := app.page.formatHint;
    var link := app.DownloadImage();
    mimeType := link.value.href.mimeType;
  }

  /**
   * A preset chosen before switching the ratio to 'free' stays in the hidden
   * selector: the next crop is still requested at the preset's size, while
   * the file name follows the crop box the label last showed.
   */
  method HiddenPresetSession(file: File, box: Dims, token: string, i: nat, newBox: Dims)
    returns (size: Dims, selectorShown: bool, name: string)
    requires StartsWith(file.mimeType, "image/") && i < |PresetsFor(token)|
    ensures size == PresetsFor(token)[i].size && !selectorShown
    ensures name == "cropea-" + Decimal(newBox.width) + "x" + Decimal(newBox.height) + "px.png"
  {
    var app := new ImageCropper(Some("png"));
    app.LoadImage(file, box);
    PickPreset(app, token, i);
    SwitchToFree(app);
    app.CropBoxChanged(newBox);
    app.CropImage();
    PresetCropSize(token, i, newBox, false, "png");
    size, selectorShown := Size(app.lastCanvas.value), app.page.presetShown;
    var link := app.DownloadImage();
    name := link.value.filename;
    assert app.page.dimensions == DimensionLabel(newBox) && SelectedFormat(app.page) == "png";
    DownloadNameOfLabel(newBox, "png");
    PngSuffix("cropea-" + Decimal(newBox.width) + "x" + Decimal(newBox.height));
  }

  /**
   * A file that is not an image keeps the session (original file, live
   * cropper) and only zeroes the label; undo then reloads the original.
   */
  method RejectedFileSession(file: File, other: File, box: Dims)
    returns (barText: string, kept: Option<File>, cropperKept: bool, reloaded: Option<Image>)
    requires StartsWith(file.mimeType, "image/") && !StartsWith(other.mimeType, "image/")
    ensures barText == "0 x 0 px"
    ensures kept == Some(file) && cropperKept && reloaded == Some(FromFile(file))
  {
    var app := new ImageCropper(None);
    app.LoadImage(file, box);
    app.LoadImage(other, box);
    barText, kept, cropperKept := app.page.dimensions, app.originalFile, app.cropper.Some?;
    app.UndoChanges(box);
    reloaded := app.imgElement;
  }

  /**
   * After a crop the cropper is gone, so a second crop changes nothing, and
   * clearing the page keeps the cropped canvas. The page then hides the
   * download button, so only a direct call of the download still yields it.
   */
  method CropThenClearSession(file: File, box: Dims)
    returns (first: Canvas, second: Canvas, buttonShown: bool, download: Option<Download>)
    requires StartsWith(file.mimeType, "image/")
    ensures first == second == Cropped(box)
    ensures !buttonShown
    ensures download.Some? && download.value.href.canvas == first
    ensures download.value.filename == "cropea-0x0px.png"
  {
    var app := new ImageCropper(Some("jpg"));
    app.LoadImage(file, box);
    app.CropImage();
    first := app.lastCanvas.value;
    app.CropImage();
    second := app.lastCanvas.value;
    app.ClearAll();
    buttonShown := app.page.downloadShown;
    download := app.DownloadImage();
    assert app.page.dimensions == DimensionLabel(Dims(0, 0)) && SelectedFormat(app.page) == "png";
    ZeroLabelName();
  }

  /**
   * The download suffix for PNG, stated for a plain stem so that the sessions
   * using it do not have the solver unfold the numerals inside the stem.
   */
  lemma PngSuffix(stem: string)
    ensures stem + "px." + Extension("png") == stem + "px.png"
  {
    assert stem + "px." + "png" == stem + ("px." + "png");
  }

  /** The label of an empty session names the file `cropea-0x0px.png`. */
  lemma ZeroLabelName()
    ensures DownloadName(DimensionLabel(Dims(0, 0)), "png") == "cropea-0x0px.png"
  {
    DownloadNameOfLabel(Dims(0, 0), "png");
    var zero := Decimal(0);
    assert zero == "0";
    PngSuffix("cropea-" + zero + "x" + zero);
    assert "cropea-" + "0" + "x" + "0" == "cropea-0x0";
  }
}
