/**
 * The editing session of the `ImageCropper` class: its four fields
 * (`cropper`, `imgElement`, `originalFile`, `lastCanvas`) and the part of
 * the page it reads and writes, with one method per operation and per event
 * listener that drives them. Cropper.js is a value here: the image it works
 * on, its aspect-ratio constraint and its crop box.
 */
module Session {
  import opened Text
  import opened Sizes
  import opened Drawing
  import opened Presets
  import opened Export

  /** A dropped or chosen file; only its name and its `type` matter. */
  datatype File = File(name: string, mimeType: string)

  /** `canvas.toDataURL(mimeType, quality)`. */
  datatype Encoding = Encoding(canvas: Canvas, mimeType: string, quality: Option<real>)

  /** The source of an `<img>`: an object URL of a file or a data URL of a canvas. */
  datatype Image = FromFile(file: File) | FromDataUrl(data: Encoding)

  /** A live Cropper.js instance. */
  datatype Cropper = Cropper(image: Image, aspect: Aspect, box: Dims)

  /** What the drop area shows. */
  datatype DropArea = Placeholder | ErrorIcon | Showing(image: Image)

  /** The link `downloadImage` clicks. */
  datatype Download = Download(href: Encoding, filename: string)

  /**
   * The page elements the class touches: the drop area (content and its
   * 'circle' class), the dimensions bar, the preset selector (entries, value,
   * visibility), the checked format radio, the format hint, and the
   * visibility of the download button and of the format selector.
   */
  datatype Page = Page(
    dropArea: DropArea,
    circle: bool,
    dimensions: string,
    presetOptions: seq<SelectOption>,
    presetValue: string,
    presetShown: bool,
    checkedFormat: Option<string>,
    formatHint: FormatHint,
    downloadShown: bool,
    formatSelectorShown: bool)

  /** `getSelectedFormat()`: the checked radio's value, 'png' when none is checked. */
  function SelectedFormat(p: Page): string {
    match p.checkedFormat
    case Some(f) => f
    case None => "png"
  }

  /**
   * The page after `updatePresetOptions(ratio)`: a ratio with presets
   * refills the selector (its value back to the prompt) and shows it; any
   * other ratio only hides it, leaving its entries and its value as they were.
   */
  function WithPresetOptions(p: Page, ratio: string): (r: Page)
    ensures r == p.(presetOptions := r.presetOptions, presetValue := r.presetValue, presetShown := r.presetShown)
    ensures r.presetShown <==> |PresetsFor(ratio)| > 0
  {
    if |PresetsFor(ratio)| > 0 then p.(presetOptions := OptionsFor(ratio), presetValue := "", presetShown := true)
    else p.(presetShown := false)
  }

  /** The size `cropImage` obtains from `getCroppedCanvas`: the selected preset if any, else the crop box. */
  function RequestedSize(box: Dims, presetValue: string): (d: Dims)
    ensures presetValue == "" ==> d == box
    ensures presetValue != "" && ParsePresetValue(presetValue).Some? ==> d == ParsePresetValue(presetValue).value
  {
    if presetValue == "" then box
    else match ParsePresetValue(presetValue)
      case Some(d) => d
      case None => box
  }

  /**
   * The canvas `cropImage` keeps: the crop at the requested size, made
   * circular when the drop area has the 'circle' class.
   */
  function CropResult(box: Dims, presetValue: string, circular: bool, format: string): (c: Canvas)
    ensures !circular ==> Size(c) == RequestedSize(box, presetValue)
    ensures circular ==> (Size(c).width == Size(c).height ==
              Min(RequestedSize(box, presetValue).width, RequestedSize(box, presetValue).height))
    ensures circular ==> c.Circular? && (c.layout.whiteFill <==> format != "png")
  {
    var cropped := Cropped(RequestedSize(box, presetValue));
    if circular then CreateCircularCanvas(cropped, format) else cropped
  }

  /** With a preset chosen from the selector, the output has that preset's size (made square if circular). */
  lemma CropResultOfPreset(ratio: string, k: nat, box: Dims, circular: bool, format: string)
    requires 0 < k < |OptionsFor(ratio)|
    ensures var p := PresetsFor(ratio)[k - 1].size;
            Size(CropResult(box, ValueOf(OptionsFor(ratio)[k]), circular, format)) ==
              if circular then Dims(Min(p.width, p.height), Min(p.width, p.height)) else p
  {
    OptionValuesParse(ratio, k);
  }

  class ImageCropper {
    var cropper: Option<Cropper>
    var imgElement: Option<Image>
    var originalFile: Option<File>
    var lastCanvas: Option<Canvas>
    var page: Page
    /** The ratio whose presets the selector lists, when it lists any. */
    ghost var optionsRatio: string

    ghost predicate Valid()
      reads this
    {
      && (cropper.Some? ==> imgElement == Some(cropper.value.image))
      && (originalFile.Some? ==> StartsWith(originalFile.value.mimeType, "image/"))
      && (page.presetOptions == [] || page.presetOptions == OptionsFor(optionsRatio))
      && (page.presetValue == "" || ParsePresetValue(page.presetValue).Some?)
    }

    /** `new ImageCropper()`, with `init()`'s `resetUI`; `checked` is the radio the page starts with. */
    constructor (checked: Option<string>)
      ensures Valid()
      ensures cropper == None && imgElement == None && originalFile == None && lastCanvas == None
      ensures page == Page(Placeholder, false, DimensionLabel(Dims(0, 0)), [], "", false, checked, NoHint, false, false)
    {
      cropper, imgElement, originalFile, lastCanvas := None, None, None, None;
      page := Page(Placeholder, false, DimensionLabel(Dims(0, 0)), [], "", false, checked, NoHint, false, false);
      optionsRatio := "";
    }

    /** `updateDimensions(width, height)`. */
    method UpdateDimensions(size: Dims)
      modifies this`page
      ensures page == old(page).(dimensions := DimensionLabel(size))
    {
      page := page.(dimensions := DimensionLabel(size));
    }

    /** `destroyCropper()`. */
    method DestroyCropper()
      modifies this`cropper
      ensures cropper == None
    {
      if cropper.Some? {
        cropper := None;
      }
    }

    /** `showError()`: the error icon and a zero label; nothing else changes. */
    method ShowError()
      modifies this`page
      ensures page == old(page).(dropArea := ErrorIcon, dimensions := DimensionLabel(Dims(0, 0)))
    {
      page := page.(dropArea := ErrorIcon);
      UpdateDimensions(Dims(0, 0));
    }

    /** `resetUI()`. */
    method ResetUI()
      modifies this`page
      ensures page == old(page).(dropArea := Placeholder, dimensions := DimensionLabel(Dims(0, 0)),
                                 downloadShown := false, presetShown := false,
                                 formatSelectorShown := false, formatHint := NoHint)
    {
      page := page.(dropArea := Placeholder);
      UpdateDimensions(Dims(0, 0));
      page := page.(downloadShown := false, presetShown := false, formatSelectorShown := false, formatHint := NoHint);
    }

    /** `updateFormatHint()`. */
    method UpdateFormatHint()
      modifies this`page
      ensures page == old(page).(formatHint := HintFor(old(page).circle, SelectedFormat(old(page))))
    {
      page := page.(formatHint := HintFor(page.circle, SelectedFormat(page)));
    }

    /** `updatePresetOptions(ratio)`. */
    method UpdatePresetOptions(ratio: string)
      requires Valid()
      modifies this`page, this`optionsRatio
      ensures Valid()
      ensures page == WithPresetOptions(old(page), ratio)
    {
      var options := PresetsFor(ratio);
      if |options| > 0 {
        page := page.(presetOptions := OptionsFor(ratio), presetValue := "", presetShown := true);
        optionsRatio := ratio;
      } else {
        page := page.(presetShown := false);
      }
    }

    /** `initCropper()`; `box` is the crop box Cropper.js starts with on the decoded image. */
    method InitCropper(box: Dims)
      requires Valid()
      modifies this`cropper
      ensures Valid()
      ensures old(imgElement).None? ==> cropper == old(cropper)
      ensures old(imgElement).Some? ==> cropper == Some(Cropper(imgElement.value, Free, box))
    {
      if imgElement.None? {
        return;
      }
      cropper := Some(Cropper(imgElement.value, Free, box));
    }

    /**
     * `loadImage(file)`: a file whose type is not `image/...` shows the error
     * state and changes nothing else; an image becomes the original, replaces
     * the displayed image and gets a fresh unconstrained cropper.
     */
    method LoadImage(file: File, box: Dims)
      requires Valid()
      modifies this`originalFile, this`cropper, this`imgElement, this`page
      ensures Valid()
      ensures lastCanvas == old(lastCanvas)
      ensures !StartsWith(file.mimeType, "image/") ==>
                && originalFile == old(originalFile) && cropper == old(cropper) && imgElement == old(imgElement)
                && page == old(page).(dropArea := ErrorIcon, dimensions := DimensionLabel(Dims(0, 0)))
      ensures StartsWith(file.mimeType, "image/") ==>
                && originalFile == Some(file)
                && imgElement == Some(FromFile(file))
                && cropper == Some(Cropper(FromFile(file), Free, box))
                && page == old(page).(circle := false, dropArea := Showing(FromFile(file)),
                                      downloadShown := false, presetShown := false, formatSelectorShown := false)
    {
      if !StartsWith(file.mimeType, "image/") {
        ShowError();
        return;
      }
      originalFile := Some(file);
      DestroyCropper();
      page := page.(circle := false, dropArea := Showing(FromFile(file)));
      imgElement := Some(FromFile(file));
      InitCropper(box);
      page := page.(downloadShown := false, presetShown := false, formatSelectorShown := false);
    }

    /** The cropper's `crop` callback: the crop box now measures `size` (already rounded). */
    method CropBoxChanged(size: Dims)
      requires Valid() && cropper.Some?
      modifies this`cropper, this`page
      ensures Valid()
      ensures cropper == Some(old(cropper).value.(box := size))
      ensures page == old(page).(dimensions := DimensionLabel(size))
    {
      cropper := Some(cropper.value.(box := size));
      UpdateDimensions(size);
    }

    /**
     * `setActiveRatio(ratio)`: without a cropper nothing happens; otherwise
     * the constraint and the 'circle' class follow `ChooseRatio` and the
     * preset selector is updated for the token.
     */
    method SetActiveRatio(token: string)
      requires Valid()
      modifies this`cropper, this`page, this`optionsRatio
      ensures Valid()
      ensures old(cropper).None? ==> cropper == old(cropper) && page == old(page)
      ensures old(cropper).Some? ==>
                && cropper == Some(old(cropper).value.(aspect := ChooseRatio(token).aspect))
                && page == WithPresetOptions(old(page).(circle := ChooseRatio(token).circular), token)
    {
      if cropper.None? {
        return;
      }
      var choice := ChooseRatio(token);
      cropper := Some(cropper.value.(aspect := choice.aspect));
      page := page.(circle := choice.circular);
      UpdatePresetOptions(token);
    }

    /** A ratio button (or the mobile ratio selector) was used: `setActiveRatio`, then `updateFormatHint`. */
    method RatioSelected(token: string)
      requires Valid()
      modifies this`cropper, this`page, this`optionsRatio
      ensures Valid()
      ensures old(cropper).None? ==>
                cropper == old(cropper) &&
                page == old(page).(formatHint := HintFor(old(page).circle, SelectedFormat(old(page))))
      ensures old(cropper).Some? ==>
                && cropper == Some(old(cropper).value.(aspect := ChooseRatio(token).aspect))
                && page == WithPresetOptions(old(page).(circle := ChooseRatio(token).circular), token)
                            .(formatHint := HintFor(ChooseRatio(token).circular, SelectedFormat(old(page))))
    {
      SetActiveRatio(token);
      UpdateFormatHint();
    }

    /**
     * `applyPresetDimensions()`: with a cropper and a chosen preset, the crop
     * box takes the preset's size and the label shows it.
     */
    method ApplyPresetDimensions()
      requires Valid()
      modifies this`cropper, this`page
      ensures Valid()
      ensures old(cropper).None? || old(page).presetValue == "" ==> cropper == old(cropper) && page == old(page)
      ensures old(cropper).Some? && old(page).presetValue != "" ==>
                && Some(RequestedSize(old(cropper).value.box, old(page).presetValue)) == ParsePresetValue(old(page).presetValue)
                && cropper == Some(old(cropper).value.(box := RequestedSize(old(cropper).value.box, old(page).presetValue)))
                && page == old(page).(dimensions := DimensionLabel(RequestedSize(old(cropper).value.box, old(page).presetValue)))
    {
      if cropper.None? || page.presetValue == "" {
        return;
      }
      var size := RequestedSize(cropper.value.box, page.presetValue);
      cropper := Some(cropper.value.(box := size));
      UpdateDimensions(size);
    }

    /** The preset selector's `change` listener, after the user chose its `k`-th entry. */
    method PresetSelected(k: nat)
      requires Valid() && k < |page.presetOptions|
      modifies this`cropper, this`page
      ensures Valid()
      ensures page.presetValue == ValueOf(old(page).presetOptions[k])
      ensures old(cropper).None? || page.presetValue == "" ==>
                cropper == old(cropper) && page == old(page).(presetValue := page.presetValue)
      ensures old(cropper).Some? && page.presetValue != "" ==>
                && Some(RequestedSize(old(cropper).value.box, page.presetValue)) == ParsePresetValue(page.presetValue)
                && cropper == Some(old(cropper).value.(box := RequestedSize(old(cropper).value.box, page.presetValue)))
                && page == old(page).(presetValue := page.presetValue,
                                      dimensions := DimensionLabel(RequestedSize(old(cropper).value.box, page.presetValue)))
    {
      if k > 0 {
        OptionValuesParse(optionsRatio, k);
      }
      page := page.(presetValue := ValueOf(page.presetOptions[k]));
      ApplyPresetDimensions();
    }

    /** A format radio was checked: `updateRadioButtons`, then `updateFormatHint`. */
    method FormatSelected(format: string)
      requires Valid()
      modifies this`page
      ensures Valid()
      ensures page == old(page).(checkedFormat := Some(format), formatHint := HintFor(old(page).circle, format))
    {
      page := page.(checkedFormat := Some(format));
      UpdateFormatHint();
    }

    /**
     * `displayCroppedImage(canvas)`: the drop area shows the canvas as a PNG
     * data URL, that image becomes `imgElement`, and the cropper is destroyed.
     */
    method DisplayCroppedImage(canvas: Canvas)
      requires Valid()
      modifies this`page, this`imgElement, this`cropper
      ensures Valid()
      ensures imgElement == Some(FromDataUrl(Encoding(canvas, "image/png", None)))
      ensures page == old(page).(dropArea := Showing(imgElement.value))
      ensures cropper == None
    {
      var img := FromDataUrl(Encoding(canvas, "image/png", None));
      page := page.(dropArea := Showing(img));
      imgElement := Some(img);
      DestroyCropper();
    }

    /** `showDownloadOptions()`. */
    method ShowDownloadOptions()
      requires Valid()
      modifies this`page
      ensures Valid()
      ensures page == old(page).(downloadShown := true, formatSelectorShown := true,
                                 formatHint := HintFor(old(page).circle, SelectedFormat(old(page))))
    {
      page := page.(downloadShown := true, formatSelectorShown := true);
      UpdateFormatHint();
    }

    /**
     * `cropImage()`: without a cropper nothing happens. Otherwise the crop
     * (at the preset size if one is chosen, made circular with the 'circle'
     * class) becomes `lastCanvas` and is displayed, and the cropper is gone,
     * so a second crop does nothing until the next load.
     */
    method CropImage()
      requires Valid()
      modifies this`lastCanvas, this`page, this`imgElement, this`cropper
      ensures Valid()
      ensures old(cropper).None? ==>
                lastCanvas == old(lastCanvas) && page == old(page) && imgElement == old(imgElement) && cropper == None
      ensures old(cropper).Some? ==>
                && lastCanvas == Some(CropResult(old(cropper).value.box, old(page).presetValue,
                                                 old(page).circle, SelectedFormat(old(page))))
                && cropper == None
                && imgElement == Some(FromDataUrl(Encoding(lastCanvas.value, "image/png", None)))
                && page == old(page).(dropArea := Showing(imgElement.value),
                                      downloadShown := true, formatSelectorShown := true,
                                      formatHint := HintFor(old(page).circle, SelectedFormat(old(page))))
    {
      if cropper.None? {
        return;
      }
      var canvas := Cropped(cropper.value.box);
      if page.presetValue != "" {
        var parsed := ParsePresetValue(page.presetValue);
        canvas := Cropped(parsed.value);
      }
      if page.circle {
        canvas := CreateCircularCanvas(canvas, SelectedFormat(page));
      }
      lastCanvas := Some(canvas);
      DisplayCroppedImage(canvas);
      ShowDownloadOptions();
    }

    /**
     * `downloadImage()`: nothing without a cropped canvas; otherwise a link to
     * the canvas encoded in the selected format, named after the dimensions
     * bar.
     */
    method DownloadImage() returns (link: Option<Download>)
      ensures link.None? <==> lastCanvas.None?
      ensures link.Some? ==>
                && link.value.href == Encoding(lastCanvas.value, MimeType(SelectedFormat(page)), Quality(SelectedFormat(page)))
                && link.value.filename == DownloadName(page.dimensions, SelectedFormat(page))
      ensures link.Some? ==> forall size :: page.dimensions == DimensionLabel(size) ==>
                link.value.filename == "cropea-" + Decimal(size.width) + "x" + Decimal(size.height) + "px."
                                       + Extension(SelectedFormat(page))
    {
      if lastCanvas.None? {
        return None;
      }
      var format := SelectedFormat(page);
      var mimeType := MimeType(format);
      var extension := Extension(format);
      var quality := Quality(format);
      var href := Encoding(lastCanvas.value, mimeType, quality);
      var filename := DownloadName(page.dimensions, format);
      forall size | page.dimensions == DimensionLabel(size)
        ensures filename == "cropea-" + Decimal(size.width) + "x" + Decimal(size.height) + "px." + extension
      {
        DownloadNameOfLabel(size, format);
      }
      link := Some(Download(href, filename));
    }

    /**
     * `undoChanges()`: reloads the original file if there is one (always an
     * image, since only images are kept); `box` is the new cropper's crop box.
     */
    method UndoChanges(box: Dims)
      requires Valid()
      modifies this`originalFile, this`cropper, this`imgElement, this`page
      ensures Valid()
      ensures lastCanvas == old(lastCanvas) && originalFile == old(originalFile)
      ensures old(originalFile).None? ==>
                cropper == old(cropper) && imgElement == old(imgElement) && page == old(page)
      ensures old(originalFile).Some? ==>
                && imgElement == Some(FromFile(originalFile.value))
                && cropper == Some(Cropper(FromFile(originalFile.value), Free, box))
                && page == old(page).(circle := false, dropArea := Showing(FromFile(originalFile.value)),
                                      downloadShown := false, presetShown := false, formatSelectorShown := false)
    {
      if originalFile.Some? {
        LoadImage(originalFile.value, box);
      }
    }

    /**
     * `clearAll()`: the cropper is destroyed, the page reset and PNG checked;
     * the original file, the last canvas and the displayed image are kept.
     */
    method ClearAll()
      requires Valid()
      modifies this`cropper, this`page
      ensures Valid()
      ensures cropper == None
      ensures page == old(page).(dropArea := Placeholder, dimensions := DimensionLabel(Dims(0, 0)),
                                 downloadShown := false, presetShown := false, formatSelectorShown := false,
                                 formatHint := NoHint, checkedFormat := Some("png"))
    {
      DestroyCropper();
      ResetUI();
      page := page.(checkedFormat := Some("png"));
    }
  }
}
