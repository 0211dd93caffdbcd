/**
 * What a download is made of: the MIME type and file extension of the
 * selected format (PNG when the format is unknown), the quality given to
 * lossy encoders, the dimension label `"W x H px"` and the file name that
 * `downloadImage` derives from it.
 */
module Export {
  import opened Text
  import opened Sizes
  import Presets

  /** `getMimeType(format)`. */
  function MimeType(format: string): (m: string)
    ensures StartsWith(m, "image/")
  {
    if format == "png" then "image/png"
    else if format == "jpg" then "image/jpeg"
    else if format == "webp" then "image/webp"
    else if format == "gif" then "image/gif"
    else "image/png"
  }

  /** `getFileExtension(format)`. */
  function Extension(format: string): (e: string)
    ensures e in {"png", "jpg", "webp", "gif"}
  {
    if format == "png" then "png"
    else if format == "jpg" then "jpg"
    else if format == "webp" then "webp"
    else if format == "gif" then "gif"
    else "png"
  }

  /** The four supported formats keep their own name as extension; anything else falls back to PNG. */
  lemma FormatTables(format: string)
    ensures format in {"png", "jpg", "webp", "gif"} ==> Extension(format) == format
    ensures format !in {"png", "jpg", "webp", "gif"} ==> MimeType(format) == "image/png" && Extension(format) == "png"
    ensures MimeType("jpg") == "image/jpeg" && MimeType("webp") == "image/webp" && MimeType("gif") == "image/gif"
  {
  }

  /** The two tables never disagree: the MIME subtype is the extension, spelled "jpeg" for "jpg". */
  lemma MimeTypeMatchesExtension(format: string)
    ensures MimeType(format) == "image/" + (if Extension(format) == "jpg" then "jpeg" else Extension(format))
  {
  }

  /** Lossy formats (JPEG and WebP) are encoded at quality 0.9; the others get no quality argument. */
  function Quality(format: string): (q: Option<real>)
    ensures q.Some? ==> q.value == 0.9
    ensures q.Some? <==> MimeType(format) in {"image/jpeg", "image/webp"}
  {
    if format == "jpg" || format == "webp" then Some(0.9) else None
  }

  /** `updateDimensions(width, height)`: the text of the dimensions bar. */
  function DimensionLabel(size: Dims): string {
    Decimal(size.width) + " x " + Decimal(size.height) + " px"
  }

  /** The label with every ` px` removed, then its first ` x ` closed up to `x`. */
  function LabelStem(text: string): string {
    ReplaceFirst(ReplaceAll(text, " px", ""), " x ", "x")
  }

  /** The `download` name of the link: `cropea-`, the label's stem, `px.` and the format's extension. */
  function DownloadName(text: string, format: string): string {
    "cropea-" + LabelStem(text) + "px." + Extension(format)
  }

  /** Removing the unit from `" H px"` leaves `" H"`. */
  lemma {:induction false} RemoveUnitSuffix(h: string)
    requires AllDigits(h) && |h| > 0
    ensures ReplaceAll(" " + h + " px", " px", "") == " " + h
  {
    var s := " " + h + " px";
    assert s[..3] != " px" by { assert s[..3][1] == h[0]; }
    assert s[1..] == h + " px";
    DigitsLackChar(h, ' ');
    ReplaceAllSkips(h, " px", " px", "");
    assert " px"[..3] == " px" && " px"[3..] == "";
    calc {
      ReplaceAll(s, " px", "");
      [' '] + ReplaceAll(h + " px", " px", "");
      [' '] + (h + ReplaceAll(" px", " px", ""));
      [' '] + (h + ("" + ReplaceAll("", " px", "")));
      " " + h;
    }
  }

  /** Removing the unit from `"W x H px"` leaves `"W x H"`. */
  lemma {:induction false} RemoveUnit(w: string, h: string)
    requires AllDigits(w) && AllDigits(h) && |h| > 0
    ensures ReplaceAll(w + " x " + h + " px", " px", "") == w + " x " + h
  {
    DigitsLackChar(w, ' ');
    var rest := " x " + h + " px";
    assert w + " x " + h + " px" == w + rest;
    ReplaceAllSkips(w, rest, " px", "");
    assert rest[..3] != " px" by { assert rest[..3][1] == 'x'; }
    assert rest[1..] == "x" + (" " + h + " px");
    ReplaceAllSkips("x", " " + h + " px", " px", "");
    RemoveUnitSuffix(h);
    calc {
      ReplaceAll(rest, " px", "");
      [' '] + ReplaceAll(rest[1..], " px", "");
      [' '] + ("x" + ReplaceAll(" " + h + " px", " px", ""));
      [' '] + ("x" + (" " + h));
    }
    assert w + ([' '] + ("x" + (" " + h))) == w + " x " + h;
  }

  /** Replacing the first `" x "` of `"W x H"` gives `"WxH"`. */
  lemma {:induction false} JoinWithX(w: string, h: string)
    requires AllDigits(w)
    ensures ReplaceFirst(w + " x " + h, " x ", "x") == w + "x" + h
  {
    DigitsLackChar(w, ' ');
    ReplaceFirstSkips(w, " x " + h, " x ", "x");
    assert (" x " + h)[..3] == " x " && (" x " + h)[3..] == h;
    assert w + " x " + h == w + (" x " + h);
  }

  /** The stem of a label `"W x H px"` built from two numerals is `"WxH"`. */
  lemma StemOfLabel(w: string, h: string)
    requires AllDigits(w) && AllDigits(h) && |h| > 0
    ensures LabelStem(w + " x " + h + " px") == w + "x" + h
  {
    RemoveUnit(w, h);
    JoinWithX(w, h);
  }

  /** The chain of replacements turns the label `"W x H px"` into the option value `"WxH"`. */
  lemma LabelStemIsOptionValue(size: Dims)
    ensures LabelStem(DimensionLabel(size)) == Presets.OptionValue(size)
  {
    StemOfLabel(Decimal(size.width), Decimal(size.height));
  }

  /**
   * The file name shows the width and height of the label it was built from,
   * and reading its dimension part back gives those numbers.
   */
  lemma DownloadNameOfLabel(size: Dims, format: string)
    ensures DownloadName(DimensionLabel(size), format) ==
            "cropea-" + Decimal(size.width) + "x" + Decimal(size.height) + "px." + Extension(format)
    ensures Presets.ParsePresetValue(LabelStem(DimensionLabel(size))) == Some(size)
  {
    LabelStemIsOptionValue(size);
    Presets.OptionValueRoundTrip(size);
  }
}
