/**
 * The aspect-ratio tokens of the sidebar, the preset resolutions offered for
 * each, the `<option>` values the preset selector is filled with, and how a
 * token becomes Cropper.js's aspect-ratio constraint.
 */
module Presets {
  import opened Text
  import opened Sizes

  datatype Preset = Preset(name: string, size: Dims)

  /** The resolutions listed for a ratio token, in table order; none for a token the table lacks. */
  function PresetsFor(ratio: string): seq<Preset> {
    if ratio == "16/9" then
      [Preset("HD", Dims(1280, 720)), Preset("FullHD", Dims(1920, 1080)),
       Preset("2K", Dims(2560, 1440)), Preset("4K", Dims(3840, 2160))]
    else if ratio == "9/16" then
      [Preset("HD", Dims(720, 1280)), Preset("FullHD", Dims(1080, 1920)),
       Preset("2K", Dims(1440, 2560)), Preset("4K", Dims(2160, 3840))]
    else if ratio == "1" then
      [Preset("1K", Dims(1000, 1000)), Preset("2K", Dims(2000, 2000))]
    else if ratio == "circle" then
      [Preset("100x100", Dims(100, 100)), Preset("150x150", Dims(150, 150)),
       Preset("250x250", Dims(250, 250)), Preset("500x500", Dims(500, 500)),
       Preset("600x600", Dims(600, 600)), Preset("650x650", Dims(650, 650)),
       Preset("1000x1000", Dims(1000, 1000))]
    else []  // 'free' and every token without an entry
  }

  /** Only the four ratio tokens with a list have presets; every preset is non-degenerate. */
  lemma PresetTableShape(ratio: string)
    ensures |PresetsFor(ratio)| > 0 <==> ratio in {"16/9", "9/16", "1", "circle"}
    ensures PresetsFor("free") == []
    ensures forall p :: p in PresetsFor(ratio) ==> p.size.width > 0 && p.size.height > 0
  {
  }

  /** Every 16:9 preset really has that shape, and the 9:16 list is its transpose. */
  lemma WidescreenPresets()
    ensures forall p :: p in PresetsFor("16/9") ==> 9 * p.size.width == 16 * p.size.height
    ensures |PresetsFor("9/16")| == |PresetsFor("16/9")|
    ensures forall i :: 0 <= i < |PresetsFor("9/16")| ==>
              PresetsFor("9/16")[i].name == PresetsFor("16/9")[i].name &&
              PresetsFor("9/16")[i].size == Dims(PresetsFor("16/9")[i].size.height, PresetsFor("16/9")[i].size.width)
  {
  }

  /** The square ratio and the circle offer only square presets. */
  lemma SquarePresets()
    ensures forall p :: p in PresetsFor("1") + PresetsFor("circle") ==> p.size.width == p.size.height
  {
  }

  /** The value of a preset's `<option>`: its width and height as numerals joined by `x`. */
  function OptionValue(size: Dims): string {
    Decimal(size.width) + "x" + Decimal(size.height)
  }

  /**
   * Reading an option value back: it is split at each `x` and the first two
   * pieces are converted to numbers; None when a piece is missing or is not a
   * number.
   */
  function ParsePresetValue(value: string): (r: Option<Dims>)
    ensures r.Some? <==> |Split(value, 'x')| >= 2 && AllDigits(Split(value, 'x')[0]) && AllDigits(Split(value, 'x')[1])
  {
    var parts := Split(value, 'x');
    if |parts| < 2 then None
    else match (ToNumber(parts[0]), ToNumber(parts[1]))
      case (Some(w), Some(h)) => Some(Dims(w, h))
      case _ => None
  }

  /** Reading an option value back gives exactly the preset's width and height. */
  lemma {:induction false} OptionValueRoundTrip(size: Dims)
    ensures ParsePresetValue(OptionValue(size)) == Some(size)
  {
    var w, h := Decimal(size.width), Decimal(size.height);
    DigitsLackChar(w, 'x');
    DigitsLackChar(h, 'x');
    assert Join([w, h], 'x') == OptionValue(size);
    SplitJoin([w, h], 'x');
  }

  /** An entry of the preset selector: the prompt (value "") or a preset. */
  datatype SelectOption = Prompt | Choice(value: string, name: string)

  function ValueOf(o: SelectOption): string {
    match o
    case Prompt => ""
    case Choice(v, _) => v
  }

  /** The entries `updatePresetOptions` writes for a ratio with presets: the prompt, then one per preset. */
  function OptionsFor(ratio: string): (opts: seq<SelectOption>)
    ensures |opts| == |PresetsFor(ratio)| + 1 && opts[0] == Prompt
    ensures forall i :: 0 <= i < |PresetsFor(ratio)| ==>
              opts[i + 1] == Choice(OptionValue(PresetsFor(ratio)[i].size), PresetsFor(ratio)[i].name)
  {
    var ps := PresetsFor(ratio);
    [Prompt] + seq(|ps|, i requires 0 <= i < |ps| => Choice(OptionValue(ps[i].size), ps[i].name))
  }

  /** Every entry after the prompt holds a non-empty value that parses to its preset's size. */
  lemma OptionValuesParse(ratio: string, k: nat)
    requires 0 < k < |OptionsFor(ratio)|
    ensures ValueOf(OptionsFor(ratio)[k]) != ""
    ensures ParsePresetValue(ValueOf(OptionsFor(ratio)[k])) == Some(PresetsFor(ratio)[k - 1].size)
  {
    OptionValueRoundTrip(PresetsFor(ratio)[k - 1].size);
  }

  /**
   * The constraint handed to `cropper.setAspectRatio`: `Free` is `NaN`,
   * which Cropper.js reads as no constraint; `Ratio(num, den)` is the
   * quotient `num / den` (with `den == 0` standing for `Infinity`).
   */
  datatype Aspect = Free | Ratio(num: nat, den: nat)

  /** `parseRatio`: "1" is 1; otherwise `parseInt` of the pieces around '/' divided. */
  function ParseRatio(s: string): (a: Aspect)
    ensures s == "1" ==> a == Ratio(1, 1)
    ensures s != "1" && '/' !in s ==> a == Free
  {
    if s == "1" then Ratio(1, 1)
    else
      var parts := Split(s, '/');
      if |parts| < 2 then Free  // parseInt(undefined) is NaN
      else match (ParseInt(parts[0]), ParseInt(parts[1]))
        case (Some(n), Some(d)) => if n == 0 && d == 0 then Free else Ratio(n, d)  // 0 / 0 is NaN
        case _ => Free
  }

  /** `parseRatio('a/b')` is the quotient a/b. */
  lemma {:induction false} ParseRatioOfFraction(n: nat, d: nat)
    ensures ParseRatio(Decimal(n) + "/" + Decimal(d)) == if n == 0 && d == 0 then Free else Ratio(n, d)
  {
    var s := Decimal(n) + "/" + Decimal(d);
    assert s[|Decimal(n)|] == '/';
    DigitsLackChar(Decimal(n), '/');
    DigitsLackChar(Decimal(d), '/');
    assert Join([Decimal(n), Decimal(d)], '/') == s;
    SplitJoin([Decimal(n), Decimal(d)], '/');
  }

  /** What `setActiveRatio` sets for a token: the constraint and the drop area's 'circle' class. */
  datatype RatioChoice = RatioChoice(aspect: Aspect, circular: bool)

  function ChooseRatio(token: string): (c: RatioChoice)
    ensures c.circular <==> token == "circle"
    ensures token == "free" ==> c.aspect == Free
    ensures token == "circle" || token == "1" ==> c.aspect == Ratio(1, 1)
    ensures token != "free" && token != "circle" ==> c.aspect == ParseRatio(token)
  {
    if token == "free" then RatioChoice(Free, false)
    else if token == "circle" then RatioChoice(Ratio(1, 1), true)
    else RatioChoice(ParseRatio(token), false)
  }

  /** The numerals of the widescreen tokens. */
  lemma WidescreenNumerals()
    ensures Decimal(16) == "16" && Decimal(9) == "9"
  {
    assert Decimal(1) == "1" && Decimal(6) == "6";
  }

  /** The sidebar's two widescreen tokens parse to their fractions. */
  lemma WidescreenRatios()
    ensures ChooseRatio("16/9").aspect == Ratio(16, 9)
    ensures ChooseRatio("9/16").aspect == Ratio(9, 16)
  {
    WidescreenNumerals();
    ParseRatioOfFraction(16, 9);
    ParseRatioOfFraction(9, 16);
    assert "16" + "/" + "9" == "16/9";
    assert "9" + "/" + "16" == "9/16";
  }

  /** Every preset offered for a token has exactly the aspect ratio that token constrains the crop box to. */
  lemma PresetsMatchAspect(token: string, i: nat)
    requires i < |PresetsFor(token)|
    ensures ChooseRatio(token).aspect.Ratio?
    ensures PresetsFor(token)[i].size.width * ChooseRatio(token).aspect.den ==
            PresetsFor(token)[i].size.height * ChooseRatio(token).aspect.num
  {
    PresetTableShape(token);
    if token == "16/9" || token == "9/16" {
      WidescreenRatios();
      WidescreenPresets();
      assert PresetsFor(token)[i] in PresetsFor("16/9") || PresetsFor(token)[i] in PresetsFor("9/16");
    } else {
      assert token == "1" || token == "circle";
      SquarePresets();
      assert PresetsFor(token)[i] in PresetsFor("1") + PresetsFor("circle");
    }
  }
}
