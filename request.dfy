/** The form request `QrCodeRequest`: the rule table as a predicate over the
    input bag, the fields that `validated()` hands on, and the defaults that
    `prepareForValidation` merges in. */
module Request {
  import opened Values
  import opened Color

  // ---------------------------------------------------------------------
  // The patterns of the rule table

  /** `^#[0-9a-fA-F]{6}$` (a final line feed is tolerated by `$`). */
  predicate IsHexText(s: string)
  {
    IsHexColor(Subject(s))
  }

  /** `^(#[0-9a-fA-F]{6}|rgb\(\d{1,3},\s*\d{1,3},\s*\d{1,3}\))$`. The rgb
      alternative has the shape `parseColor` accepts, with one to three digits
      per channel. */
  predicate IsColorText(s: string)
  {
    var t := Subject(s);
    IsHexColor(t) ||
    (SplitRgb(t).Some? && |SplitRgb(t).value.d1| <= 3 && |SplitRgb(t).value.d2| <= 3 && |SplitRgb(t).value.d3| <= 3)
  }

  /** `^<prefix>[0-9]$`, as for `eyeOuter` and `eyeInner`. */
  predicate IsStyleId(s: string, prefix: string)
  {
    var t := Subject(s);
    |t| == |prefix| + 1 && t[..|prefix|] == prefix && IsDigit(t[|prefix|])
  }

  // ---------------------------------------------------------------------
  // Value-level rules

  /** A canonical decimal: optional sign, then `0` or digits without a leading zero. */
  predicate IntegerText(s: string)
  {
    var d := if |s| > 0 && (s[0] == '-' || s[0] == '+') then s[1..] else s;
    |d| > 0 && AllDigits(d) && (d[0] != '0' || |d| == 1)
  }

  /** The number an `integer` rule sees: a PHP int or a canonical decimal string. */
  function IntegerValue(v: Value): Option<int>
  {
    match v
    case VInt(i) => Some(i)
    case VStr(s) =>
      if IntegerText(s) then
        var d := if s[0] == '-' || s[0] == '+' then s[1..] else s;
        Some(if s[0] == '-' then -(DecimalValue(d) as int) else DecimalValue(d))
      else None
    case _ => None
  }

  predicate IntegerIn(v: Value, lo: int, hi: int)
  {
    IntegerValue(v).Some? && lo <= IntegerValue(v).value <= hi
  }

  /** The `boolean` rule: true, false, 0, 1, "0", "1". */
  predicate IsBooleanValue(v: Value)
  {
    v.VBool? || v == VInt(0) || v == VInt(1) || v == VStr("0") || v == VStr("1")
  }

  /** A `string` rule combined with a test of the string. */
  predicate StringWhere(v: Value, test: string -> bool)
  {
    v.VStr? && test(v.s)
  }

  /** Characters PHP's `trim` removes. */
  predicate IsTrimmed(c: char)
  {
    c == ' ' || c == '\t' || c == '\n' || c == '\r' || c == '\0' || c == '\U{B}'
  }

  /** A string that trims to "": only `required`-style rules look at it. */
  predicate IsBlank(v: Value)
  {
    v.VStr? && forall i :: 0 <= i < |v.s| ==> IsTrimmed(v.s[i])
  }

  /** A field that is present, not blank and not null. */
  predicate Given(input: Config, key: string)
  {
    key in input && !IsBlank(input[key]) && input[key] != VNull
  }

  /** One field's rules. Absent and blank values fail only a requirement; null
      passes only a `nullable` field that is not required; any other value
      must pass the field's own test. */
  predicate FieldOk(input: Config, key: string, required: bool, nullable: bool, test: Value -> bool)
  {
    if key !in input || IsBlank(input[key]) then !required
    else if input[key] == VNull then !required && nullable
    else test(input[key])
  }

  /** `required_if:<key>,true` against a field that carries a `boolean` rule:
      the framework compares with `true`, loosely unless the value is a bool,
      so the field is required exactly when the other value is truthy. */
  predicate RequiredIfTrue(input: Config, key: string)
  {
    key in input && Truthy(input[key])
  }

  /** The parts of the rule table whose meaning rests on framework parsing that
      this model does not interpret: the `url` rule, `required_without:gradient`
      and `required_if:frame,!=,null`. */
  datatype Framework = Framework(
    isUrl: string -> bool,
    colorDarkRequired: Config -> bool,
    frameColorRequired: Config -> bool)

  const Categories: set<string> := {"url", "text", "email", "phone", "sms", "vcard"}
  const Formats: set<string> := {"png", "svg"}
  const GradientKinds: set<string> := {"linear", "upDown", "diagonal1", "diagonal2", "radial"}

  /** The keys `rules()` names. */
  const RuleKeys: set<string> := {
    "qrCategory", "text", "size", "logo", "qrFormat", "colorDark", "backgroundColor",
    "gradient", "grdType", "color01", "color02", "transparentBkg", "eye_color",
    "eye_color01", "eye_color02", "eye_outer", "eye_inner", "frame", "frameColor", "frameText"}

  /** The fields marked `required`, and those marked `nullable` with no requirement. */
  const RequiredKeys: set<string> := {"qrCategory", "text", "size", "backgroundColor"}
  const OptionalKeys: set<string> := {
    "logo", "qrFormat", "gradient", "transparentBkg", "eye_color",
    "eye_outer", "eye_inner", "frame", "frameText"}

  /** Whether the named field passes its rules. The four `required` fields
      fail when missing, null or blank; the `nullable` fields without a
      requirement pass when missing or null; keys without rules pass. */
  function FieldPasses(input: Config, fw: Framework, key: string): (ok: bool)
    ensures key !in RuleKeys ==> ok
    ensures key in RequiredKeys && (key !in input || input[key] == VNull || IsBlank(input[key])) ==> !ok
    ensures key in OptionalKeys && (key !in input || input[key] == VNull) ==> ok
  {
    match key
    case "qrCategory" => FieldOk(input, key, true, false, v => StringWhere(v, s => s in Categories))
    case "text" => FieldOk(input, key, true, false, (v: Value) => v.VStr?)
    case "size" => FieldOk(input, key, true, false, v => IntegerIn(v, 200, 1000))
    case "logo" => FieldOk(input, key, false, true, v => StringWhere(v, fw.isUrl))
    case "qrFormat" => FieldOk(input, key, false, true, v => StringWhere(v, s => s in Formats))
    case "colorDark" => FieldOk(input, key, fw.colorDarkRequired(input), false, v => StringWhere(v, IsColorText))
    case "backgroundColor" => FieldOk(input, key, true, false, v => StringWhere(v, IsColorText))
    case "gradient" => FieldOk(input, key, false, true, IsBooleanValue)
    case "grdType" => FieldOk(input, key, RequiredIfTrue(input, "gradient"), false, v => StringWhere(v, s => s in GradientKinds))
    case "color01" => FieldOk(input, key, RequiredIfTrue(input, "gradient"), false, v => StringWhere(v, IsHexText))
    case "color02" => FieldOk(input, key, RequiredIfTrue(input, "gradient"), false, v => StringWhere(v, IsHexText))
    case "transparentBkg" => FieldOk(input, key, false, true, IsBooleanValue)
    case "eye_color" => FieldOk(input, key, false, true, IsBooleanValue)
    case "eye_color01" => FieldOk(input, key, RequiredIfTrue(input, "eye_color"), false, v => StringWhere(v, IsHexText))
    case "eye_color02" => FieldOk(input, key, RequiredIfTrue(input, "eye_color"), false, v => StringWhere(v, IsHexText))
    case "eye_outer" => FieldOk(input, key, false, true, v => StringWhere(v, s => IsStyleId(s, "eyeOuter")))
    case "eye_inner" => FieldOk(input, key, false, true, v => StringWhere(v, s => IsStyleId(s, "eyeInner")))
    case "frame" => FieldOk(input, key, false, true, v => IntegerIn(v, 1, 15))
    case "frameColor" => FieldOk(input, key, fw.frameColorRequired(input), false, v => StringWhere(v, IsHexText))
    case "frameText" => FieldOk(input, key, false, true, v => StringWhere(v, s => |s| <= 50))
    case _ => true
  }

  /** The fields whose rules fail; the request is rejected unless this is empty. */
  function Failures(input: Config, fw: Framework): (r: set<string>)
    ensures r <= RuleKeys
    ensures forall k :: k in RuleKeys ==> (k in r <==> !FieldPasses(input, fw, k))
  {
    set k | k in RuleKeys && !FieldPasses(input, fw, k)
  }

  /** `validated()`: the input restricted to the keys the rules name. */
  function Validated(input: Config): (r: Config)
    ensures r.Keys == input.Keys * RuleKeys
    ensures forall k :: k in r ==> r[k] == input[k]
  {
    map k | k in input && k in RuleKeys :: input[k]
  }

  // ---------------------------------------------------------------------
  // Properties of the rule table

  /** `size` passes exactly when it is an integer in [200, 1000]. */
  lemma SizeRule(input: Config, fw: Framework)
    requires "size" in input && !IsBlank(input["size"])
    ensures FieldPasses(input, fw, "size") <==> IntegerIn(input["size"], 200, 1000)
  {
  }

  /** Small worked cases of `size`: both bounds are inclusive. */
  lemma SizeBoundsInclusive(fw: Framework)
    ensures FieldPasses(map["size" := VInt(200)], fw, "size")
    ensures FieldPasses(map["size" := VInt(1000)], fw, "size")
    ensures !FieldPasses(map["size" := VInt(199)], fw, "size")
    ensures !FieldPasses(map["size" := VInt(1001)], fw, "size")
    ensures !FieldPasses(map[], fw, "size")
  {
  }

  /** Every colour text the validator lets through is accepted by `parseColor`,
      with each channel between 0 and 999: rgb channels above 255 pass. */
  lemma ValidColorParses(s: string)
    requires IsColorText(s)
    ensures ParseColor(s).Ok?
    ensures var c := ParseColor(s).value; 0 <= c.r <= 999 && 0 <= c.g <= 999 && 0 <= c.b <= 999
  {
    var t := Subject(s);
    if !IsHexColor(t) {
      var p := SplitRgb(t).value;
      SplitRgbSound(t);
      ThreeDigitsBelow1000(p.d1);
      ThreeDigitsBelow1000(p.d2);
      ThreeDigitsBelow1000(p.d3);
    }
  }

  /** `rgb(999, 999, 999)` passes validation. */
  lemma Rgb999Passes()
    ensures IsColorText("rgb(999, 999, 999)")
  {
    var p := RgbPieces("999", " ", "999", " ", "999");
    assert RgbText(p) == "rgb(999, 999, 999)";
    SplitRgbComplete(p);
  }

  function Pow10(n: nat): nat
  {
    if n == 0 then 1 else 10 * Pow10(n - 1)
  }

  /** A digit string of length n has a value below 10^n. */
  lemma {:induction false} DecimalBelowPow10(d: string)
    requires AllDigits(d)
    ensures DecimalValue(d) < Pow10(|d|)
  {
    if d != [] {
      DecimalBelowPow10(d[..|d| - 1]);
    }
  }

  lemma ThreeDigitsBelow1000(d: string)
    requires AllDigits(d) && |d| <= 3
    ensures DecimalValue(d) <= 999
  {
    DecimalBelowPow10(d);
    assert Pow10(|d|) <= Pow10(3) == 1000;
  }

  /** A present hex-only field passes exactly when it is a `#RRGGBB` string
      (digits in either case, one final line feed tolerated); such a value
      always parses, and no rgb text passes. */
  lemma HexFieldRule(input: Config, fw: Framework, key: string)
    requires key in {"color01", "color02", "eye_color01", "eye_color02"}
    requires key in input && !IsBlank(input[key]) && input[key] != VNull
    ensures FieldPasses(input, fw, key) <==> input[key].VStr? && IsHexColor(Subject(input[key].s))
    ensures FieldPasses(input, fw, key) ==> ParseColor(input[key].s).Ok?
    ensures input[key].VStr? && SplitRgb(Subject(input[key].s)).Some? ==> !FieldPasses(input, fw, key)
  {
    assert FieldPasses(input, fw, key) == StringWhere(input[key], IsHexText);
  }

  /** `color01` and `color02` are required exactly when `gradient` is truthy;
      `eye_color01` and `eye_color02` exactly when `eye_color` is. */
  lemma ConditionalColors(input: Config, fw: Framework, key: string)
    requires key in {"color01", "color02", "eye_color01", "eye_color02"}
    requires key !in input
    ensures var flag := if key == "color01" || key == "color02" then "gradient" else "eye_color";
      FieldPasses(input, fw, key) <==> !(flag in input && Truthy(input[flag]))
  {
  }

  /** The enumerated fields accept exactly their listed strings. */
  lemma EnumRules(input: Config, fw: Framework, key: string, s: string)
    requires key in {"qrCategory", "qrFormat", "grdType"}
    requires key in input && input[key] == VStr(s) && !IsBlank(input[key])
    ensures FieldPasses(input, fw, key) <==>
      s in (if key == "qrCategory" then Categories else if key == "qrFormat" then Formats else GradientKinds)
  {
    if key == "grdType" {
      assert FieldPasses(input, fw, key) == StringWhere(input[key], s => s in GradientKinds);
    }
  }

  /** `eye_outer` and `eye_inner` pass when missing or null, and otherwise
      exactly when they are their prefix and one digit, optionally followed
      by one line feed. */
  lemma EyeStyleRule(input: Config, fw: Framework, key: string)
    requires key in {"eye_outer", "eye_inner"}
    ensures var prefix := if key == "eye_outer" then "eyeOuter" else "eyeInner";
      FieldPasses(input, fw, key) <==>
        key !in input || IsBlank(input[key]) || input[key] == VNull ||
        (input[key].VStr? && StyleText(input[key].s, prefix))
  {
    var prefix := if key == "eye_outer" then "eyeOuter" else "eyeInner";
    assert FieldPasses(input, fw, key) ==
      FieldOk(input, key, false, true, v => StringWhere(v, s => IsStyleId(s, prefix)));
    if key in input && input[key].VStr? {
      StyleIdText(input[key].s, prefix);
    }
  }

  /** A style id written out: the prefix, a digit, and at most a final line feed. */
  predicate StyleText(s: string, prefix: string)
  {
    (|s| == |prefix| + 1 || (|s| == |prefix| + 2 && s[|s| - 1] == '\n')) &&
    s[..|prefix|] == prefix && IsDigit(s[|prefix|])
  }

  lemma StyleIdText(s: string, prefix: string)
    ensures IsStyleId(s, prefix) <==> StyleText(s, prefix)
  {
    var t := Subject(s);
    if |t| == |prefix| + 1 {
      assert t[..|prefix|] == s[..|prefix|];
    }
  }

  /** Worked cases: `eyeOuter3` passes, `eyeOuter12` and `eyeInner3` do not
      for the outer style, and `eyeInner0` passes for the inner one. */
  lemma EyeStyleExamples()
    ensures IsStyleId("eyeOuter3", "eyeOuter")
    ensures !IsStyleId("eyeOuter12", "eyeOuter")
    ensures !IsStyleId("eyeInner3", "eyeOuter")
    ensures IsStyleId("eyeInner0", "eyeInner")
  {
    assert "eyeOuter3"[..8] == "eyeOuter";
    assert "eyeInner3"[..8] != "eyeOuter" by { assert "eyeInner3"[3] != "eyeOuter"[3]; }
    assert "eyeInner0"[..8] == "eyeInner";
  }

  /** The frame fields: `frame` an integer in [1, 15], `frameText` at most 50
      characters, `frameColor` a hex colour. */
  lemma FrameRules(input: Config, fw: Framework)
    ensures Given(input, "frame") ==>
      (FieldPasses(input, fw, "frame") <==> IntegerIn(input["frame"], 1, 15))
    ensures Given(input, "frameText") ==>
      (FieldPasses(input, fw, "frameText") <==> input["frameText"].VStr? && |input["frameText"].s| <= 50)
    ensures Given(input, "frameColor") ==>
      (FieldPasses(input, fw, "frameColor") <==> input["frameColor"].VStr? && IsHexText(input["frameColor"].s))
  {
  }

  // ---------------------------------------------------------------------
  // Defaults

  /** `$this->input($key, $default)`: the given value, or the default when absent. */
  function InputOr(input: Config, key: string, default: Value): Value
  {
    if key in input then input[key] else default
  }

  /** The array `prepareForValidation` merges: all four keys, each with its
      given value or its default. */
  function DefaultsFor(input: Config): (r: Config)
    ensures r.Keys == DefaultKeys
    ensures forall k :: k in r && k in input ==> r[k] == input[k]
  {
    map["qrFormat" := InputOr(input, "qrFormat", VStr("png")),
        "gradient" := InputOr(input, "gradient", VBool(false)),
        "transparentBkg" := InputOr(input, "transparentBkg", VBool(false)),
        "eye_color" := InputOr(input, "eye_color", VBool(false))]
  }

  /** `$this->merge(...)`: supplied values stay as they are, missing ones get
      their default, and no other key appears. */
  function WithDefaults(input: Config): (r: Config)
    ensures r.Keys == input.Keys + DefaultKeys
    ensures forall k :: k in input ==> r[k] == input[k]
    ensures "qrFormat" !in input ==> r["qrFormat"] == VStr("png")
    ensures "gradient" !in input ==> r["gradient"] == VBool(false)
    ensures "transparentBkg" !in input ==> r["transparentBkg"] == VBool(false)
    ensures "eye_color" !in input ==> r["eye_color"] == VBool(false)
  {
    input + DefaultsFor(input)
  }

  const DefaultKeys: set<string> := {"qrFormat", "gradient", "transparentBkg", "eye_color"}

  /** Merging the defaults twice is merging them once. */
  lemma DefaultsIdempotent(input: Config)
    ensures WithDefaults(WithDefaults(input)) == WithDefaults(input)
  {
  }

  /** After the merge, the defaulted keys are always among the validated ones,
      so the service's read of `qrFormat` never misses. */
  lemma DefaultsReachService(input: Config)
    ensures DefaultKeys <= Validated(WithDefaults(input)).Keys
  {
  }

  /** The request object; its input bag is updated in place. */
  class QrCodeRequest {
    var input: Config

    constructor (input: Config)
      ensures this.input == input
    {
      this.input := input;
    }

    /** `prepareForValidation`: `$this->merge([...])` of the four defaults. */
    method PrepareForValidation()
      modifies this
      ensures input == WithDefaults(old(input))
    {
      input := input + DefaultsFor(input);
    }
  }
}
