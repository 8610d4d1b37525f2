/** The rendering service `QrCodeService`: option building, the gradient
    canvas, logo placement and the staged `generate` pipeline. QR encoding,
    image decoding, masking, resizing, insertion and file output belong to
    foreign libraries; they enter through `Env` and are not interpreted. */
module Service {
  import opened Values
  import opened Color

  // ---------------------------------------------------------------------
  // Options

  datatype OutputType = Png | Svg
  datatype EccLevel = EccL | EccM | EccQ | EccH
  datatype Version = VersionAuto

  /** The `QROptions` the constructor builds. */
  datatype Options = Options(version: Version, outputType: OutputType, ecc: EccLevel,
                             scale: nat, imageBase64: bool, bgColor: Rgb, fpColor: Rgb)

  /** `$this->config[$key]`; a missing key raises Laravel's ErrorException. */
  function Lookup(config: Config, key: string): (r: Result<Value, Thrown>)
    ensures r.Ok? <==> key in config
    ensures r.Ok? ==> r.value == config[key]
    ensures r.Err? ==> r.error == Exception("Undefined array key \"" + key + "\"")
  {
    if key in config then Ok(config[key])
    else Err(Exception("Undefined array key \"" + key + "\""))
  }

  /** `parseColor($value)` on a configuration value. null is refused by the
      `string` parameter type with a TypeError; an int or bool is coerced to a
      string ("123", "1", "") that matches neither colour form. */
  function ColorOf(v: Value): (r: Result<Rgb, Thrown>)
    ensures v.VStr? ==> r == ParseColor(v.s)
    ensures v == VNull ==> r == Err(TypeError)
  {
    match v
    case VStr(s) => ParseColor(s)
    case VNull => Err(TypeError)
    case _ => Err(Exception(InvalidColorFormat))
  }

  function ReadColor(config: Config, key: string): (r: Result<Rgb, Thrown>)
    ensures key !in config ==> r.Err? && r.error.Exception?
    ensures key in config ==> r == ColorOf(config[key])
  {
    var v :- Lookup(config, key);
    ColorOf(v)
  }

  /** `buildOptions`: the array literal is evaluated left to right, so the
      format is read first, then the background colour, then the dark colour. */
  function BuildOptions(config: Config): (r: Result<Options, Thrown>)
    ensures r.Ok? <==>
      "qrFormat" in config && ReadColor(config, "backgroundColor").Ok? && ReadColor(config, "colorDark").Ok?
    ensures r.Ok? ==> r.value.version == VersionAuto && r.value.scale == 10 && !r.value.imageBase64
    ensures "qrFormat" !in config ==> r.Err? && r.error.Exception?
  {
    var format :- Lookup(config, "qrFormat");
    var bg :- ReadColor(config, "backgroundColor");
    var fp :- ReadColor(config, "colorDark");
    Ok(Options(VersionAuto, if format == VStr("svg") then Svg else Png, EccH, 10, false, bg, fp))
  }

  /** Error correction is always H; the output is SVG exactly when `qrFormat`
      is the string 'svg' (strict comparison), PNG otherwise. */
  lemma BuildOptionsChoices(config: Config)
    requires BuildOptions(config).Ok?
    ensures BuildOptions(config).value.ecc == EccH
    ensures BuildOptions(config).value.outputType == Svg <==> config["qrFormat"] == VStr("svg")
    ensures BuildOptions(config).value.bgColor == ParseColor(config["backgroundColor"].s).value
    ensures BuildOptions(config).value.fpColor == ParseColor(config["colorDark"].s).value
  {
  }

  /** An unparsable background or dark colour makes `buildOptions` throw. */
  lemma BuildOptionsRejectsBadColor(config: Config, key: string)
    requires key == "backgroundColor" || key == "colorDark"
    requires "qrFormat" in config && "backgroundColor" in config && "colorDark" in config
    requires config["backgroundColor"].VStr? && config["colorDark"].VStr?
    requires ParseColor(config[key].s).Err?
    ensures BuildOptions(config) == Err(Exception(InvalidColorFormat))
  {
  }

  // ---------------------------------------------------------------------
  // Images and the foreign collaborators

  datatype Dims = Dims(width: nat, height: nat)

  /** What `applyGradient` paints onto its canvas, by kind, colours and size. */
  datatype GradientFill = GradientFill(kind: string, color1: Rgb, color2: Rgb, size: Dims)

  /** Where and how large the logo is inserted. */
  datatype Placement = Placement(width: nat, height: nat, x: int, y: int)

  /** An image as the sequence of foreign operations that produced it. */
  datatype Image =
    | Encoded(output: string)                            // QRCode::render
    | Masked(source: Image, fill: GradientFill)          // $img->mask($gradient, false)
    | WithLogo(source: Image, logo: Value, at: Placement) // $img->insert($logo, 'top-left', x, y)

  /** A pixel of the gradient canvas: untouched (transparent) or painted. */
  datatype Pixel = Blank | Painted(color: RgbReal)

  /** What `saveImage` and the base64 read hand back. */
  datatype Saved = Saved(data: string, url: string)

  /** The foreign collaborators, each of which may throw: the QR encoder;
      `Image::make` of the encoder's output with its size (an SVG string, for
      one, is not an image it decodes); the radial distance ratio (square
      roots); `Image::make` of the logo; the aspect-preserving resize to a
      width, giving the new height; the failure, if any, of the `mask` or
      `insert` call that builds a composed image; and writing plus
      re-reading the output file. */
  datatype Env = Env(
    render: (Options, Value) -> Result<Image, Thrown>,
    decode: Image -> Result<Dims, Thrown>,
    radialRatio: (Dims, nat, nat) -> real,
    loadLogo: Value -> Result<Dims, Thrown>,
    resize: (Dims, nat) -> Result<nat, Thrown>,
    composeFault: Image -> Option<Thrown>,
    save: (Image, Value) -> Result<Saved, Thrown>)

  /** The `mask` or `insert` call that yields `image`: the image, or what it threw. */
  function Compose(image: Image, env: Env): (r: Result<Image, Thrown>)
    ensures r.Ok? <==> env.composeFault(image).None?
    ensures r.Ok? ==> r.value == image
    ensures r.Err? ==> r.error == env.composeFault(image).value
  {
    match env.composeFault(image)
    case None => Ok(image)
    case Some(e) => Err(e)
  }

  // ---------------------------------------------------------------------
  // The gradient canvas

  /** The case a `switch` on `grdType` takes. PHP compares loosely: a string
      selects its own case, `true` equals the first case ('linear'), and every
      other value matches none. */
  function SwitchKind(v: Value): (k: string)
    ensures k == "linear" <==> v == VStr("linear") || v == VBool(true)
    ensures k == "radial" <==> v == VStr("radial")
    ensures v.VStr? ==> k == v.s
  {
    match v
    case VStr(s) => s
    case VBool(b) => if b then "linear" else ""
    case _ => ""
  }

  /** The colour the canvas holds at (x, y) once the gradient is drawn. */
  function FillPixel(fill: GradientFill, radial: (Dims, nat, nat) -> real, x: nat, y: nat): (p: Pixel)
    requires x < fill.size.width && y < fill.size.height
    ensures p.Painted? <==> fill.kind == "linear" || fill.kind == "radial"
  {
    if fill.kind == "linear" then
      Painted(Interpolate(fill.color1, fill.color2, LinearRatio(x, fill.size.width)))
    else if fill.kind == "radial" then
      Painted(Interpolate(fill.color1, fill.color2, radial(fill.size, x, y)))
    else Blank
  }

  /** In a linear fill every pixel of a column has that column's colour, the
      first column is exactly the first colour, and along a row the ratio
      grows from 0 towards (but never reaching) 1. */
  lemma LinearFillColumns(fill: GradientFill, radial: (Dims, nat, nat) -> real, x: nat, y: nat, y': nat)
    requires fill.kind == "linear"
    requires x < fill.size.width && y < fill.size.height && y' < fill.size.height
    ensures FillPixel(fill, radial, x, y) == FillPixel(fill, radial, x, y')
    ensures x == 0 ==> FillPixel(fill, radial, x, y) == Painted(ToReal(fill.color1))
    ensures FillPixel(fill, radial, x, y).Painted?
  {
    if x == 0 {
      assert LinearRatio(0, fill.size.width) == 0.0;
      InterpolateEndpoints(fill.color1, fill.color2);
    }
  }

  /** Kinds other than 'linear' and 'radial' leave the canvas blank. */
  lemma OtherKindsDrawNothing(fill: GradientFill, radial: (Dims, nat, nat) -> real, x: nat, y: nat)
    requires fill.kind != "linear" && fill.kind != "radial"
    requires x < fill.size.width && y < fill.size.height
    ensures FillPixel(fill, radial, x, y) == Blank
  {
  }

  /** `$gradient->line($x, 0, $x, $height, ...)`: paints column x. The end
      point (x, height) lies outside the canvas and is clipped. */
  method DrawLine(canvas: array2<Pixel>, x: nat, color: RgbReal)
    requires x < canvas.Length0
    modifies canvas
    ensures forall i, j :: 0 <= i < canvas.Length0 && 0 <= j < canvas.Length1 ==>
      canvas[i, j] == if i == x then Painted(color) else old(canvas[i, j])
  {
    var y := 0;
    while y < canvas.Length1
      invariant 0 <= y <= canvas.Length1
      invariant forall i, j :: 0 <= i < canvas.Length0 && 0 <= j < canvas.Length1 ==>
        canvas[i, j] == if i == x && j < y then Painted(color) else old(canvas[i, j])
    {
      canvas[x, y] := Painted(color);
      y := y + 1;
    }
  }

  /** The 'linear' case: one line per column with ratio `$x / $width`. */
  method DrawLinear(canvas: array2<Pixel>, fill: GradientFill, radial: (Dims, nat, nat) -> real)
    requires fill.kind == "linear"
    requires canvas.Length0 == fill.size.width && canvas.Length1 == fill.size.height
    modifies canvas
    ensures forall i, j :: 0 <= i < canvas.Length0 && 0 <= j < canvas.Length1 ==>
      canvas[i, j] == FillPixel(fill, radial, i, j)
  {
    var width := canvas.Length0;
    var x := 0;
    while x < width
      invariant 0 <= x <= width
      invariant forall i, j :: 0 <= i < x && 0 <= j < canvas.Length1 ==>
        canvas[i, j] == FillPixel(fill, radial, i, j)
    {
      var ratio := LinearRatio(x, width);
      var color := Interpolate(fill.color1, fill.color2, ratio);
      DrawLine(canvas, x, color);
      x := x + 1;
    }
  }

  /** The 'radial' case: every pixel, row by row, with the distance ratio. */
  method DrawRadial(canvas: array2<Pixel>, fill: GradientFill, radial: (Dims, nat, nat) -> real)
    requires fill.kind == "radial"
    requires canvas.Length0 == fill.size.width && canvas.Length1 == fill.size.height
    modifies canvas
    ensures forall i, j :: 0 <= i < canvas.Length0 && 0 <= j < canvas.Length1 ==>
      canvas[i, j] == FillPixel(fill, radial, i, j)
  {
    var y := 0;
    while y < canvas.Length1
      invariant 0 <= y <= canvas.Length1
      invariant forall i, j :: 0 <= i < canvas.Length0 && 0 <= j < y ==>
        canvas[i, j] == FillPixel(fill, radial, i, j)
    {
      var x := 0;
      while x < canvas.Length0
        invariant 0 <= x <= canvas.Length0
        invariant forall i, j :: 0 <= i < canvas.Length0 && 0 <= j < y ==>
          canvas[i, j] == FillPixel(fill, radial, i, j)
        invariant forall i :: 0 <= i < x ==> canvas[i, y] == FillPixel(fill, radial, i, y)
      {
        var ratio := radial(fill.size, x, y);
        canvas[x, y] := Painted(Interpolate(fill.color1, fill.color2, ratio));
        x := x + 1;
      }
      y := y + 1;
    }
  }

  // ---------------------------------------------------------------------
  // Logo placement

  /** `(int)` of a half: PHP truncates toward zero, so -1/2 becomes 0. */
  function TruncHalf(n: int): (h: int)
    ensures n >= 0 ==> 0 <= n - 2 * h <= 1
    ensures n < 0 ==> -1 <= n - 2 * h <= 0
  {
    if n >= 0 then n / 2 else -((-n) / 2)
  }

  /** `addLogo`'s arithmetic. For widths below 2^52 the integer part of the
      double product `W * 0.2` is W / 5, so the target width `(int)(W * 0.2)`
      is W / 5. Resizing keeps the aspect ratio and never upsizes, so a logo
      narrower than the target keeps its size: the logo is never wider than a
      fifth of the canvas, nor wider than it was. */
  function LogoPlacement(canvas: Dims, logo: Dims, scaledHeight: nat): (p: Placement)
    ensures p.width <= canvas.width / 5 && p.width <= logo.width
    ensures p.width == canvas.width / 5 || p.width == logo.width
    ensures logo.width <= canvas.width / 5 ==> p.width == logo.width && p.height == logo.height
    ensures canvas.width / 5 < logo.width ==> p.height == scaledHeight
  {
    var target := canvas.width / 5;
    var w := if target < logo.width then target else logo.width;
    var h := if target < logo.width then scaledHeight else logo.height;
    Placement(w, h, TruncHalf(canvas.width - w), TruncHalf(canvas.height - h))
  }

  /** The logo is centred: the horizontal offset is never negative and leaves
      at most one pixel of imbalance; the vertical offset is non-negative
      exactly when the logo is at most one pixel taller than the canvas. */
  lemma LogoCentred(canvas: Dims, logo: Dims, scaledHeight: nat)
    ensures var p := LogoPlacement(canvas, logo, scaledHeight);
      && p.x >= 0
      && 0 <= canvas.width - (2 * p.x + p.width) <= 1
      && (p.y >= 0 <==> p.height <= canvas.height + 1)
      && (p.height <= canvas.height ==> 0 <= canvas.height - (2 * p.y + p.height) <= 1)
  {
    var p := LogoPlacement(canvas, logo, scaledHeight);
    assert p.width <= canvas.width;
  }

  /** Truncation, not flooring: a logo taller than the canvas by 3 pixels
      is placed at -1, not at -2. */
  lemma LogoOffsetTruncates()
    ensures LogoPlacement(Dims(100, 10), Dims(20, 13), 0).y == -1
    ensures LogoPlacement(Dims(100, 10), Dims(20, 11), 0).y == 0
  {
  }

  // ---------------------------------------------------------------------
  // The pipeline

  /** The 'generate' result record. */
  datatype GenResult = GenResult(success: bool, data: Option<string>, url: Option<string>, error: Option<string>)

  /** What leaves `new QrCodeService(...)->generate()`: the record, or a
      throwable that no `catch (Exception $e)` stops. */
  datatype Outcome = Returned(result: GenResult) | Escaped(thrown: Thrown)

  /** The fill `applyGradient` paints: both colours parsed (the first one
      first), and the case the `switch` on `grdType` takes. */
  function FillOf(config: Config, size: Dims): (f: Result<GradientFill, Thrown>)
    ensures f.Ok? <==> ReadColor(config, "color01").Ok? && ReadColor(config, "color02").Ok? && "grdType" in config
    ensures f.Ok? ==> f.value == GradientFill(SwitchKind(config["grdType"]),
      ReadColor(config, "color01").value, ReadColor(config, "color02").value, size)
    ensures ReadColor(config, "color01").Err? ==> f == Err(ReadColor(config, "color01").error)
  {
    var c1 :- ReadColor(config, "color01");
    var c2 :- ReadColor(config, "color02");
    var kind :- Lookup(config, "grdType");
    Ok(GradientFill(SwitchKind(kind), c1, c2, size))
  }

  /** `applyGradient` as a value: the image is decoded and measured, the fill
      chosen, and the image masked with it. Decoding comes first, so an image
      the library cannot decode (an SVG string, say) fails before any colour
      is read. */
  function GradientStage(config: Config, image: Image, env: Env): (r: Result<Image, Thrown>)
    ensures env.decode(image).Err? ==> r == Err(env.decode(image).error)
    ensures r.Ok? ==> r.value.Masked? && r.value.source == image
    ensures r.Ok? ==> env.decode(image).Ok? && r.value.fill.size == env.decode(image).value
  {
    var size :- env.decode(image);
    var fill :- FillOf(config, size);
    Compose(Masked(image, fill), env)
  }

  /** The gradient stage succeeds exactly when the image decodes, both
      colours parse, `grdType` is present and the mask call does not throw;
      it then paints the kind the `switch` takes on `grdType`, with the two
      configured colours, over the whole decoded image. */
  lemma GradientFillChosen(config: Config, image: Image, env: Env)
    ensures var r := GradientStage(config, image, env);
      r.Ok? <==>
        && env.decode(image).Ok?
        && FillOf(config, env.decode(image).value).Ok?
        && env.composeFault(Masked(image, FillOf(config, env.decode(image).value).value)).None?
    ensures GradientStage(config, image, env).Ok? ==>
      && "grdType" in config && ReadColor(config, "color01").Ok? && ReadColor(config, "color02").Ok?
      && GradientStage(config, image, env).value == Masked(image, GradientFill(SwitchKind(config["grdType"]),
           ReadColor(config, "color01").value, ReadColor(config, "color02").value, env.decode(image).value))
  {
  }

  /** `customizeEyes`: a stub that returns its input. */
  function CustomizeEyes(image: Image): (r: Image)
    ensures r == image
  {
    image
  }

  /** `addFrame`: a stub that returns its input. */
  function AddFrame(image: Image): (r: Image)
    ensures r == image
  {
    image
  }

  /** `addLogo` as a value: the image and then the logo are decoded, the
      logo resized towards a fifth of the image's width, and inserted centred;
      each of these foreign steps can throw. */
  function LogoStage(config: Config, image: Image, env: Env): (r: Result<Image, Thrown>)
    ensures env.decode(image).Err? ==> r == Err(env.decode(image).error)
    ensures r.Ok? ==> "logo" in config && r.value.WithLogo? && r.value.source == image && r.value.logo == config["logo"]
    ensures r.Ok? ==>
      && env.decode(image).Ok? && env.loadLogo(config["logo"]).Ok?
      && r.value.at.width <= env.decode(image).value.width / 5
      && r.value.at.width <= env.loadLogo(config["logo"]).value.width
    ensures r.Ok? ==> env.composeFault(r.value).None?
  {
    var size :- env.decode(image);
    var source :- Lookup(config, "logo");
    var logo :- env.loadLogo(source);
    var scaled :- env.resize(logo, size.width / 5);
    Compose(WithLogo(image, source, LogoPlacement(size, logo, scaled)), env)
  }

  /** The logo stage places the logo by `LogoPlacement`: from the decoded
      image's size, the loaded logo's size and the height the resize to a
      fifth of the image's width gives. With `LogoCentred`, the inserted logo
      is centred. */
  lemma LogoPlacementChosen(config: Config, image: Image, env: Env)
    requires LogoStage(config, image, env).Ok?
    ensures "logo" in config && env.decode(image).Ok? && env.loadLogo(config["logo"]).Ok?
    ensures var size := env.decode(image).value;
      var logo := env.loadLogo(config["logo"]).value;
      && env.resize(logo, size.width / 5).Ok?
      && LogoStage(config, image, env).value ==
           WithLogo(image, config["logo"], LogoPlacement(size, logo, env.resize(logo, size.width / 5).value))
  {
  }

  /** The stages inside the `try`, up to the image handed to `saveImage`. */
  function Pipeline(config: Config, options: Options, env: Env): (r: Result<Image, Thrown>)
    ensures r.Ok? ==> "text" in config && env.render(options, config["text"]).Ok?
    ensures "text" in config && !FlagOn(config, "gradient") && !IsSet(config, "logo") ==>
      r == env.render(options, config["text"])
  {
    var text :- Lookup(config, "text");
    var base :- env.render(options, text);
    Stages(config, base, env)
  }

  /** The image stages, in order, on the encoder's output: gradient when the
      flag is truthy, the eye stub, the logo when set, the frame stub. With
      neither gradient nor logo the output passes through unchanged. */
  function Stages(config: Config, base: Image, env: Env): (r: Result<Image, Thrown>)
    ensures !FlagOn(config, "gradient") && !IsSet(config, "logo") ==> r == Ok(base)
  {
    var g :- if FlagOn(config, "gradient") then GradientStage(config, base, env) else Ok(base);
    var e := if FlagOn(config, "eye_color") then CustomizeEyes(g) else g;
    var l :- if IsSet(config, "logo") then LogoStage(config, e, env) else Ok(e);
    var f := if IsSet(config, "frame") then AddFrame(l) else l;
    Ok(f)
  }

  /** `saveImage` followed by the base64 read of the written file. */
  function SaveStage(config: Config, image: Image, env: Env): (r: Result<Saved, Thrown>)
    ensures "qrFormat" in config ==> r == env.save(image, config["qrFormat"])
    ensures "qrFormat" !in config ==> r.Err? && r.error.Exception?
  {
    var format :- Lookup(config, "qrFormat");
    env.save(image, format)
  }

  /** The `catch (Exception $e)` around the pipeline. */
  function Catch(r: Result<Saved, Thrown>): (o: Outcome)
    ensures r.Ok? ==> o == Returned(GenResult(true, Some(r.value.data), Some(r.value.url), None))
    ensures r.Err? && r.error.Exception? ==> o == Returned(GenResult(false, None, None, Some(r.error.message)))
    ensures r.Err? && r.error.TypeError? ==> o == Escaped(TypeError)
  {
    match r
    case Ok(saved) => Returned(GenResult(true, Some(saved.data), Some(saved.url), None))
    case Err(Exception(m)) => Returned(GenResult(false, None, None, Some(m)))
    case Err(TypeError) => Escaped(TypeError)
  }

  /** `generate`: only a TypeError escapes it, and it reports success only
      when every stage succeeded. */
  function GenerateSpec(config: Config, options: Options, env: Env): (o: Outcome)
    ensures o.Escaped? ==> o.thrown == TypeError
    ensures o.Returned? && o.result.success ==> Pipeline(config, options, env).Ok?
  {
    match Pipeline(config, options, env)
    case Ok(image) => Catch(SaveStage(config, image, env))
    case Err(e) => Catch(Err(e))
  }

  /** The whole service call: the constructor runs `buildOptions` outside the
      `try`, so its exceptions (a bad colour, say) escape and no result record
      is made; otherwise `generate` runs. */
  function Run(config: Config, env: Env): (o: Outcome)
    ensures BuildOptions(config).Err? ==> o == Escaped(BuildOptions(config).error)
    ensures BuildOptions(config).Ok? ==> o == GenerateSpec(config, BuildOptions(config).value, env)
  {
    match BuildOptions(config)
    case Err(e) => Escaped(e)
    case Ok(options) => GenerateSpec(config, options, env)
  }

  /** The returned record has one shape per case: success carries data and
      url and a null error; failure carries null data and url and the message. */
  lemma ResultShape(config: Config, options: Options, env: Env)
    requires GenerateSpec(config, options, env).Returned?
    ensures var r := GenerateSpec(config, options, env).result;
      && (r.success <==> r.error == None)
      && (r.success ==> r.data.Some? && r.url.Some?)
      && (!r.success ==> r.data == None && r.url == None && r.error.Some?)
  {
  }

  /** A stage that throws an Exception ends the pipeline with its message. */
  lemma FailureCarriesMessage(config: Config, options: Options, env: Env, m: string)
    requires Pipeline(config, options, env) == Err(Exception(m))
    ensures GenerateSpec(config, options, env) == Returned(GenResult(false, None, None, Some(m)))
  {
  }

  /** An encoder output the image library cannot decode (the SVG string of
      `qrFormat` 'svg', for one) fails the gradient stage before any colour
      is read, and `generate` returns the library's message as a failure. */
  lemma UndecodableGradientFails(config: Config, options: Options, env: Env, m: string)
    requires "text" in config && env.render(options, config["text"]).Ok?
    requires FlagOn(config, "gradient")
    requires env.decode(env.render(options, config["text"]).value) == Err(Exception(m))
    ensures Pipeline(config, options, env) == Err(Exception(m))
    ensures GenerateSpec(config, options, env) == Returned(GenResult(false, None, None, Some(m)))
  {
    var base := env.render(options, config["text"]).value;
    assert GradientStage(config, base, env) == Err(Exception(m));
  }

  /** Which layers an image has, innermost first. */
  datatype Layer = GradientLayer | LogoLayer

  function Layers(image: Image): seq<Layer>
  {
    match image
    case Encoded(_) => []
    case Masked(source, _) => Layers(source) + [GradientLayer]
    case WithLogo(source, _, _) => Layers(source) + [LogoLayer]
  }

  /** Stage order and gating: the encoder's output gets the gradient first
      (only when the flag is truthy), then the logo (only when set); the
      eye and frame stages add nothing. */
  lemma StagesInOrder(config: Config, options: Options, env: Env)
    requires Pipeline(config, options, env).Ok?
    requires forall o, t :: env.render(o, t).Ok? ==> env.render(o, t).value.Encoded?
    ensures Layers(Pipeline(config, options, env).value) ==
      (if FlagOn(config, "gradient") then [GradientLayer] else []) +
      (if IsSet(config, "logo") then [LogoLayer] else [])
  {
    var base := env.render(options, config["text"]).value;
    assert Layers(base) == [];
  }

  /** The gradient stage reads neither `eye_color` nor `frame`. */
  lemma GradientIgnoresEyesAndFrame(config: Config, image: Image, env: Env)
    ensures GradientStage(config - {"eye_color", "frame"}, image, env) == GradientStage(config, image, env)
  {
    var c' := config - {"eye_color", "frame"};
    assert Lookup(c', "color01") == Lookup(config, "color01");
    assert Lookup(c', "color02") == Lookup(config, "color02");
    assert Lookup(c', "grdType") == Lookup(config, "grdType");
    if env.decode(image).Ok? {
      assert FillOf(c', env.decode(image).value) == FillOf(config, env.decode(image).value);
    }
  }

  /** The logo stage reads neither `eye_color` nor `frame`. */
  lemma LogoIgnoresEyesAndFrame(config: Config, image: Image, env: Env)
    ensures LogoStage(config - {"eye_color", "frame"}, image, env) == LogoStage(config, image, env)
  {
    var c' := config - {"eye_color", "frame"};
    assert Lookup(c', "logo") == Lookup(config, "logo");
  }

  /** Saving reads neither `eye_color` nor `frame`. */
  lemma SaveIgnoresEyesAndFrame(config: Config, image: Image, env: Env)
    ensures SaveStage(config - {"eye_color", "frame"}, image, env) == SaveStage(config, image, env)
  {
    var c' := config - {"eye_color", "frame"};
    assert Lookup(c', "qrFormat") == Lookup(config, "qrFormat");
  }

  lemma PipelineIgnoresEyesAndFrame(config: Config, options: Options, env: Env)
    ensures Pipeline(config - {"eye_color", "frame"}, options, env) == Pipeline(config, options, env)
  {
    var c' := config - {"eye_color", "frame"};
    assert Lookup(c', "text") == Lookup(config, "text");
    if "text" in config && env.render(options, config["text"]).Ok? {
      StagesIgnoreEyesAndFrame(config, env.render(options, config["text"]).value, env);
    }
  }

  lemma StagesIgnoreEyesAndFrame(config: Config, base: Image, env: Env)
    ensures Stages(config - {"eye_color", "frame"}, base, env) == Stages(config, base, env)
  {
    var c' := config - {"eye_color", "frame"};
    assert FlagOn(c', "gradient") == FlagOn(config, "gradient");
    assert IsSet(c', "logo") == IsSet(config, "logo");
    assert !FlagOn(c', "eye_color") && !IsSet(c', "frame");
    var g := if FlagOn(config, "gradient") then GradientStage(config, base, env) else Ok(base);
    var g' := if FlagOn(c', "gradient") then GradientStage(c', base, env) else Ok(base);
    assert g' == g by {
      GradientIgnoresEyesAndFrame(config, base, env);
    }
    if g.Ok? {
      var l := if IsSet(config, "logo") then LogoStage(config, g.value, env) else Ok(g.value);
      var l' := if IsSet(c', "logo") then LogoStage(c', g.value, env) else Ok(g.value);
      assert l' == l by {
        LogoIgnoresEyesAndFrame(config, g.value, env);
      }
      assert Stages(config, base, env) == l;
      assert Stages(c', base, env) == l';
    }
  }


  /** Eye colours and frames change nothing: removing both keys gives the same outcome. */
  lemma EyesAndFrameAreIdentity(config: Config, options: Options, env: Env)
    ensures GenerateSpec(config, options, env) == GenerateSpec(config - {"eye_color", "frame"}, options, env)
  {
    PipelineIgnoresEyesAndFrame(config, options, env);
    if Pipeline(config, options, env).Ok? {
      SaveIgnoresEyesAndFrame(config, Pipeline(config, options, env).value, env);
    }
  }

  // ---------------------------------------------------------------------
  // The service object

  class QrCodeService {
    const config: Config
    const options: Options

    ghost predicate Valid()
    {
      BuildOptions(config) == Ok(options)
    }

    /** The successful constructor; `New` below is the one that can throw. */
    constructor Init(config: Config, options: Options)
      requires BuildOptions(config) == Ok(options)
      ensures this.config == config && this.options == options && Valid()
    {
      this.config := config;
      this.options := options;
    }

    /** `applyGradient`: decodes the image, allocates a blank canvas of its
        size, parses both colours, draws the chosen kind and masks the image
        with it. */
    method ApplyGradient(image: Image, env: Env) returns (r: Result<Image, Thrown>, canvas: array2<Pixel>)
      ensures r == GradientStage(config, image, env)
      ensures fresh(canvas)
      ensures env.decode(image).Ok? ==>
        canvas.Length0 == env.decode(image).value.width && canvas.Length1 == env.decode(image).value.height
      ensures r.Ok? ==> r.value.Masked? && env.decode(image).Ok? && r.value.fill.size == env.decode(image).value
      ensures r.Ok? ==> forall i, j :: 0 <= i < canvas.Length0 && 0 <= j < canvas.Length1 ==>
        canvas[i, j] == FillPixel(r.value.fill, env.radialRatio, i, j)
    {
      var decoded := env.decode(image);
      if decoded.Err? {
        canvas := new Pixel[0, 0];
        return Err(decoded.error), canvas;
      }
      var size := decoded.value;
      canvas := new Pixel[size.width, size.height]((i, j) => Blank);
      var color1 := ReadColor(config, "color01");
      if color1.Err? {
        return Err(color1.error), canvas;
      }
      var color2 := ReadColor(config, "color02");
      if color2.Err? {
        return Err(color2.error), canvas;
      }
      var kind := Lookup(config, "grdType");
      if kind.Err? {
        return Err(kind.error), canvas;
      }
      var fill := GradientFill(SwitchKind(kind.value), color1.value, color2.value, size);
      if fill.kind == "linear" {
        DrawLinear(canvas, fill, env.radialRatio);
      } else if fill.kind == "radial" {
        DrawRadial(canvas, fill, env.radialRatio);
      }
      r := Compose(Masked(image, fill), env);
    }

    /** `generate`: the stages reassign the image in a fixed order, each one
        gated by its configuration key, and the `catch` turns an Exception
        into the failure record. */
    method Generate(env: Env) returns (out: Outcome)
      ensures out == GenerateSpec(config, options, env)
    {
      var text := Lookup(config, "text");
      if text.Err? {
        return Catch(Err(text.error));
      }
      var rendered := env.render(options, text.value);
      if rendered.Err? {
        return Catch(Err(rendered.error));
      }
      var qrCode := rendered.value;
      if FlagOn(config, "gradient") {
        var g, _ := ApplyGradient(qrCode, env);
        if g.Err? {
          return Catch(Err(g.error));
        }
        qrCode := g.value;
      }
      if FlagOn(config, "eye_color") {
        qrCode := CustomizeEyes(qrCode);
      }
      if IsSet(config, "logo") {
        var l := LogoStage(config, qrCode, env);
        if l.Err? {
          return Catch(Err(l.error));
        }
        qrCode := l.value;
      }
      if IsSet(config, "frame") {
        qrCode := AddFrame(qrCode);
      }
      out := Catch(SaveStage(config, qrCode, env));
    }
  }

  /** `new QrCodeService($config)`: throws when `buildOptions` does. */
  method New(config: Config) returns (r: Result<QrCodeService, Thrown>)
    ensures r.Err? <==> BuildOptions(config).Err?
    ensures r.Err? ==> r.error == BuildOptions(config).error
    ensures r.Ok? ==> fresh(r.value) && r.value.config == config && r.value.Valid()
  {
    var options := BuildOptions(config);
    if options.Err? {
      return Err(options.error);
    }
    var service := new QrCodeService.Init(config, options.value);
    r := Ok(service);
  }
}
