# QR generator backend: a Dafny model

This project models the request path of a Laravel QR-code generator, in four parts.

- **Rate-limit middleware (`QrCodeRateLimiter`).** It picks a counter key and a budget from the route and the client IP, checks the budget and only then records a hit.
- **Form request (`QrCodeRequest`).** It checks the rule table and merges the defaults before validation.
- **API controller (`QrCodeController`).** It puts a 24-hour cache and an append-only log of generation records in front of the service. It also has a stub for bulk generation and lists the 50 newest records.
- **Generation service (`QrCodeService`).** It has these parts:
  - it parses colours (`#RRGGBB` or `rgb(r, g, b)`) and interpolates them;
  - it fills a gradient canvas pixel by pixel;
  - it sizes and centres the logo;
  - it builds the encoder options;
  - it runs `generate`, which applies the stages in a fixed order and returns a `{success, data, url, error}` record.

The files:

| file | module | what it holds |
|---|---|---|
| `values.dfy` | `Values` | PHP scalars (`Value`), configuration arrays (`Config`), `Option`/`Result`, and what a `throw` carries (`Thrown`) |
| `color.dfy` | `Color` | `parseColor` and its PCRE patterns, `(int)` casting, `interpolateColor`, the linear ratio |
| `service.dfy` | `Service` | `buildOptions`, the gradient canvas (`array2`), the logo arithmetic, the `generate` pipeline, and the class `QrCodeService` |
| `request.dfy` | `Request` | the rule table as a predicate, `validated()`, and the class `QrCodeRequest` with `prepareForValidation` |
| `controller.dfy` | `Controller` | the class `QrCodeController`: the cache and record state machine, `bulkGenerate`, `getHistory` |
| `ratelimiter.dfy` | `RateLimit` | the class `QrCodeRateLimiter` over a per-key counter store |

Some calls go into code the model cannot see:
- the QR encoder (chillerlan);
- the image library (Intervention Image): decoding an image and reading its size, masking, resizing, inserting;
- logo download, the clock, and the file system in `saveImage`;
- `md5(json_encode(...))`.

They enter as function-valued parameters: the `Service.Env` record, the `Controller.Deps` record, and the explicit `now` arguments. Every image-library call except `canvas`, `line` and `pixel` can throw: decoding, loading the logo, resizing, and the `mask` and `insert` calls each have a failure path. Images are symbolic terms that record which stages were applied.

The model follows the code as written. Some of its behaviours are easy to overlook:
- **Colour channels.** `rgb(...)` channels are not clamped to 0..255 (`Color.RgbNotClamped`); the only bound is the `(int)` cast. A value above PHP_INT_MAX is read as a double and capped at PHP_INT_MAX. A value of 2^1024 − 2^970 or more (about 309 digits) becomes an infinite double, and the cast turns that into 0 (`Color.IntCast`). Validation lets at most three digits through, so validated channels are at most 999 (`Request.ValidColorParses`).
- **Interpolation.** Channels are neither rounded nor clamped: the result is the real value `a + (b - a) * ratio` (`Color.Interpolate`).
- **Linear gradient ratio.** The ratio is `x / width`, not `x / (width - 1)`, so the last column never reaches the second colour (`Color.LinearNeverReachesColor2`).
- **SVG with a gradient or a logo.** The image library is handed the encoder's output. SVG markup is not an image it decodes, so such requests fail (`Service.UndecodableGradientFails`).
- **Gradient kinds.** Only `linear` and `radial` draw anything. `upDown`, `diagonal1` and `diagonal2` leave the canvas blank (`Service.OtherKindsDrawNothing`).
- **Eyes and frame.** Eye customisation and frames are identity stubs.
- **Errors escaping `generate`.** Not every failure becomes a structured result. An invalid background or dark colour throws in the constructor, outside `generate`'s `try` (`Service.Run`). A `null` colour is a `TypeError`, which `catch (Exception)` does not catch.
- **Duplicate requests.** The controller has no coalescing: two identical misses both run the service.
- **Rate-limit window.** The rate limiter uses a fixed window that opens at the first hit, not a sliding window.

## Model

Source paths are relative to the repository root. `QrCodeService.php` is `qr-generator/app/Services/QrCodeService.php`, and likewise for the others.

| member | source | states |
|---|---|---|
| Color.HexByte | qr-generator/app/Services/QrCodeService.php:91-93 | two hex digits read by `hexdec` give a value of at most 255 |
| Color.IntCast | qr-generator/app/Services/QrCodeService.php:99-101 | `(int)` of a digit string is its decimal value when that fits; PHP_INT_MAX when it does not fit but is below 2^1024 − 2^970; 0 from there on, where the double is infinite; never negative |
| Color.Subject | qr-generator/app/Services/QrCodeService.php:88 | the text a `^...$` pattern without the D modifier must match: a prefix of the input that is one character shorter exactly when the input ends in a line feed, and otherwise the whole input |
| Color.ParseColor | qr-generator/app/Services/QrCodeService.php:86-106 | succeeds exactly when the text is `#` plus six hex digits or `rgb(` digits `,` optional whitespace digits `,` optional whitespace digits `)`; every failure is the exception 'Invalid color format' |
| Color.SplitRgbSound | qr-generator/app/Services/QrCodeService.php:97 | every text the rgb pattern accepts is `rgb(` + digits + `,` + whitespace + digits + `,` + whitespace + digits + `)`, with the pieces it returns |
| Color.SplitRgbComplete | qr-generator/app/Services/QrCodeService.php:97 | every text of that shape is accepted, and its pieces are recovered exactly |
| Color.RgbExact | qr-generator/app/Services/QrCodeService.php:97-102 | an rgb text parses to the decimal values of its three digit runs |
| Color.RgbNotClamped | qr-generator/app/Services/QrCodeService.php:97-102 | `rgb(300, 0, 0)` parses to red 300: channels are not clamped to a byte |
| Color.HexChannelsAreBytes | qr-generator/app/Services/QrCodeService.php:88-94 | a hex colour always parses, to three channels in 0..255 |
| Color.ParseHex | qr-generator/app/Services/QrCodeService.php:88-94 | a `#RRGGBB` text parses to the values of its three digit pairs |
| Color.HexCaseInsensitive | qr-generator/app/Services/QrCodeService.php:88 | hex colours that differ only in letter case parse to the same colour |
| Color.HexText | qr-generator/app/Services/QrCodeService.php:88 | formatting a byte colour as `#RRGGBB` gives text the hex pattern accepts |
| Color.HexRoundTrip | qr-generator/app/Services/QrCodeService.php:88-94 | parsing the `#RRGGBB` text of any byte colour gives back that colour |
| Color.FinalNewlineTolerated | qr-generator/app/Services/QrCodeService.php:88-105 | appending one line feed to a colour text does not change what `parseColor` returns |
| Color.RejectedExamples | qr-generator/app/Services/QrCodeService.php:105 | short hex, hex without `#`, free text and a two-channel rgb all fail with 'Invalid color format' |
| Color.InterpolateEndpoints | qr-generator/app/Services/QrCodeService.php:150-157 | ratio 0 gives the first colour and ratio 1 the second |
| Color.InterpolateSame | qr-generator/app/Services/QrCodeService.php:150-157 | interpolating a colour with itself gives that colour at every ratio |
| Color.Interpolate | qr-generator/app/Services/QrCodeService.php:150-157 | for a ratio in [0, 1] every interpolated channel lies between the two colours' channels |
| Color.LerpReachesEndOnlyAtOne | qr-generator/app/Services/QrCodeService.php:153 | a channel that differs reaches the second colour's value exactly when the ratio is 1 |
| Color.LinearRatio | qr-generator/app/Services/QrCodeService.php:122-123 | the linear ratio `x / width` of a column lies in [0, 1) |
| Color.LinearRatioIncreasing | qr-generator/app/Services/QrCodeService.php:122-123 | the linear ratio grows strictly from column to column |
| Color.LinearNeverReachesColor2 | qr-generator/app/Services/QrCodeService.php:122-124 | no column of a linear gradient is painted in the second colour when the colours' red channels differ |
| Service.Lookup | qr-generator/app/Services/QrCodeService.php:75-76 | reading a config key gives its value, or the 'Undefined array key' exception when the key is absent |
| Service.ColorOf | qr-generator/app/Services/QrCodeService.php:86 | a string value is handed to `parseColor`; `null` is a TypeError |
| Service.ReadColor | qr-generator/app/Services/QrCodeService.php:75-76 | reading a colour key fails with an Exception when the key is absent, and otherwise parses the key's value |
| Service.BuildOptions | qr-generator/app/Services/QrCodeService.php:67-78 | option building succeeds exactly when `qrFormat` is present and both colours parse; the options then have automatic version, scale 10 and no base64 output; a missing `qrFormat` is an Exception |
| Service.BuildOptionsChoices | qr-generator/app/Services/QrCodeService.php:67-78 | built options use ECC level H, SVG output exactly when `qrFormat` is the string 'svg', and the parsed background and dark colours |
| Service.BuildOptionsRejectsBadColor | qr-generator/app/Services/QrCodeService.php:75-76 | an unparsable background or dark colour makes option building fail with 'Invalid color format' |
| Service.Compose | qr-generator/app/Services/QrCodeService.php:147 | the `mask` or `insert` call yields its image exactly when the library does not throw, and otherwise the library's error |
| Service.SwitchKind | qr-generator/app/Services/QrCodeService.php:120-145 | the `switch` on `grdType` takes the 'linear' case for the string 'linear' or `true` (loose comparison), the 'radial' case exactly for 'radial', and a string's own case otherwise |
| Service.FillPixel | qr-generator/app/Services/QrCodeService.php:120-145 | a canvas pixel is painted exactly when the kind is linear or radial |
| Service.FillOf | qr-generator/app/Services/QrCodeService.php:117-120 | the fill is chosen exactly when both colours parse and `grdType` is present; it has the switch's kind, the two parsed colours and the given size; an error in the first colour comes first |
| Service.GradientStage | qr-generator/app/Services/QrCodeService.php:108-148 | an image that does not decode fails the stage with the decoder's error; on success the stage masks the given image with a fill of that image's decoded size |
| Service.GradientFillChosen | qr-generator/app/Services/QrCodeService.php:108-148 | the gradient stage succeeds exactly when the image decodes, the fill is chosen and the mask call does not throw; the fill then has the switch's kind for `grdType`, the two configured colours and the decoded size |
| Service.LinearFillColumns | qr-generator/app/Services/QrCodeService.php:121-129 | a linear gradient paints every pixel, the same colour down each column, and column 0 in the first colour |
| Service.OtherKindsDrawNothing | qr-generator/app/Services/QrCodeService.php:120-145 | kinds other than linear and radial leave every canvas pixel blank |
| Service.DrawLine | qr-generator/app/Services/QrCodeService.php:125-127 | drawing the vertical line at column x paints exactly that column and leaves every other pixel as it was |
| Service.DrawLinear | qr-generator/app/Services/QrCodeService.php:121-129 | after the column loop every canvas pixel holds the linear fill colour for its position |
| Service.DrawRadial | qr-generator/app/Services/QrCodeService.php:130-143 | after the row and column loops every canvas pixel holds the radial fill colour for its distance ratio |
| Service.TruncHalf | qr-generator/app/Services/QrCodeService.php:178-181 | `(int)(n / 2)` rounds toward zero for both signs |
| Service.LogoPlacement | qr-generator/app/Services/QrCodeService.php:171-179 | the logo ends up at most a fifth of the canvas width and never wider than it was; a logo already narrow enough keeps its size, and a wider one takes the resized height |
| Service.LogoCentred | qr-generator/app/Services/QrCodeService.php:178-181 | the logo is centred horizontally to within one pixel, and vertically when it fits |
| Service.LogoOffsetTruncates | qr-generator/app/Services/QrCodeService.php:179-181 | a logo taller than the canvas gets a negative offset truncated toward zero |
| Service.CustomizeEyes | qr-generator/app/Services/QrCodeService.php:159-163 | eye customisation returns the image unchanged |
| Service.AddFrame | qr-generator/app/Services/QrCodeService.php:184-188 | adding a frame returns the image unchanged |
| Service.LogoStage | qr-generator/app/Services/QrCodeService.php:165-182 | an image that does not decode fails the stage with the decoder's error; on success the image gets the configured logo, at most a fifth of the image's width and no wider than the logo, and the insert call did not throw |
| Service.LogoPlacementChosen | qr-generator/app/Services/QrCodeService.php:165-182 | a successful logo stage inserts the configured logo at `LogoPlacement` of the decoded image size, the loaded logo size and the height its resize to a fifth of the image width gives, so the placement is the centred one |
| Service.Pipeline | qr-generator/app/Services/QrCodeService.php:25-46 | a pipeline that succeeds had a `text` the encoder rendered; with neither gradient nor logo its image is the encoder's output |
| Service.Stages | qr-generator/app/Services/QrCodeService.php:30-46 | with neither a truthy `gradient` nor a set `logo`, the stages pass the encoder's output through unchanged |
| Service.SaveStage | qr-generator/app/Services/QrCodeService.php:49 | saving reads `qrFormat`, failing with an Exception when it is absent, and otherwise hands the image and the format to the save call |
| Service.GenerateSpec | qr-generator/app/Services/QrCodeService.php:23-65 | only a TypeError escapes `generate`; a success record means every stage succeeded |
| Service.Run | qr-generator/app/Services/QrCodeService.php:17-21 | when option building throws, the throw escapes rather than becoming a failure record; otherwise the outcome is `generate`'s |
| Service.Catch | qr-generator/app/Services/QrCodeService.php:25-64 | a saved image becomes a success record with data and url; an Exception becomes a failure record carrying its message; a TypeError escapes |
| Service.ResultShape | qr-generator/app/Services/QrCodeService.php:51-63 | a returned result succeeds exactly when it has no error; success carries data and url, failure carries neither but has an error |
| Service.FailureCarriesMessage | qr-generator/app/Services/QrCodeService.php:57-64 | an exception in any stage is returned as a failure record with that exception's message |
| Service.UndecodableGradientFails | qr-generator/app/Services/QrCodeService.php:30-32 | when the encoder's output does not decode and the gradient is on, `generate` returns a failure carrying the decoder's message |
| Service.StagesInOrder | qr-generator/app/Services/QrCodeService.php:27-46 | the image passes through the gradient when `gradient` is truthy and then the logo when `logo` is set, in that order and no other |
| Service.GradientIgnoresEyesAndFrame | qr-generator/app/Services/QrCodeService.php:108-120 | the gradient stage gives the same result with `eye_color` and `frame` removed from the config |
| Service.LogoIgnoresEyesAndFrame | qr-generator/app/Services/QrCodeService.php:165-182 | the logo stage gives the same result with `eye_color` and `frame` removed from the config |
| Service.SaveIgnoresEyesAndFrame | qr-generator/app/Services/QrCodeService.php:190-209 | saving gives the same result with `eye_color` and `frame` removed from the config |
| Service.StagesIgnoreEyesAndFrame | qr-generator/app/Services/QrCodeService.php:30-46 | the image stages give the same result with `eye_color` and `frame` removed from the config |
| Service.PipelineIgnoresEyesAndFrame | qr-generator/app/Services/QrCodeService.php:27-46 | the pipeline's image does not depend on `eye_color` or `frame` |
| Service.EyesAndFrameAreIdentity | qr-generator/app/Services/QrCodeService.php:34-46 | removing `eye_color` and `frame` from the config does not change what `generate` returns |
| Service.QrCodeService.Init | qr-generator/app/Services/QrCodeService.php:17-21 | the service keeps the config and the options built from it |
| Service.QrCodeService.ApplyGradient | qr-generator/app/Services/QrCodeService.php:108-148 | returns the gradient stage's result and a fresh canvas; when the image decodes, the canvas has the image's size, and on success every pixel is the fill colour for its position |
| Service.QrCodeService.Generate | qr-generator/app/Services/QrCodeService.php:23-65 | the stage-by-stage run gives exactly the outcome of the pipeline followed by saving and the catch |
| Service.New | qr-generator/app/Services/QrCodeService.php:17-21 | construction fails exactly when option building fails, with the same error; otherwise the service holds the config |
| Request.Failures | qr-generator/app/Http/Requests/QrCodeRequest.php:15-45 | the failing fields are exactly the rule-table keys whose rules fail |
| Request.FieldPasses | qr-generator/app/Http/Requests/QrCodeRequest.php:15-45 | a `required` field fails when missing, null or blank; a `nullable` field with no requirement passes when missing or null; a key with no rules passes |
| Request.Validated | qr-generator/app/Http/Requests/QrCodeRequest.php:15-45 | `validated()` keeps exactly the input keys the rule table names, with their values |
| Request.SizeRule | qr-generator/app/Http/Requests/QrCodeRequest.php:20 | a non-blank `size` passes exactly when it is an integer in [200, 1000] |
| Request.SizeBoundsInclusive | qr-generator/app/Http/Requests/QrCodeRequest.php:20 | 200 and 1000 pass, 199, 1001 and a missing size fail |
| Request.ValidColorParses | qr-generator/app/Http/Requests/QrCodeRequest.php:25-26 | every colour the validation pattern accepts parses, with channels in 0..999 |
| Request.Rgb999Passes | qr-generator/app/Http/Requests/QrCodeRequest.php:25-26 | `rgb(999, 999, 999)` passes validation |
| Request.ThreeDigitsBelow1000 | qr-generator/app/Http/Requests/QrCodeRequest.php:25 | a run of at most three digits has a value of at most 999 |
| Request.HexFieldRule | qr-generator/app/Http/Requests/QrCodeRequest.php:29-36 | a present gradient or eye colour passes exactly when it is a string that is `#` plus six hex digits (one final line feed tolerated); a passing value always parses, and no rgb text passes |
| Request.ConditionalColors | qr-generator/app/Http/Requests/QrCodeRequest.php:29-30 | a missing gradient or eye colour fails exactly when its flag is truthy |
| Request.EnumRules | qr-generator/app/Http/Requests/QrCodeRequest.php:18-28 | category, format and gradient kind pass exactly when they are in their lists |
| Request.EyeStyleRule | qr-generator/app/Http/Requests/QrCodeRequest.php:37-38 | `eye_outer` and `eye_inner` pass when missing, blank or null, and otherwise exactly when they are a string made of their prefix and one digit, optionally followed by one line feed |
| Request.StyleIdText | qr-generator/app/Http/Requests/QrCodeRequest.php:37-38 | the pattern `^<prefix>[0-9]$` matches exactly the prefix plus one digit, optionally followed by one final line feed |
| Request.EyeStyleExamples | qr-generator/app/Http/Requests/QrCodeRequest.php:37-38 | worked cases: `eyeOuter3` and `eyeInner0` pass their fields; `eyeOuter12` and `eyeInner3` do not pass as outer styles |
| Request.FrameRules | qr-generator/app/Http/Requests/QrCodeRequest.php:41-43 | each frame field is judged on its own: when present, non-blank and non-null, `frame` passes exactly when it is an integer in [1, 15], `frameText` when it is a string of at most 50 characters, and `frameColor` when it is a hex colour |
| Request.WithDefaults | qr-generator/app/Http/Requests/QrCodeRequest.php:57-66 | the merge keeps every given value and adds 'png', false, false and false for the four missing keys, and no other key |
| Request.DefaultsFor | qr-generator/app/Http/Requests/QrCodeRequest.php:60-65 | the merged array has exactly the four defaulted keys, each holding the given value when there is one |
| Request.DefaultsIdempotent | qr-generator/app/Http/Requests/QrCodeRequest.php:57-66 | merging the defaults twice is the same as merging them once |
| Request.DefaultsReachService | qr-generator/app/Http/Requests/QrCodeRequest.php:57-66 | all four defaulted keys survive into `validated()` |
| Request.QrCodeRequest.PrepareForValidation | qr-generator/app/Http/Requests/QrCodeRequest.php:57-66 | the request's input becomes the old input with the defaults merged in |
| Controller.SameInputSameKey | qr-generator/app/Http/Controllers/Api/QrCodeController.php:17 | equal validated inputs give equal cache keys, all starting with `qr_` |
| Controller.Step | qr-generator/app/Http/Controllers/Api/QrCodeController.php:14-43 | one request appends at most one record and never rewrites the log; no cache entry is dropped; a request that throws or fails changes nothing |
| Controller.HitServesCache | qr-generator/app/Http/Controllers/Api/QrCodeController.php:20-22 | a live cache entry is returned with no change of state, whatever the service would do |
| Controller.MissSuccessRecords | qr-generator/app/Http/Controllers/Api/QrCodeController.php:28-42 | a successful miss appends exactly one record and stores the result for 24 hours under its key; the record holds the request's category and text, its format (or 'png' when none was given), the validated input, the result's url and the current time; other cache entries are unchanged |
| Controller.MissFailureChangesNothing | qr-generator/app/Http/Controllers/Api/QrCodeController.php:25-42 | a miss that fails or throws leaves the cache and the records unchanged; a failure is returned as is |
| Controller.FailureRetried | qr-generator/app/Http/Controllers/Api/QrCodeController.php:20-42 | after a failure the next identical request is still a miss: it runs the service again, whatever that service now answers, and answers with that result or its error |
| Controller.RepeatWithinTtl | qr-generator/app/Http/Controllers/Api/QrCodeController.php:20-39 | within 24 hours of a successful generation an identical request returns the same result and changes nothing, whatever the service would do |
| Controller.HitRepeats | qr-generator/app/Http/Controllers/Api/QrCodeController.php:20-22 | while an entry lives, repeating a hit returns the same result and changes nothing |
| Controller.Latest | qr-generator/app/Http/Controllers/Api/QrCodeController.php:57-58 | the first n of the records taken newest first |
| Controller.Rows | qr-generator/app/Http/Controllers/Api/QrCodeController.php:59 | each record is cut to the five listed columns, in the same order |
| Controller.QrCodeController.constructor | qr-generator/app/Http/Controllers/Api/QrCodeController.php:14-43 | starts with an empty cache and no records |
| Controller.QrCodeController.Generate | qr-generator/app/Http/Controllers/Api/QrCodeController.php:14-43 | the new cache, record log and response are exactly one cache/record step from the old state, and the records stay in creation order |
| Controller.QrCodeController.BulkGenerate | qr-generator/app/Http/Controllers/Api/QrCodeController.php:45-53 | always answers success false with 'Bulk generation not implemented yet' |
| Controller.QrCodeController.GetHistory | qr-generator/app/Http/Controllers/Api/QrCodeController.php:55-65 | answers success true with at most 50 rows, the newest records first, in non-increasing creation time |
| RateLimit.KeyAndLimit | qr-generator/app/Http/Middleware/QrCodeRateLimiter.php:15-16 | the bulk route uses `qr_bulk_`+ip with budget 10; every other route uses `qr_single_`+ip with budget 60 |
| RateLimit.KeyInjective | qr-generator/app/Http/Middleware/QrCodeRateLimiter.php:15 | two requests share a counter only when they come from the same IP and are both bulk or both not bulk |
| RateLimit.Hit | qr-generator/app/Http/Middleware/QrCodeRateLimiter.php:26 | a hit adds one to the live count of its key, opening a window that ends `decay` seconds from now when none is live and keeping a live window's end; other keys are untouched |
| RateLimit.HandleStep | qr-generator/app/Http/Middleware/QrCodeRateLimiter.php:12-29 | a request is forwarded exactly when its key's budget is not reached; a rejected request changes nothing and an admitted one records a 60-second hit |
| RateLimit.RejectRecordsNothing | qr-generator/app/Http/Middleware/QrCodeRateLimiter.php:18-24 | over budget: 429, success false, the fixed message, a positive retry-after equal to the time left in the window, and no hit recorded |
| RateLimit.AdmitRecordsOneHit | qr-generator/app/Http/Middleware/QrCodeRateLimiter.php:26-28 | under budget: forwarded, exactly one hit on the request's key, a new window ending 60 seconds from now when none was live (a live window keeps its end), all other keys untouched |
| RateLimit.AdmittedAfterRetry | qr-generator/app/Http/Middleware/QrCodeRateLimiter.php:18-26 | once the reported retry-after has passed, the same client is admitted |
| RateLimit.BurstAdmits | qr-generator/app/Http/Middleware/QrCodeRateLimiter.php:16-28 | of n requests within one instant exactly as many pass as the budget has room for, and the counter grows by that many |
| RateLimit.FromZeroExactlyLimitPass | qr-generator/app/Http/Middleware/QrCodeRateLimiter.php:16-28 | from an idle counter, exactly the budget (10 or 60) of any longer burst passes |
| RateLimit.QrCodeRateLimiter.constructor | qr-generator/app/Http/Middleware/QrCodeRateLimiter.php:12-29 | starts with no counters |
| RateLimit.QrCodeRateLimiter.Handle | qr-generator/app/Http/Middleware/QrCodeRateLimiter.php:12-29 | the new counter store and response are exactly one check-then-hit step from the old store |

## Left out

- The QR encoder (`generateBaseQR`) and the image library are foreign code. They are parameters of `Service.Env`: `render`, `decode`, `loadLogo`, `resize` and `composeFault`, and each may throw. What they compute from pixels is not modelled, and images are symbolic terms.
- Service.GradientStage: `Image::canvas` and the drawing calls `line` and `pixel` are taken not to throw. Only decoding and the mask call have failure paths.
- Radial gradient: the square-root distance ratio is floating point. It is a parameter of `Service.Env`. The loops that fill the canvas with it are modelled.
- Interpolated channels are exact reals, not PHP doubles. Floating-point rounding is not modelled.
- `(int)($w * 0.2)` is modelled as `w / 5`. For widths below 2^52 the integer part of the double product `w * 0.2` is the integer part of w / 5, so the two agree. Near 0.75 · 2^53 they start to differ.
- `saveImage`: the directory creation, the `time()`-based file name, the write and the base64 read-back are I/O. They are the `save` parameter of `Service.Env`. Only its read of `qrFormat` is modelled.
- `QrCodeRequest::messages` and `authorize` only configure the framework and carry no behaviour of their own.
- Request.FieldPasses: these rules are parameters of `Request.Framework`, not interpreted, because their meaning rests on framework parsing:
  - the `url` rule;
  - `required_without:gradient`;
  - `required_if:frame,!=,null`.
- Request.IntegerValue: accepts PHP ints and canonical decimal strings only. The framework's `integer` rule also accepts booleans and some other spellings, and those are not modelled.
- Laravel's input middleware (trimming strings, converting empty strings to null) is not modelled. Blank strings are treated as absent, as the validator does.
- Controller.Step: the cache key is `qr_` plus an uninterpreted fingerprint function. The md5 hash and JSON encoding are not modelled.
- Controller.Step: the record write (`QrCode::create`) and the cache write (`Cache::put`) are taken not to throw. In the code, a `Cache::put` that throws after the record was written answers 500 with the record kept; the model's "a request that throws changes nothing" covers only a throwing service.
- The record store's own `created_at` clock is the `now` argument.
- Controller: the model starts after `QrCodeRequest` validation has passed. For failing input the framework answers 422 before `generate` or `bulkGenerate` runs, and that answer is not modelled.
- Controller.QrCodeController.Generate: requires a clock that does not run backwards. This keeps the record log in creation order, which `getHistory`'s newest-first ordering depends on.
- Controller.QrCodeController.GetHistory: takes the newest records from the end of the log. `orderBy('created_at', 'desc')` leaves the order of records with equal `created_at` to the database, so the model fixes one order among ties, and one choice of which tied records fall inside the 50.
- Concurrency: concurrent requests and the cache and database races between them are not modelled. Every operation is one atomic step.
- RateLimit.Hit: the framework limiter's counter and timer are folded into one counter with a window end. Cache-store details, such as the separate timer key, are not modelled.
