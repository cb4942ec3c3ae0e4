/**
 * `handleImageGenerationParams` in src/functions/nanogpt.ts: turning a prompt
 * string or an `ImageParams` object into the processed record that `image`
 * and `imageBatch` post, then checking that record field by field.
 */
module ImageParams {
  import opened Results
  import opened JsValues
  import opened Errors

  const DefaultWidth: nat := 1024
  const DefaultHeight: nat := 1024
  const DefaultSteps: nat := 25
  const DefaultSampler: string := "DPM++ 2S a Karras"
  const DefaultScale: real := 6.5
  const DefaultImageCount: nat := 1

  /** The processed record (`ProcessedImageParams`), as the JSON object it is posted as. */
  type Record = map<string, Value>

  /** The ten keys every processed record has before `paramsExtra` adds any. */
  const CanonicalKeys: set<string> :=
    {"prompt", "model", "width", "height", "negative_prompt", "num_steps",
     "sampler_name", "scale", "resolution", "nImages"}

  /**
   * Whether the template literal for the resolution completes on the
   * defaulted width and height of an `ImageParams` object.
   */
  predicate SizePrintable(fields: map<string, Value>) {
    && Printable(Or(Get(fields, "width"), FromInt(DefaultWidth)))
    && Printable(Or(Get(fields, "height"), FromInt(DefaultHeight)))
  }

  /** The template literal `${width}x${height}`. */
  function ResolutionText(width: Value, height: Value): string {
    ToText(width) + "x" + ToText(height)
  }

  /** The record built from a bare prompt string and the client's default model. */
  function Shorthand(prompt: string, model: Value): (r: Record)
    ensures r.Keys == CanonicalKeys
    ensures r["prompt"] == Str(prompt) && r["model"] == model
  {
    map[
      "prompt" := Str(prompt),
      "model" := model,
      "width" := FromInt(DefaultWidth),
      "height" := FromInt(DefaultHeight),
      "negative_prompt" := Str(""),
      "num_steps" := FromInt(DefaultSteps),
      "sampler_name" := Str(DefaultSampler),
      "scale" := Num(Finite(DefaultScale)),
      "resolution" := Str(ResolutionText(FromInt(DefaultWidth), FromInt(DefaultHeight))),
      "nImages" := FromInt(DefaultImageCount)]
  }

  /**
   * The record built from an `ImageParams` object before `paramsExtra` is
   * merged: each field falls back to its default through `||`, and the
   * resolution is derived from the width and height so obtained.
   */
  function FromObject(fields: map<string, Value>, defaultModel: Value): (r: Record)
    ensures r.Keys == CanonicalKeys
    ensures r["resolution"] == Str(ResolutionText(r["width"], r["height"]))
  {
    var width := Or(Get(fields, "width"), FromInt(DefaultWidth));
    var height := Or(Get(fields, "height"), FromInt(DefaultHeight));
    map[
      "prompt" := Or(Get(fields, "prompt"), Str("")),
      "model" := Or(Or(Get(fields, "model"), defaultModel), Str("")),
      "width" := width,
      "height" := height,
      "negative_prompt" := Or(Get(fields, "negativePrompt"), Str("")),
      "num_steps" := Or(Get(fields, "steps"), FromInt(DefaultSteps)),
      "sampler_name" := Or(Get(fields, "sampler"), Str(DefaultSampler)),
      "scale" := Or(Get(fields, "scale"), Num(Finite(DefaultScale))),
      "nImages" := Or(Get(fields, "batchSize"), FromInt(DefaultImageCount)),
      "resolution" := Str(ResolutionText(width, height))]
  }

  /** The shorthand record passes every check exactly when the default model is truthy. */
  lemma ShorthandValid(prompt: string, model: Value)
    ensures Valid(Shorthand(prompt, model)) <==> Truthy(model)
  {
    ShorthandFields(prompt, model);
    assert (1024 as real).Floor == 1024 && (25 as real).Floor == 25 && (1 as real).Floor == 1;
  }

  /** The defaulted fields of the shorthand record, read through `Get`. */
  lemma ShorthandFields(prompt: string, model: Value)
    ensures
      var r := Shorthand(prompt, model);
      && Get(r, "prompt") == Str(prompt) && Get(r, "model") == model
      && Get(r, "width") == FromInt(1024) && Get(r, "height") == FromInt(1024)
      && Get(r, "num_steps") == FromInt(25) && Get(r, "nImages") == FromInt(1)
      && Get(r, "negative_prompt") == Str("") && Get(r, "sampler_name") == Str(DefaultSampler)
      && Get(r, "scale") == Num(Finite(DefaultScale))
  {
  }

  /**
   * Only the prompt, model and negative prompt of an object's record can be
   * falsy: every other field has a truthy default. The model is truthy
   * exactly when the explicit or the default model is.
   */
  lemma FromObjectTruthy(fields: map<string, Value>, defaultModel: Value)
    ensures
      var r := FromObject(fields, defaultModel);
      && Truthy(r["width"]) && Truthy(r["height"]) && Truthy(r["num_steps"])
      && Truthy(r["sampler_name"]) && Truthy(r["scale"]) && Truthy(r["nImages"])
      && (Truthy(r["model"]) <==> Truthy(Get(fields, "model")) || Truthy(defaultModel))
  {
  }

  /** `{...record, ...extra}` when `extra` is a plain object; otherwise the record unchanged. */
  function Merge(record: Record, extra: Value): (r: Record)
    ensures !IsObject(extra) ==> r == record
    ensures IsObject(extra) ==> r.Keys == record.Keys + extra.fields.Keys
  {
    if IsObject(extra) then record + extra.fields else record
  }

  /** The checks on the processed record, in the order they run. */
  datatype Check =
    | PromptCheck
    | ModelCheck
    | WidthCheck
    | HeightCheck
    | NegativePromptCheck
    | StepsCheck
    | SamplerCheck
    | ScaleCheck
    | ImageCountCheck

  /** The position of a check in the cascade. */
  function Rank(c: Check): nat {
    match c
    case PromptCheck => 0
    case ModelCheck => 1
    case WidthCheck => 2
    case HeightCheck => 3
    case NegativePromptCheck => 4
    case StepsCheck => 5
    case SamplerCheck => 6
    case ScaleCheck => 7
    case ImageCountCheck => 8
  }

  /** The error a failing check throws. */
  function ErrorOf(c: Check): Error {
    match c
    case PromptCheck => PromptNotAString
    case ModelCheck => ModelNotSet
    case WidthCheck => WidthInvalid
    case HeightCheck => HeightInvalid
    case NegativePromptCheck => NegativePromptNotAString
    case StepsCheck => StepsInvalid
    case SamplerCheck => SamplerNotAString
    case ScaleCheck => ScaleNotANumber
    case ImageCountCheck => ImageCountInvalid
  }

  /** What each check demands of the record. */
  predicate Passes(c: Check, record: Record) {
    match c
    case PromptCheck => IsString(Get(record, "prompt"))
    case ModelCheck => Truthy(Get(record, "model"))
    case WidthCheck => IsIntegerGreaterThanZero(Get(record, "width"))
    case HeightCheck => IsIntegerGreaterThanZero(Get(record, "height"))
    case NegativePromptCheck => IsString(Get(record, "negative_prompt"))
    case StepsCheck => IsIntegerGreaterThanZero(Get(record, "num_steps"))
    case SamplerCheck => IsString(Get(record, "sampler_name"))
    case ScaleCheck => IsNumber(Get(record, "scale"))
    case ImageCountCheck => IsIntegerGreaterThanZero(Get(record, "nImages"))
  }

  /** A record every check accepts. */
  predicate Valid(record: Record) {
    && Passes(PromptCheck, record)
    && Passes(ModelCheck, record)
    && Passes(WidthCheck, record)
    && Passes(HeightCheck, record)
    && Passes(NegativePromptCheck, record)
    && Passes(StepsCheck, record)
    && Passes(SamplerCheck, record)
    && Passes(ScaleCheck, record)
    && Passes(ImageCountCheck, record)
  }

  /** The cascade of checks at the end of `handleImageGenerationParams`. */
  function Validate(record: Record): (r: Result<Record, Error>)
    ensures r.Success? <==> Valid(record)
    ensures r.Success? ==> r.value == record
  {
    if !IsString(Get(record, "prompt")) then Failure(PromptNotAString)
    else if !Truthy(Get(record, "model")) then Failure(ModelNotSet)
    else if !IsIntegerGreaterThanZero(Get(record, "width")) then Failure(WidthInvalid)
    else if !IsIntegerGreaterThanZero(Get(record, "height")) then Failure(HeightInvalid)
    else if !IsString(Get(record, "negative_prompt")) then Failure(NegativePromptNotAString)
    else if !IsIntegerGreaterThanZero(Get(record, "num_steps")) then Failure(StepsInvalid)
    else if !IsString(Get(record, "sampler_name")) then Failure(SamplerNotAString)
    else if !IsNumber(Get(record, "scale")) then Failure(ScaleNotANumber)
    else if !IsIntegerGreaterThanZero(Get(record, "nImages")) then Failure(ImageCountInvalid)
    else Success(record)
  }

  /**
   * The error reported is that of the first failing check: a check's error
   * is returned exactly when it fails and every earlier check passes.
   */
  lemma ValidateReportsFirstFailure(record: Record, c: Check)
    ensures Validate(record) == Failure(ErrorOf(c))
      <==> !Passes(c, record) && forall d: Check :: Rank(d) < Rank(c) ==> Passes(d, record)
  {
    var earlier := forall d: Check :: Rank(d) < Rank(c) ==> Passes(d, record);
    match c
    case PromptCheck =>
    case ModelCheck =>
      assert earlier <==> Passes(PromptCheck, record);
    case WidthCheck =>
      assert earlier <==> (Passes(PromptCheck, record) && Passes(ModelCheck, record));
    case HeightCheck =>
      assert earlier <==> (Passes(PromptCheck, record) && Passes(ModelCheck, record)
        && Passes(WidthCheck, record));
    case NegativePromptCheck =>
      assert earlier <==> (Passes(PromptCheck, record) && Passes(ModelCheck, record)
        && Passes(WidthCheck, record) && Passes(HeightCheck, record));
    case StepsCheck =>
      assert earlier <==> (Passes(PromptCheck, record) && Passes(ModelCheck, record)
        && Passes(WidthCheck, record) && Passes(HeightCheck, record)
        && Passes(NegativePromptCheck, record));
    case SamplerCheck =>
      assert earlier <==> (Passes(PromptCheck, record) && Passes(ModelCheck, record)
        && Passes(WidthCheck, record) && Passes(HeightCheck, record)
        && Passes(NegativePromptCheck, record) && Passes(StepsCheck, record));
    case ScaleCheck =>
      assert earlier <==> (Passes(PromptCheck, record) && Passes(ModelCheck, record)
        && Passes(WidthCheck, record) && Passes(HeightCheck, record)
        && Passes(NegativePromptCheck, record) && Passes(StepsCheck, record)
        && Passes(SamplerCheck, record));
    case ImageCountCheck =>
      assert earlier <==> (Passes(PromptCheck, record) && Passes(ModelCheck, record)
        && Passes(WidthCheck, record) && Passes(HeightCheck, record)
        && Passes(NegativePromptCheck, record) && Passes(StepsCheck, record)
        && Passes(SamplerCheck, record) && Passes(ScaleCheck, record));
  }

  /**
   * `handleImageGenerationParams`: a prompt string needs a default model; an
   * object is defaulted, merged with a plain-object `paramsExtra`, and only
   * then checked; anything else is rejected.
   */
  function Normalize(params: Value, defaultModel: Value): (r: Result<Record, Error>)
    ensures IsString(params) && !Truthy(defaultModel) ==> r == Failure(ModelNotSet)
    ensures !params.Str? && !params.Obj? ==> r == Failure(IncorrectParameters)
    ensures params.Obj? && !SizePrintable(params.fields) ==> r == Failure(NotConvertibleToPrimitive)
    ensures r.Success? ==>
      && IsString(Get(r.value, "prompt"))
      && Truthy(Get(r.value, "model"))
      && (Get(r.value, "model").Str? ==> Get(r.value, "model").s != "")
      && IsIntegerGreaterThanZero(Get(r.value, "width"))
      && IsIntegerGreaterThanZero(Get(r.value, "height"))
      && IsString(Get(r.value, "negative_prompt"))
      && IsIntegerGreaterThanZero(Get(r.value, "num_steps"))
      && IsString(Get(r.value, "sampler_name"))
      && IsNumber(Get(r.value, "scale"))
      && IsIntegerGreaterThanZero(Get(r.value, "nImages"))
    ensures r.Success? ==> CanonicalKeys <= r.value.Keys
  {
    if IsString(params) then
      if !Truthy(defaultModel) then Failure(ModelNotSet)
      else Validate(Shorthand(params.s, defaultModel))
    else if IsObject(params) then
      if !SizePrintable(params.fields) then Failure(NotConvertibleToPrimitive)
      else Validate(Merge(FromObject(params.fields, defaultModel), Get(params.fields, "paramsExtra")))
    else Failure(IncorrectParameters)
  }

  /** `imageBatch` accepts only a plain object, and then normalises it as `image` does. */
  function NormalizeBatch(params: Value, defaultModel: Value): (r: Result<Record, Error>)
    ensures !params.Obj? ==> r == Failure(IncorrectParameters)
    ensures params.Obj? ==> r == Normalize(params, defaultModel)
  {
    IsObjectExactly(params);
    if !IsObject(params) then Failure(IncorrectParameters) else Normalize(params, defaultModel)
  }

  /** The default size prints as "1024x1024". */
  lemma DefaultResolution()
    ensures ResolutionText(FromInt(DefaultWidth), FromInt(DefaultHeight)) == "1024x1024"
  {
    IntegerText(1024);
    assert NatText(1024) == NatText(102) + ['4'];
    assert NatText(102) == NatText(10) + ['2'];
    assert NatText(10) == NatText(1) + ['0'];
  }

  /**
   * A bare prompt with a default model yields the fixed defaults, with the
   * default model and no other key: `paramsExtra` plays no part.
   */
  lemma PromptShorthand(p: string, defaultModel: Value)
    requires Truthy(defaultModel)
    ensures Normalize(Str(p), defaultModel).Success?
    ensures
      var r := Normalize(Str(p), defaultModel).value;
      && r.Keys == CanonicalKeys
      && r["prompt"] == Str(p)
      && r["model"] == defaultModel
      && r["width"] == FromInt(1024)
      && r["height"] == FromInt(1024)
      && r["negative_prompt"] == Str("")
      && r["num_steps"] == FromInt(25)
      && r["sampler_name"] == Str("DPM++ 2S a Karras")
      && r["scale"] == Num(Finite(6.5))
      && r["resolution"] == Str("1024x1024")
      && r["nImages"] == FromInt(1)
  {
    DefaultResolution();
    ShorthandValid(p, defaultModel);
    assert Normalize(Str(p), defaultModel) == Success(Shorthand(p, defaultModel));
  }

  /**
   * Before the merge, every field of an object argument is its own value
   * when truthy and its default otherwise; the model falls back to the
   * client's default and then to "".
   */
  lemma FalsyFieldsFallBack(fields: map<string, Value>, defaultModel: Value)
    ensures
      var r := FromObject(fields, defaultModel);
      && r.Keys == CanonicalKeys
      && (Truthy(Get(fields, "prompt")) ==> r["prompt"] == fields["prompt"])
      && (!Truthy(Get(fields, "prompt")) ==> r["prompt"] == Str(""))
      && (Truthy(Get(fields, "model")) ==> r["model"] == fields["model"])
      && (!Truthy(Get(fields, "model")) && Truthy(defaultModel) ==> r["model"] == defaultModel)
      && (!Truthy(Get(fields, "model")) && !Truthy(defaultModel) ==> r["model"] == Str(""))
      && (Truthy(Get(fields, "width")) ==> r["width"] == fields["width"])
      && (!Truthy(Get(fields, "width")) ==> r["width"] == FromInt(1024))
      && (Truthy(Get(fields, "height")) ==> r["height"] == fields["height"])
      && (!Truthy(Get(fields, "height")) ==> r["height"] == FromInt(1024))
      && (Truthy(Get(fields, "negativePrompt")) ==> r["negative_prompt"] == fields["negativePrompt"])
      && (!Truthy(Get(fields, "negativePrompt")) ==> r["negative_prompt"] == Str(""))
      && (Truthy(Get(fields, "steps")) ==> r["num_steps"] == fields["steps"])
      && (!Truthy(Get(fields, "steps")) ==> r["num_steps"] == FromInt(25))
      && (Truthy(Get(fields, "sampler")) ==> r["sampler_name"] == fields["sampler"])
      && (!Truthy(Get(fields, "sampler")) ==> r["sampler_name"] == Str("DPM++ 2S a Karras"))
      && (Truthy(Get(fields, "scale")) ==> r["scale"] == fields["scale"])
      && (!Truthy(Get(fields, "scale")) ==> r["scale"] == Num(Finite(6.5)))
      && (Truthy(Get(fields, "batchSize")) ==> r["nImages"] == fields["batchSize"])
      && (!Truthy(Get(fields, "batchSize")) ==> r["nImages"] == FromInt(1))
      && r["resolution"] == Str(ToText(r["width"]) + "x" + ToText(r["height"]))
  {
  }

  /**
   * `paramsExtra`, when a plain object, wins on every key it has, including
   * `resolution`; every other key keeps its defaulted value. Any other
   * `paramsExtra` (an array among them) is ignored.
   */
  lemma ExtrasOverride(record: Record, extra: Value)
    ensures IsObject(extra) ==> Merge(record, extra).Keys == record.Keys + extra.fields.Keys
    ensures IsObject(extra) ==>
      forall k :: k in extra.fields ==> Merge(record, extra)[k] == extra.fields[k]
    ensures IsObject(extra) ==>
      forall k :: k in record && k !in extra.fields ==> Merge(record, extra)[k] == record[k]
    ensures !IsObject(extra) ==> Merge(record, extra) == record
  {
  }

  /**
   * The resolution is fixed before the merge: unless `paramsExtra` sets
   * `resolution` itself, it still describes the defaulted width and height,
   * even when `paramsExtra` replaces them.
   */
  lemma ResolutionPrecedesMerge(fields: map<string, Value>, defaultModel: Value)
    requires IsObject(Get(fields, "paramsExtra")) ==> "resolution" !in Get(fields, "paramsExtra").fields
    ensures
      var before := FromObject(fields, defaultModel);
      var after := Merge(before, Get(fields, "paramsExtra"));
      after["resolution"] == Str(ResolutionText(
        Or(Get(fields, "width"), FromInt(1024)), Or(Get(fields, "height"), FromInt(1024))))
  {
  }

  /**
   * A width of 0 is falsy, so it is replaced by 1024 rather than rejected:
   * unless `paramsExtra` supplies a width, the width check cannot be the one
   * that fails, and a successful result has width 1024.
   */
  lemma ZeroWidthIsReplaced(fields: map<string, Value>, defaultModel: Value)
    requires Get(fields, "width") == FromInt(0)
    requires IsObject(Get(fields, "paramsExtra")) ==> "width" !in Get(fields, "paramsExtra").fields
    ensures Normalize(Obj(fields), defaultModel) != Failure(WidthInvalid)
    ensures Normalize(Obj(fields), defaultModel).Success? ==>
      Normalize(Obj(fields), defaultModel).value["width"] == FromInt(1024)
  {
    if SizePrintable(fields) {
      var rec := Merge(FromObject(fields, defaultModel), Get(fields, "paramsExtra"));
      ZeroWidthSurvivesMerge(fields, defaultModel);
      DefaultWidthPasses(rec);
      assert Normalize(Obj(fields), defaultModel) == Validate(rec);
    }
  }

  /** A record whose width is 1024 never fails the width check, and keeps that width. */
  lemma DefaultWidthPasses(rec: Record)
    requires Get(rec, "width") == FromInt(1024)
    ensures Validate(rec) != Failure(WidthInvalid)
    ensures Validate(rec).Success? ==> rec["width"] == FromInt(1024)
  {
    assert (1024 as real).Floor == 1024;
  }

  /** The defaulted width 1024 reaches the checks when `paramsExtra` sets no width. */
  lemma ZeroWidthSurvivesMerge(fields: map<string, Value>, defaultModel: Value)
    requires Get(fields, "width") == FromInt(0)
    requires IsObject(Get(fields, "paramsExtra")) ==> "width" !in Get(fields, "paramsExtra").fields
    ensures Get(Merge(FromObject(fields, defaultModel), Get(fields, "paramsExtra")), "width") == FromInt(1024)
  {
    assert FromObject(fields, defaultModel)["width"] == FromInt(1024);
  }

  /**
   * The checks run after the merge: a `paramsExtra` that sets `scale` to a
   * non-number makes an otherwise valid call fail with the scale error.
   */
  lemma ExtraScaleIsChecked(fields: map<string, Value>, defaultModel: Value, scale: Value)
    requires Valid(FromObject(fields, defaultModel))
    requires Get(fields, "paramsExtra") == Obj(map["scale" := scale])
    requires !scale.Num?
    ensures Normalize(Obj(fields), defaultModel) == Failure(ScaleNotANumber)
  {
    var before := FromObject(fields, defaultModel);
    ValidSizePrintable(fields, defaultModel);
    ScaleOverrideFails(before, scale);
    assert Normalize(Obj(fields), defaultModel) == Validate(Merge(before, Obj(map["scale" := scale])));
  }

  /**
   * The resolution text is built before `paramsExtra` is merged: an object
   * width with an own `toString` key makes the call throw, even when
   * `paramsExtra` would have replaced that width.
   */
  lemma ConversionPrecedesMerge(fields: map<string, Value>, defaultModel: Value, width: map<string, Value>)
    requires Get(fields, "width") == Obj(width) && "toString" in width
    ensures Normalize(Obj(fields), defaultModel) == Failure(NotConvertibleToPrimitive)
  {
    assert !Printable(Or(Get(fields, "width"), FromInt(DefaultWidth)));
  }

  /** The width and height of a valid record are numbers, so the resolution text was built. */
  lemma ValidSizePrintable(fields: map<string, Value>, defaultModel: Value)
    requires Valid(FromObject(fields, defaultModel))
    ensures SizePrintable(fields)
  {
    var r := FromObject(fields, defaultModel);
    assert Get(r, "width") == Or(Get(fields, "width"), FromInt(DefaultWidth));
    assert Get(r, "height") == Or(Get(fields, "height"), FromInt(DefaultHeight));
  }

  /** Merging a non-number scale into a valid record fails only the scale check. */
  lemma ScaleOverrideFails(record: Record, scale: Value)
    requires Valid(record)
    requires !scale.Num?
    ensures Validate(Merge(record, Obj(map["scale" := scale]))) == Failure(ScaleNotANumber)
  {
    var rec := Merge(record, Obj(map["scale" := scale]));
    assert rec == record + map["scale" := scale];
    assert Get(rec, "scale") == scale;
    KeptField(record, scale, "prompt");
    KeptField(record, scale, "model");
    KeptField(record, scale, "width");
    KeptField(record, scale, "height");
    KeptField(record, scale, "negative_prompt");
    KeptField(record, scale, "num_steps");
    KeptField(record, scale, "sampler_name");
  }

  /** A scale override leaves every other field of the record as it was. */
  lemma KeptField(record: Record, scale: Value, k: string)
    requires k != "scale"
    ensures Get(record + map["scale" := scale], k) == Get(record, k)
  {
  }
}
