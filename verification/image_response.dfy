/**
 * The parsing stages of `image` and `imageBatch` in src/functions/nanogpt.ts:
 * reshaping the parsed JSON response into the payload(s) and the metadata
 * that remains once `data` is deleted.
 */
module ImageResponse {
  import opened Results
  import opened JsValues
  import opened Errors

  /** What `image` returns: the first payload and the response without `data`. */
  datatype ImageResult = ImageResult(base64: Value, metadata: map<string, Value>)

  /** What `imageBatch` returns: every payload, in order, and the response without `data`. */
  datatype BatchResult = BatchResult(images: seq<Value>, metadata: map<string, Value>)

  /** `delete response.data`: the same object with only the `data` key gone. */
  function WithoutData(fields: map<string, Value>): (m: map<string, Value>)
    ensures m.Keys == fields.Keys - {"data"}
    ensures forall k :: k in m ==> m[k] == fields[k]
  {
    fields - {"data"}
  }

  /**
   * `response.data[0].b64_json`, then `delete response.data`. Reading a
   * property of undefined or null is a TypeError, caught and rethrown as a
   * parse error; a non-object response never gets past the first two reads.
   */
  function FromImageResponse(response: Value): (r: Result<ImageResult, ParseFailure>)
    ensures r.Success? ==> response.Obj? && r.value.metadata == WithoutData(response.fields)
    ensures
      && response.Obj? && Get(response.fields, "data").Arr?
      && |Get(response.fields, "data").elems| > 0
      && Get(response.fields, "data").elems[0].Obj?
      ==> r.Success? && r.value.base64 == Get(Get(response.fields, "data").elems[0].fields, "b64_json")
    ensures response.Obj? && Get(response.fields, "data") == Arr([]) ==> r.Failure?
    ensures response.Obj? && Get(response.fields, "data").Arr? ==>
      var data := Get(response.fields, "data").elems;
      (r.Success? <==> |data| > 0 && !data[0].Undefined? && !data[0].Null?)
    ensures response.Obj? && (Get(response.fields, "data").Undefined? || Get(response.fields, "data").Null?)
      ==> r == Failure(PropertyOfNullish("0"))
    ensures !response.Obj? ==> r.Failure?
  {
    match response
    case Undefined => Failure(PropertyOfNullish("data"))
    case Null => Failure(PropertyOfNullish("data"))
    case Obj(fields) =>
      var first :- Index(Get(fields, "data"), 0).ToResultOr(PropertyOfNullish("0"));
      var base64 :- Member(first, "b64_json").ToResultOr(PropertyOfNullish("b64_json"));
      Success(ImageResult(base64, WithoutData(fields)))
    case _ => Failure(PropertyOfNullish("0"))
  }

  /** `elems.map(i => ({base64: i.b64_json}))`, reduced to the payloads. */
  function Payloads(elems: seq<Value>): (r: Result<seq<Value>, ParseFailure>)
    ensures r.Success? <==> forall i :: 0 <= i < |elems| ==> Member(elems[i], "b64_json").Some?
    ensures r.Success? ==> |r.value| == |elems|
    ensures r.Success? ==> forall i :: 0 <= i < |elems| ==> Some(r.value[i]) == Member(elems[i], "b64_json")
    ensures r.Failure? ==> r.error == PropertyOfNullish("b64_json")
  {
    if |elems| == 0 then Success([])
    else
      var head :- Member(elems[0], "b64_json").ToResultOr(PropertyOfNullish("b64_json"));
      var tail :- Payloads(elems[1..]);
      Success([head] + tail)
  }

  /**
   * `response.data.map(...)`, then `delete response.data`. Reading `map` of
   * an undefined or null `data` is a TypeError; any other `data` that is not
   * an array has no `map` method to call.
   */
  function FromBatchResponse(response: Value): (r: Result<BatchResult, ParseFailure>)
    ensures r.Success? ==> response.Obj? && r.value.metadata == WithoutData(response.fields)
    ensures r.Success? ==> Get(response.fields, "data").Arr?
    ensures r.Success? ==>
      var data := Get(response.fields, "data").elems;
      && |r.value.images| == |data|
      && forall i :: 0 <= i < |data| ==> Some(r.value.images[i]) == Member(data[i], "b64_json")
    ensures response.Obj? && Get(response.fields, "data").Arr? ==>
      var data := Get(response.fields, "data").elems;
      (r.Success? <==> forall i :: 0 <= i < |data| ==> Member(data[i], "b64_json").Some?)
    ensures response.Obj? && (Get(response.fields, "data").Undefined? || Get(response.fields, "data").Null?)
      ==> r == Failure(PropertyOfNullish("map"))
    ensures response.Obj? && !Get(response.fields, "data").Arr? && Get(response.fields, "data").Obj?
      ==> r == Failure(NotAFunction("map"))
  {
    match response
    case Undefined => Failure(PropertyOfNullish("data"))
    case Null => Failure(PropertyOfNullish("data"))
    case Obj(fields) =>
      var data := Get(fields, "data");
      if data.Undefined? || data.Null? then Failure(PropertyOfNullish("map"))
      else if !data.Arr? then Failure(NotAFunction("map"))
      else
        var images :- Payloads(data.elems);
        Success(BatchResult(images, WithoutData(fields)))
    case _ => Failure(PropertyOfNullish("map"))
  }

  /**
   * The two reshapings agree: when the batch form succeeds on a response
   * with at least one image, the single form succeeds too, returning the
   * batch's first payload and the same metadata.
   */
  lemma {:induction false} BatchHeadIsImage(response: Value)
    requires FromBatchResponse(response).Success?
    requires |FromBatchResponse(response).value.images| > 0
    ensures FromImageResponse(response).Success?
    ensures FromImageResponse(response).value.base64 == FromBatchResponse(response).value.images[0]
    ensures FromImageResponse(response).value.metadata == FromBatchResponse(response).value.metadata
  {
    var data := Get(response.fields, "data").elems;
    assert Member(data[0], "b64_json").Some?;
  }

  /** The response `{data: [{b64_json: "AAA"}], seed: 42}` yields "AAA" with metadata `{seed: 42}`. */
  lemma SingleImageExample()
    ensures
      var response := Obj(map["data" := Arr([Obj(map["b64_json" := Str("AAA")])]), "seed" := FromInt(42)]);
      FromImageResponse(response) == Success(ImageResult(Str("AAA"), map["seed" := FromInt(42)]))
  {
    var response := Obj(map["data" := Arr([Obj(map["b64_json" := Str("AAA")])]), "seed" := FromInt(42)]);
    assert WithoutData(response.fields) == map["seed" := FromInt(42)];
  }

  /** A response whose `data` holds two images yields both payloads, in order. */
  lemma BatchExample()
    ensures
      var response := Obj(map["data" := Arr([Obj(map["b64_json" := Str("AAA")]), Obj(map["b64_json" := Str("BBB")])])]);
      && FromBatchResponse(response).Success?
      && FromBatchResponse(response).value.images == [Str("AAA"), Str("BBB")]
      && FromBatchResponse(response).value.metadata == map[]
  {
    var response := Obj(map["data" := Arr([Obj(map["b64_json" := Str("AAA")]), Obj(map["b64_json" := Str("BBB")])])]);
    assert WithoutData(response.fields) == map[];
  }
}
