/**
 * The decision logic of `chat` in src/functions/nanogpt.ts: reading the
 * argument, the ordered checks, the choice of endpoint, and splitting the
 * response body into the reply and its `<NanoGPT>` metadata.
 */
module Chat {
  import opened Results
  import opened JsValues
  import opened Errors
  import Text

  const ApiBaseUrl: string := "https://nano-gpt.com/api/"

  /** Model names with this prefix are sent to the Gemini endpoint. */
  const GeminiPrefix: string := "gemini"

  const OpenMarker: string := "<NanoGPT>"
  const CloseMarker: string := "</NanoGPT>"

  datatype Endpoint = TalkToGpt | TalkToGemini {
    function Url(): string {
      ApiBaseUrl + (if TalkToGpt? then "talk-to-gpt" else "talk-to-gemini")
    }
  }

  /** What is posted: the target endpoint and the JSON body `{prompt, model, messages}`. */
  datatype ChatRequest = ChatRequest(endpoint: Endpoint, prompt: string, model: string, messages: seq<Value>)

  /** The prompt, explicit model and context an argument supplies, before any check. */
  datatype ChatArguments = ChatArguments(prompt: Value, model: Value, context: Value)

  /**
   * Reading the argument: a bare string is the prompt with no model and an
   * empty context; a plain object supplies its `prompt`, `model` and
   * `context`, a falsy context becoming `[]`; anything else is rejected.
   */
  function Unpack(params: Value): (r: Option<ChatArguments>)
    ensures r.Some? <==> params.Str? || params.Obj?
    ensures r.Some? ==> Truthy(r.value.context)
    ensures params.Str? ==> r.value.prompt == params && !Truthy(r.value.model) && r.value.context == Arr([])
    ensures params.Obj? ==>
      && r.value.prompt == Get(params.fields, "prompt")
      && r.value.model == Get(params.fields, "model")
      && (Truthy(Get(params.fields, "context")) ==> r.value.context == Get(params.fields, "context"))
      && (!Truthy(Get(params.fields, "context")) ==> r.value.context == Arr([]))
  {
    if IsString(params) then Some(ChatArguments(params, Undefined, Arr([])))
    else if IsObject(params) then
      Some(ChatArguments(
        Get(params.fields, "prompt"),
        Get(params.fields, "model"),
        Or(Get(params.fields, "context"), Arr([]))))
    else None
  }

  /** The endpoint a resolved model name selects. */
  function Route(model: string): (e: Endpoint)
    ensures e == TalkToGemini <==> |model| >= 6 && model[..6] == "gemini"
    ensures e.Url() == "https://nano-gpt.com/api/talk-to-gemini" <==> e == TalkToGemini
    ensures e.Url() == "https://nano-gpt.com/api/talk-to-gpt" <==> e == TalkToGpt
  {
    if Text.StartsWith(model, GeminiPrefix) then TalkToGemini else TalkToGpt
  }

  /**
   * Everything `chat` decides before the request is sent. The model is the
   * explicit one when truthy, else the client's default. A truthy model
   * that is not a string passes the checks and then fails at `startsWith`.
   */
  function PrepareChat(params: Value, defaultModel: Value): (r: Result<ChatRequest, Error>)
    ensures r.Success? ==> r.value.model != ""
    ensures r.Success? ==> (r.value.endpoint == TalkToGemini <==> GeminiPrefix <= r.value.model)
    ensures r.Success? ==> params.Str? || params.Obj?
  {
    match Unpack(params)
    case None => Failure(IncorrectParameters)
    case Some(args) =>
      var model := Or(args.model, defaultModel);
      if !Truthy(model) then Failure(ModelNotSet)
      else if !IsString(args.prompt) then Failure(PromptNotAString)
      else if !IsArray(args.context) then Failure(ContextNotAnArray)
      else if !model.Str? then Failure(StartsWithNotAFunction)
      else Success(ChatRequest(Route(model.s), args.prompt.s, model.s, args.context.elems))
  }

  /**
   * A bare string prompt always uses the client's default model, with an
   * empty context, and goes to the Gemini endpoint exactly when that
   * default starts with "gemini".
   */
  lemma PromptShorthand(p: string, defaultModel: Value)
    ensures !Truthy(defaultModel) ==> PrepareChat(Str(p), defaultModel) == Failure(ModelNotSet)
    ensures Truthy(defaultModel) && !defaultModel.Str? ==>
      PrepareChat(Str(p), defaultModel) == Failure(StartsWithNotAFunction)
    ensures defaultModel.Str? && defaultModel.s != "" ==>
      && PrepareChat(Str(p), defaultModel).Success?
      && PrepareChat(Str(p), defaultModel).value.prompt == p
      && PrepareChat(Str(p), defaultModel).value.model == defaultModel.s
      && PrepareChat(Str(p), defaultModel).value.messages == []
      && (PrepareChat(Str(p), defaultModel).value.endpoint == TalkToGemini
          <==> GeminiPrefix <= defaultModel.s)
  {
  }

  /**
   * The checks on an object argument run in a fixed order, and the first
   * that fails names the error: model, then prompt, then context, then the
   * `startsWith` call on the model.
   */
  lemma ObjectChecksInOrder(fields: map<string, Value>, defaultModel: Value)
    ensures
      var model := Or(Get(fields, "model"), defaultModel);
      var prompt := Get(fields, "prompt");
      var context := Get(fields, "context");
      var r := PrepareChat(Obj(fields), defaultModel);
      && (r == Failure(ModelNotSet) <==> !Truthy(model))
      && (r == Failure(PromptNotAString) <==> Truthy(model) && !prompt.Str?)
      && (r == Failure(ContextNotAnArray) <==>
            Truthy(model) && prompt.Str? && Truthy(context) && !context.Arr?)
      && (r == Failure(StartsWithNotAFunction) <==>
            Truthy(model) && prompt.Str? && (!Truthy(context) || context.Arr?) && !model.Str?)
      && (r.Success? <==>
            model.Str? && model.s != "" && prompt.Str? && (!Truthy(context) || context.Arr?))
  {
  }

  /**
   * On success the request carries the object's own prompt, the resolved
   * model, and its context, with a falsy context sent as no messages.
   */
  lemma ObjectRequest(fields: map<string, Value>, defaultModel: Value)
    requires PrepareChat(Obj(fields), defaultModel).Success?
    ensures
      var r := PrepareChat(Obj(fields), defaultModel).value;
      var context := Get(fields, "context");
      && Str(r.prompt) == Get(fields, "prompt")
      && Str(r.model) == Or(Get(fields, "model"), defaultModel)
      && r.messages == (if Truthy(context) then context.elems else [])
  {
  }

  /** Anything but a string or a plain object is rejected before the model is looked at. */
  lemma IncorrectParametersExactly(params: Value, defaultModel: Value)
    ensures PrepareChat(params, defaultModel) == Failure(IncorrectParameters)
      <==> !params.Str? && !params.Obj?
  {
    IsObjectExactly(params);
  }

  /**
   * A truthy explicit model decides the request on its own: the client's
   * default cannot change the outcome, in particular not the endpoint.
   */
  lemma ExplicitModelOverridesDefault(fields: map<string, Value>, default1: Value, default2: Value)
    requires Truthy(Get(fields, "model"))
    ensures PrepareChat(Obj(fields), default1) == PrepareChat(Obj(fields), default2)
  {
  }

  /** The reply text and the metadata text of a response body, before JSON parsing. */
  datatype Frame = Frame(reply: string, metadataText: string)

  /**
   * `split('<NanoGPT>')` then `split('</NanoGPT>')`: the reply is the first
   * piece; the metadata text is the second piece cut at its first close marker.
   * With no open marker there is no second piece to split.
   */
  function SplitFrame(body: string): (r: Result<Frame, ParseFailure>)
    ensures r.Failure? <==> Text.Absent(body, OpenMarker)
    ensures r.Failure? ==> r.error == MissingOpenMarker
    ensures r.Success? ==> Text.Absent(r.value.reply, OpenMarker)
    ensures r.Success? ==> Text.Absent(r.value.metadataText, CloseMarker)
  {
    var pieces := Text.Split(body, OpenMarker);
    Text.SecondPiece(body, OpenMarker);
    Text.SplitPiecesAbsent(body, OpenMarker);
    if |pieces| < 2 then Failure(MissingOpenMarker)
    else
      Text.SplitPiecesAbsent(pieces[1], CloseMarker);
      Success(Frame(pieces[0], Text.Split(pieces[1], CloseMarker)[0]))
  }

  /** A close marker cannot start just before an open marker and overlap it. */
  lemma NoCloseAcrossOpen(s: string, j: nat, p: nat)
    requires Text.OccursAt(s, OpenMarker, p)
    requires j < p < j + |CloseMarker|
    ensures !Text.OccursAt(s, CloseMarker, j)
  {
    assert s[p] == OpenMarker[0];
    assert forall k :: 1 <= k < |CloseMarker| ==> CloseMarker[k] != OpenMarker[0];
  }

  /** The framing parser fails exactly when the body holds no open marker. */
  lemma FrameFailsWithoutOpenMarker(body: string)
    ensures SplitFrame(body).Failure? <==> Text.Absent(body, OpenMarker)
    ensures SplitFrame(body).Failure? ==> SplitFrame(body).error == MissingOpenMarker
  {
    Text.SecondPiece(body, OpenMarker);
  }

  /** The reply is exactly the text before the first open marker. */
  lemma FrameReply(body: string)
    requires SplitFrame(body).Success?
    ensures SplitFrame(body).value.reply + OpenMarker <= body
    ensures forall j: nat :: j < |SplitFrame(body).value.reply| ==> !Text.OccursAt(body, OpenMarker, j)
  {
    Text.FirstPiece(body, OpenMarker);
    Text.SecondPiece(body, OpenMarker);
    var reply := SplitFrame(body).value.reply;
    assert Text.OccursAt(body, OpenMarker, |reply|);
    assert body[..|reply| + |OpenMarker|] == reply + OpenMarker;
  }

  /**
   * Cutting a text at its first open marker and then at its first close
   * marker stops at whichever of the two comes first, or at the end.
   */
  lemma {:induction false} CutAtMarkers(rest: string)
    ensures
      var m := Text.Split(Text.Split(rest, OpenMarker)[0], CloseMarker)[0];
      && m <= rest
      && (forall j: nat :: j < |m| ==>
            !Text.OccursAt(rest, OpenMarker, j) && !Text.OccursAt(rest, CloseMarker, j))
      && (|| m == rest
          || Text.OccursAt(rest, CloseMarker, |m|)
          || Text.OccursAt(rest, OpenMarker, |m|))
  {
    var segment := Text.Split(rest, OpenMarker)[0];
    var m := Text.Split(segment, CloseMarker)[0];
    Text.FirstPiece(rest, OpenMarker);
    Text.FirstPiece(segment, CloseMarker);
    forall j: nat | j < |m|
      ensures !Text.OccursAt(rest, OpenMarker, j) && !Text.OccursAt(rest, CloseMarker, j)
    {
      if Text.OccursAt(rest, CloseMarker, j) {
        if j + |CloseMarker| <= |segment| {
          assert segment[j..j + |CloseMarker|] == rest[j..j + |CloseMarker|];
          assert Text.OccursAt(segment, CloseMarker, j);
        } else {
          NoCloseAcrossOpen(rest, j, |segment|);
        }
      }
    }
    if m != segment {
      assert segment[|m|..|m| + |CloseMarker|] == rest[|m|..|m| + |CloseMarker|];
    }
  }

  /**
   * The metadata text is what follows the first open marker, cut at the
   * first close marker or the next open marker, whichever comes first; with
   * neither, it is the whole remainder.
   */
  lemma {:induction false} FrameMetadata(body: string)
    requires SplitFrame(body).Success?
    ensures
      var f := SplitFrame(body).value;
      var rest := body[|f.reply| + |OpenMarker|..];
      && f.metadataText <= rest
      && (forall j: nat :: j < |f.metadataText| ==>
            !Text.OccursAt(rest, OpenMarker, j) && !Text.OccursAt(rest, CloseMarker, j))
      && (|| f.metadataText == rest
          || Text.OccursAt(rest, CloseMarker, |f.metadataText|)
          || Text.OccursAt(rest, OpenMarker, |f.metadataText|))
  {
    Text.SecondPiece(body, OpenMarker);
    var f := SplitFrame(body).value;
    var rest := body[|f.reply| + |OpenMarker|..];
    assert Text.Split(body, OpenMarker)[1] == Text.Split(rest, OpenMarker)[0];
    assert f.metadataText == Text.Split(Text.Split(rest, OpenMarker)[0], CloseMarker)[0];
    CutAtMarkers(rest);
  }

  /** A missing close marker is not an error: the whole remainder becomes the metadata text. */
  lemma MissingCloseMarker(body: string)
    requires SplitFrame(body).Success?
    requires
      var rest := body[|SplitFrame(body).value.reply| + |OpenMarker|..];
      Text.Absent(rest, CloseMarker) && Text.Absent(rest, OpenMarker)
    ensures SplitFrame(body).value.metadataText == body[|SplitFrame(body).value.reply| + |OpenMarker|..]
  {
    FrameMetadata(body);
  }

  /** What `chat` returns: the reply text and the parsed metadata. */
  datatype ChatReply = ChatReply(reply: string, metadata: Value)

  /**
   * The parsing stage of `chat`. `parse` stands for `JSON.parse`, `None`
   * being a thrown SyntaxError.
   */
  function ParseReply(body: string, parse: string -> Option<Value>): (r: Result<ChatReply, ParseFailure>)
    ensures r.Success? <==> SplitFrame(body).Success? && parse(SplitFrame(body).value.metadataText).Some?
    ensures r.Success? ==>
      && r.value.reply == SplitFrame(body).value.reply
      && parse(SplitFrame(body).value.metadataText) == Some(r.value.metadata)
    ensures Text.Absent(body, OpenMarker) ==> r == Failure(MissingOpenMarker)
  {
    FrameFailsWithoutOpenMarker(body);
    match SplitFrame(body)
    case Failure(e) => Failure(e)
    case Success(frame) =>
      match parse(frame.metadataText)
      case None => Failure(MalformedJson)
      case Some(metadata) => Success(ChatReply(frame.reply, metadata))
  }
}
