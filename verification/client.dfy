/**
 * The client object the default export of src/functions/nanogpt.ts builds:
 * the configuration check, the context-message builders, and the request
 * preparation of `chat`, `image` and `imageBatch` bound to the client's
 * default model.
 */
module Client {
  import opened Results
  import opened JsValues
  import opened Errors
  import Chat
  import ImageParams

  /** The configuration captured at construction; the key is known to be a non-empty string. */
  datatype Client = Client(apiKey: string, defaultModel: Value)

  /**
   * Construction from a `NanoGPTConfig` value: destructuring undefined or
   * null throws; a falsy key is missing; a truthy non-string key is rejected.
   */
  function Create(config: Value): (r: Result<Client, Error>)
    ensures (config.Undefined? || config.Null?) ==> r == Failure(ConfigNotAnObject)
    ensures config.Obj? && !Truthy(Get(config.fields, "apiKey")) ==> r == Failure(ApiKeyNotProvided)
    ensures config.Obj? && Truthy(Get(config.fields, "apiKey")) && !Get(config.fields, "apiKey").Str?
      ==> r == Failure(ApiKeyNotAString)
    ensures r.Success? <==> config.Obj? && Get(config.fields, "apiKey").Str? && Get(config.fields, "apiKey").s != ""
    ensures r.Success? ==> r.value.apiKey != ""
    ensures r.Success? ==> config.Obj? && Str(r.value.apiKey) == config.fields["apiKey"]
    ensures r.Success? ==> r.value.defaultModel == Get(config.fields, "defaultModel")
  {
    match (Member(config, "apiKey"), Member(config, "defaultModel"))
    case (Some(apiKey), Some(defaultModel)) =>
      if !Truthy(apiKey) then Failure(ApiKeyNotProvided)
      else if !IsString(apiKey) then Failure(ApiKeyNotAString)
      else Success(Client(apiKey.s, defaultModel))
    case _ => Failure(ConfigNotAnObject)
  }

  /** The two speakers of a context message. */
  datatype Role = User | Assistant {
    function Name(): string {
      if User? then "user" else "assistant"
    }
  }

  /** A `ContextMessage`. */
  datatype ContextMessage = ContextMessage(role: Role, content: Value) {
    /** The message as the JSON object placed in `messages`. */
    function ToValue(): Value {
      Obj(map["role" := Str(role.Name()), "content" := content])
    }
  }

  /** The default parameter `content = ''`: it applies only when the argument is undefined. */
  function ContentOrEmpty(content: Value): Value {
    if content.Undefined? then Str("") else content
  }

  /**
   * Reads a context message back from a JSON value: an object with exactly
   * the keys `role` and `content`, whose role is "user" or "assistant".
   */
  function FromValue(v: Value): (r: Option<ContextMessage>)
    ensures r.Some? ==> v.Obj? && v.fields.Keys == {"role", "content"}
  {
    if !v.Obj? || v.fields.Keys != {"role", "content"} then None
    else if v.fields["role"] == Str("user") then Some(ContextMessage(User, v.fields["content"]))
    else if v.fields["role"] == Str("assistant") then Some(ContextMessage(Assistant, v.fields["content"]))
    else None
  }

  /** Every context message reads back from its JSON form unchanged. */
  lemma MessageRoundTrip(m: ContextMessage)
    ensures FromValue(m.ToValue()) == Some(m)
  {
    assert m.ToValue().fields.Keys == {"role", "content"};
  }

  /** Every value that reads as a context message is that message's JSON form. */
  lemma {:induction false} ValueRoundTrip(v: Value)
    requires FromValue(v).Some?
    ensures FromValue(v).value.ToValue() == v
  {
    var m := FromValue(v).value;
    assert m.ToValue().fields.Keys == v.fields.Keys;
    assert forall k | k in v.fields :: m.ToValue().fields[k] == v.fields[k];
  }

  /** `contextUser`. */
  function ContextUser(content: Value): (m: ContextMessage)
    ensures FromValue(m.ToValue()) == Some(m) && m.role == User
    ensures !m.content.Undefined?
    ensures Truthy(m.content) <==> Truthy(content)
    ensures content.Str? ==> m.content == content
  {
    var m := ContextMessage(User, ContentOrEmpty(content));
    MessageRoundTrip(m);
    m
  }

  /** `contextAI`. */
  function ContextAI(content: Value): (m: ContextMessage)
    ensures FromValue(m.ToValue()) == Some(m) && m.role == Assistant
    ensures !m.content.Undefined?
    ensures Truthy(m.content) <==> Truthy(content)
    ensures content.Str? ==> m.content == content
  {
    var m := ContextMessage(Assistant, ContentOrEmpty(content));
    MessageRoundTrip(m);
    m
  }

  /**
   * The builders differ only in the role: "user" for `contextUser`,
   * "assistant" for `contextAI`, with the content passed through unchanged
   * and defaulting to "".
   */
  lemma ContextBuilders(content: Value)
    ensures ContextUser(content).ToValue() == Obj(map["role" := Str("user"), "content" := ContextUser(content).content])
    ensures ContextAI(content).ToValue() == Obj(map["role" := Str("assistant"), "content" := ContextAI(content).content])
    ensures ContextUser(content).content == ContextAI(content).content
    ensures !content.Undefined? ==> ContextUser(content).content == content
    ensures ContextUser(Undefined).content == Str("") && ContextAI(Undefined).content == Str("")
  {
  }

  /** `chat` up to the request it would post. */
  function PrepareChat(client: Client, params: Value): Result<Chat.ChatRequest, Error> {
    Chat.PrepareChat(params, client.defaultModel)
  }

  /** `image` up to the record it would post. */
  function PrepareImage(client: Client, params: Value): Result<ImageParams.Record, Error> {
    ImageParams.Normalize(params, client.defaultModel)
  }

  /** `imageBatch` up to the record it would post. */
  function PrepareImageBatch(client: Client, params: Value): Result<ImageParams.Record, Error> {
    ImageParams.NormalizeBatch(params, client.defaultModel)
  }

  /**
   * A context built with the two builders passes the context check of
   * `chat` and is posted as the `messages` of the request, in order.
   */
  lemma BuiltContextIsPosted(client: Client, prompt: string, model: string, messages: seq<ContextMessage>)
    requires model != ""
    ensures
      var context := Arr(seq(|messages|, i requires 0 <= i < |messages| => messages[i].ToValue()));
      var params := Obj(map["prompt" := Str(prompt), "model" := Str(model), "context" := context]);
      && PrepareChat(client, params).Success?
      && PrepareChat(client, params).value.messages == context.elems
      && PrepareChat(client, params).value.model == model
  {
  }

  /**
   * A bare prompt string works for `image` (given a default model) but is
   * always rejected by `imageBatch`, before the default model is consulted.
   */
  lemma BatchRejectsPromptString(client: Client, prompt: string)
    ensures PrepareImageBatch(client, Str(prompt)) == Failure(IncorrectParameters)
    ensures Truthy(client.defaultModel) ==> PrepareImage(client, Str(prompt)).Success?
  {
    if Truthy(client.defaultModel) {
      ImageParams.PromptShorthand(prompt, client.defaultModel);
    }
  }
}
