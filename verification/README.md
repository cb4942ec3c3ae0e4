# NanoGPT client: a Dafny model of its decision logic

This project models the pure decision logic of the NanoGPT JavaScript client
(`src/functions/nanogpt.ts`), a thin wrapper around the NanoGPT HTTP API. It
proves properties of that logic. The logic covered is:

- the client's construction check on its API key;
- what `chat` decides before posting: how it reads a prompt string or a
  `ChatParams` object, its ordered argument checks, how it resolves the model,
  and whether it routes to `talk-to-gemini` or `talk-to-gpt`;
- how `chat` splits the response body into the reply text and the metadata
  text delimited by `<NanoGPT>` … `</NanoGPT>`;
- `handleImageGenerationParams`: the prompt-string shorthand, defaulting of an
  `ImageParams` object through `||`, the derived `resolution`, the late
  `paramsExtra` merge, and the ordered field checks;
- the reshaping of the parsed image responses by `image` and `imageBatch`;
- the `contextUser` / `contextAI` message builders.

Caller arguments and parsed JSON are dynamic JavaScript values. `JsValues.Value`
models them: undefined, null, booleans, strings, numbers (a finite real, NaN or
an infinity), plain objects (a map from key to value) and arrays. On top of
this the model defines `typeof`, truthiness and `||`, property reads, and the
string conversion a template literal performs. Every thrown error becomes the
`Failure` of a `Result`.

Modules: `Results` (Option/Result), `Text` (`split`, `startsWith`, occurrence
of a pattern), `JsValues`, `Errors` (error kinds and messages), `Chat`,
`ImageParams`, `ImageResponse`, `Client`.

Behaviour of the code worth knowing, which the model reproduces:

- A width of 0 in an `ImageParams` object is falsy, so `||` replaces it with
  1024 and the width check never rejects it; see
  `ImageParams.ZeroWidthIsReplaced`.
- The metadata text is cut at the first `</NanoGPT>` *or* at the next
  `<NanoGPT>`, because the code takes the second piece of a split on every
  open marker.
- `chat` accepts any falsy `context` and uses `[]` in its place.
- The model check for images tests truthiness, so a truthy non-string model
  supplied through `paramsExtra` passes.
- In `chat`, a truthy non-string model (for example `model: 5`) passes all
  three checks. It then fails at `_model.startsWith`, raising a TypeError from
  the engine rather than a library error (`StartsWithNotAFunction`).
- In `image` and `imageBatch`, a width or height that is an object with its
  own `toString` key makes the resolution template literal throw "Cannot
  convert object to primitive value". This happens before `paramsExtra` is
  merged, so an override cannot prevent it, and the error passes through
  without the library prefix (`NotConvertibleToPrimitive`).
- `image` on a response whose `data` is empty reads a property of undefined.
  That TypeError is caught and rethrown as a parse error, and the model
  returns the same failure.

## Model

| member | source | states |
|---|---|---|
| JsValues.IsObjectExactly | src/functions/nanogpt.ts:386-388 | `isObject` holds exactly for plain objects: null (whose `typeof` is "object") and arrays are excluded. Every value it accepts is truthy |
| JsValues.TypeTestsExactly | src/functions/nanogpt.ts:368-374 | `isString` / `isNumber`, defined through `typeof`, hold exactly for strings / numbers |
| JsValues.IsIntegerGreaterThanZeroExactly | src/functions/nanogpt.ts:376-384 | `isIntegerGreaterThanZero` (finite, equal to its floor, ≥ 1) holds exactly for the numbers k with k an integer ≥ 1 |
| JsValues.IntegerText | src/functions/nanogpt.ts:322 | in a template literal, a non-negative integer prints as its decimal digits |
| JsValues.NatTextRoundTrip | src/functions/nanogpt.ts:303 | the decimal text of an integer width or height is a non-empty digit string that reads back as the same number, so the "WxH" resolution text encodes the size |
| Text.FindFrom | src/functions/nanogpt.ts:106 | the search finds the first occurrence of the marker at or after a position, or reports that there is none |
| Text.Split | src/functions/nanogpt.ts:106 | `split` on a non-empty separator always gives at least one piece, so the reply `response__[0]` always exists (when a second piece exists is stated by `Text.SecondPiece`) |
| Text.JoinSplit | src/functions/nanogpt.ts:106 | `split` loses nothing but the separators: joining its pieces with the separator gives back the original string |
| Text.SplitPiecesAbsent | src/functions/nanogpt.ts:106-108 | no piece produced by `split` contains the separator |
| Text.FirstPiece | src/functions/nanogpt.ts:106-107 | the first piece of `split` ends exactly at the first occurrence of the separator, or is the whole string when there is none |
| Text.SecondPiece | src/functions/nanogpt.ts:106-108 | a second piece exists exactly when the separator occurs; it is the first piece of the text after the first separator |
| Errors.Message | src/functions/nanogpt.ts:16-20 | every error message the library composes itself starts with "[NanoGPTJS error] " |
| Chat.PrepareChat | src/functions/nanogpt.ts:42-77 | a prepared chat request has a non-empty model string. It targets the Gemini endpoint exactly when that model starts with "gemini". It exists only for a string or object argument |
| Chat.Unpack | src/functions/nanogpt.ts:48-58 | only strings and plain objects are accepted. A string is the prompt with no model and an empty context; an object supplies its `prompt`, `model` and truthy `context`. The context read is never falsy, since a falsy one becomes `[]` |
| Chat.Route | src/functions/nanogpt.ts:72-77 | the Gemini endpoint `https://nano-gpt.com/api/talk-to-gemini` is chosen exactly when the model's first six characters are "gemini"; every other model goes to `https://nano-gpt.com/api/talk-to-gpt` |
| Chat.PromptShorthand | src/functions/nanogpt.ts:49-50 | a bare prompt uses the default model with an empty context. With no default it fails with "Model not set"; a non-string default fails at `startsWith`. It routes to Gemini exactly when the default starts with "gemini" |
| Chat.ObjectChecksInOrder | src/functions/nanogpt.ts:51-70 | for an object argument the checks run model, then prompt, then context, then the `startsWith` call. Each error is returned exactly when its check fails and all earlier ones pass. Success holds exactly when all pass |
| Chat.ObjectRequest | src/functions/nanogpt.ts:51-60 | a successful request carries the object's prompt, the explicit model if truthy (else the default), and the object's context. A falsy context is sent as no messages |
| Chat.IncorrectParametersExactly | src/functions/nanogpt.ts:49-58 | "Incorrect parameters" is the outcome exactly for arguments that are neither strings nor plain objects |
| Chat.ExplicitModelOverridesDefault | src/functions/nanogpt.ts:60-77 | with a truthy explicit model, the configured default has no influence on the outcome, the endpoint included |
| Chat.SplitFrame | src/functions/nanogpt.ts:104-108 | framing fails, with the missing-open-marker failure, exactly when the body holds no `<NanoGPT>`. On success the reply contains no `<NanoGPT>` and the metadata text contains no `</NanoGPT>` |
| Chat.FrameFailsWithoutOpenMarker | src/functions/nanogpt.ts:106-108 | splitting the body fails, with the missing-open-marker failure, exactly when the body contains no `<NanoGPT>` |
| Chat.FrameReply | src/functions/nanogpt.ts:106-107 | the reply is exactly the text before the first `<NanoGPT>` |
| Chat.FrameMetadata | src/functions/nanogpt.ts:106-109 | the metadata text follows the first `<NanoGPT>` and is cut at the first `</NanoGPT>` or the next `<NanoGPT>`, whichever comes first. With neither present it is the whole remainder |
| Chat.CutAtMarkers | src/functions/nanogpt.ts:106-108 | cutting a text at its first `<NanoGPT>` and then at its first `</NanoGPT>` stops at whichever comes first, or at the end when neither occurs |
| Chat.MissingCloseMarker | src/functions/nanogpt.ts:108-110 | a missing close marker is not an error: when the remainder after the first `<NanoGPT>` holds no `</NanoGPT>` and no second `<NanoGPT>`, the whole remainder is handed to the JSON parser |
| Chat.ParseReply | src/functions/nanogpt.ts:104-119 | the chat result pairs the framed reply with the JSON parse of the framed metadata text. It fails exactly when the open marker is missing or the metadata text does not parse |
| ImageParams.Validate | src/functions/nanogpt.ts:331-359 | validation succeeds exactly when every field check passes, and then returns the record unchanged |
| ImageParams.ValidateReportsFirstFailure | src/functions/nanogpt.ts:331-357 | the checks run prompt, model, width, height, negative prompt, steps, sampler, scale, image count. A check's error is returned exactly when it fails and every earlier check passes |
| ImageParams.Normalize | src/functions/nanogpt.ts:286-360 | the outcomes: a prompt string with a falsy default fails "Model not set", and a non-string non-object fails "Incorrect parameters". An object whose defaulted width or height the resolution template literal cannot convert fails with that engine TypeError. On success the prompt is a string, the model truthy (non-empty if a string), width/height/num_steps/nImages integers ≥ 1, negative_prompt and sampler_name strings, scale a number, and the ten canonical keys present |
| ImageParams.NormalizeBatch | src/functions/nanogpt.ts:176-184 | `imageBatch` rejects every non-object argument with "Incorrect parameters" before normalising; objects are normalised as for `image` |
| ImageParams.Shorthand | src/functions/nanogpt.ts:294-305 | the record from a bare prompt has exactly the ten canonical keys and carries the prompt and the default model unchanged |
| ImageParams.ShorthandValid | src/functions/nanogpt.ts:294-356 | the record built from a bare prompt passes every check exactly when the default model is truthy; the other fields are always valid |
| ImageParams.FromObject | src/functions/nanogpt.ts:310-322 | the record from an object has exactly the ten canonical keys, whatever keys the object has, and its resolution describes the record's own width and height. `ImageParams.Normalize` builds it only when that width and height convert to text |
| ImageParams.ConversionPrecedesMerge | src/functions/nanogpt.ts:313-326 | an object width with its own `toString` key makes the call fail with "Cannot convert object to primitive value", whatever `paramsExtra` holds, since the resolution is built before the merge |
| ImageParams.FromObjectTruthy | src/functions/nanogpt.ts:310-322 | before the merge, width, height, steps, sampler, scale and image count are always truthy because their defaults are. The model is truthy exactly when the explicit or the default model is |
| ImageParams.Merge | src/functions/nanogpt.ts:324-326 | a plain-object `paramsExtra` adds its keys to the record's. Any other `paramsExtra`, arrays included, leaves the record unchanged. Which value wins on each key is stated by `ImageParams.ExtrasOverride` |
| ImageParams.DefaultResolution | src/functions/nanogpt.ts:303 | the default size gives the resolution "1024x1024" |
| ImageParams.PromptShorthand | src/functions/nanogpt.ts:289-305 | with a truthy default model, a bare prompt succeeds. It yields the prompt, the default model, width = height = 1024, negative_prompt "", num_steps 25, sampler "DPM++ 2S a Karras", scale 6.5, resolution "1024x1024" and nImages 1, and exactly the ten canonical keys (no `paramsExtra`) |
| ImageParams.FalsyFieldsFallBack | src/functions/nanogpt.ts:310-322 | before the merge, each field of an object argument is its own value when truthy and its default otherwise. The model falls back to the default model, then "". The resolution is the defaulted width and height joined by "x" |
| ImageParams.ExtrasOverride | src/functions/nanogpt.ts:324-326 | a plain-object `paramsExtra` wins on every key it has and leaves the others as defaulted. Any other `paramsExtra`, arrays included, is ignored |
| ImageParams.ResolutionPrecedesMerge | src/functions/nanogpt.ts:322-326 | unless `paramsExtra` sets `resolution`, the resolution describes the pre-merge width and height, even if `paramsExtra` changes them |
| ImageParams.ZeroWidthIsReplaced | src/functions/nanogpt.ts:313 | a width of 0 is replaced by 1024, not rejected. Unless `paramsExtra` sets a width, the width error cannot occur, and success has width 1024 |
| ImageParams.ExtraScaleIsChecked | src/functions/nanogpt.ts:324-354 | validation runs after the merge: a `paramsExtra` setting `scale` to a non-number makes an otherwise valid call fail with "Scale must be a number" |
| ImageParams.ScaleOverrideFails | src/functions/nanogpt.ts:324-354 | merging a non-number `scale` into a valid record fails the scale check and no earlier one |
| ImageResponse.WithoutData | src/functions/nanogpt.ts:158 | deleting `data` removes that key and nothing else, leaving every other value unchanged |
| ImageResponse.FromImageResponse | src/functions/nanogpt.ts:156-163 | the payload is the first `data` element's `b64_json`. The metadata is the response minus `data`. For an object response whose `data` is an array, it succeeds exactly when `data[0]` exists and is neither undefined nor null. A missing or null `data` fails reading `0`, and a response that is not an object always fails |
| ImageResponse.Payloads | src/functions/nanogpt.ts:209-212 | mapping succeeds exactly when no element is undefined or null. It returns one payload per element, in order, each the element's `b64_json` |
| ImageResponse.FromBatchResponse | src/functions/nanogpt.ts:208-218 | a batch result comes from an object whose `data` is an array, and for such a response it succeeds exactly when no element is undefined or null. It holds one payload per element in the same order, and the metadata is the response minus `data`. An undefined or null `data` fails reading `map`, and an object `data` fails because it has no `map` function |
| ImageResponse.BatchHeadIsImage | src/functions/nanogpt.ts:156-218 | when the batch form succeeds with at least one image, the single form also succeeds, with the batch's first payload and the same metadata |
| ImageResponse.SingleImageExample | src/functions/nanogpt.ts:156-163 | `{data:[{b64_json:"AAA"}], seed:42}` yields "AAA" with metadata `{seed:42}` |
| ImageResponse.BatchExample | src/functions/nanogpt.ts:208-218 | a two-image response yields both payloads in order and empty metadata |
| Client.Create | src/functions/nanogpt.ts:22-39 | construction succeeds exactly for an object configuration whose `apiKey` is a non-empty string. An undefined or null configuration cannot be destructured; a falsy key fails "API key not provided"; a truthy non-string key fails "must be a string". A created client holds that key and the configured default model |
| Client.ContextUser | src/functions/nanogpt.ts:272-274 | `contextUser` gives a message with role "user" that reads back from its JSON form unchanged. Its content is never undefined and is truthy exactly when the argument is; a string argument is kept as it is |
| Client.ContextAI | src/functions/nanogpt.ts:278-280 | `contextAI` gives a message with role "assistant" that reads back from its JSON form unchanged. Its content is never undefined and is truthy exactly when the argument is; a string argument is kept as it is |
| Client.MessageRoundTrip | src/functions/nanogpt.ts:272-280 | every context message the builders can produce reads back unchanged from the `{role, content}` object posted for it |
| Client.ValueRoundTrip | src/functions/nanogpt.ts:272-280 | conversely, every `{role, content}` object with a user or assistant role is exactly the JSON form of the message it reads as |
| Client.ContextBuilders | src/functions/nanogpt.ts:272-280 | `contextUser` / `contextAI` build `{role: "user"/"assistant", content}`. The content is the same for both, any defined argument is kept unchanged, and an undefined one becomes "" |
| Client.BuiltContextIsPosted | src/functions/nanogpt.ts:51-90 | a context built from messages passes the chat context check and is posted as `messages`, in order, with the explicit model |
| Client.BatchRejectsPromptString | src/functions/nanogpt.ts:172-184 | a bare prompt string always fails `imageBatch` with "Incorrect parameters", though `image` accepts it when a default model is set |

## Left out

- Network stages (`fetch`, `async`/`await`, the request template and headers, status checks and their error wrapping) are I/O and are not modelled. The model stops at the request each call would post, and starts again from the response body (`chat`) or the parsed response (`image`, `imageBatch`). In the source, the connection error reads `status` off a thrown `Error` rather than off a `Response`, so its message would end in "status: undefined".
- `account`, `balance` and `models` pass the response through with no logic of their own.
- `JSON.parse` is a foreign library call. `Chat.ParseReply` receives it as a function parameter that returns `None` for a syntax error. `image` and `imageBatch` are modelled from the already-parsed value.
- Numbers are exact reals, so IEEE-754 rounding and precision are not modelled. `String(n)` for a non-integer is written as its decimal expansion truncated to 20 fractional digits; JavaScript's shortest round-trip formatting and its exponent form for magnitudes of 10^21 and above and below 10^-6 (`String(1e-7)` is "1e-7") are not modelled. This text only matters for a resolution derived from a non-integer width or height.
- Values have no functions, symbols, bigints or prototype chain. A property read sees only an object's own keys and the `length` of strings and arrays. String conversion uses the built-in `Object.prototype.toString`, except that an own `toString` key, which can never be callable here, makes it throw (`JsValues.Printable`).
- Strings are sequences of Unicode characters, not UTF-16 code units, so lone surrogates cannot be written and the characters `Index` reads are not JavaScript's code units. No outcome of the modelled logic depends on the difference: it only compares, prefixes and splits on ASCII markers and keys.
- The order of keys in the posted JSON object is not modelled; records are maps.
- Messages of engine errors, such as a property read on undefined or a missing `startsWith`, depend on the engine. For the three TypeErrors the model names, it gives V8's wording, without the destructuring message's closing "as it is undefined/null." clause. The text the parse handlers compose from an engine message is not modelled; `Errors.ParseFailure` names each failure's cause instead.
- `Client.Create`: a configuration that is a number, string or array is destructured to an undefined key, so it fails "API key not provided"; this is not stated separately.
