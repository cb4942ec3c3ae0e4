/**
 * The errors the client throws before any request is sent, with their
 * messages, and the failures of the response-parsing stages.
 */
module Errors {

  /** Every message the library composes itself starts with this prefix. */
  const ErrorPrefix: string := "[NanoGPTJS error] "

  datatype Error =
    | ConfigNotAnObject
    | ApiKeyNotProvided
    | ApiKeyNotAString
    | IncorrectParameters
    | ModelNotSet
    | PromptNotAString
    | ContextNotAnArray
    | StartsWithNotAFunction
    | NotConvertibleToPrimitive
    | WidthInvalid
    | HeightInvalid
    | NegativePromptNotAString
    | StepsInvalid
    | SamplerNotAString
    | ScaleNotANumber
    | ImageCountInvalid

  /**
   * The reason a response could not be turned into a result. Each is raised
   * inside a parsing `try` block, whose handler rethrows it with the library
   * prefix in front of the engine's own message.
   */
  datatype ParseFailure =
    | MissingOpenMarker
    | MalformedJson
    | PropertyOfNullish(property: string)
    | NotAFunction(name: string)

  /** The library's errors, as opposed to the TypeErrors the JavaScript engine raises. */
  predicate IsLibraryError(e: Error) {
    !e.ConfigNotAnObject? && !e.StartsWithNotAFunction? && !e.NotConvertibleToPrimitive?
  }

  /**
   * The text after the prefix. For the three engine TypeErrors it is the
   * message as a V8 engine words it; for the destructuring error, the part
   * before V8's closing "as it is undefined." or "as it is null.".
   */
  function Detail(e: Error): string {
    match e
    case ConfigNotAnObject => "Cannot destructure property 'apiKey' of 'config'"
    case ApiKeyNotProvided => "NanoGPT API key not provided"
    case ApiKeyNotAString => "NanoGPT API key must be a string"
    case IncorrectParameters => "Incorrect parameters"
    case ModelNotSet => "Model not set. Please specify model"
    case PromptNotAString => "Prompt must be a string"
    case ContextNotAnArray => "Context must be an array"
    case StartsWithNotAFunction => "_model.startsWith is not a function"
    case NotConvertibleToPrimitive => "Cannot convert object to primitive value"
    case WidthInvalid => "Image width must be an integer greater than zero"
    case HeightInvalid => "Image height must be an integer greater than zero"
    case NegativePromptNotAString => "Negative prompt must be a string"
    case StepsInvalid => "Number of steps must be an integer greater than zero"
    case SamplerNotAString => "Sampler name must be a string"
    case ScaleNotANumber => "Scale must be a number"
    case ImageCountInvalid => "Number of images must be an integer greater than zero"
  }

  /** The `message` of the thrown `Error`. */
  function Message(e: Error): (m: string)
    ensures IsLibraryError(e) ==> ErrorPrefix <= m
  {
    if IsLibraryError(e) then ErrorPrefix + Detail(e) else Detail(e)
  }
}
