/**
 * Function calling in chat completions
 * (OpenAISwift/Features/Chat/ChatFunctionCall.swift): the call the model
 * asks for, the functions offered to it, and the hand-written coding of the
 * `function_call` option as an object with one key, `name`.
 */
module FunctionCalls {
  import opened Wrappers

  /** `ChatFunctionCall`: the function the model wants called, with its arguments as JSON text. */
  datatype ChatFunctionCall = ChatFunctionCall(name: string, arguments: string)

  /**
   * `JSONSchema`, the parameter description of a function. Its dynamic coding
   * is not part of this model; schemas are only carried along.
   */
  type JSONSchema(==)

  /** `FunctionConfiguration`. */
  datatype FunctionConfiguration = FunctionConfiguration(
    name: string,
    description: Option<string>,
    parameters: JSONSchema)

  /** `ChatFunctionConfiguration.FunctionCallOption`; Swift's `.none` is `NoCall` here. */
  datatype FunctionCallOption = Auto | ForceName(name: string) | NoCall

  /** `ChatFunctionConfiguration`. */
  datatype ChatFunctionConfiguration = ChatFunctionConfiguration(
    functions: seq<FunctionConfiguration>,
    functionCall: Option<FunctionCallOption>)

  /**
   * The JSON values the option's coding can meet: an object, a string, or any
   * other value (number, boolean, array, null), which the coding never looks into.
   */
  datatype Json = JObject(fields: map<string, Json>) | JString(text: string) | JOther

  /** Why decoding failed: the value is not an object, so it has no keyed container. */
  datatype DecodeFailure = NotAnObject

  const NameKey: string := "name"
  const AutoName: string := "auto"
  const NoneName: string := "none"

  /** The name an option writes under `name`. */
  function OptionName(option: FunctionCallOption): (name: string)
    ensures option.ForceName? ==> name == option.name
    ensures option.Auto? ==> name == AutoName
    ensures option.NoCall? ==> name == NoneName
  {
    match option
    case Auto => AutoName
    case NoCall => NoneName
    case ForceName(n) => n
  }

  /**
   * `init(from:)`: a non-object fails; a string under `name` selects the
   * option ("auto", "none", or any other name to force); a missing or
   * non-string `name` falls back to `Auto`.
   */
  function Decode(value: Json): (r: Result<FunctionCallOption, DecodeFailure>)
    ensures r.Failure? <==> !value.JObject?
    ensures r.Success? && NameKey in value.fields && value.fields[NameKey].JString? ==>
      OptionName(r.value) == value.fields[NameKey].text
    ensures r.Success? && !(NameKey in value.fields && value.fields[NameKey].JString?) ==>
      r.value == Auto
    ensures value.JObject? && NameKey in value.fields && value.fields[NameKey] == JString(AutoName) ==>
      r == Success(Auto)
    ensures value.JObject? && NameKey in value.fields && value.fields[NameKey] == JString(NoneName) ==>
      r == Success(NoCall)
    ensures value.JObject? && NameKey in value.fields && value.fields[NameKey].JString?
      && value.fields[NameKey].text !in {AutoName, NoneName}
      ==> r == Success(ForceName(value.fields[NameKey].text))
  {
    match value
    case JObject(fields) =>
      if NameKey in fields && fields[NameKey].JString? then
        var name := fields[NameKey].text;
        if name == AutoName then Success(Auto)
        else if name == NoneName then Success(NoCall)
        else Success(ForceName(name))
      else Success(Auto)
    case _ => Failure(NotAnObject)
  }

  /** `encode(to:)`: an object with exactly one key, `name`. */
  function Encode(option: FunctionCallOption): (value: Json)
    ensures value.JObject? && value.fields.Keys == {NameKey}
    ensures value.fields[NameKey] == JString(OptionName(option))
  {
    JObject(map[NameKey := JString(OptionName(option))])
  }

  /** The options that do not survive a round trip: forcing a function named "auto" or "none". */
  predicate IsReservedForce(option: FunctionCallOption) {
    option.ForceName? && (option.name == AutoName || option.name == NoneName)
  }

  /**
   * Decoding what was encoded gives the option back, except a forced
   * function named "auto" or "none", which comes back as `Auto` or `NoCall`.
   */
  lemma RoundTrip(option: FunctionCallOption)
    ensures !IsReservedForce(option) ==> Decode(Encode(option)) == Success(option)
    ensures IsReservedForce(option) && option.name == AutoName ==> Decode(Encode(option)) == Success(Auto)
    ensures IsReservedForce(option) && option.name == NoneName ==> Decode(Encode(option)) == Success(NoCall)
  {
  }

  /** The two reserved names collide with the plain options: the coding is not injective. */
  lemma ReservedNamesCollide()
    ensures ForceName(AutoName) != Auto && Encode(ForceName(AutoName)) == Encode(Auto)
    ensures ForceName(NoneName) != NoCall && Encode(ForceName(NoneName)) == Encode(NoCall)
  {
  }

  /**
   * Re-encoding a decoded object writes back the name it held (or "auto"
   * when it held none), so decoding and encoding again changes nothing more.
   */
  lemma ReencodeKeepsName(value: Json)
    requires Decode(value).Success?
    ensures NameKey in value.fields && value.fields[NameKey].JString? ==>
      Encode(Decode(value).value).fields[NameKey] == value.fields[NameKey]
    ensures Decode(Encode(Decode(value).value)) == Decode(value)
  {
    var option := Decode(value).value;
    RoundTrip(option);
  }

  /**
   * `babyPredictions()`: one function, `generate_baby_predictions`, described
   * and parameterised by the given schema, and no `function_call` option.
   * The schema is built by `JSONSchema.generateBabyPredictionsSchema()`,
   * which is not part of this model, so it is a parameter.
   */
  function BabyPredictions(schema: JSONSchema): (config: ChatFunctionConfiguration)
    ensures |config.functions| == 1
    ensures config.functions[0].name == "generate_baby_predictions"
    ensures config.functions[0].description.Some?
    ensures config.functions[0].parameters == schema
    ensures config.functionCall.None?
  {
    var predictions := FunctionConfiguration(
      "generate_baby_predictions",
      Some("Generates enchanting, personalized baby predictions based on parent photos."),
      schema);
    ChatFunctionConfiguration([predictions], None)
  }
}
