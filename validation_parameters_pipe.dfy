/** The route-parameter pipe `ValidationParametersPipe`: it passes a truthy
    value through unchanged and rejects a falsy one with BadRequest. */
module ValidationParametersPipe {
  import opened Common

  /** The JavaScript values a route parameter can take. Numbers are modelled
      as integers; `Object` stands for any object or array, all of which are
      truthy. */
  datatype Value =
    | Undefined
    | Null
    | Bool(b: bool)
    | Num(n: int)
    | Str(s: string)
    | Object

  /** Where the parameter comes from, as Nest's ArgumentMetadata says. */
  datatype ParamType = Body | Query | Param | Custom

  /** Nest's ArgumentMetadata: the parameter's source, its declared type (by
      name) and the parameter's name, `data`, which may be absent. */
  datatype ArgumentMetadata = ArgumentMetadata(paramType: ParamType, metatype: Option<string>, data: Option<string>)

  /** JavaScript truthiness, as `!value` tests it. */
  function Truthy(v: Value): (b: bool)
    ensures !b <==> v in {Undefined, Null, Bool(false), Num(0), Str("")}
  {
    match v
    case Undefined => false
    case Null => false
    case Bool(x) => x
    case Num(n) => n != 0
    case Str(t) => t != ""
    case Object => true
  }

  /** `${data}` in a template literal: an absent name prints as "undefined". */
  function Interpolate(data: Option<string>): string {
    match data
    case Some(name) => name
    case None => "undefined"
  }

  function RequiredMessage(data: Option<string>): (m: string)
    ensures data.Some? ==> m == "The value of the parameter " + data.value + " is required"
  {
    "The value of the parameter " + Interpolate(data) + " is required"
  }

  /** The pipe's `transform`. */
  function Transform(value: Value, metadata: ArgumentMetadata): (r: Result<Value>)
    ensures r.Ok? <==> value !in {Undefined, Null, Bool(false), Num(0), Str("")}
    ensures r.Ok? ==> r.value == value
    ensures r.Err? ==> r.error == BadRequest(RequiredMessage(metadata.data))
  {
    if !Truthy(value) then
      Err(BadRequest(RequiredMessage(metadata.data)))
    else
      Ok(value)
  }

  /** Only the parameter's name reaches the outcome; its source and declared
      type do not. */
  lemma OnlyDataMatters(value: Value, m1: ArgumentMetadata, m2: ArgumentMetadata)
    requires m1.data == m2.data
    ensures Transform(value, m1) == Transform(value, m2)
  {
  }

  /** Feeding an accepted value through the pipe again accepts it again. */
  lemma TransformIdempotent(value: Value, metadata: ArgumentMetadata)
    requires Transform(value, metadata).Ok?
    ensures Transform(Transform(value, metadata).value, metadata) == Transform(value, metadata)
  {
  }

  /** The pipe's unit-test scenarios for null, undefined and the empty
      string: each is rejected with a message naming the parameter. */
  lemma RejectsNull()
    ensures Transform(Null, ArgumentMetadata(Param, Some("String"), Some("id")))
         == Err(BadRequest("The value of the parameter id is required"))
  {
  }

  lemma RejectsUndefined()
    ensures Transform(Undefined, ArgumentMetadata(Param, Some("String"), Some("playerId")))
         == Err(BadRequest("The value of the parameter playerId is required"))
  {
  }

  lemma RejectsEmptyString()
    ensures Transform(Str(""), ArgumentMetadata(Param, Some("String"), Some("categoryId")))
         == Err(BadRequest("The value of the parameter categoryId is required"))
  {
  }

  /** A non-empty string, a positive number and `true` come back unchanged. */
  lemma AcceptsTruthy()
    ensures Transform(Str("teste"), ArgumentMetadata(Param, Some("String"), Some("id"))) == Ok(Str("teste"))
    ensures Transform(Num(123), ArgumentMetadata(Param, Some("Number"), Some("id"))) == Ok(Num(123))
    ensures Transform(Bool(true), ArgumentMetadata(Param, Some("Boolean"), Some("isActive"))) == Ok(Bool(true))
  {
  }
}
