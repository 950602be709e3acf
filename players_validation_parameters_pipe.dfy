/** `PlayersValidationParametersPipe`, the players module's own copy of the
    route-parameter truthiness check. */
module PlayersValidationParametersPipe {
  import opened Common
  import opened ValidationParametersPipe

  /** The pipe's `transform`: reject a falsy value, otherwise return it. */
  function PlayersTransform(value: Value, metadata: ArgumentMetadata): (r: Result<Value>)
    ensures r.Err? <==> !Truthy(value)
    ensures r.Ok? ==> r.value == value
    ensures r.Err? ==> r.error == BadRequest("The value of the parameter " + Interpolate(metadata.data) + " is required")
  {
    if !Truthy(value) then
      Err(BadRequest("The value of the parameter " + Interpolate(metadata.data) + " is required"))
    else
      Ok(value)
  }

  /** On every input the players pipe and the common pipe agree. */
  lemma SameAsCommonPipe(value: Value, metadata: ArgumentMetadata)
    ensures PlayersTransform(value, metadata) == Transform(value, metadata)
  {
  }
}
