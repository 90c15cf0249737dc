// The input check that datagrowth/resources/shell/generic.py and
// datagrowth/resources/http/generic.py both make before a command or a
// request is built: positional and keyword arguments need a schema, and a
// schema with rules has to accept them. What jsonschema makes of the rules
// is not modelled; its verdict is part of the schema value.

module InputSchemas {
  import opened Wrappers
  import opened Exceptions
  import opened Json

  /** An entry of a resource's schema dict: missing or None, an empty
      (falsy) schema, or a schema with rules together with the verdict
      jsonschema gives on the input at hand. */
  datatype Schema = Absent | Empty | Rules(accepts: bool)

  /** `_validate_input` on the number of arguments and keyword arguments: a
      missing schema admits none, an empty one admits anything, a schema
      with rules has the last word. */
  function ValidateInput(argsSchema: Schema, kwargsSchema: Schema, argCount: nat, kwargCount: nat): (r: Result<bool, Exception>)
    ensures r.Err? ==> r.error == ValidationError
    ensures r.Err? <==> ((argsSchema == Absent && argCount > 0) || (kwargsSchema == Absent && kwargCount > 0)
                         || argsSchema == Rules(false) || kwargsSchema == Rules(false))
  {
    if argsSchema == Absent && argCount > 0 then Err(ValidationError)
    else if kwargsSchema == Absent && kwargCount > 0 then Err(ValidationError)
    else if argsSchema == Rules(false) then Err(ValidationError)
    else if kwargsSchema == Rules(false) then Err(ValidationError)
    else Ok(true)
  }

  /** How many positional arguments Python's `*value` unpacking yields
      from a JSON value: the items of a list, the characters of a string,
      the keys of a dict; anything else cannot be unpacked (a TypeError). */
  function StarCount(value: Json): (r: Option<nat>)
    ensures r.None? <==> !(value.List? || value.Str? || value.Dict?)
    ensures value.List? ==> r == Some(|value.items|)
    ensures value.Str? ==> r == Some(|value.s|)
    ensures value.Dict? ==> r == Some(|value.fields|)
  {
    match value
    case List(items) => Some(|items|)
    case Str(s) => Some(|s|)
    case Dict(fields) => Some(|fields|)
    case _ => None
  }

  /** Without arguments of either kind only a refusing schema can object. */
  lemma NoInputPasses(argsSchema: Schema, kwargsSchema: Schema)
    requires argsSchema != Rules(false) && kwargsSchema != Rules(false)
    ensures ValidateInput(argsSchema, kwargsSchema, 0, 0).Ok?
  {
  }
}
