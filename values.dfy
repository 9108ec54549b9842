/** The Python values the core stores and passes around: the results of
    value coercion, the settings read from configuration and the nested
    `memory` of the runtime state. Lists and floats are not part of this model. */
module Values {

  datatype Value =
    | NoneValue
    | BoolValue(b: bool)
    | IntValue(i: int)
    | StrValue(s: string)
    | DictValue(entries: map<string, Value>)
}
