/** The Python values that flow through configurations and result rows. */
module Values {

  datatype Value =
    | NoneValue
    | BoolValue(b: bool)
    | IntValue(i: int)
    | FloatValue(r: real)
    | StrValue(s: string)
    | ListValue(items: seq<Value>)
    | DictValue(entries: map<string, Value>)
}
