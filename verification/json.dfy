/** Abstract JSON values, standing for what `JSONSerialization` yields in
    Foundation: dictionaries, arrays, strings, numbers, booleans and null.
    Text is turned into such values by an uninterpreted parser that the
    callers pass in; this module only gives the typed views that Swift's
    `as?` casts provide.
 */
module Json {
  import opened Wrappers

  datatype Json =
    | Null
    | Bool(b: bool)
    | Num(n: real)
    | Str(s: string)
    | Arr(items: seq<Json>)
    | Obj(fields: map<string, Json>)

  /** A parser from text to JSON; `None` when the text is not JSON (the
      Foundation parser throws). */
  type Parser = string -> Option<Json>

  /** `dict[key] as? String` */
  function StringField(fields: map<string, Json>, key: string): (r: Option<string>)
    ensures r.Some? <==> key in fields && fields[key].Str?
    ensures r.Some? ==> fields[key] == Str(r.value)
  {
    if key in fields && fields[key].Str? then Some(fields[key].s) else None
  }

  /** `dict[key] as? Double` */
  function NumberField(fields: map<string, Json>, key: string): (r: Option<real>)
    ensures r.Some? <==> key in fields && fields[key].Num?
    ensures r.Some? ==> fields[key] == Num(r.value)
  {
    if key in fields && fields[key].Num? then Some(fields[key].n) else None
  }

  /** `dict[key] as? [String: Any]` */
  function ObjectField(fields: map<string, Json>, key: string): (r: Option<map<string, Json>>)
    ensures r.Some? <==> key in fields && fields[key].Obj?
    ensures r.Some? ==> fields[key] == Obj(r.value)
  {
    if key in fields && fields[key].Obj? then Some(fields[key].fields) else None
  }

  /** Every element of `items` is a dictionary. */
  predicate AllObjects(items: seq<Json>) {
    forall i :: 0 <= i < |items| ==> items[i].Obj?
  }

  /** `value as? [[String: Any]]`: the cast succeeds only when the value is an
      array and every one of its elements is a dictionary. */
  function AsObjectArray(value: Json): (r: Option<seq<map<string, Json>>>)
    ensures r.Some? <==> value.Arr? && AllObjects(value.items)
    ensures r.Some? ==> |r.value| == |value.items|
    ensures r.Some? ==> forall i :: 0 <= i < |r.value| ==> value.items[i] == Obj(r.value[i])
  {
    if value.Arr? && AllObjects(value.items) then
      Some(seq(|value.items|, i requires 0 <= i < |value.items| => value.items[i].fields))
    else
      None
  }

  /** `dict[key] as? [[String: Any]]` */
  function ObjectArrayField(fields: map<string, Json>, key: string): (r: Option<seq<map<string, Json>>>)
    ensures r.Some? ==> key in fields && AsObjectArray(fields[key]) == r
    ensures r.None? ==> key !in fields || AsObjectArray(fields[key]).None?
  {
    if key in fields then AsObjectArray(fields[key]) else None
  }
}
