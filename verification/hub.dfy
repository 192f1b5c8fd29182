/** Values and messages exchanged with the home-automation hub, shared by the
    media-player and climate adapters. */
module Hub {

  datatype Option<+T> = None | Some(value: T)

  /** A JavaScript value as it appears in an entity's attributes, in a
      capability or in a service-call payload. `Null` stands for both `null`
      and `undefined`: the adapters compare attributes with them only loosely
      (`!= null`, `!= undefined`), which does not tell them apart. `NaN` is the
      number that arithmetic on a non-numeric value yields. */
  datatype Value =
    | Null
    | Bool(b: bool)
    | Num(r: real)
    | NaN
    | Str(s: string)
    | List(items: seq<Value>)

  /** An entity-update event of the hub's event feed:
      `{entity_id, state, attributes}`. */
  datatype Event = Event(entityId: Option<string>, state: Option<string>, attributes: map<string, Value>)

  /** `data.attributes[key]`; an attribute the event does not carry reads as
      `undefined`. */
  function Attr(e: Event, key: string): (v: Value)
    ensures key !in e.attributes ==> v == Null
  {
    if key in e.attributes then e.attributes[key] else Null
  }

  /** The number JavaScript's arithmetic operators make of a value: `null` is
      0, a boolean is 0 or 1, a number is itself. Everything else becomes NaN
      (numeric strings, which JavaScript would parse, are not modelled). */
  function ToNumber(v: Value): (n: Value)
    ensures n.Num? || n.NaN?
    ensures v.Num? ==> n == v
  {
    match v
    case Null => Num(0.0)
    case Bool(b) => Num(if b then 1.0 else 0.0)
    case Num(_) => v
    case _ => NaN
  }

  /** An outbound call `callService(domain, service, data)`. */
  datatype ServiceCall = ServiceCall(domain: string, service: string, data: map<string, Value>)

  /** An `{id, name}` entry of an autocomplete list offered to flows. */
  datatype PickerOption = PickerOption(id: Value, name: Value)

  /** The elements `list[0] .. list[list.length - 1]` that a counting loop
      visits: the items of an array, the one-character strings of a string,
      and nothing for a value whose `length` is undefined. */
  function Elements(v: Value): seq<Value>
  {
    match v
    case List(items) => items
    case Str(s) => seq(|s|, i requires 0 <= i < |s| => Str([s[i]]))
    case _ => []
  }

  /** The autocomplete list of a list of modes or sources: one `{id, name}`
      entry per element, both fields the element itself, in order. */
  method PickerOptions(list: seq<Value>) returns (result: seq<PickerOption>)
    ensures |result| == |list|
    ensures forall i :: 0 <= i < |list| ==> result[i] == PickerOption(list[i], list[i])
  {
    result := [];
    for i := 0 to |list|
      invariant |result| == i
      invariant forall j :: 0 <= j < i ==> result[j] == PickerOption(list[j], list[j])
    {
      result := result + [PickerOption(list[i], list[i])];
    }
  }
}
