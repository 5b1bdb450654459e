/** JSON values as the viewer receives them from the platform's JSON parser,
    and the two foreign library functions (JSON.parse, JSON.stringify) it calls. */
module JsonModel {

  datatype Option<T> = None | Some(value: T)

  /** A parsed JSON value. A number carries the text String(n) gives for it
      (number formatting belongs to the platform); an object lists its own
      properties in the order Object.entries / Object.keys enumerate them.
      JSON.parse keeps one property per key, so the keys of an `Obj` it
      returns are distinct and `|entries|` is Object.keys(value).length; the
      datatype itself does not enforce this. */
  datatype JsonValue =
    | Null
    | Bool(b: bool)
    | Num(text: string)
    | Str(s: string)
    | Arr(elems: seq<JsonValue>)
    | Obj(entries: seq<(string, JsonValue)>)
  {
    /** `value !== null && typeof value === 'object'`: an array or an object. */
    predicate IsComposite() {
      Arr? || Obj?
    }
  }

  /** The JSON library, whose code is not part of this model: `parse` is
      JSON.parse (None when it throws), `stringify(v, n)` is
      JSON.stringify(v, null, n), and JSON.stringify(v) is `stringify(v, 0)`. */
  datatype Codec = Codec(parse: string -> Option<JsonValue>, stringify: (JsonValue, nat) -> string)

  /** String(value) for a scalar. */
  function DisplayString(v: JsonValue): string
    requires !v.IsComposite()
  {
    match v
    case Null => "null"
    case Bool(b) => if b then "true" else "false"
    case Num(text) => text
    case Str(s) => s
  }

  /** JavaScript truthiness of a parsed value (`parsedJson && …`, `nestedJson && …`).
      String(-0) is "0", so the two falsy numbers both display as "0". */
  predicate Truthy(v: JsonValue) {
    match v
    case Null => false
    case Bool(b) => b
    case Num(text) => text != "0"
    case Str(s) => s != ""
    case Arr(_) => true
    case Obj(_) => true
  }
}
