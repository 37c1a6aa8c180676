/**
 * JSON documents (RFC 8259) as values, JavaScript's reading of them
 * (property access, truthiness), and the text a cookie or a local-storage
 * slot holds.
 */
module JsonDoc {
  import opened Wrappers

  /** A parsed JSON value. Numbers are whole (prices are whole tugriks). */
  datatype Json =
    | JNull
    | JBool(b: bool)
    | JNum(n: int)
    | JStr(s: string)
    | JArr(items: seq<Json>)
    | JObj(fields: seq<(string, Json)>)

  /** The member `key` of an object's field list; `JSON.parse` keeps the last duplicate. */
  function Get(fields: seq<(string, Json)>, key: string): (r: Option<Json>)
    ensures r.Some? <==> exists i | 0 <= i < |fields| :: fields[i].0 == key
    ensures r.Some? ==> exists i | 0 <= i < |fields| :: fields[i] == (key, r.value)
  {
    if |fields| == 0 then None
    else if fields[|fields| - 1].0 == key then Some(fields[|fields| - 1].1)
    else Get(fields[..|fields| - 1], key)
  }

  /** What `v.key` evaluates to: a value, `undefined`, or a TypeError (on `null`). */
  datatype Access = Found(v: Json) | Undefined | Throws

  function Prop(v: Json, key: string): Access {
    match v
    case JNull => Throws
    case JObj(fields) => (match Get(fields, key) case Some(x) => Found(x) case None => Undefined)
    case _ => Undefined
  }

  /** `!!v` in JavaScript. */
  predicate Truthy(v: Json) {
    match v
    case JNull => false
    case JBool(b) => b
    case JNum(n) => n != 0
    case JStr(s) => s != ""
    case _ => true
  }

  /**
   * The characters held by a cookie or a local-storage slot.
   * `Encoded(doc)` is the percent-encoded (RFC 3986 section 2.1) JSON text
   * of `doc`, as `encodeURIComponent(JSON.stringify(doc))` writes it;
   * `Plain(doc)` is the JSON text of `doc` itself, as `JSON.stringify` or the
   * cookie library writes a value that is not a string;
   * `Raw(s)` is any other string: a token, a user name, an identifier, or
   * text that does not parse.
   */
  datatype Text = Raw(s: string) | Encoded(doc: Json) | Plain(doc: Json)

  /** `!!text`: only the empty string is falsy (JSON text is never empty). */
  predicate TextTruthy(t: Text) {
    !t.Raw? || t.s != ""
  }

  /** How a JSON value is stored as text: a string as itself, anything else as its JSON text. */
  function AsText(v: Json): (t: Text)
    ensures Truthy(v) ==> TextTruthy(t)
  {
    if v.JStr? then Raw(v.s) else Plain(v)
  }

  /** `JSON.parse(decodeURIComponent(text))`, with `None` for a thrown error. */
  function Decode(t: Text): (r: Option<Json>)
    ensures r.Some? <==> t.Encoded?
  {
    match t
    case Encoded(doc) => Some(doc)
    case _ => None
  }

  /** `JSON.parse(text)`, with `None` for a thrown error. */
  function Parse(t: Text): (r: Option<Json>)
    ensures r.Some? <==> t.Plain?
  {
    match t
    case Plain(doc) => Some(doc)
    case _ => None
  }

  /** Each encoding is undone by its own reader and not by the other. */
  lemma DecodeEncoded(doc: Json)
    ensures Decode(Encoded(doc)) == Some(doc) && Parse(Encoded(doc)).None?
    ensures Parse(Plain(doc)) == Some(doc) && Decode(Plain(doc)).None?
  {
  }

  /** `v?.key`: optional chaining stops at `null` instead of throwing. */
  function OptProp(v: Json, key: string): (a: Access)
    ensures !a.Throws?
  {
    if v.JNull? then Undefined else Prop(v, key)
  }
}
