/** JSON values as the client reads them from response bodies and from stored documents:
    property access, truthiness and the text `String(v)` gives. */
module JsonData {
  import opened Wrappers
  import opened Text

  datatype Json =
    | JNull
    | JBool(b: bool)
    | JNum(n: int)
    | JStr(s: string)
    | JArr(items: seq<Json>)
    | JObj(fields: map<string, Json>)

  /** JavaScript truthiness of a JSON value. */
  predicate JsonTruthy(j: Json) {
    match j
    case JNull => false
    case JBool(b) => b
    case JNum(n) => n != 0
    case JStr(s) => s != ""
    case _ => true
  }

  /** `j?.key`: the property of an object, `None` (undefined) for a missing key or a value that
      is not an object. */
  function Get(j: Json, key: string): (r: Option<Json>)
    ensures r.Some? <==> j.JObj? && key in j.fields
  {
    if j.JObj? && key in j.fields then Some(j.fields[key]) else None
  }

  /** `Get` on a value that may itself be undefined. */
  function GetOpt(j: Option<Json>, key: string): (r: Option<Json>)
    ensures j.None? ==> r.None?
  {
    if j.Some? then Get(j.value, key) else None
  }

  /** Truthiness of a property that may be undefined. */
  predicate OptTruthy(j: Option<Json>) {
    j.Some? && JsonTruthy(j.value)
  }

  /** `String(v)`: arrays join their elements with ",", with `null` elements as the empty text;
      objects print as `[object Object]`. */
  function StringOf(j: Json): string
    decreases j, 1
  {
    match j
    case JNull => "null"
    case JBool(b) => if b then "true" else "false"
    case JNum(n) => IntToString(n)
    case JStr(s) => s
    case JArr(items) => JoinItems(j, items, 0)
    case JObj(_) => "[object Object]"
  }

  function JoinItems(whole: Json, items: seq<Json>, i: nat): string
    requires whole.JArr? && items == whole.items && i <= |items|
    decreases whole, 0, |items| - i
  {
    if i == |items| then ""
    else
      var e := items[i];
      assert e < whole;
      var t := if e.JNull? then "" else StringOf(e);
      if i + 1 == |items| then t else t + "," + JoinItems(whole, items, i + 1)
  }

  /** The message of the SyntaxError `JSON.parse` throws on a text that is not JSON. */
  const JsonSyntaxError := "Unexpected token in JSON"

  /** `String(v)` of a property that may be undefined. */
  function StringOfOpt(j: Option<Json>): string {
    if j.Some? then StringOf(j.value) else "undefined"
  }

  /** Every text, the empty one included, prints as itself, never as a placeholder. */
  lemma StringOfText(s: string)
    ensures StringOf(JStr(s)) == s && StringOfOpt(Some(JStr(s))) == s
  {
  }
}

/** The browser's `localStorage` as a map from keys to stored texts. A text written by
    `JSON.stringify(v)` is kept as the document `Doc(v)`; any other text is `Text(s)` and does not
    parse as JSON. */
module Session {
  import opened Wrappers
  import opened JsonData

  datatype Item = Text(s: string) | Doc(value: Json)

  type Storage = map<string, Item>

  /** `localStorage.getItem(key)`; `None` is `null`. */
  function GetItem(st: Storage, key: string): (r: Option<Item>)
    ensures r.Some? <==> key in st
  {
    if key in st then Some(st[key]) else None
  }

  /** Truthiness of what `getItem` returns; a stored document is never the empty text. */
  predicate ItemTruthy(i: Option<Item>) {
    i.Some? && (i.value.Text? ==> i.value.s != "")
  }

  /** `JSON.parse(localStorage.getItem(key))`: `null` reads as the JSON `null`, a stored
      document as its value, and any other text throws. */
  function ParseItem(i: Option<Item>): (r: Result<Json>)
    ensures r.Ok? <==> i.None? || i.value.Doc?
    ensures i.Some? && i.value.Doc? ==> r == Ok(i.value.value)
  {
    match i
    case None => Ok(JNull)
    case Some(Doc(v)) => Ok(v)
    case Some(Text(_)) => Err(JsonSyntaxError)
  }

  /** `localStorage.setItem(key, v)` keeps `String(v)`; `undefined` becomes the text
      "undefined". Such an item is always a `Text`, which `ParseItem` refuses, even when
      `String(v)` happens to be JSON ("123", "true", "null") that `JSON.parse` would read
      back. No path here reads one back that way: the user entry is only ever written
      through `JSON.stringify`, a `Doc`, and every other entry is only read as text. */
  function TextItem(v: Option<Json>): (r: Item)
    ensures r.Text? && (v.Some? && v.value.JStr? ==> r.s == v.value.s) && (v.None? ==> r.s == "undefined")
  {
    Text(StringOfOpt(v))
  }

  /** Removing keys leaves every other key as it was. */
  lemma RemoveKeepsOthers(st: Storage, keys: set<string>, k: string)
    requires k !in keys
    ensures GetItem(st - keys, k) == GetItem(st, k)
    ensures forall r :: r in keys ==> GetItem(st - keys, r).None?
  {
  }
}
