/** The signed-in identity the screens read from browser storage each time they render: the
    stored token, and the user's id or name out of the stored user document. */
module StoredUser {
  import opened Wrappers
  import opened Js
  import opened JsonData
  import Session

  /** `localStorage.getItem('authToken')` as the text a screen passes on; a stored document
      stands for its `String(v)`. */
  function StoredToken(st: Session.Storage): (t: Option<string>)
    ensures t.None? <==> "authToken" !in st
    ensures "authToken" in st && st["authToken"].Text? ==> t == Some(st["authToken"].s)
  {
    match Session.GetItem(st, "authToken")
    case None => None
    case Some(Text(s)) => Some(s)
    case Some(Doc(v)) => Some(StringOf(v))
  }

  /** `userData?.username`: the text of the property, or none when the record is `null`, the
      property is missing or it is not a text. */
  function UsernameOf(user: Json): (u: Option<string>)
    ensures u.Some? <==> Get(user, "username").Some? && Get(user, "username").value.JStr?
    ensures u.Some? ==> Get(user, "username") == Some(JStr(u.value))
  {
    match Get(user, "username")
    case Some(JStr(name)) => Some(name)
    case _ => None
  }

  /** `JSON.parse(localStorage.getItem('userData') || '{}')`: a missing or empty item reads as
      the empty object, a stored document as its value, and any other text throws. */
  function UserDataOrEmpty(st: Session.Storage): (r: Result<Json>)
    ensures r.Err? <==> "userData" in st && st["userData"].Text? && st["userData"].s != ""
    ensures r.Err? ==> r.message == JsonSyntaxError
    ensures "userData" !in st || st["userData"] == Session.Text("") ==> r == Ok(JObj(map[]))
    ensures "userData" in st && st["userData"].Doc? ==> r == Ok(st["userData"].value)
  {
    var item := Session.GetItem(st, "userData");
    if Session.ItemTruthy(item) then Session.ParseItem(item) else Ok(JObj(map[]))
  }

  /** `userData?.userId || userData?.id`: the `userId` property when it is truthy, otherwise
      whatever `id` holds; a record that is not an object has neither. */
  function UserIdOf(user: Json): (r: Option<Json>)
    ensures OptTruthy(Get(user, "userId")) ==> r == Get(user, "userId")
    ensures !OptTruthy(Get(user, "userId")) ==> r == Get(user, "id")
    ensures !user.JObj? ==> r.None?
  {
    var u := Get(user, "userId");
    if OptTruthy(u) then u else Get(user, "id")
  }

  /** Whether a property holds a value a scalar cell can hold (not an array or object). */
  predicate Flat(j: Option<Json>) {
    j.None? || !(j.value.JArr? || j.value.JObj?)
  }

  /** The scalar an id property gives: undefined when missing, the value itself when flat, and
      the `String(v)` text for an array or object. */
  function ScalarOf(j: Option<Json>): (v: Scalar)
    ensures j.None? ==> v == Undefined
    ensures j == Some(JNull) ==> v == Null
    ensures j.Some? && j.value.JNum? ==> v == Num(j.value.n)
    ensures j.Some? && j.value.JStr? ==> v == Str(j.value.s)
    ensures j.Some? && j.value.JBool? ==> v == Bool(j.value.b)
    ensures Flat(j) ==> (Truthy(v) <==> OptTruthy(j))
  {
    match j
    case None => Undefined
    case Some(JNull) => Null
    case Some(JBool(b)) => Bool(b)
    case Some(JNum(n)) => Num(n)
    case Some(JStr(s)) => Str(s)
    case Some(other) => Str(StringOf(other))
  }

  /** What the menu widgets read before they render: the token and
      `userData?.userId || userData?.id`, or the syntax error of a stored user text that is not
      JSON. */
  function StoredUserId(st: Session.Storage): (r: Result<(Option<string>, Scalar)>)
    ensures r.Ok? <==> UserDataOrEmpty(st).Ok?
    ensures r.Err? ==> r.message == JsonSyntaxError
    ensures r.Ok? ==> r.value == (StoredToken(st), ScalarOf(UserIdOf(UserDataOrEmpty(st).value)))
  {
    match UserDataOrEmpty(st)
    case Err(e) => Err(e)
    case Ok(user) => Ok((StoredToken(st), ScalarOf(UserIdOf(user))))
  }

  /** A user document with a non-zero numeric `userId` gives that id, whatever `id` holds. */
  lemma StoredUserIdPrefersUserId(st: Session.Storage, fields: map<string, Json>, n: int)
    requires "userData" in st && st["userData"] == Session.Doc(JObj(fields))
    requires "userId" in fields && fields["userId"] == JNum(n) && n != 0
    ensures StoredUserId(st) == Ok((StoredToken(st), Num(n)))
  {
  }

  /** A document whose `userId` is missing or falsy falls back to its `id`. */
  lemma StoredUserIdFallsBackToId(st: Session.Storage, fields: map<string, Json>, n: int)
    requires "userData" in st && st["userData"] == Session.Doc(JObj(fields))
    requires "userId" !in fields || !JsonTruthy(fields["userId"])
    requires "id" in fields && fields["id"] == JNum(n)
    ensures StoredUserId(st) == Ok((StoredToken(st), Num(n)))
  {
  }

  /** With no user stored the widgets render signed out: the empty object has no id. */
  lemma NothingStoredHasNoUserId(st: Session.Storage)
    requires "userData" !in st
    ensures StoredUserId(st).Ok? && StoredUserId(st).value.1 == Undefined
  {
  }

  /** What the table panel reads before it renders:
      `JSON.parse(localStorage.getItem('userData'))?.username`. There is no `|| '{}'` fallback,
      so every stored text that is not a document throws, the empty one included; a missing item
      parses to `null`, whose `?.username` is undefined. */
  function StoredUsername(st: Session.Storage): (r: Result<(Option<string>, Option<string>)>)
    ensures r.Err? <==> "userData" in st && st["userData"].Text?
    ensures r.Err? ==> r.message == JsonSyntaxError
    ensures "userData" !in st ==> r == Ok((StoredToken(st), None))
    ensures "userData" in st && st["userData"].Doc? ==> r == Ok((StoredToken(st), UsernameOf(st["userData"].value)))
  {
    match Session.ParseItem(Session.GetItem(st, "userData"))
    case Err(e) => Err(e)
    case Ok(user) => Ok((StoredToken(st), UsernameOf(user)))
  }

  /** The menu widgets tolerate an empty stored user text, which the table panel does not. */
  lemma EmptyUserTextOnlyBreaksPanel(st: Session.Storage)
    requires "userData" in st && st["userData"] == Session.Text("")
    ensures StoredUserId(st).Ok? && StoredUsername(st).Err?
  {
  }
}
