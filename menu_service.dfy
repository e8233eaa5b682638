/** The menu-management service: guards on the id and the name before each call to the menu
    API, the normalised payload it sends, and the stand-alone validation of a menu record. The
    API itself is an oracle whose answer is passed in. */
module MenuServiceModel {
  import opened Wrappers
  import opened Text
  import opened Js
  import opened MenuRecords

  /** A menu record as given to the service: any field may be missing; `displayOrder` and
      `isActive` are raw values. */
  datatype MenuData = MenuData(name: Option<string>, description: Option<string>, url: Option<string>,
                               icon: Option<string>, displayOrder: Scalar, isActive: Scalar)

  /** The calls the service makes to the menu API. */
  datatype MenuCall =
    | ListActive
    | ListAll
    | FetchMenu(id: Scalar)
    | CreateMenu(data: MenuData)
    | UpdateMenu(id: Scalar, data: MenuData)
    | DeleteMenu(id: Scalar)

  /** What a list call answers: an array of menus or some other JSON value. */
  datatype ListPayload = MenuArray(menus: seq<MenuRecord>) | NotAnArray

  /** One service operation: the API call it made, if any, and what it returns or throws. */
  datatype Served<+T> = Served(call: Option<MenuCall>, result: Result<T>)

  const IdRequired := "Menu ID is required"
  const NameRequired := "Menu name is required"

  /** `Array.isArray(menus) ? menus : []`. */
  function ListOrEmpty(p: ListPayload): (r: seq<MenuRecord>)
    ensures p.MenuArray? ==> r == p.menus
    ensures p.NotAnArray? ==> r == []
  {
    if p.MenuArray? then p.menus else []
  }

  /** `getActiveMenus` / `getAllMenus`: one list call; a failure is rethrown unchanged. */
  function ListMenus(activeOnly: bool, reply: Result<ListPayload>): (s: Served<seq<MenuRecord>>)
    ensures s.call == Some(if activeOnly then ListActive else ListAll)
    ensures reply.Err? ==> s.result == Err(reply.message)
    ensures reply.Ok? ==> s.result == Ok(ListOrEmpty(reply.value))
  {
    Served(Some(if activeOnly then ListActive else ListAll),
           match reply
           case Ok(p) => Ok(ListOrEmpty(p))
           case Err(m) => Err(m))
  }

  /** `{ ...menuData, displayOrder: parseInt(displayOrder) || 0, isActive: Boolean(isActive) }`. */
  function Processed(d: MenuData): (p: MenuData)
    ensures p.name == d.name && p.description == d.description && p.url == d.url && p.icon == d.icon
    ensures p.displayOrder.Num? && p.isActive.Bool?
    ensures p.isActive.b == Truthy(d.isActive)
    ensures ParseIntOf(d.displayOrder).Some? ==> p.displayOrder.n == ParseIntOf(d.displayOrder).value
    ensures ParseIntOf(d.displayOrder).None? ==> p.displayOrder.n == 0
  {
    d.(displayOrder := Num(IntOrZero(d.displayOrder)), isActive := Bool(Truthy(d.isActive)))
  }

  /** Normalising twice is normalising once. */
  lemma ProcessedIdempotent(d: MenuData)
    ensures Processed(Processed(d)) == Processed(d)
  {
  }

  /** The name guard of create and update: `!menuData || !menuData.name`. */
  predicate HasName(d: Option<MenuData>) {
    d.Some? && Present(d.value.name)
  }

  function GetMenuById(id: Scalar, reply: Result<MenuRecord>): (s: Served<MenuRecord>)
    ensures !Truthy(id) <==> s.call.None?
    ensures !Truthy(id) ==> s.result == Err(IdRequired)
    ensures Truthy(id) ==> s == Served(Some(FetchMenu(id)), reply)
  {
    if !Truthy(id) then Served(None, Err(IdRequired)) else Served(Some(FetchMenu(id)), reply)
  }

  function CreateMenuWith(d: Option<MenuData>, reply: Result<MenuRecord>): (s: Served<MenuRecord>)
    ensures !HasName(d) <==> s.call.None?
    ensures !HasName(d) ==> s.result == Err(NameRequired)
    ensures HasName(d) ==> s == Served(Some(CreateMenu(Processed(d.value))), reply)
  {
    if !HasName(d) then Served(None, Err(NameRequired)) else Served(Some(CreateMenu(Processed(d.value))), reply)
  }

  /** The id is checked before the name, so a call missing both reports the id. */
  function UpdateMenuWith(id: Scalar, d: Option<MenuData>, reply: Result<MenuRecord>): (s: Served<MenuRecord>)
    ensures !Truthy(id) ==> s == Served(None, Err(IdRequired))
    ensures Truthy(id) && !HasName(d) ==> s == Served(None, Err(NameRequired))
    ensures Truthy(id) && HasName(d) ==> s == Served(Some(UpdateMenu(id, Processed(d.value))), reply)
  {
    if !Truthy(id) then Served(None, Err(IdRequired))
    else if !HasName(d) then Served(None, Err(NameRequired))
    else Served(Some(UpdateMenu(id, Processed(d.value))), reply)
  }

  function DeleteMenuWith(id: Scalar, reply: Result<Scalar>): (s: Served<Scalar>)
    ensures !Truthy(id) <==> s.call.None?
    ensures !Truthy(id) ==> s.result == Err(IdRequired)
    ensures Truthy(id) ==> s == Served(Some(DeleteMenu(id)), reply)
  {
    if !Truthy(id) then Served(None, Err(IdRequired)) else Served(Some(DeleteMenu(id)), reply)
  }

  /** No guarded operation reaches the API with something it refuses: every call made carries a
      truthy id and any payload sent has a name and normalised fields. */
  lemma GuardedCallsOnly(id: Scalar, d: Option<MenuData>, reply: Result<MenuRecord>)
    ensures UpdateMenuWith(id, d, reply).call.Some? ==>
              Truthy(id) && d.Some? && Present(d.value.name)
              && UpdateMenuWith(id, d, reply).call.value.data.displayOrder.Num?
    ensures CreateMenuWith(d, reply).call.Some? ==>
              d.Some? && Present(CreateMenuWith(d, reply).call.value.data.name)
              && CreateMenuWith(d, reply).call.value.data.isActive.Bool?
  {
  }

  /** `isValidUrl(s)`: whatever the `URL` constructor accepts (`parses`), or a relative path. */
  predicate IsValidUrl(s: string, parses: bool) {
    parses || StartsWith(s, "/") || StartsWith(s, "./") || StartsWith(s, "../")
  }

  const NameMissing := "Menu name is required"
  const NameTooLong := "Menu name must be less than 100 characters"
  const UrlInvalid := "Invalid URL format"
  const OrderNotNumber := "Display order must be a number"

  function NameMissingCheck(name: Option<string>): seq<string> {
    if name.None? || Trim(name.value) == "" then [NameMissing] else []
  }

  function NameLengthCheck(name: Option<string>): seq<string> {
    if Present(name) && |name.value| > 100 then [NameTooLong] else []
  }

  function UrlCheck(url: Option<string>, urlParses: bool): seq<string> {
    if Present(url) && !IsValidUrl(url.value, urlParses) then [UrlInvalid] else []
  }

  function OrderCheck(displayOrder: Scalar): seq<string> {
    if Truthy(displayOrder) && ParseIntOf(displayOrder).None? then [OrderNotNumber] else []
  }

  /** The messages `validateMenuData` collects, in its order; `urlParses` is what `new URL(url)`
      decides. */
  function Problems(d: MenuData, urlParses: bool): seq<string> {
    NameMissingCheck(d.name) + NameLengthCheck(d.name) + UrlCheck(d.url, urlParses) + OrderCheck(d.displayOrder)
  }

  /** Each message appears exactly when its check fails. The two name checks are independent:
      a name of more than 100 blanks gets both messages, and a name of exactly 100 characters
      passes although the message says "less than 100". */
  lemma ProblemsMeaning(d: MenuData, urlParses: bool)
    ensures Problems(d, urlParses) == [] <==>
              d.name.Some? && Trim(d.name.value) != "" && |d.name.value| <= 100
              && !(Present(d.url) && !IsValidUrl(d.url.value, urlParses))
              && !(Truthy(d.displayOrder) && ParseIntOf(d.displayOrder).None?)
    ensures NameMissing in Problems(d, urlParses) <==> d.name.None? || Trim(d.name.value) == ""
    ensures NameTooLong in Problems(d, urlParses) <==> d.name.Some? && |d.name.value| > 100
    ensures UrlInvalid in Problems(d, urlParses) <==> Present(d.url) && !IsValidUrl(d.url.value, urlParses)
    ensures OrderNotNumber in Problems(d, urlParses) <==> Truthy(d.displayOrder) && ParseIntOf(d.displayOrder).None?
    ensures |Problems(d, urlParses)| <= 4
  {
  }

  /** `validateMenuData(menuData)`: the messages pushed one by one. */
  method ValidateMenuData(d: MenuData, urlParses: bool) returns (errors: seq<string>)
    ensures errors == Problems(d, urlParses)
  {
    errors := [];
    if d.name.None? || Trim(d.name.value) == "" {
      errors := errors + [NameMissing];
    }
    if Present(d.name) && |d.name.value| > 100 {
      errors := errors + [NameTooLong];
    }
    assert errors == NameMissingCheck(d.name) + NameLengthCheck(d.name);
    if Present(d.url) && !IsValidUrl(d.url.value, urlParses) {
      errors := errors + [UrlInvalid];
    }
    assert errors == NameMissingCheck(d.name) + NameLengthCheck(d.name) + UrlCheck(d.url, urlParses);
    if Truthy(d.displayOrder) && ParseIntOf(d.displayOrder).None? {
      errors := errors + [OrderNotNumber];
    }
  }

  /** A name of 101 blanks is reported both as missing and as too long. */
  lemma BlankLongNameGetsBoth(d: MenuData, urlParses: bool)
    requires d.name.Some? && |d.name.value| == 101 && forall i :: 0 <= i < 101 ==> d.name.value[i] == ' '
    ensures NameMissing in Problems(d, urlParses) && NameTooLong in Problems(d, urlParses)
  {
    TrimEmptyIffBlank(d.name.value);
  }
}
