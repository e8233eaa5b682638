/** A menu record as the menu pages hand it to a form; every field may be missing. `isActive`
    is kept as the raw value because the forms test it against `undefined`. */
module MenuRecords {
  import opened Wrappers
  import opened Js

  datatype MenuRecord = MenuRecord(
    name: Option<string>,
    description: Option<string>,
    price: Option<real>,
    icon: Option<string>,
    url: Option<string>,
    displayOrder: Option<int>,
    isActive: Scalar)

  /** `v || ''` for an optional text field. */
  function TextOrEmpty(v: Option<string>): string {
    if v.Some? then v.value else ""
  }

  /** `menu.isActive !== undefined ? menu.isActive : true`. */
  function ActiveOrTrue(v: Scalar): Scalar {
    if v.Undefined? then Bool(true) else v
  }
}

/** The add/edit menu form with one combined error line: ordered checks, the payload it submits
    and the price input that always holds a number. */
module MenuFormModel {
  import opened Wrappers
  import opened Text
  import opened Js
  import opened MenuRecords

  datatype FormData = FormData(name: string, description: string, price: real, icon: string,
                               displayOrder: Scalar, isActive: Scalar)

  /** What `onSubmit` receives. */
  datatype MenuPayload = MenuPayload(name: string, description: string, price: real, icon: string,
                                     displayOrder: int, isActive: bool)

  /** The checks of `validateForm`, each with the message it pushes. */
  datatype Problem = NameRequired | NameTooLong | DescriptionTooLong | PriceInvalid | PriceTooHigh | OrderInvalid

  function Message(p: Problem): (m: string)
    ensures m != ""
  {
    match p
    case NameRequired => "Menu name is required"
    case NameTooLong => "Menu name must be less than 100 characters"
    case DescriptionTooLong => "Description must be less than 500 characters"
    case PriceInvalid => "Price must be a valid positive number"
    case PriceTooHigh => "Price is too high"
    case OrderInvalid => "Display order must be a non-negative number"
  }

  function Messages(ps: seq<Problem>): (ms: seq<string>)
    ensures |ms| == |ps| && forall i :: 0 <= i < |ps| ==> ms[i] == Message(ps[i])
  {
    if ps == [] then [] else [Message(ps[0])] + Messages(ps[1..])
  }

  const MaxPrice: real := 999999999.0

  /** The form's initial state, from the menu being edited or from nothing. */
  function InitialData(menu: Option<MenuRecord>): (d: FormData)
    ensures menu.None? ==> d == FormData("", "", 0.0, "", Num(0), Bool(true))
    ensures menu.Some? ==> d.name == TextOrEmpty(menu.value.name) && d.icon == TextOrEmpty(menu.value.icon)
                           && d.isActive == ActiveOrTrue(menu.value.isActive)
                           && (d.displayOrder == Num(0) <==> menu.value.displayOrder.None? || menu.value.displayOrder == Some(0))
    ensures menu.Some? ==> d.description == TextOrEmpty(menu.value.description)
    ensures menu.Some? && menu.value.price.Some? ==> d.price == menu.value.price.value
    ensures menu.Some? && menu.value.price.None? ==> d.price == 0.0
    ensures menu.Some? && menu.value.displayOrder.Some? ==> d.displayOrder == Num(menu.value.displayOrder.value)
    ensures menu.Some? && menu.value.displayOrder.None? ==> d.displayOrder == Num(0)
  {
    match menu
    case None => FormData("", "", 0.0, "", Num(0), Bool(true))
    case Some(m) =>
      FormData(TextOrEmpty(m.name), TextOrEmpty(m.description), if m.price.Some? then m.price.value else 0.0,
               TextOrEmpty(m.icon), Num(if m.displayOrder.Some? then m.displayOrder.value else 0), ActiveOrTrue(m.isActive))
  }

  /** Every check passes. */
  predicate Acceptable(d: FormData) {
    && Trim(d.name) != "" && |d.name| <= 100
    && |d.description| <= 500
    && 0.0 <= d.price <= MaxPrice
    && ParseIntOf(d.displayOrder).Some? && ParseIntOf(d.displayOrder).value >= 0
  }

  /** `processedData`: trimmed texts, `parseInt(displayOrder) || 0` and `Boolean(isActive)`. */
  function Processed(d: FormData): (p: MenuPayload)
    ensures p.name == Trim(d.name) && p.description == Trim(d.description) && p.icon == Trim(d.icon)
    ensures p.price == d.price && p.isActive == Truthy(d.isActive)
    ensures p.displayOrder == IntOrZero(d.displayOrder)
  {
    MenuPayload(Trim(d.name), Trim(d.description), d.price, Trim(d.icon), IntOrZero(d.displayOrder), Truthy(d.isActive))
  }

  lemma TrimNoLonger(s: string)
    ensures |Trim(s)| <= |s|
  {
  }

  /** What an accepted form submits: a non-empty name of at most 100 characters, a price within
      the bounds and the display order it was given. */
  lemma ProcessedOfAcceptable(d: FormData)
    requires Acceptable(d)
    ensures var p := Processed(d);
            p.name != "" && |p.name| <= 100 && |p.description| <= 500 && 0.0 <= p.price <= MaxPrice
            && p.displayOrder == ParseIntOf(d.displayOrder).value && p.displayOrder >= 0
  {
    TrimNoLonger(d.name);
    TrimNoLonger(d.description);
  }

  function NameCheck(name: string): seq<Problem> {
    if Trim(name) == "" then [NameRequired] else if |name| > 100 then [NameTooLong] else []
  }

  function DescriptionCheck(description: string): seq<Problem> {
    if |description| > 500 then [DescriptionTooLong] else []
  }

  function PriceCheck(price: real): seq<Problem> {
    if price < 0.0 then [PriceInvalid] else if price > MaxPrice then [PriceTooHigh] else []
  }

  function OrderCheck(displayOrder: Scalar): seq<Problem> {
    var order := ParseIntOf(displayOrder);
    if order.None? || order.value < 0 then [OrderInvalid] else []
  }

  /** The messages `validateForm` collects, in its order. */
  function Problems(d: FormData): seq<Problem> {
    NameCheck(d.name) + DescriptionCheck(d.description) + PriceCheck(d.price) + OrderCheck(d.displayOrder)
  }

  /** No message exactly when every check passes, and each message exactly when its check
      fails; one message at most per field. */
  lemma ProblemsMeaning(d: FormData)
    ensures Problems(d) == [] <==> Acceptable(d)
    ensures NameRequired in Problems(d) <==> Trim(d.name) == ""
    ensures NameTooLong in Problems(d) <==> Trim(d.name) != "" && |d.name| > 100
    ensures DescriptionTooLong in Problems(d) <==> |d.description| > 500
    ensures PriceInvalid in Problems(d) <==> d.price < 0.0
    ensures PriceTooHigh in Problems(d) <==> d.price > MaxPrice
    ensures OrderInvalid in Problems(d) <==> !(ParseIntOf(d.displayOrder).Some? && ParseIntOf(d.displayOrder).value >= 0)
    ensures |Problems(d)| <= 4
  {
  }

  /** The field a text input edits. */
  datatype TextField = NameField | DescriptionField | IconField

  class MenuForm {
    var data: FormData
    var error: string
    /** The payloads handed to `onSubmit`. */
    var submitted: seq<MenuPayload>

    constructor (menu: Option<MenuRecord>)
      ensures data == InitialData(menu) && error == "" && submitted == []
    {
      data, error, submitted := InitialData(menu), "", [];
    }

    /** `validateForm`: the messages in check order, at most one per field. */
    method Validate() returns (errors: seq<Problem>)
      ensures errors == Problems(data)
    {
      var d := data;
      errors := [];
      if Trim(d.name) == "" {
        errors := errors + [NameRequired];
      } else if |d.name| > 100 {
        errors := errors + [NameTooLong];
      }
      assert errors == NameCheck(d.name);
      if d.description != "" && |d.description| > 500 {
        errors := errors + [DescriptionTooLong];
      }
      assert errors == NameCheck(d.name) + DescriptionCheck(d.description);
      if d.price < 0.0 {
        errors := errors + [PriceInvalid];
      } else if d.price > MaxPrice {
        errors := errors + [PriceTooHigh];
      }
      assert errors == NameCheck(d.name) + DescriptionCheck(d.description) + PriceCheck(d.price);
      var order := ParseIntOf(d.displayOrder);
      if order.None? || order.value < 0 {
        errors := errors + [OrderInvalid];
      }
    }

    /** `handleSubmit`: any failed check shows the messages joined with ", " and submits
        nothing; otherwise the processed payload is submitted, and a failure shows its message
        or the fallback. */
    method Submit(reply: Reply)
      modifies this`error, this`submitted
      ensures !Acceptable(data) ==> submitted == old(submitted) && error != ""
      ensures !Acceptable(data) ==> error == Join(Messages(Problems(data)), ", ")
      ensures Acceptable(data) ==> submitted == old(submitted) + [Processed(data)]
      ensures Acceptable(data) && reply.Done? ==> error == ""
      ensures Acceptable(data) && reply.Failed? ==>
                error == (if reply.message != "" then reply.message else "Failed to save menu. Please try again.")
    {
      error := "";
      var errors := Validate();
      ProblemsMeaning(data);
      if errors != [] {
        JoinNonEmpty(Messages(errors), ", ");
        error := Join(Messages(errors), ", ");
        return;
      }
      submitted := submitted + [Processed(data)];
      if reply.Failed? {
        error := if reply.message != "" then reply.message else "Failed to save menu. Please try again.";
      }
    }

    /** Typing in the price field: `value === '' ? 0 : parseFloat(value) || 0`, with `parsed`
        the result of `parseFloat(value)` (`None` for `NaN`). The price always stays a number. */
    method ChangePrice(value: string, parsed: Option<real>)
      modifies this`data, this`error
      ensures data == old(data).(price := if value == "" || parsed.None? then 0.0 else parsed.value)
      ensures error == ""
    {
      data := data.(price := if value == "" then 0.0 else parsed.GetOr(0.0));
      error := "";
    }

    method ChangeText(field: TextField, value: string)
      modifies this`data, this`error
      ensures field == NameField ==> data == old(data).(name := value)
      ensures field == DescriptionField ==> data == old(data).(description := value)
      ensures field == IconField ==> data == old(data).(icon := value)
      ensures error == ""
    {
      match field {
        case NameField => data := data.(name := value);
        case DescriptionField => data := data.(description := value);
        case IconField => data := data.(icon := value);
      }
      error := "";
    }

    method ChangeDisplayOrder(value: string)
      modifies this`data, this`error
      ensures data == old(data).(displayOrder := Str(value)) && error == ""
    {
      data, error := data.(displayOrder := Str(value)), "";
    }

    method ChangeActive(checked: bool)
      modifies this`data, this`error
      ensures data == old(data).(isActive := Bool(checked)) && error == ""
    {
      data, error := data.(isActive := Bool(checked)), "";
    }
  }

  /** An empty price input and one that does not parse both store 0, which passes the price
      check: the price message can only come from a negative number. */
  method EmptyPriceIsZero(unparsable: string) returns (price: real, priceError: bool)
    ensures price == 0.0 && !priceError
  {
    var f := new MenuForm(None);
    f.ChangePrice(unparsable, None);
    price := f.data.price;
    var errors := f.Validate();
    ProblemsMeaning(f.data);
    priceError := PriceInvalid in errors || PriceTooHigh in errors;
  }
}

/** The second menu form: per-field errors kept in a map, cleared field by field as the user
    types, and defaults filled in from the menu being edited. */
module EditMenuFormModel {
  import opened Wrappers
  import opened Text
  import opened Js
  import opened MenuRecords

  /** `displayOrder` holds `Number(value)` of the number input; `None` is `NaN`. */
  datatype EditData = EditData(name: string, description: string, url: string, displayOrder: Option<int>,
                               isActive: Scalar)

  const BlankData := EditData("", "", "", Some(0), Bool(true))

  /** The form's fields, which are also the keys of its error map. */
  datatype Field = Name | Description | Url | DisplayOrder | IsActive

  const NameRequired := "Menu name is required"
  const DescriptionRequired := "Description is required"
  const UrlRequired := "URL is required"
  const UrlBadPrefix := "URL should start with \"/\" for internal links or \"http\" for external links"
  const OrderNegative := "Display order cannot be negative"

  /** The populate effect's defaults. */
  function Populated(m: MenuRecord): (d: EditData)
    ensures d.name == TextOrEmpty(m.name) && d.description == TextOrEmpty(m.description) && d.url == TextOrEmpty(m.url)
    ensures d.displayOrder == Some(if m.displayOrder.Some? then m.displayOrder.value else 0)
    ensures d.isActive == (if m.isActive.Undefined? then Bool(true) else m.isActive)
  {
    EditData(TextOrEmpty(m.name), TextOrEmpty(m.description), TextOrEmpty(m.url),
             Some(if m.displayOrder.Some? then m.displayOrder.value else 0), ActiveOrTrue(m.isActive))
  }

  predicate UrlPrefixOk(url: string) {
    StartsWith(url, "/") || StartsWith(url, "http")
  }

  /** Every check passes. `NaN < 0` is false, so a display order that is not a number passes. */
  predicate Acceptable(d: EditData) {
    && Trim(d.name) != "" && Trim(d.description) != ""
    && Trim(d.url) != "" && UrlPrefixOk(d.url)
    && !(d.displayOrder.Some? && d.displayOrder.value < 0)
  }

  /** A change event: the text, number or checkbox input that fired it and its new value. */
  datatype Input = TextInput(field: Field, text: string) | NumberInput(numeric: Option<int>) | Checkbox(checked: bool)

  function FieldOf(input: Input): Field {
    match input
    case TextInput(f, _) => f
    case NumberInput(_) => DisplayOrder
    case Checkbox(_) => IsActive
  }

  class EditMenuForm {
    var data: EditData
    var errors: map<Field, string>
    var submitted: seq<EditData>

    constructor ()
      ensures data == BlankData && errors == map[] && submitted == []
    {
      data, errors, submitted := BlankData, map[], [];
    }

    /** The populate effect: a menu replaces the whole form with its values or the defaults. */
    method Populate(menu: Option<MenuRecord>)
      modifies this`data
      ensures data == if menu.Some? then Populated(menu.value) else old(data)
    {
      if menu.Some? {
        data := Populated(menu.value);
      }
    }

    /** `validateForm`: the error map is replaced by the new one; the form is valid iff it is
        empty. */
    method Validate() returns (valid: bool)
      modifies this`errors
      ensures valid <==> errors == map[]
      ensures valid <==> Acceptable(data)
      ensures IsActive !in errors
      ensures (Name in errors <==> Trim(data.name) == "") && (Name in errors ==> errors[Name] == NameRequired)
      ensures (Description in errors <==> Trim(data.description) == "")
              && (Description in errors ==> errors[Description] == DescriptionRequired)
      ensures (Url in errors <==> Trim(data.url) == "" || !UrlPrefixOk(data.url))
              && (Url in errors ==> errors[Url] == if Trim(data.url) == "" then UrlRequired else UrlBadPrefix)
      ensures (DisplayOrder in errors <==> data.displayOrder.Some? && data.displayOrder.value < 0)
              && (DisplayOrder in errors ==> errors[DisplayOrder] == OrderNegative)
    {
      var e: map<Field, string> := map[];
      if Trim(data.name) == "" {
        e := e[Name := NameRequired];
      }
      if Trim(data.description) == "" {
        e := e[Description := DescriptionRequired];
      }
      if Trim(data.url) == "" {
        e := e[Url := UrlRequired];
      } else if !StartsWith(data.url, "/") && !StartsWith(data.url, "http") {
        e := e[Url := UrlBadPrefix];
      }
      if data.displayOrder.Some? && data.displayOrder.value < 0 {
        e := e[DisplayOrder := OrderNegative];
      }
      errors := e;
      valid := e == map[];
    }

    /** `handleChange`: the edited field takes the new value and its own error, if shown, is
        blanked; no other error changes. */
    method Change(input: Input)
      requires input.TextInput? ==> input.field in {Name, Description, Url}
      modifies this`data, this`errors
      ensures input.TextInput? && input.field == Name ==> data == old(data).(name := input.text)
      ensures input.TextInput? && input.field == Description ==> data == old(data).(description := input.text)
      ensures input.TextInput? && input.field == Url ==> data == old(data).(url := input.text)
      ensures input.NumberInput? ==> data == old(data).(displayOrder := input.numeric)
      ensures input.Checkbox? ==> data == old(data).(isActive := Bool(input.checked))
      ensures var f := FieldOf(input);
              errors == if f in old(errors) && old(errors)[f] != "" then old(errors)[f := ""] else old(errors)
    {
      match input {
        case TextInput(f, text) =>
          match f {
            case Name => data := data.(name := text);
            case Description => data := data.(description := text);
            case Url => data := data.(url := text);
          }
        case NumberInput(n) => data := data.(displayOrder := n);
        case Checkbox(c) => data := data.(isActive := Bool(c));
      }
      var f := FieldOf(input);
      if f in errors && errors[f] != "" {
        errors := errors[f := ""];
      }
    }

    /** `handleSubmit`: nothing is submitted unless the form is valid; a failed save is only
        logged. */
    method Submit()
      modifies this`errors, this`submitted
      ensures Acceptable(data) ==> submitted == old(submitted) + [data] && errors == map[]
      ensures !Acceptable(data) ==> submitted == old(submitted) && errors != map[]
      ensures IsActive !in errors
      ensures (Name in errors <==> Trim(data.name) == "") && (Name in errors ==> errors[Name] == NameRequired)
      ensures (Description in errors <==> Trim(data.description) == "")
              && (Description in errors ==> errors[Description] == DescriptionRequired)
      ensures (Url in errors <==> Trim(data.url) == "" || !UrlPrefixOk(data.url))
              && (Url in errors ==> errors[Url] == if Trim(data.url) == "" then UrlRequired else UrlBadPrefix)
      ensures (DisplayOrder in errors <==> data.displayOrder.Some? && data.displayOrder.value < 0)
              && (DisplayOrder in errors ==> errors[DisplayOrder] == OrderNegative)
    {
      var valid := Validate();
      if valid {
        submitted := submitted + [data];
      }
    }
  }

  /** Fixing the name after a failed check blanks only the name's message: the other messages
      stay until the next check. */
  method FixNameKeepsOtherErrors() returns (nameError: string, urlError: string)
    ensures nameError == "" && urlError == UrlRequired
  {
    var f := new EditMenuForm();
    var valid := f.Validate();
    f.Change(TextInput(Name, "Nasi Goreng"));
    nameError, urlError := f.errors[Name], f.errors[Url];
  }
}
