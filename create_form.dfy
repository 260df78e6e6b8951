/**
 * The create form (src/components/listings/CreateListingForm.tsx). Its submit handler
 * checks the three fields, then the price, then the user, and only then calls
 * `createListing`; the outcome of that call is a parameter (`None` for success, or the
 * value it threw). `parseFloat` is a parameter `parse` (see `Numbers.ParsedNumber`).
 */
module CreateListingFormComponent {
  import opened Wrappers
  import opened Types
  import opened JsString
  import opened Numbers
  import opened Firestore

  const FIELDS_REQUIRED := "All fields are required"
  const PRICE_NOT_POSITIVE := "Price must be a positive number"
  const LOGIN_REQUIRED := "You must be logged in to create a listing"
  const CREATED := "Listing created successfully!"
  const CREATE_FAILED := "Failed to create listing"

  /** What a failed `createListing` throws: an `Error` carrying a message, or some other value. */
  datatype Thrown = ErrorObject(message: string) | OtherValue

  /** The message the catch block shows for a thrown value. */
  function ShownMessage(t: Thrown): (m: string)
    ensures t.OtherValue? ==> m == CREATE_FAILED
  {
    match t
    case ErrorObject(message) => message
    case OtherValue => CREATE_FAILED
  }

  /** Why `handleSubmit` stopped before calling the store. */
  datatype Rejection = FieldsRequired | PriceNotPositive | LoginRequired

  /** The message shown for each rejection. */
  function RejectionMessage(r: Rejection): (m: string)
    ensures m in {FIELDS_REQUIRED, PRICE_NOT_POSITIVE, LOGIN_REQUIRED}
  {
    match r
    case FieldsRequired => FIELDS_REQUIRED
    case PriceNotPositive => PRICE_NOT_POSITIVE
    case LoginRequired => LOGIN_REQUIRED
  }

  /**
   * The checks `handleSubmit` runs before the store call, in order: a blank field, then a
   * price that is not a positive number, then a missing user. The first that fails
   * decides the rejection; when none fails, the payload holds the trimmed text, the
   * parsed price and the user's uid (`ChecksRunInOrder`).
   */
  function ValidateCreate(title: string, description: string, price: string, user: Option<User>,
                          parse: string -> ParsedNumber): (r: Result<NewListing, Rejection>)
  {
    if IsBlank(title) || IsBlank(description) || IsBlank(price) then Err(FieldsRequired)
    else if !IsPositive(parse(price)) then Err(PriceNotPositive)
    else if user.None? then Err(LoginRequired)
    else Ok(NewListing(Trim(title), Trim(description), parse(price).value, user.value.uid))
  }

  /**
   * A form is accepted exactly when every check passes, and each rejection happens
   * exactly when the checks before it pass and its own fails.
   */
  lemma ChecksRunInOrder(title: string, description: string, price: string, user: Option<User>,
                         parse: string -> ParsedNumber)
    ensures var r := ValidateCreate(title, description, price, user, parse);
      && (r.Ok? <==> user.Some? && !IsBlank(title) && !IsBlank(description) && !IsBlank(price)
                     && IsPositive(parse(price)))
      && (r == Err(FieldsRequired) <==> IsBlank(title) || IsBlank(description) || IsBlank(price))
      && (r == Err(PriceNotPositive) <==>
            !IsBlank(title) && !IsBlank(description) && !IsBlank(price) && !IsPositive(parse(price)))
      && (r == Err(LoginRequired) <==>
            !IsBlank(title) && !IsBlank(description) && !IsBlank(price) && IsPositive(parse(price))
            && user.None?)
      && (r.Ok? ==> r.value == NewListing(Trim(title), Trim(description), parse(price).value, user.value.uid))
  {
  }

  /**
   * A payload that passed the checks passes them again unchanged: its text is trimmed
   * and not blank, and its price is positive.
   */
  lemma ValidatedPayloadIsClean(title: string, description: string, price: string, user: Option<User>,
                                parse: string -> ParsedNumber)
    requires ValidateCreate(title, description, price, user, parse).Ok?
    ensures var p := ValidateCreate(title, description, price, user, parse).value;
      && Trim(p.title) == p.title && Trim(p.description) == p.description
      && !IsBlank(p.title) && !IsBlank(p.description) && p.price > 0.0
  {
    ChecksRunInOrder(title, description, price, user, parse);
    TrimIdempotent(title);
    TrimIdempotent(description);
    BlankIffTrimEmpty(title);
    BlankIffTrimEmpty(description);
    BlankIffTrimEmpty(Trim(title));
    BlankIffTrimEmpty(Trim(description));
  }

  /** The form's state hooks. */
  datatype CreateState = CreateState(
    title: string, description: string, price: string, loading: bool, error: string, success: string)

  function InitialCreate(): CreateState {
    CreateState("", "", "", false, "", "")
  }

  /**
   * How `handleSubmit` ends once the checks have decided: a rejection or a thrown value
   * sets `error`, a stored listing clears the fields and sets `success`; `loading` ends
   * false either way.
   */
  function Settle(s: CreateState, checked: Result<NewListing, Rejection>, outcome: Option<Thrown>): CreateState {
    match checked
    case Err(reason) => s.(error := RejectionMessage(reason), success := "", loading := false)
    case Ok(_) =>
      if outcome.None? then
        s.(title := "", description := "", price := "", error := "", success := CREATED, loading := false)
      else s.(error := ShownMessage(outcome.value), success := "", loading := false)
  }

  /** `handleSubmit`: the checks on the current fields, then the store call's outcome. */
  function SubmitStep(s: CreateState, user: Option<User>, parse: string -> ParsedNumber,
                      outcome: Option<Thrown>): (r: CreateState)
    ensures !r.loading
  {
    Settle(s, ValidateCreate(s.title, s.description, s.price, user, parse), outcome)
  }

  /**
   * The form is cleared and the success message shown exactly when the checks pass and
   * the store call succeeds; otherwise the fields are kept, no success message is shown,
   * and `error` holds the failing check's message ("All fields are required", then "Price
   * must be a positive number", then the login message), the thrown `Error`'s own message,
   * or "Failed to create listing" for any other thrown value.
   */
  lemma SubmitOutcome(s: CreateState, user: Option<User>, parse: string -> ParsedNumber,
                      outcome: Option<Thrown>)
    ensures var r := SubmitStep(s, user, parse, outcome);
      var v := ValidateCreate(s.title, s.description, s.price, user, parse);
      && (r.success == CREATED <==> v.Ok? && outcome.None?)
      && (r.success == CREATED ==> r.error == "" && r.title == "" && r.description == "" && r.price == "")
      && (r.success != CREATED ==>
            r.success == "" && r.title == s.title && r.description == s.description && r.price == s.price)
      && (v.Err? ==> r.error == RejectionMessage(v.error))
      && (v.Ok? && outcome.Some? ==> r.error == ShownMessage(outcome.value))
      && (IsBlank(s.title) || IsBlank(s.description) || IsBlank(s.price) ==> r.error == FIELDS_REQUIRED)
      && ((!IsBlank(s.title) && !IsBlank(s.description) && !IsBlank(s.price) && !IsPositive(parse(s.price)))
            ==> r.error == PRICE_NOT_POSITIVE)
      && ((!IsBlank(s.title) && !IsBlank(s.description) && !IsBlank(s.price) && IsPositive(parse(s.price))
           && user.None?) ==> r.error == LOGIN_REQUIRED)
      && (v.Ok? && outcome == Some(OtherValue) ==> r.error == CREATE_FAILED)
      && (v.Ok? && outcome.Some? && outcome.value.ErrorObject? ==> r.error == outcome.value.message)
      && (v.Ok? && outcome.None? ==> r.error == "")
  {
    ChecksRunInOrder(s.title, s.description, s.price, user, parse);
  }

  class CreateListingForm {
    var title: string
    var description: string
    var price: string
    var loading: bool
    var error: string
    var success: string

    ghost function State(): CreateState
      reads this
    {
      CreateState(title, description, price, loading, error, success)
    }

    constructor ()
      ensures State() == InitialCreate()
    {
      title, description, price := "", "", "";
      loading, error, success := false, "", "";
    }

    /** The title input's `onChange`. */
    method SetTitle(value: string)
      modifies this`title
      ensures State() == old(State()).(title := value)
    {
      title := value;
    }

    /** The description input's `onChange`. */
    method SetDescription(value: string)
      modifies this`description
      ensures State() == old(State()).(description := value)
    {
      description := value;
    }

    /** The price input's `onChange`. */
    method SetPrice(value: string)
      modifies this`price
      ensures State() == old(State()).(price := value)
    {
      price := value;
    }

    /**
     * `handleSubmit`. `request` is what was passed to `createListing`, or `None` when a
     * check failed and the store was not called.
     */
    method HandleSubmit(user: Option<User>, parse: string -> ParsedNumber, outcome: Option<Thrown>)
      returns (request: Option<NewListing>)
      modifies this
      ensures request == ValidateCreate(old(title), old(description), old(price), user, parse).ToOption()
      ensures State() == SubmitStep(old(State()), user, parse, outcome)
    {
      var checked := ValidateCreate(title, description, price, user, parse);
      request := checked.ToOption();
      match checked {
        case Err(reason) =>
          error, success := RejectionMessage(reason), "";
        case Ok(_) =>
          if outcome.None? {
            title, description, price := "", "", "";
            error, success := "", CREATED;
          } else {
            error, success := ShownMessage(outcome.value), "";
          }
      }
      loading := false;
    }
  }
}
