/**
 * The edit form (src/components/listings/EditListingForm.tsx). An effect loads the
 * listing once a user is signed in and an id is given, refusing listings the user does
 * not own; the submit handler checks the user and the fields, then sends a partial
 * update. The store read succeeds or fails (`ok`); `price.toString()` and `parseFloat`
 * are parameters `show` and `parse`.
 */
module EditListingFormComponent {
  import opened Wrappers
  import opened Types
  import opened JsString
  import opened Numbers
  import opened Firestore

  const NOT_FOUND := "Listing not found"
  const NOT_OWNER := "You can only edit your own listings"
  const LOAD_FAILED := "Failed to load listing"
  const LOGIN_REQUIRED := "You must be logged in to edit listings"
  const TITLE_REQUIRED := "Title is required"
  const DESCRIPTION_REQUIRED := "Description is required"
  const INVALID_PRICE := "Please enter a valid price"
  const UPDATE_FAILED := "Failed to update listing. Please try again."

  /** The three text inputs, as typed. */
  datatype FormData = FormData(title: string, description: string, price: string)

  /** The `name` attribute of an input. */
  datatype FieldName = TitleField | DescriptionField | PriceField

  /** The text of the named input. */
  function Field(f: FormData, name: FieldName): string {
    match name
    case TitleField => f.title
    case DescriptionField => f.description
    case PriceField => f.price
  }

  /** `handleInputChange`: the named input takes the new text and the others keep theirs. */
  function WithField(f: FormData, name: FieldName, value: string): (r: FormData)
    ensures Field(r, name) == value
    ensures forall other :: other != name ==> Field(r, other) == Field(f, other)
  {
    match name
    case TitleField => f.(title := value)
    case DescriptionField => f.(description := value)
    case PriceField => f.(price := value)
  }

  /** The form's state hooks. */
  datatype EditState = EditState(loading: bool, saving: bool, error: string, success: bool, formData: FormData)

  function InitialEdit(): EditState {
    EditState(true, false, "", false, FormData("", "", ""))
  }

  /** How the load ends once the record has been read: missing, someone else's, or shown. */
  function Fetched(s: EditState, found: Option<Listing>, uid: string, show: real -> string): EditState {
    match found
    case None => s.(error := NOT_FOUND, loading := false)
    case Some(l) =>
      if l.ownerId != uid then s.(error := NOT_OWNER, loading := false)
      else s.(formData := FormData(l.title, l.description, show(l.price)), loading := false)
  }

  /**
   * The load effect. It runs only with a signed-in user and a non-empty id; otherwise
   * nothing changes, so `loading` keeps its initial `true`. A failed read sets its message.
   */
  function LoadStep(s: EditState, user: Option<User>, listingId: string, store: seq<DocSnapshot>,
                    ok: bool, show: real -> string): (r: EditState)
    ensures user.None? || listingId == "" ==> r == s
  {
    if user.None? || listingId == "" then s
    else if !ok then s.(error := LOAD_FAILED, loading := false)
    else Fetched(s, GetListingById(store, listingId), user.value.uid, show)
  }

  /**
   * A load that runs ends with `loading` false and leaves `saving` and `success` alone.
   * The inputs change only to the fields of a stored record with that id owned by the
   * user, and then no message is set. A missing record or another owner's record sets
   * its message and leaves the inputs alone.
   */
  lemma LoadShowsOnlyOwnListing(s: EditState, user: Option<User>, listingId: string,
                                store: seq<DocSnapshot>, ok: bool, show: real -> string)
    requires user.Some? && listingId != ""
    ensures var r := LoadStep(s, user, listingId, store, ok, show);
      && !r.loading && r.saving == s.saving && r.success == s.success
      && (r.formData != s.formData ==>
            r.error == s.error && ok
            && exists k :: 0 <= k < |store| && store[k].id == listingId
                 && store[k].data.ownerId == user.value.uid
                 && r.formData == FormData(store[k].data.title, store[k].data.description,
                                           show(store[k].data.price)))
      && (!ok ==> r.error == LOAD_FAILED && r.formData == s.formData)
      && (ok && (forall k :: 0 <= k < |store| ==> store[k].id != listingId) ==>
            r.error == NOT_FOUND && r.formData == s.formData)
      && (ok && GetListingById(store, listingId).Some?
          && GetListingById(store, listingId).value.ownerId != user.value.uid ==>
            r.error == NOT_OWNER && r.formData == s.formData)
  {
    var found := GetListingById(store, listingId);
    if ok && found.Some? && found.value.ownerId == user.value.uid {
      var k :| 0 <= k < |store| && store[k].id == listingId && found.value == ToListing(store[k]);
      assert store[k].data.ownerId == user.value.uid;
    }
  }

  /** A load of the user's own listing fills the inputs with its fields and sets no message. */
  lemma LoadOwnListing(s: EditState, user: Option<User>, listingId: string, store: seq<DocSnapshot>,
                       show: real -> string)
    requires user.Some? && listingId != ""
    requires GetListingById(store, listingId).Some?
    requires GetListingById(store, listingId).value.ownerId == user.value.uid
    ensures var l := GetListingById(store, listingId).value;
      LoadStep(s, user, listingId, store, true, show)
        == s.(formData := FormData(l.title, l.description, show(l.price)), loading := false)
  {
  }

  /** Why `handleSubmit` stopped before calling the store. */
  datatype EditRejection = NotSignedIn | TitleBlank | DescriptionBlank | PriceInvalid

  /** The message shown for each rejection. */
  function RejectionMessage(r: EditRejection): (m: string)
    ensures m in {LOGIN_REQUIRED, TITLE_REQUIRED, DESCRIPTION_REQUIRED, INVALID_PRICE}
  {
    match r
    case NotSignedIn => LOGIN_REQUIRED
    case TitleBlank => TITLE_REQUIRED
    case DescriptionBlank => DESCRIPTION_REQUIRED
    case PriceInvalid => INVALID_PRICE
  }

  /**
   * The checks `handleSubmit` runs, in order: a user, a title, a description, a positive
   * price. When all pass, the update carries the trimmed text and the parsed price
   * (`EditChecksRunInOrder`).
   */
  function ValidateEdit(f: FormData, user: Option<User>, parse: string -> ParsedNumber)
    : (r: Result<ListingUpdate, EditRejection>)
  {
    if user.None? then Err(NotSignedIn)
    else if IsBlank(f.title) then Err(TitleBlank)
    else if IsBlank(f.description) then Err(DescriptionBlank)
    else if !IsPositive(parse(f.price)) then Err(PriceInvalid)
    else Ok(ListingUpdate(Some(Trim(f.title)), Some(Trim(f.description)), Some(parse(f.price).value)))
  }

  /**
   * A form is accepted exactly when every check passes, and each rejection happens
   * exactly when the checks before it pass and its own fails. An accepted form sends all
   * three fields, and never the owner, id or creation time.
   */
  lemma EditChecksRunInOrder(f: FormData, user: Option<User>, parse: string -> ParsedNumber)
    ensures var r := ValidateEdit(f, user, parse);
      && (r.Ok? <==> user.Some? && !IsBlank(f.title) && !IsBlank(f.description) && IsPositive(parse(f.price)))
      && (r == Err(NotSignedIn) <==> user.None?)
      && (r == Err(TitleBlank) <==> user.Some? && IsBlank(f.title))
      && (r == Err(DescriptionBlank) <==> user.Some? && !IsBlank(f.title) && IsBlank(f.description))
      && (r == Err(PriceInvalid) <==>
            user.Some? && !IsBlank(f.title) && !IsBlank(f.description) && !IsPositive(parse(f.price)))
      && (r.Ok? ==> r.value == ListingUpdate(Some(Trim(f.title)), Some(Trim(f.description)),
                                             Some(parse(f.price).value)))
  {
  }

  /**
   * The update's await: the collection after it, or `None` when it throws. `updateDoc`
   * rejects an id that names no document, so the update goes through only when the write
   * does and a record with that id exists.
   */
  function Updated(store: seq<DocSnapshot>, listingId: string, u: ListingUpdate, ok: bool): (r: Option<seq<DocSnapshot>>)
    ensures r.Some? <==> ok && exists k :: 0 <= k < |store| && store[k].id == listingId
  {
    if ok then UpdateListing(store, listingId, u) else None
  }

  /** The update `handleSubmit` sends, if its checks pass, and the collection after it. */
  function Written(s: EditState, user: Option<User>, listingId: string, store: seq<DocSnapshot>,
                   parse: string -> ParsedNumber, ok: bool): Option<seq<DocSnapshot>> {
    var checked := ValidateEdit(s.formData, user, parse);
    if checked.Ok? then Updated(store, listingId, checked.value, ok) else None
  }

  /** `handleSubmit`'s state: the rejection's message, or the update's outcome. */
  function SubmitStep(s: EditState, user: Option<User>, listingId: string, store: seq<DocSnapshot>,
                      parse: string -> ParsedNumber, ok: bool): (r: EditState)
    ensures r.formData == s.formData && r.loading == s.loading
  {
    match ValidateEdit(s.formData, user, parse)
    case Err(reason) => s.(error := RejectionMessage(reason))
    case Ok(_) =>
      if Written(s, user, listingId, store, parse, ok).Some? then s.(error := "", success := true, saving := false)
      else s.(error := UPDATE_FAILED, saving := false)
  }

  /** The collection after `handleSubmit`: updated when the update went through, else as it was. */
  function SubmitStore(s: EditState, user: Option<User>, listingId: string, store: seq<DocSnapshot>,
                       parse: string -> ParsedNumber, ok: bool): seq<DocSnapshot> {
    var written := Written(s, user, listingId, store, parse, ok);
    if written.Some? then written.value else store
  }

  /**
   * A rejected submit only sets the rejection's message and leaves the collection alone.
   * An accepted one ends with `saving` false and clears the message exactly when the
   * await succeeds and the listing still exists; the collection is then the update of it
   * by the validated fields, and otherwise unchanged. The success flag is raised only by
   * an update that went through and is never lowered. The message names the first check
   * that failed (login, then title, then description, then price), or says the update
   * failed.
   */
  lemma SubmitOutcome(s: EditState, user: Option<User>, listingId: string, store: seq<DocSnapshot>,
                      parse: string -> ParsedNumber, ok: bool)
    ensures var r := SubmitStep(s, user, listingId, store, parse, ok);
      var after := SubmitStore(s, user, listingId, store, parse, ok);
      var v := ValidateEdit(s.formData, user, parse);
      && (v.Err? ==> r == s.(error := RejectionMessage(v.error)) && after == store)
      && (v.Ok? ==> !r.saving && (r.error == "" <==>
            ok && exists k :: 0 <= k < |store| && store[k].id == listingId))
      && (v.Ok? && r.error == "" ==> UpdateListing(store, listingId, v.value) == Some(after))
      && (r.error != "" ==> after == store)
      && (r.success <==> s.success || (v.Ok? && r.error == ""))
      && (user.None? ==> r.error == LOGIN_REQUIRED)
      && (user.Some? && IsBlank(s.formData.title) ==> r.error == TITLE_REQUIRED)
      && ((user.Some? && !IsBlank(s.formData.title) && IsBlank(s.formData.description))
            ==> r.error == DESCRIPTION_REQUIRED)
      && ((user.Some? && !IsBlank(s.formData.title) && !IsBlank(s.formData.description)
           && !IsPositive(parse(s.formData.price))) ==> r.error == INVALID_PRICE)
      && (v.Ok? && r.error != "" ==> r.error == UPDATE_FAILED)
  {
    EditChecksRunInOrder(s.formData, user, parse);
  }

  /**
   * Loading an owned listing and saving it without touching the inputs leaves the store
   * as it was, provided its text is already trimmed and not blank, its price positive,
   * and `parseFloat` reads back what `toString` wrote.
   */
  lemma UnchangedEditKeepsStore(store: seq<DocSnapshot>, user: Option<User>, listingId: string,
                                show: real -> string, parse: string -> ParsedNumber)
    requires WellFormed(store)
    requires user.Some? && listingId != ""
    requires GetListingById(store, listingId).Some?
    requires var l := GetListingById(store, listingId).value;
      && l.ownerId == user.value.uid
      && Trim(l.title) == l.title && !IsBlank(l.title)
      && Trim(l.description) == l.description && !IsBlank(l.description)
      && l.price > 0.0 && parse(show(l.price)) == Number(l.price)
    ensures var loaded := LoadStep(InitialEdit(), user, listingId, store, true, show);
      var v := ValidateEdit(loaded.formData, user, parse);
      && loaded.error == "" && !loaded.loading
      && v.Ok? && UpdateListing(store, listingId, v.value) == Some(store)
      && SubmitStore(loaded, user, listingId, store, parse, true) == store
      && SubmitStep(loaded, user, listingId, store, parse, true).success
  {
    var l := GetListingById(store, listingId).value;
    var shown := FormData(l.title, l.description, show(l.price));
    LoadOwnListing(InitialEdit(), user, listingId, store, show);
    EditChecksRunInOrder(shown, user, parse);
    var u := ValidateEdit(shown, user, parse).value;
    assert u == ListingUpdate(Some(l.title), Some(l.description), Some(l.price));
    WriteBackChangesNothing(store, listingId);
  }

  /** What the component renders. */
  datatype EditView =
    | Spinner
    | ErrorPage(message: string)
    | Form(data: FormData, successBanner: bool, errorBanner: bool)

  /** The spinner while loading, the error page for any message, the form otherwise. */
  function View(s: EditState): (v: EditView)
    ensures v.Form? ==> v.data == s.formData && v.successBanner == s.success
  {
    if s.loading then Spinner
    else if s.error != "" then ErrorPage(s.error)
    else Form(s.formData, s.success, s.error != "")
  }

  /**
   * Once loaded, a rejected or failed submit replaces the whole form by the error page;
   * the form's own error banner is never shown.
   */
  lemma SubmitErrorReplacesForm(s: EditState, user: Option<User>, listingId: string, store: seq<DocSnapshot>,
                                parse: string -> ParsedNumber, ok: bool)
    requires !s.loading
    ensures View(s).Form? ==> !View(s).errorBanner
    ensures var r := SubmitStep(s, user, listingId, store, parse, ok);
      r.error != "" <==> View(r) == ErrorPage(r.error)
  {
  }

  /**
   * The form is the only way to submit, and `handleSubmit` does not check ownership
   * itself. After a load the form shows exactly when the read succeeded and found a
   * record with that id owned by the user (and no earlier message stands); another
   * owner's record, a missing one and a failed read all show the error page instead.
   */
  lemma FormOnlyForOwner(s: EditState, user: Option<User>, listingId: string, store: seq<DocSnapshot>,
                         ok: bool, show: real -> string)
    requires user.Some? && listingId != ""
    ensures var v := View(LoadStep(s, user, listingId, store, ok, show));
      var found := GetListingById(store, listingId);
      && (v.Form? <==> ok && found.Some? && found.value.ownerId == user.value.uid && s.error == "")
      && (ok && found.Some? && found.value.ownerId != user.value.uid ==> v == ErrorPage(NOT_OWNER))
  {
  }

  /** Without a signed-in user or an id the form shows the spinner for good. */
  lemma NoUserSpinsForever(user: Option<User>, listingId: string, store: seq<DocSnapshot>, ok: bool,
                           show: real -> string)
    requires user.None? || listingId == ""
    ensures View(LoadStep(InitialEdit(), user, listingId, store, ok, show)) == Spinner
  {
  }

  class EditListingForm {
    const listingId: string
    var loading: bool
    var saving: bool
    var error: string
    var success: bool
    var formData: FormData

    ghost function State(): EditState
      reads this
    {
      EditState(loading, saving, error, success, formData)
    }

    constructor (listingId: string)
      ensures this.listingId == listingId
      ensures State() == InitialEdit()
    {
      this.listingId := listingId;
      loading, saving, error, success := true, false, "", false;
      formData := FormData("", "", "");
    }

    /** The load effect, run on mount and whenever the user or the id changes. */
    method LoadListing(user: Option<User>, store: seq<DocSnapshot>, ok: bool, show: real -> string)
      modifies this
      ensures State() == LoadStep(old(State()), user, listingId, store, ok, show)
    {
      if user.Some? && listingId != "" {
        loading := true;
        if ok {
          var found := GetListingById(store, listingId);
          match found {
            case None =>
              error := NOT_FOUND;
            case Some(l) =>
              if l.ownerId != user.value.uid {
                error := NOT_OWNER;
              } else {
                formData := FormData(l.title, l.description, show(l.price));
              }
          }
        } else {
          error := LOAD_FAILED;
        }
        loading := false;
      }
    }

    /** `handleInputChange` for the input called `name`. */
    method HandleInputChange(name: FieldName, value: string)
      modifies this`formData
      ensures Field(formData, name) == value
      ensures forall other :: other != name ==> Field(formData, other) == Field(old(formData), other)
      ensures State() == old(State()).(formData := formData)
    {
      formData := WithField(formData, name, value);
    }

    /**
     * `handleSubmit`. `request` is the update passed to `updateListing`, or `None` when a
     * check failed and the store was not called; `after` is the collection once the
     * handler is done.
     */
    method HandleSubmit(user: Option<User>, store: seq<DocSnapshot>, parse: string -> ParsedNumber, ok: bool)
      returns (request: Option<ListingUpdate>, after: seq<DocSnapshot>)
      modifies this
      ensures request == ValidateEdit(old(formData), user, parse).ToOption()
      ensures after == SubmitStore(old(State()), user, listingId, store, parse, ok)
      ensures State() == SubmitStep(old(State()), user, listingId, store, parse, ok)
    {
      var checked := ValidateEdit(formData, user, parse);
      request, after := checked.ToOption(), store;
      match checked {
        case Err(reason) =>
          error := RejectionMessage(reason);
        case Ok(u) =>
          saving, error := true, "";
          var written := if ok then UpdateListing(store, listingId, u) else None;
          if written.Some? {
            after, success := written.value, true;
          } else {
            error := UPDATE_FAILED;
          }
          saving := false;
      }
    }
  }
}
