/**
 * A listing's card (src/components/listings/ListingCard.tsx): who sees the edit and
 * delete controls, the two-step delete (a "Delete" click shows "Confirm" and "Cancel")
 * and `handleDelete`, which removes the listing from the collection only for its owner.
 * The collection is a parameter and the delete's await succeeds or fails (`ok`).
 */
module ListingCardComponent {
  import opened Wrappers
  import opened Types
  import opened Firestore
  import EditListingFormComponent

  const DELETE_FAILED := "Failed to delete listing. Please try again."

  /** `user?.uid === listing.ownerId`: a signed-in user whose uid is the listing's owner. */
  predicate IsOwner(user: Option<User>, listing: Listing) {
    user.Some? && user.value.uid == listing.ownerId
  }

  /**
   * The card and the edit page agree on who may edit. Once the edit page has read this
   * listing from the collection, it shows its form exactly to the users the card shows
   * the edit link to (a listing always has an id). Nobody signed in sees neither: the
   * edit page keeps its spinner.
   */
  lemma EditLinkIffEditable(user: Option<User>, listing: Listing, store: seq<DocSnapshot>, show: real -> string)
    requires GetListingById(store, listing.id) == Some(listing)
    ensures var page := EditListingFormComponent.LoadStep(EditListingFormComponent.InitialEdit(), user, listing.id, store, true, show);
      IsOwner(user, listing) && listing.id != "" <==> EditListingFormComponent.View(page).Form?
  {
    if user.Some? && listing.id != "" {
      EditListingFormComponent.FormOnlyForOwner(EditListingFormComponent.InitialEdit(), user, listing.id, store, true, show);
    }
  }

  /** The card's state hooks. */
  datatype CardState = CardState(isDeleting: bool, showDeleteConfirm: bool)

  function InitialCard(): CardState {
    CardState(false, false)
  }

  /** The controls in the card's footer. */
  datatype Control = EditLink(href: string) | DeleteButton | ConfirmButton(disabled: bool) | CancelButton

  /**
   * The footer: nothing for anyone but the owner; for the owner an edit link to the
   * listing's edit page and either "Delete" or, once it was clicked, "Confirm" (disabled
   * while deleting) and "Cancel".
   */
  function Controls(owner: bool, s: CardState, id: string): seq<Control> {
    if !owner then []
    else if !s.showDeleteConfirm then [EditLink("/edit/" + id), DeleteButton]
    else [EditLink("/edit/" + id), ConfirmButton(s.isDeleting), CancelButton]
  }

  /**
   * Only the owner sees controls, and always the edit link to this listing; "Delete" and
   * "Confirm" are never shown together, "Confirm" comes with "Cancel", and which one is
   * shown follows `showDeleteConfirm`.
   */
  lemma OwnerControls(owner: bool, s: CardState, id: string)
    ensures var cs := Controls(owner, s, id);
      && (cs != [] <==> owner)
      && (owner ==> EditLink("/edit/" + id) in cs)
      && (DeleteButton in cs <==> owner && !s.showDeleteConfirm)
      && (ConfirmButton(s.isDeleting) in cs <==> owner && s.showDeleteConfirm)
      && (CancelButton in cs <==> owner && s.showDeleteConfirm)
      && !(DeleteButton in cs && CancelButton in cs)
  {
    var cs := Controls(owner, s, id);
    if owner && s.showDeleteConfirm {
      assert cs[1] == ConfirmButton(s.isDeleting) && cs[2] == CancelButton;
    } else if owner {
      assert cs[1] == DeleteButton;
    }
  }

  /**
   * What `handleDelete` does besides its flags: the collection afterwards, whether
   * `deleteListing` was called, whether `onDelete` was called back, and the alert shown.
   */
  datatype DeleteOutcome = DeleteOutcome(store: seq<DocSnapshot>, called: bool, notified: bool, alert: Option<string>)

  /**
   * `handleDelete`'s effect: a non-owner returns at once; for the owner the listing is
   * deleted and `onDelete` runs when the await succeeds, and the alert is shown when it
   * fails.
   */
  function DeleteEffect(owner: bool, id: string, store: seq<DocSnapshot>, ok: bool): DeleteOutcome {
    if !owner then DeleteOutcome(store, false, false, None)
    else if ok then DeleteOutcome(DeleteListing(store, id), true, true, None)
    else DeleteOutcome(store, true, false, Some(DELETE_FAILED))
  }

  /** `handleDelete`'s effect on the flags: the owner's ends with both lowered, a non-owner's changes nothing. */
  function DeleteFlags(s: CardState, owner: bool): (r: CardState)
    ensures owner ==> !r.isDeleting && !r.showDeleteConfirm
    ensures !owner ==> r == s
  {
    if owner then CardState(false, false) else s
  }

  /**
   * `deleteListing` is called exactly for the owner; `onDelete` runs exactly when that call
   * succeeds, and then the listing is gone from the collection while every other record
   * remains; the alert appears exactly when it fails, and a failed or skipped delete leaves
   * the collection as it was.
   */
  lemma DeleteOutcomeCases(owner: bool, id: string, store: seq<DocSnapshot>, ok: bool)
    ensures var o := DeleteEffect(owner, id, store, ok);
      && (o.called <==> owner)
      && (o.notified <==> owner && ok)
      && (o.alert.Some? <==> owner && !ok)
      && (o.alert.Some? ==> o.alert.value == DELETE_FAILED)
      && (!o.notified ==> o.store == store)
      && (o.notified ==> forall k :: 0 <= k < |o.store| ==> o.store[k].id != id)
      && (o.notified ==> forall j :: 0 <= j < |store| && store[j].id != id ==> store[j] in o.store)
  {
    DeleteRemovesOnlyThatId(store, id);
  }

  /** Clicks on the card; a click on a control that is not shown does nothing. */
  datatype CardEvent = DeleteClicked | ConfirmClicked(ok: bool) | CancelClicked

  /** One click, with the controls the state shows. */
  function Step(s: CardState, owner: bool, e: CardEvent): CardState {
    match e
    case DeleteClicked => if owner && !s.showDeleteConfirm then s.(showDeleteConfirm := true) else s
    case ConfirmClicked(_) =>
      if owner && s.showDeleteConfirm && !s.isDeleting then DeleteFlags(s, owner) else s
    case CancelClicked => if owner && s.showDeleteConfirm then s.(showDeleteConfirm := false) else s
  }

  /** Whether a click calls `deleteListing`: a click on an enabled "Confirm". */
  predicate CallsDelete(s: CardState, owner: bool, e: CardEvent) {
    e.ConfirmClicked? && owner && s.showDeleteConfirm && !s.isDeleting
  }

  /** The number of `deleteListing` calls a sequence of clicks makes. */
  function DeleteCalls(s: CardState, owner: bool, events: seq<CardEvent>): nat
    decreases |events|
  {
    if events == [] then 0
    else (if CallsDelete(s, owner, events[0]) then 1 else 0) + DeleteCalls(Step(s, owner, events[0]), owner, events[1..])
  }

  function Run(s: CardState, owner: bool, events: seq<CardEvent>): CardState
    decreases |events|
  {
    if events == [] then s else Run(Step(s, owner, events[0]), owner, events[1..])
  }

  /**
   * Between clicks the card is never deleting, and a non-owner's card never changes.
   * With each await taken as one step this holds by construction: the step that raises
   * `isDeleting` lowers it again. What it records is that no click can leave "Confirm"
   * disabled for good.
   */
  lemma {:induction false} RunNeverDeleting(s: CardState, owner: bool, events: seq<CardEvent>)
    requires !s.isDeleting
    ensures !Run(s, owner, events).isDeleting
    ensures !owner ==> Run(s, owner, events) == s
    decreases |events|
  {
    if events != [] {
      RunNeverDeleting(Step(s, owner, events[0]), owner, events[1..]);
    }
  }

  /** A card whose user is not the owner never calls `deleteListing`, whatever is clicked. */
  lemma {:induction false} NonOwnerNeverDeletes(s: CardState, events: seq<CardEvent>)
    ensures DeleteCalls(s, false, events) == 0
    decreases |events|
  {
    if events != [] {
      NonOwnerNeverDeletes(Step(s, false, events[0]), events[1..]);
    }
  }

  /** Without a "Delete" click, no click sequence from a closed confirm step calls `deleteListing`. */
  lemma {:induction false} ConfirmNeedsDeleteClick(s: CardState, owner: bool, events: seq<CardEvent>)
    requires !s.showDeleteConfirm
    requires forall k :: 0 <= k < |events| ==> events[k] != DeleteClicked
    ensures DeleteCalls(s, owner, events) == 0
    ensures !Run(s, owner, events).showDeleteConfirm
    decreases |events|
  {
    if events != [] {
      assert events[0] != DeleteClicked;
      assert forall k :: 0 <= k < |events[1..]| ==> events[1..][k] == events[k + 1];
      ConfirmNeedsDeleteClick(Step(s, owner, events[0]), owner, events[1..]);
    }
  }

  /** "Cancel" closes the owner's confirm step, so a "Confirm" click right after it calls nothing. */
  lemma CancelThenConfirmCallsNothing(s: CardState, owner: bool, ok: bool)
    ensures var t := Step(s, owner, CancelClicked);
      (owner ==> !t.showDeleteConfirm) && !CallsDelete(t, owner, ConfirmClicked(ok))
  {
  }

  class ListingCard {
    const listing: Listing
    var isDeleting: bool
    var showDeleteConfirm: bool

    ghost function State(): CardState
      reads this
    {
      CardState(isDeleting, showDeleteConfirm)
    }

    constructor (listing: Listing)
      ensures this.listing == listing && State() == InitialCard()
    {
      this.listing := listing;
      isDeleting, showDeleteConfirm := false, false;
    }

    /**
     * `handleDelete`: returns at once unless `user` owns the listing; otherwise deletes it,
     * calls back `onDelete` on success or alerts on failure, and lowers both flags.
     */
    method HandleDelete(user: Option<User>, store: seq<DocSnapshot>, ok: bool)
      returns (after: seq<DocSnapshot>, called: bool, notified: bool, alert: Option<string>)
      modifies this
      ensures DeleteOutcome(after, called, notified, alert) == DeleteEffect(IsOwner(user, listing), listing.id, store, ok)
      ensures State() == DeleteFlags(old(State()), IsOwner(user, listing))
    {
      if !IsOwner(user, listing) {
        return store, false, false, None;
      }
      isDeleting, called := true, true;
      if ok {
        after, notified, alert := DeleteListing(store, listing.id), true, None;
      } else {
        after, notified, alert := store, false, Some(DELETE_FAILED);
      }
      isDeleting, showDeleteConfirm := false, false;
    }

    /** The "Delete" button's `onClick`: open the confirm step. */
    method ClickDelete()
      modifies this`showDeleteConfirm
      ensures State() == old(State()).(showDeleteConfirm := true)
    {
      showDeleteConfirm := true;
    }

    /** The "Cancel" button's `onClick`: close the confirm step. */
    method CancelDelete()
      modifies this`showDeleteConfirm
      ensures State() == old(State()).(showDeleteConfirm := false)
    {
      showDeleteConfirm := false;
    }
  }
}
