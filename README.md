# Listing marketplace: a Dafny model of its data layer and listing components

The system is a small Next.js marketplace. Signed-in users create, edit and delete
listings, and every visitor browses them page by page, searches them and sorts them by
price. The listings live in one Firestore collection. This project models the part of
the code that decides anything, and proves what it promises:

- **`firestore.dfy`** (module `Firestore`, from `src/lib/firestore.ts`). The collection
  is a sequence of documents in the order every query asks for: `createdAt`, newest
  first. Each query read is a `method` that walks the query's snapshot and pushes one mapped
  row per kept document, as the source's `forEach` loops do. The rows are specified by
  `Keep`, the mapped subsequence a `Criterion` selects. A page cursor is the position of
  the page's last record. The writes (`createListing`, `updateListing`, `deleteListing`)
  are functions from the collection before to the collection after.
- **`listings_list.dfy`** (module `ListingsListComponent`, from
  `src/components/listings/ListingsList.tsx`). The page's state hooks are the fields of
  class `ListingsList`. Each handler is a method proved to take the state exactly as a
  transition function over `ListState` says, for the handler as it is written. A card's
  delete callback changes the collection the later loads read. The page's guarantees
  are lemmas about those functions:
  - as long as every reset load succeeds, paging shows a duplicate-free prefix of the
    collection;
  - a failed reset load breaks this (see Findings). With the corrected load
    (`StepFixed`, `RunFixed`) it holds through failed blank searches and clears, and
    only the reload after a delete must succeed;
  - a short page ends paging;
  - enough "Load More" clicks load everything;
  - search results are never paged;
  - the price view is a stable, ordered permutation.
- **`create_form.dfy`**, **`edit_form.dfy`** and **`card.dfy`** cover the create form,
  the edit form and the listing card. Each component is a class over its state hooks.
  Its ordered guard checks are pure functions returning a `Result`, and lemmas state
  which check fails for which input, which message appears, and that no store call
  happens on failure.
- **`jsstring.dfy`**, **`numbers.dfy`**, **`types.dfy`** and **`wrappers.dfy`** hold the
  shared pieces:
  - JavaScript `trim`, `toLowerCase` (ASCII letters only) and `includes`;
  - the result of `parseFloat`;
  - the `Listing` and `User` records;
  - `Option` and `Result`.

Every `await` is one atomic step that either succeeds or fails. The method receives the
collection as it stands at that moment, and a `bool ok` (or, for the create form, the
thrown value) says how the await ended. `parseFloat` and `Number.prototype.toString` are
function-typed parameters.

### Where the code and what its comments and screens promise differ

In each case below the model follows the code.

- `handleSearch` sets `hasMore` to true, not false (`ListingsList.tsx:100`). In search
  mode the "Load More" guard still blocks paging.
- A failed load is not harmless. A failed reset load keeps its resets of the page
  number, cursor, `hasMore` and search mode while the old records stay on screen. This
  covers a card's delete callback, a blank search and "Clear" (see Findings).
- The page's `error` message is never cleared by a later successful load
  (`ListingsList.tsx:83`).
- A search fetches through `searchListings`, which reads the whole collection and
  filters it.
- The card's `handleDelete` returns before its `try` when the user is not the owner, so
  the `finally` that lowers the flags does not run (`ListingCard.tsx:30`); the flags are
  then unchanged.
- The edit form renders its error page for any non-empty `error` once loaded
  (`EditListingForm.tsx:131`). A failed or rejected submit therefore replaces the whole
  form, and the form's own error banner (`EditListingForm.tsx:176-185`) can never appear
  (`SubmitErrorReplacesForm`).
- The edit form's load runs only with a user and an id. Without them `loading` stays
  true and the spinner shows for good (`NoUserSpinsForever`).

## Model

| member | source | states |
|---|---|---|
| Firestore.Rows | src/lib/firestore.ts:48-58 | states `ToListing`: each row maps the document at the same position: its id and fields, copied unchanged, and one row per document |
| Firestore.RowsConcat | src/lib/firestore.ts:86-96 | mapping the rows of two snapshots one after the other gives the two mappings one after the other |
| Firestore.Filter | src/lib/firestore.ts:143-155 | a read never returns more documents than the collection holds |
| Firestore.KeptPositions | src/lib/firestore.ts:143-155 | there is one kept position per document the filter keeps |
| Firestore.KeptPositionsHold | src/lib/firestore.ts:143-155 | the k-th kept document is the collection's document at the k-th kept position |
| Firestore.KeptPositionsIncrease | src/lib/firestore.ts:143-155 | the kept positions strictly increase, so a read keeps the collection's relative order |
| Firestore.FilterSelects | src/lib/firestore.ts:145 | states `Selects`: every kept document satisfies the read's condition |
| Firestore.SelectedPositionsKept | src/lib/firestore.ts:145 | states `Selects`: every document that satisfies the condition is kept |
| Firestore.FilterWellFormed | src/lib/firestore.ts:135-138 | states `WellFormed`, `NewestFirst` and `UniqueIds`: a filtered read of a newest-first collection with distinct ids is newest first with distinct ids |
| Firestore.KeepExactly | src/lib/firestore.ts:143-155 | states `Keep`: a row is returned if and only if it is the mapping of a document that satisfies the condition |
| Firestore.KeptIsSelected | src/lib/firestore.ts:143-155 | every returned row comes from a document that satisfies the condition |
| Firestore.SelectedIsKept | src/lib/firestore.ts:143-155 | the row of every document that satisfies the condition is returned |
| Firestore.KeepEverything | src/lib/firestore.ts:48-58 | states `Keep`: a read without a condition returns every document's row, in order |
| Firestore.SearchIgnoresCase | src/lib/firestore.ts:199-203 | two search terms that differ only in letter case give the same results |
| Firestore.Collect | src/lib/firestore.ts:143-155 | the push loop over a snapshot returns exactly the kept documents' rows, in order |
| Firestore.GetAllListings | src/lib/firestore.ts:38-65 | returns every row in the collection's order; on a well-formed collection the rows are newest first with distinct ids |
| Firestore.PageStart | src/lib/firestore.ts:79-81 | a page starts at the first record without a cursor, and right after the cursor's record with one |
| Firestore.PageOf | src/lib/firestore.ts:73-81 | a page holds at most `pageSize` records, and exactly `pageSize` unless the collection runs out first |
| Firestore.PageIsSlice | src/lib/firestore.ts:79-81 | a page is the run of consecutive records that starts where `PageStart` says |
| Firestore.NextCursor | src/lib/firestore.ts:98 | the returned cursor is null exactly when the page is empty |
| Firestore.NextCursorMarksLastRecord | src/lib/firestore.ts:98-100 | for a non-empty page the cursor marks its last record, and the next page starts right after it |
| Firestore.GetListingsWithPagination | src/lib/firestore.ts:68-105 | returns the rows of the selected page and the cursor that marks its last record |
| Firestore.PageKeepsOrder | src/lib/firestore.ts:73-77 | a page of a well-formed collection is newest first with distinct ids |
| Firestore.SliceWellFormed | src/lib/firestore.ts:73-77 | any run of consecutive records of a well-formed collection is well formed |
| Firestore.GetListingsByOwner | src/lib/firestore.ts:133-162 | the push loop returns exactly the rows `Keep` selects for the owner, in order |
| Firestore.OwnerFilterExactly | src/lib/firestore.ts:143-155 | every returned row has the owner's id, every document of that owner is returned, and order and distinct ids are kept |
| Firestore.SearchListings | src/lib/firestore.ts:187-220 | the push loop returns exactly the rows `Keep` selects for the term, in order |
| Firestore.SearchFindsExactly | src/lib/firestore.ts:197-213 | a row is returned exactly when its lower-cased title or description contains the lower-cased term; order and distinct ids are kept |
| Firestore.FindPosition | src/lib/firestore.ts:110-113 | none exactly when no document has the id; otherwise the first position holding it |
| Firestore.GetListingById | src/lib/firestore.ts:108-130 | null exactly when no document has the id; otherwise the mapped row of a document with that id |
| Firestore.InsertPos | src/lib/firestore.ts:26-29 | a new record goes after every newer record and before the first that is not newer |
| Firestore.CreateListing | src/lib/firestore.ts:24-35 | states `NewDoc`: the collection gains exactly one document, holding the supplied fields and the creation time, and nothing else changes |
| Firestore.CreateKeepsWellFormed | src/lib/firestore.ts:24-35 | creating with a fresh id keeps the collection newest first with distinct ids |
| Firestore.InsertKeepsOrder | src/lib/firestore.ts:26-29 | inserting at the computed position keeps the collection newest first |
| Firestore.InsertKeepsIdsDistinct | src/lib/firestore.ts:26-30 | inserting a document with a fresh id keeps the ids distinct |
| Firestore.FindPositionIs | src/lib/firestore.ts:110-113 | the first position that holds the id is the one found |
| Firestore.CreateThenGet | src/lib/firestore.ts:24-30 | looking up a created listing returns the supplied fields, the new id and the creation time |
| Firestore.UpdateListing | src/lib/firestore.ts:165-173 | fails exactly for a missing id; otherwise keeps every id, owner and creation time, and changes no other document |
| Firestore.UpdateKeepsWellFormed | src/lib/firestore.ts:165-168 | an update keeps the collection newest first with distinct ids |
| Firestore.UpdateThenGet | src/lib/firestore.ts:165-168 | states `Merge`: after an update the record reads back with the supplied fields replaced and the rest unchanged |
| Firestore.UpdateWithSameFieldsChangesNothing | src/lib/firestore.ts:165-168 | an update that restates the stored fields leaves the collection as it was |
| Firestore.WriteBackChangesNothing | src/lib/firestore.ts:165-168 | writing back a record's own title, description and price changes nothing |
| Firestore.DeleteListing | src/lib/firestore.ts:176-184 | a delete never adds documents |
| Firestore.DeleteRemovesOnlyThatId | src/lib/firestore.ts:176-184 | after a delete no document has the id, every other document remains, nothing is added, and deleting a missing id changes nothing |
| Firestore.KeepsAll | src/lib/firestore.ts:143-155 | a read whose condition every document satisfies keeps the collection unchanged |
| Firestore.DeleteKeepsWellFormed | src/lib/firestore.ts:176-184 | a delete keeps the collection newest first with distinct ids |
| JsString.TrimStart | src/components/listings/CreateListingForm.tsx:27 | the leading trim keeps a suffix that does not start with white space |
| JsString.TrimStartDropsWhite | src/components/listings/CreateListingForm.tsx:27 | states `IsWhite`: everything the leading trim drops is white space |
| JsString.TrimEnd | src/components/listings/CreateListingForm.tsx:27 | the trailing trim keeps a prefix that does not end with white space |
| JsString.TrimEndDropsWhite | src/components/listings/CreateListingForm.tsx:27 | everything the trailing trim drops is white space |
| JsString.Trim | src/components/listings/CreateListingForm.tsx:42-43 | states `Contains` through `OccursAt`: `trim()` returns a piece of the input that neither starts nor ends with white space |
| JsString.TrimDropsOnlyEnds | src/components/listings/CreateListingForm.tsx:42-43 | `trim()` keeps the piece of the input between a prefix and a suffix made only of white space, so it removes nothing from the middle |
| JsString.TrimIsSlice | src/components/listings/CreateListingForm.tsx:42-43 | the piece the two trims keep starts where the leading white space ends and ends where the trailing white space starts |
| JsString.WhiteHeadAndTail | src/components/listings/CreateListingForm.tsx:42-43 | the prefix and the suffix the two trims drop are blank |
| JsString.BlankIffTrimEmpty | src/components/listings/CreateListingForm.tsx:27 | states `IsBlank`: `!s.trim()` holds exactly when every character is white space |
| JsString.BlankTrimsAway | src/components/listings/EditListingForm.tsx:82 | a string of white space trims to nothing |
| JsString.NonWhiteSurvivesTrim | src/components/listings/EditListingForm.tsx:87 | a string with a character that is not white space does not trim to nothing |
| JsString.TrimIdempotent | src/components/listings/EditListingForm.tsx:103-104 | trimming a trimmed string changes nothing |
| JsString.LowerChar | src/lib/firestore.ts:199-201 | an upper-case ASCII letter becomes the lower-case letter 32 code points above it; every other character stays |
| JsString.Lower | src/lib/firestore.ts:199-201 | `toLowerCase()` keeps the length and folds each character on its own |
| ListingsListComponent.InsertByPricePermutes | src/components/listings/ListingsList.tsx:45 | states `InsertByPrice`: inserting into the sorted copy adds exactly that record |
| ListingsListComponent.InsertByPriceOrdered | src/components/listings/ListingsList.tsx:45-51 | states `InsertByPrice`: inserting into a price-ordered list keeps it ordered |
| ListingsListComponent.OrderedTail | src/components/listings/ListingsList.tsx:45-51 | what follows the head of a price-ordered list is ordered |
| ListingsListComponent.ConsOrdered | src/components/listings/ListingsList.tsx:45-51 | putting a record that nothing sorts before in front of an ordered list keeps it ordered |
| ListingsListComponent.NothingPassesHead | src/components/listings/ListingsList.tsx:45-51 | when the new record goes after the head, nothing after the head sorts before it |
| ListingsListComponent.SortByPriceOrdered | src/components/listings/ListingsList.tsx:45-51 | states `SortByPrice`, `Ordered` and `Before`: the sorted copy is a permutation of the listings, ordered by the comparator |
| ListingsListComponent.PriceViewSorted | src/components/listings/ListingsList.tsx:41-54 | states `PriceView`: the view is the listings themselves for "none", and otherwise a permutation ordered high-to-low or low-to-high |
| ListingsListComponent.InsertByPriceStable | src/components/listings/ListingsList.tsx:45-51 | states `InsertByPrice`: insertion keeps the relative order of records of equal price |
| ListingsListComponent.PriceViewStable | src/components/listings/ListingsList.tsx:45-51 | states `PriceView` and `WithPrice`: the view keeps the relative order of records of equal price, as the stable `Array.prototype.sort` does |
| ListingsListComponent.LoadStep | src/components/listings/ListingsList.tsx:56-88 | states `LoadCursor`: as written: both loading flags end down; a reset load is on page 1 outside search mode. A successful reset shows the collection's first page, and an append adds the page after the cursor. The cursor moves to that page's last record, and `hasMore` is true exactly when the page was full, so a short page means the collection has run out. A failed load keeps the records and sets the message; a failed reset also keeps its cleared cursor and raised `hasMore` |
| ListingsListComponent.LoadStepFixed | src/components/listings/ListingsList.tsx:56-88 | the corrected load: a success is the written load, and a failure changes only the message and the loading flags |
| ListingsListComponent.LoadStepDiffersOnlyOnFailedReset | src/components/listings/ListingsList.tsx:58-63 | the corrected and the written load differ exactly on a failed reset from a state whose paging was not already reset |
| ListingsListComponent.LoadMoreStep | src/components/listings/ListingsList.tsx:123-128 | nothing changes in search mode, after the last page or while a load is in flight; otherwise the page number goes up by one and the next page is appended, or on failure the records stay and the message is set |
| ListingsListComponent.SearchStep | src/components/listings/ListingsList.tsx:90-111 | a blank term is the written reset load; any other term enters search mode on page 1 with no cursor, and shows exactly the matching records, or on failure keeps the records and sets the message |
| ListingsListComponent.SearchResultsAreNotPaged | src/components/listings/ListingsList.tsx:96-101 | a search sets `hasMore`, yet "Load More" leaves the state after a non-blank search unchanged |
| ListingsListComponent.ClearSearchStep | src/components/listings/ListingsList.tsx:118-121 | clearing empties the term and leaves search mode on page 1 whatever the load does; a successful load shows the first page, and a failed one keeps the records on screen with the cursor cleared and `hasMore` set |
| ListingsListComponent.InitialPaged | src/components/listings/ListingsList.tsx:15-26 | states `Paged` and `CursorAfter`: the initial state satisfies the paging invariant |
| ListingsListComponent.ResetLoadPaged | src/components/listings/ListingsList.tsx:73-80 | a successful reset load establishes the paging invariant |
| ListingsListComponent.AppendLoadPaged | src/components/listings/ListingsList.tsx:68-80 | an append load that "Load More" lets through extends the loaded prefix by the next page and keeps the invariant |
| ListingsListComponent.StepKeepsPaged | src/components/listings/ListingsList.tsx:56-128 | states `Step`, `StoreAfter` and `ReloadFails`: as written, every event except a failed reset load keeps the paging invariant, for the collection as it stands after the event |
| ListingsListComponent.RunKeepsPaged | src/components/listings/ListingsList.tsx:56-128 | states `Run` and `ResetsSucceed`: as written, every sequence of events whose reset loads succeed keeps the paging invariant, through the page's own deletes |
| ListingsListComponent.StepFixedKeepsPaged | src/components/listings/ListingsList.tsx:56-128 | states `StepFixed`: with the corrected load every event keeps the invariant, failed reloads included, unless the reload after a delete fails |
| ListingsListComponent.RunFixedKeepsPaged | src/components/listings/ListingsList.tsx:56-128 | states `RunFixed` and `DeleteReloadsSucceed`: with the corrected load every sequence of events whose reloads after a delete succeed keeps the invariant |
| ListingsListComponent.FinalStoreWellFormed | src/components/listings/ListingsList.tsx:113-116 | states `StoreAfter` and `FinalStore`: the deletes a sequence of events makes keep the collection newest first with distinct ids |
| ListingsListComponent.PagedListIsDuplicateFreePrefix | src/components/listings/ListingsList.tsx:70-76 | under the invariant the loaded list is newest first with no repeated record, and once paging ends it is the whole collection |
| ListingsListComponent.EveryRunShowsPrefix | src/components/listings/ListingsList.tsx:36-38 | as written, from the first render on and as long as every reset load succeeds, outside search mode the page shows a duplicate-free prefix of the collection as it stands |
| ListingsListComponent.EveryFixedRunShowsPrefix | src/components/listings/ListingsList.tsx:36-38 | with the corrected load the same holds whenever the reloads after a delete succeed |
| ListingsListComponent.LoadMoreReachesEnd | src/components/listings/ListingsList.tsx:80 | states `MoreClicks`: enough successful "Load More" clicks load every record and end paging |
| ListingsListComponent.FailedReloadDuplicates | src/components/listings/ListingsList.tsx:58-63 | as written, a failed reload breaks the invariant where the corrected load keeps it, and the next "Load More" shows the first page twice |
| ListingsListComponent.FailedClearAppendsFirstPage | src/components/listings/ListingsList.tsx:118-121 | as written, a failed "Clear" leaves search mode with the old records on screen and paging open, so the next "Load More" appends the first page after them |
| ListingsListComponent.ListingsList.constructor | src/components/listings/ListingsList.tsx:15-32 | states `Initial`: the state hooks start at their initial values and the price view is up to date |
| ListingsListComponent.ListingsList.ApplyPriceFilter | src/components/listings/ListingsList.tsx:41-54 | the effect makes the price view the listings or their sorted copy |
| ListingsListComponent.ListingsList.Dispatch | src/components/listings/ListingsList.tsx:36-128 | each event moves the state as `Step` says, a delete callback reloading the collection without that listing, and leaves the price view up to date |
| ListingsListComponent.ListingsList.LoadListings | src/components/listings/ListingsList.tsx:56-88 | the handler moves the state as the written load `LoadStep` says |
| ListingsListComponent.ListingsList.StartLoad | src/components/listings/ListingsList.tsx:58-66 | states `LoadStarted`: before the await, a reset load resets the page number, cursor, `hasMore` and search mode, and an append load raises `loadingMore` |
| ListingsListComponent.ListingsList.SettleLoad | src/components/listings/ListingsList.tsx:68-87 | states `LoadSettled`: from the await on, the page is shown or appended with its cursor and `hasMore`, or the message is set, and both loading flags are lowered |
| ListingsListComponent.ListingsList.HandleSearch | src/components/listings/ListingsList.tsx:90-111 | the handler moves the state as `SearchStep` says |
| ListingsListComponent.ListingsList.StartSearch | src/components/listings/ListingsList.tsx:97-101 | states `SearchStarted`: before the await, the search enters search mode on page 1 with paging reset |
| ListingsListComponent.ListingsList.SettleSearch | src/components/listings/ListingsList.tsx:103-109 | states `SearchSettled`: from the await on, the matching records are shown or the message is set, and `searching` is lowered |
| ListingsListComponent.ListingsList.HandleDelete | src/components/listings/ListingsList.tsx:113-116 | a card's delete callback is the written reset load of the collection without the deleted listing |
| ListingsListComponent.ListingsList.HandleClearSearch | src/components/listings/ListingsList.tsx:118-121 | the handler moves the state as `ClearSearchStep` says |
| ListingsListComponent.ListingsList.LoadMore | src/components/listings/ListingsList.tsx:123-128 | the handler moves the state as `LoadMoreStep` says |
| ListingsListComponent.ListingsList.SetSearchTerm | src/components/listings/ListingsList.tsx:161 | typing changes only the term |
| ListingsListComponent.ListingsList.SetPriceFilter | src/components/listings/ListingsList.tsx:203-216 | choosing a sort changes only the filter |
| CreateListingFormComponent.ShownMessage | src/components/listings/CreateListingForm.tsx:61 | a thrown value that is not an `Error` shows the generic failure message (an `Error`'s own message is stated by `SubmitOutcome`) |
| CreateListingFormComponent.RejectionMessage | src/components/listings/CreateListingForm.tsx:27-38 | every rejection shows one of the three check messages; which one for which input is stated by `SubmitOutcome` |
| CreateListingFormComponent.ChecksRunInOrder | src/components/listings/CreateListingForm.tsx:27-46 | states `ValidateCreate`: the form is accepted exactly when all checks pass; blank fields are reported first, then the price, then the missing user; the payload is the trimmed text, the parsed price and the user's uid |
| CreateListingFormComponent.ValidatedPayloadIsClean | src/components/listings/CreateListingForm.tsx:41-46 | a payload is trimmed, its text is not blank and its price is positive |
| CreateListingFormComponent.SubmitStep | src/components/listings/CreateListingForm.tsx:62-64 | `loading` is false after every submit |
| CreateListingFormComponent.SubmitOutcome | src/components/listings/CreateListingForm.tsx:19-65 | states `Settle` and `SubmitStep`: the fields are cleared and the success message shown exactly when the checks pass and the store call succeeds; otherwise the fields stay and `error` is "All fields are required" for a blank field, else "Price must be a positive number" for a price that is not positive, else the login message without a user, else the thrown `Error`'s own message, or "Failed to create listing" for any other thrown value |
| CreateListingFormComponent.CreateListingForm.constructor | src/components/listings/CreateListingForm.tsx:9-14 | states `InitialCreate`: the state hooks start empty and not loading |
| CreateListingFormComponent.CreateListingForm.SetTitle | src/components/listings/CreateListingForm.tsx:9 | typing a title changes only the title |
| CreateListingFormComponent.CreateListingForm.SetDescription | src/components/listings/CreateListingForm.tsx:10 | typing a description changes only the description |
| CreateListingFormComponent.CreateListingForm.SetPrice | src/components/listings/CreateListingForm.tsx:11 | typing a price changes only the price |
| CreateListingFormComponent.CreateListingForm.HandleSubmit | src/components/listings/CreateListingForm.tsx:19-65 | the store receives the validated payload, or nothing when a check fails, and the state moves as `SubmitStep` says |
| EditListingFormComponent.WithField | src/components/listings/EditListingForm.tsx:65-71 | states `Field`: the named input takes the new text and the others keep theirs |
| EditListingFormComponent.LoadStep | src/components/listings/EditListingForm.tsx:60-62 | without a user or an id the load does not run and nothing changes |
| EditListingFormComponent.LoadShowsOnlyOwnListing | src/components/listings/EditListingForm.tsx:30-57 | states `Fetched`: the inputs change only to the fields of a stored record with that id owned by the user; a missing record, another owner's record or a failed read sets its message and leaves the inputs alone; `loading` ends false |
| EditListingFormComponent.LoadOwnListing | src/components/listings/EditListingForm.tsx:47-51 | loading the user's own listing fills the inputs with its title, description and price text and sets no message |
| EditListingFormComponent.RejectionMessage | src/components/listings/EditListingForm.tsx:76-96 | every rejection shows one of the four check messages; which one for which input is stated by `SubmitOutcome` |
| EditListingFormComponent.EditChecksRunInOrder | src/components/listings/EditListingForm.tsx:76-106 | states `ValidateEdit`: the checks run in the order user, title, description, price; the first failure decides the message; an accepted form sends only the trimmed title, the trimmed description and the parsed price |
| EditListingFormComponent.Updated | src/components/listings/EditListingForm.tsx:102-106 | the update goes through exactly when its await succeeds and a record with that id exists, since `updateDoc` rejects a missing document |
| EditListingFormComponent.SubmitStep | src/components/listings/EditListingForm.tsx:73-118 | a submit never changes the inputs or `loading` |
| EditListingFormComponent.SubmitOutcome | src/components/listings/EditListingForm.tsx:73-118 | states `SubmitStep`, `Written` and `SubmitStore`: a rejected submit only sets its message and leaves the collection alone; an accepted one ends with `saving` false and clears the message exactly when the await succeeds and the listing still exists, the collection then being its update by the validated fields; `success` is raised only by an update that went through; the message is the login one without a user, else "Title is required", else "Description is required", else "Please enter a valid price", and "Failed to update listing. Please try again." when an accepted update fails |
| EditListingFormComponent.UnchangedEditKeepsStore | src/components/listings/EditListingForm.tsx:47-51 | loading an owned, clean listing and saving it untouched succeeds and leaves the collection as it was |
| EditListingFormComponent.View | src/components/listings/EditListingForm.tsx:120-185 | the form, when shown, shows the inputs and the success banner as the state holds them |
| EditListingFormComponent.SubmitErrorReplacesForm | src/components/listings/EditListingForm.tsx:131-151 | once loaded, any error message replaces the form by the error page, so the form's error banner never shows |
| EditListingFormComponent.FormOnlyForOwner | src/components/listings/EditListingForm.tsx:36-45 | after a load the form shows exactly when the read succeeded and found the user's own record; another owner's record shows the error page, so the form's submit, which checks no ownership, is never offered to them |
| EditListingFormComponent.NoUserSpinsForever | src/components/listings/EditListingForm.tsx:60-62 | without a user or an id the spinner is shown for good |
| EditListingFormComponent.EditListingForm.constructor | src/components/listings/EditListingForm.tsx:18-27 | states `InitialEdit`: the form starts loading, with empty inputs and no message |
| EditListingFormComponent.EditListingForm.LoadListing | src/components/listings/EditListingForm.tsx:30-63 | the effect moves the state as `LoadStep` says |
| EditListingFormComponent.EditListingForm.HandleInputChange | src/components/listings/EditListingForm.tsx:65-71 | an input change updates only the named field |
| EditListingFormComponent.EditListingForm.HandleSubmit | src/components/listings/EditListingForm.tsx:73-118 | the store receives the validated update, or nothing when a check fails; the collection after it and the state are as `SubmitStore` and `SubmitStep` say |
| ListingCardComponent.EditLinkIffEditable | src/components/listings/ListingCard.tsx:19 | states `IsOwner`: the card shows the edit link exactly to the users whose edit page shows the form for that listing |
| ListingCardComponent.OwnerControls | src/components/listings/ListingCard.tsx:97-210 | states `Controls`: only the owner sees controls, always the edit link; "Delete" shows exactly when the confirm step is closed, and "Confirm" with "Cancel" exactly when it is open |
| ListingCardComponent.DeleteFlags | src/components/listings/ListingCard.tsx:39-42 | the owner's delete ends with both flags down; a non-owner's changes nothing |
| ListingCardComponent.DeleteOutcomeCases | src/components/listings/ListingCard.tsx:29-43 | states `DeleteEffect`: `deleteListing` is called exactly for the owner; `onDelete` runs exactly when it succeeds, and the listing is then gone while the others remain; the alert shows exactly when it fails |
| ListingCardComponent.RunNeverDeleting | src/components/listings/ListingCard.tsx:32-41 | states `Step` and `Run`: between clicks the card is never deleting, so "Confirm" is never left disabled, and a non-owner's card never changes; with atomic awaits this holds by construction |
| ListingCardComponent.NonOwnerNeverDeletes | src/components/listings/ListingCard.tsx:30 | states `CallsDelete` and `DeleteCalls`: a non-owner's card never calls `deleteListing`, whatever is clicked |
| ListingCardComponent.ConfirmNeedsDeleteClick | src/components/listings/ListingCard.tsx:121-145 | states `Run` and `DeleteCalls`: without a "Delete" click, no click sequence calls `deleteListing` |
| ListingCardComponent.CancelThenConfirmCallsNothing | src/components/listings/ListingCard.tsx:191 | states `Step`: "Cancel" closes the owner's confirm step, so a "Confirm" right after it calls nothing |
| ListingCardComponent.ListingCard.constructor | src/components/listings/ListingCard.tsx:16-17 | states `InitialCard`: both flags start down |
| ListingCardComponent.ListingCard.HandleDelete | src/components/listings/ListingCard.tsx:29-43 | the collection, the calls and the alert are as `DeleteEffect` says, and the flags as `DeleteFlags` says |
| ListingCardComponent.ListingCard.ClickDelete | src/components/listings/ListingCard.tsx:123 | "Delete" opens the confirm step |
| ListingCardComponent.ListingCard.CancelDelete | src/components/listings/ListingCard.tsx:191 | "Cancel" closes the confirm step |

## Left out

- The Firebase SDK, the `db` handle and all network I/O (`src/lib/firestore.ts:1-17`). The collection is a sequence parameter, and each await only succeeds or fails.
- The SDK's rethrow of errors (`src/lib/firestore.ts:31-34` and the other `catch` blocks) is modelled only as the failing `ok` of the component that awaits.
- Concurrency of async handlers. Interleaved or stale responses are not modelled, and each await is one atomic step.
- The in-flight flags raised before an await (`loading` and `loadingMore` in `loadListings`, `searching`, the edit form's `saving`, the card's `isDeleting`). With atomic awaits only their final, lowered values are seen. The edit form's `setSaving(true)`/`setError("")` before the update is therefore observable only as the end state.
- Floating point. Prices are reals. `parseFloat` and `toString` are function parameters, the price comparator's subtraction is a comparison of reals, and `toFixed(2)` is not modelled.
- Dates. `Timestamp.now()` is a `now` parameter, `toDate()` is the identity on timestamps, and `toLocaleDateString` is not modelled.
- Ordering between equal timestamps. A new listing is placed before every older record; its position among records with the same `createdAt` is the model's choice.
- Unicode case folding. `toLowerCase` folds ASCII letters only.
- The 100- and 500-character limits. They exist only as HTML `maxLength` attributes.
- JSX rendering beyond what decides behaviour, styling, `router.push`, the `setTimeout` redirects, `console.error` and `window.alert`. The alert is returned as a value.
- `handleInputChange` with a `name` other than the three inputs. Only the three inputs the form renders are modelled.
- The price selector is hidden in search mode and while `listings` is empty (`src/components/listings/ListingsList.tsx:193`). The model lets the filter change in any state, which only widens the states the invariants cover.
- The "Clear" button shows only while the search term is not empty (`src/components/listings/ListingsList.tsx:181`), and "Load More" only while the price view is not empty (`src/components/listings/ListingsList.tsx:267`). The model's events are not gated by these conditions, which only widens the runs the invariant lemmas cover.
- The create form's `!user` page (`CreateListingForm.tsx:67`), which hides the form from signed-out visitors. The login check is modelled as written.
- Writes by anyone but the page itself. The page's cursor is a position in the collection, which matches Firestore's `startAfter` only while the collection does not change under it. The runs therefore change the collection only by the page's own deletes, each followed by a reset load.
- The mount effect runs once (`src/components/listings/ListingsList.tsx:36-38`), but the model's `Mounted` event may recur. This only widens the runs the invariant lemmas cover.
- `src/components/layout/Navbar.tsx` and `src/app/page.tsx` are not part of this model.

## Findings

| source | as written | input that shows it | evidently intended | confidence | as-written member | corrected member |
|---|---|---|---|---|---|---|
| src/components/listings/ListingsList.tsx:58-63 | a reset load resets the page number, the cursor, `hasMore` and search mode before its fetch, and keeps those resets when the fetch fails, while `listings` keeps the old records | a collection of nine or more records: the first page loads, a search with the empty term reloads and fails, then "Load More" succeeds; the list now holds the first page twice (a failed reload after a delete does the same) | a failed load leaves the paging state alone, so the shown records and the cursor stay consistent | not executed | ListingsListComponent.FailedReloadDuplicates | ListingsListComponent.StepFixedKeepsPaged |
| src/components/listings/ListingsList.tsx:118-121 | "Clear" after a search runs the same reset load, so a failed one leaves search mode with the search results on screen and paging open from the start | a search that finds at least one listing, then a failed "Clear", then "Load More" (its button shows because the results keep the view non-empty): the collection's first page is appended after the search results | a failed clear leaves the page as it was | not executed | ListingsListComponent.FailedClearAppendsFirstPage | ListingsListComponent.EveryFixedRunShowsPrefix |
