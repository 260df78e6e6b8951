/**
 * The data-access layer over the `listings` collection (src/lib/firestore.ts).
 *
 * The collection is an ordered sequence of documents in the order every query of the
 * file asks for: `createdAt` descending. A query's snapshot is that sequence (or the
 * slice of it that `limit` and `startAfter` select); each read then walks the snapshot
 * and pushes one mapped `Listing` per kept document. Network I/O and the SDK are not
 * modelled: the caller of each read passes the collection as it stands when the await
 * runs, and the callers model whether the await fails.
 */
module Firestore {
  import opened Wrappers
  import opened Types
  import opened JsString

  /** The fields a stored listing document holds. */
  datatype DocData = DocData(
    title: string,
    description: string,
    price: real,
    ownerId: string,
    createdAt: Timestamp)

  /** A document of the collection: its store-assigned id and its fields. */
  datatype DocSnapshot = DocSnapshot(id: string, data: DocData)

  /** What a client supplies to `createListing`: a listing without `id` and `createdAt`. */
  datatype NewListing = NewListing(title: string, description: string, price: real, ownerId: string)

  /**
   * What `updateListing` accepts: any of title, description and price. The type has no
   * place for `id`, `ownerId` or `createdAt`, so no update can carry them.
   */
  datatype ListingUpdate = ListingUpdate(title: Option<string>, description: Option<string>, price: Option<real>)

  /** A page cursor: the position, in the collection's order, of the last record of a page. */
  datatype Cursor = Cursor(pos: nat)

  /** Which documents a read keeps; `IdOtherThan` is what a delete keeps. */
  datatype Criterion =
    | Everything
    | TextMatch(term: string)
    | OwnedBy(ownerId: string)
    | IdOtherThan(id: string)

  function Min(a: int, b: int): int {
    if a <= b then a else b
  }

  /** The row mapping every read applies: the snapshot's id and its fields, copied unchanged. */
  function ToListing(d: DocSnapshot): Listing {
    Listing(d.id, d.data.title, d.data.description, d.data.price, d.data.ownerId, d.data.createdAt)
  }

  /** The mapped records of a snapshot, in its order. */
  function Rows(docs: seq<DocSnapshot>): (r: seq<Listing>)
    ensures |r| == |docs|
    ensures forall k :: 0 <= k < |docs| ==> r[k] == ToListing(docs[k])
  {
    seq(|docs|, k requires 0 <= k < |docs| => ToListing(docs[k]))
  }

  lemma RowsConcat(a: seq<DocSnapshot>, b: seq<DocSnapshot>)
    ensures Rows(a + b) == Rows(a) + Rows(b)
  {
    assert forall k :: 0 <= k < |a + b| ==> Rows(a + b)[k] == (Rows(a) + Rows(b))[k] by {
      forall k | 0 <= k < |a + b| ensures Rows(a + b)[k] == (Rows(a) + Rows(b))[k] {
        if k < |a| { assert (a + b)[k] == a[k]; } else { assert (a + b)[k] == b[k - |a|]; }
      }
    }
  }

  /** Listings ordered by `createdAt`, newest first. */
  ghost predicate NewestFirst(ls: seq<Listing>) {
    forall i, j :: 0 <= i < j < |ls| ==> ls[i].createdAt >= ls[j].createdAt
  }

  /** No two listings share an id. */
  ghost predicate UniqueIds(ls: seq<Listing>) {
    forall i, j :: 0 <= i < j < |ls| ==> ls[i].id != ls[j].id
  }

  /** A collection in query order whose document ids are distinct. */
  ghost predicate WellFormed(docs: seq<DocSnapshot>) {
    NewestFirst(Rows(docs)) && UniqueIds(Rows(docs))
  }

  /** Whether a read keeps a document. Text matching folds case on both sides. */
  predicate Selects(c: Criterion, d: DocSnapshot) {
    match c
    case Everything => true
    case TextMatch(term) =>
      Contains(Lower(d.data.title), Lower(term)) || Contains(Lower(d.data.description), Lower(term))
    case OwnedBy(ownerId) => d.data.ownerId == ownerId
    case IdOtherThan(id) => d.id != id
  }

  /** The documents a read keeps, in the collection's order. */
  function Filter(docs: seq<DocSnapshot>, c: Criterion): (r: seq<DocSnapshot>)
    ensures |r| <= |docs|
  {
    if docs == [] then []
    else
      var last := docs[|docs| - 1];
      Filter(docs[..|docs| - 1], c) + (if Selects(c, last) then [last] else [])
  }

  /**
   * Where each kept document sits in the collection. The positions strictly increase
   * (`KeptPositionsIncrease`), each holds a selected document (`FilterSelects`), and
   * every selected position is among them (`SelectedPositionsKept`). So a filter keeps
   * exactly the selected documents and keeps their relative order.
   */
  function KeptPositions(docs: seq<DocSnapshot>, c: Criterion): (idx: seq<nat>)
    ensures |idx| == |Filter(docs, c)|
  {
    if docs == [] then []
    else
      var n := |docs| - 1;
      KeptPositions(docs[..n], c) + (if Selects(c, docs[n]) then [n] else [])
  }

  /** The `k`th kept document sits at the `k`th kept position. */
  lemma {:induction false} KeptPositionsHold(docs: seq<DocSnapshot>, c: Criterion)
    ensures forall k :: 0 <= k < |KeptPositions(docs, c)| ==>
      KeptPositions(docs, c)[k] < |docs| && Filter(docs, c)[k] == docs[KeptPositions(docs, c)[k]]
  {
    if docs != [] {
      var n := |docs| - 1;
      var rest, kept := KeptPositions(docs[..n], c), Filter(docs[..n], c);
      var idx, r := KeptPositions(docs, c), Filter(docs, c);
      KeptPositionsHold(docs[..n], c);
      assert idx == rest + (if Selects(c, docs[n]) then [n] else []);
      assert r == kept + (if Selects(c, docs[n]) then [docs[n]] else []);
      forall k | 0 <= k < |idx| ensures idx[k] < |docs| && r[k] == docs[idx[k]] {
        if k < |rest| {
          assert idx[k] == rest[k] && r[k] == kept[k];
          assert docs[..n][rest[k]] == docs[rest[k]];
        } else {
          assert idx[k] == n && r[k] == docs[n];
        }
      }
    }
  }

  /** The kept positions strictly increase. */
  lemma {:induction false} KeptPositionsIncrease(docs: seq<DocSnapshot>, c: Criterion)
    ensures forall k, m :: 0 <= k < m < |KeptPositions(docs, c)| ==> KeptPositions(docs, c)[k] < KeptPositions(docs, c)[m]
  {
    if docs != [] {
      var n := |docs| - 1;
      var rest := KeptPositions(docs[..n], c);
      var idx := KeptPositions(docs, c);
      KeptPositionsIncrease(docs[..n], c);
      KeptPositionsHold(docs[..n], c);
      assert idx == rest + (if Selects(c, docs[n]) then [n] else []);
      forall k, m | 0 <= k < m < |idx| ensures idx[k] < idx[m] {
        assert idx[k] == rest[k];
        if m < |rest| {
          assert idx[m] == rest[m];
        }
      }
    }
  }

  /** Every document a filter keeps is selected. */
  lemma {:induction false} FilterSelects(docs: seq<DocSnapshot>, c: Criterion)
    ensures forall k :: 0 <= k < |Filter(docs, c)| ==> Selects(c, Filter(docs, c)[k])
  {
    if docs != [] {
      var n := |docs| - 1;
      var rest := Filter(docs[..n], c);
      var r := Filter(docs, c);
      FilterSelects(docs[..n], c);
      assert r == rest + (if Selects(c, docs[n]) then [docs[n]] else []);
      forall k | 0 <= k < |r| ensures Selects(c, r[k]) {
        if k < |rest| {
          assert r[k] == rest[k];
        }
      }
    }
  }

  /** Every selected position is among the kept positions. */
  lemma {:induction false} SelectedPositionsKept(docs: seq<DocSnapshot>, c: Criterion)
    ensures forall j :: 0 <= j < |docs| && Selects(c, docs[j]) ==> j in KeptPositions(docs, c)
  {
    if docs != [] {
      var n := |docs| - 1;
      var rest := KeptPositions(docs[..n], c);
      var idx := KeptPositions(docs, c);
      SelectedPositionsKept(docs[..n], c);
      assert idx == rest + (if Selects(c, docs[n]) then [n] else []);
      forall j | 0 <= j < |docs| && Selects(c, docs[j]) ensures j in idx {
        if j < n {
          assert docs[..n][j] == docs[j];
          var i :| 0 <= i < |rest| && rest[i] == j;
          assert idx[i] == j;
        } else {
          assert idx[|rest|] == n;
        }
      }
    }
  }

  /** A filter keeps the collection's order and the uniqueness of its ids. */
  lemma FilterWellFormed(docs: seq<DocSnapshot>, c: Criterion)
    requires WellFormed(docs)
    ensures WellFormed(Filter(docs, c))
  {
    var r, idx := Filter(docs, c), KeptPositions(docs, c);
    KeptPositionsHold(docs, c);
    KeptPositionsIncrease(docs, c);
    forall k | 0 <= k < |r| ensures Rows(r)[k] == Rows(docs)[idx[k]] {
    }
  }

  /** The records a read returns: the mapped kept documents. */
  function Keep(docs: seq<DocSnapshot>, c: Criterion): seq<Listing> {
    Rows(Filter(docs, c))
  }

  /** A record is returned exactly when it is the mapping of a selected document. */
  lemma KeepExactly(docs: seq<DocSnapshot>, c: Criterion, l: Listing)
    ensures l in Keep(docs, c) <==> exists j :: 0 <= j < |docs| && Selects(c, docs[j]) && l == ToListing(docs[j])
  {
    if l in Keep(docs, c) {
      KeptIsSelected(docs, c, l);
    }
    if exists j :: 0 <= j < |docs| && Selects(c, docs[j]) && l == ToListing(docs[j]) {
      var j :| 0 <= j < |docs| && Selects(c, docs[j]) && l == ToListing(docs[j]);
      SelectedIsKept(docs, c, j);
    }
  }

  lemma KeptIsSelected(docs: seq<DocSnapshot>, c: Criterion, l: Listing)
    requires l in Keep(docs, c)
    ensures exists j :: 0 <= j < |docs| && Selects(c, docs[j]) && l == ToListing(docs[j])
  {
    var r, idx := Filter(docs, c), KeptPositions(docs, c);
    KeptPositionsHold(docs, c);
    FilterSelects(docs, c);
    var k :| 0 <= k < |r| && Rows(r)[k] == l;
    assert Selects(c, docs[idx[k]]) && l == ToListing(docs[idx[k]]);
  }

  lemma SelectedIsKept(docs: seq<DocSnapshot>, c: Criterion, j: nat)
    requires j < |docs| && Selects(c, docs[j])
    ensures ToListing(docs[j]) in Keep(docs, c)
  {
    var r, idx := Filter(docs, c), KeptPositions(docs, c);
    KeptPositionsHold(docs, c);
    SelectedPositionsKept(docs, c);
    assert j in idx;
    var k :| 0 <= k < |idx| && idx[k] == j;
    assert Rows(r)[k] == ToListing(docs[j]);
  }

  /** Keeping everything returns every record of the collection, in order. */
  lemma {:induction false} KeepEverything(docs: seq<DocSnapshot>)
    ensures Keep(docs, Everything) == Rows(docs)
  {
    if docs != [] {
      var n := |docs| - 1;
      KeepEverything(docs[..n]);
      RowsConcat(Filter(docs[..n], Everything), [docs[n]]);
      RowsConcat(docs[..n], [docs[n]]);
      assert docs[..n] + [docs[n]] == docs;
    }
  }

  /** Search results depend on the term only through its lower-cased form. */
  lemma {:induction false} SearchIgnoresCase(docs: seq<DocSnapshot>, term1: string, term2: string)
    requires Lower(term1) == Lower(term2)
    ensures Keep(docs, TextMatch(term1)) == Keep(docs, TextMatch(term2))
  {
    if docs != [] {
      SearchIgnoresCase(docs[..|docs| - 1], term1, term2);
    }
  }

  /**
   * `forEach` over a snapshot, pushing the mapped record of every kept document onto a
   * local array; the loop of each read in the file.
   */
  method Collect(snapshot: seq<DocSnapshot>, c: Criterion) returns (listings: seq<Listing>)
    ensures listings == Keep(snapshot, c)
  {
    listings := [];
    var i := 0;
    while i < |snapshot|
      invariant 0 <= i <= |snapshot|
      invariant listings == Keep(snapshot[..i], c)
    {
      var d := snapshot[i];
      assert snapshot[..i + 1][..i] == snapshot[..i];
      RowsConcat(Filter(snapshot[..i], c), if Selects(c, d) then [d] else []);
      if Selects(c, d) {
        listings := listings + [ToListing(d)];
      }
      i := i + 1;
    }
    assert snapshot[..i] == snapshot;
  }

  /** `getAllListings`: every record, newest first. */
  method GetAllListings(docs: seq<DocSnapshot>) returns (listings: seq<Listing>)
    ensures listings == Rows(docs)
    ensures WellFormed(docs) ==> NewestFirst(listings) && UniqueIds(listings)
  {
    listings := Collect(docs, Everything);
    KeepEverything(docs);
  }

  /** Where a page begins: at the newest record, or just after the cursor's record. */
  function PageStart(docs: seq<DocSnapshot>, cursor: Option<Cursor>): (i: nat)
    ensures i <= |docs|
    ensures cursor.None? ==> i == 0
    ensures cursor.Some? && cursor.value.pos < |docs| ==> i == cursor.value.pos + 1
  {
    match cursor
    case None => 0
    case Some(c) => Min(c.pos + 1, |docs|)
  }

  /** The snapshot of `limit(pageSize)` with an optional `startAfter(cursor)`. */
  function PageOf(docs: seq<DocSnapshot>, pageSize: nat, cursor: Option<Cursor>): (page: seq<DocSnapshot>)
    ensures |page| <= pageSize
    ensures |page| == Min(pageSize, |docs| - PageStart(docs, cursor))
  {
    var i := PageStart(docs, cursor);
    docs[i..Min(i + pageSize, |docs|)]
  }

  /** The cursor a page hands back: its last record's position, or none for an empty page. */
  function NextCursor(docs: seq<DocSnapshot>, pageSize: nat, cursor: Option<Cursor>): (next: Option<Cursor>)
    ensures next.None? <==> PageOf(docs, pageSize, cursor) == []
  {
    var page := PageOf(docs, pageSize, cursor);
    if page == [] then None else Some(Cursor(PageStart(docs, cursor) + |page| - 1))
  }

  /** A page is the run of records that starts right after the cursor. */
  lemma PageIsSlice(docs: seq<DocSnapshot>, pageSize: nat, cursor: Option<Cursor>)
    ensures var i := PageStart(docs, cursor);
      PageOf(docs, pageSize, cursor) == docs[i..i + |PageOf(docs, pageSize, cursor)|]
  {
  }

  /** The cursor handed back marks the page's last record, so the next page starts after it. */
  lemma NextCursorMarksLastRecord(docs: seq<DocSnapshot>, pageSize: nat, cursor: Option<Cursor>)
    requires PageOf(docs, pageSize, cursor) != []
    ensures var page := PageOf(docs, pageSize, cursor);
      var next := NextCursor(docs, pageSize, cursor);
      && next.Some? && next.value.pos < |docs| && docs[next.value.pos] == page[|page| - 1]
      && PageStart(docs, next) == PageStart(docs, cursor) + |page|
  {
  }

  /** `getListingsWithPagination`: the page `PageOf` selects and the cursor `NextCursor` hands back. */
  method GetListingsWithPagination(docs: seq<DocSnapshot>, pageSize: nat, lastDoc: Option<Cursor>)
    returns (listings: seq<Listing>, next: Option<Cursor>)
    requires pageSize > 0
    ensures listings == Rows(PageOf(docs, pageSize, lastDoc)) && next == NextCursor(docs, pageSize, lastDoc)
  {
    var snapshot := PageOf(docs, pageSize, lastDoc);
    listings := Collect(snapshot, Everything);
    KeepEverything(snapshot);
    next := if |snapshot| == 0 then None else Some(Cursor(PageStart(docs, lastDoc) + |snapshot| - 1));
  }

  /** A page of a well-formed collection is newest first and free of repeated records. */
  lemma PageKeepsOrder(docs: seq<DocSnapshot>, pageSize: nat, lastDoc: Option<Cursor>)
    requires WellFormed(docs)
    ensures NewestFirst(Rows(PageOf(docs, pageSize, lastDoc))) && UniqueIds(Rows(PageOf(docs, pageSize, lastDoc)))
  {
    var start := PageStart(docs, lastDoc);
    SliceWellFormed(docs, start, start + |PageOf(docs, pageSize, lastDoc)|);
  }

  /** A contiguous piece of a well-formed collection is well formed. */
  lemma SliceWellFormed(docs: seq<DocSnapshot>, from: nat, to: nat)
    requires WellFormed(docs) && from <= to <= |docs|
    ensures WellFormed(docs[from..to])
  {
    var s := docs[from..to];
    forall i, j | 0 <= i < j < |s| ensures Rows(s)[i].createdAt >= Rows(s)[j].createdAt {
      assert Rows(s)[i] == Rows(docs)[from + i] && Rows(s)[j] == Rows(docs)[from + j];
    }
    forall i, j | 0 <= i < j < |s| ensures Rows(s)[i].id != Rows(s)[j].id {
      assert Rows(s)[i] == Rows(docs)[from + i] && Rows(s)[j] == Rows(docs)[from + j];
    }
  }

  /** `getListingsByOwner`: the records `Keep` selects for the owner. */
  method GetListingsByOwner(docs: seq<DocSnapshot>, ownerId: string) returns (listings: seq<Listing>)
    ensures listings == Keep(docs, OwnedBy(ownerId))
  {
    listings := Collect(docs, OwnedBy(ownerId));
  }

  /** The owner's records are exactly the records with that owner, in the collection's order. */
  lemma OwnerFilterExactly(docs: seq<DocSnapshot>, ownerId: string)
    ensures var listings := Keep(docs, OwnedBy(ownerId));
      && (forall k :: 0 <= k < |listings| ==> listings[k].ownerId == ownerId)
      && (forall j :: 0 <= j < |docs| && docs[j].data.ownerId == ownerId ==> ToListing(docs[j]) in listings)
      && (WellFormed(docs) ==> NewestFirst(listings) && UniqueIds(listings))
  {
    var listings := Keep(docs, OwnedBy(ownerId));
    FilterSelects(docs, OwnedBy(ownerId));
    forall j | 0 <= j < |docs| && docs[j].data.ownerId == ownerId
      ensures ToListing(docs[j]) in listings
    {
      KeepExactly(docs, OwnedBy(ownerId), ToListing(docs[j]));
    }
    if WellFormed(docs) { FilterWellFormed(docs, OwnedBy(ownerId)); }
  }

  /** `searchListings`: the records `Keep` selects for the term. */
  method SearchListings(docs: seq<DocSnapshot>, searchTerm: string) returns (listings: seq<Listing>)
    ensures listings == Keep(docs, TextMatch(searchTerm))
  {
    listings := Collect(docs, TextMatch(searchTerm));
  }

  /**
   * The search results are exactly the records whose lower-cased title or description
   * includes the lower-cased term, in the collection's order.
   */
  lemma SearchFindsExactly(docs: seq<DocSnapshot>, searchTerm: string)
    ensures var listings := Keep(docs, TextMatch(searchTerm));
      && (forall l :: l in listings ==>
           Contains(Lower(l.title), Lower(searchTerm)) || Contains(Lower(l.description), Lower(searchTerm)))
      && (forall j :: 0 <= j < |docs| && Selects(TextMatch(searchTerm), docs[j]) ==> ToListing(docs[j]) in listings)
      && (WellFormed(docs) ==> NewestFirst(listings) && UniqueIds(listings))
  {
    var listings := Keep(docs, TextMatch(searchTerm));
    FilterSelects(docs, TextMatch(searchTerm));
    forall j | 0 <= j < |docs| && Selects(TextMatch(searchTerm), docs[j])
      ensures ToListing(docs[j]) in listings
    {
      KeepExactly(docs, TextMatch(searchTerm), ToListing(docs[j]));
    }
    if WellFormed(docs) { FilterWellFormed(docs, TextMatch(searchTerm)); }
  }

  /** The position of the first document with the given id, if any. */
  function FindPosition(docs: seq<DocSnapshot>, id: string): (r: Option<nat>)
    ensures r.None? <==> forall k :: 0 <= k < |docs| ==> docs[k].id != id
    ensures r.Some? ==> r.value < |docs| && docs[r.value].id == id
    ensures r.Some? ==> forall k :: 0 <= k < r.value ==> docs[k].id != id
  {
    if docs == [] then None
    else if docs[0].id == id then Some(0)
    else match FindPosition(docs[1..], id)
      case None => None
      case Some(p) => Some(p + 1)
  }

  /** `getListingById`: null for a missing id, otherwise the mapped record with that id. */
  function GetListingById(docs: seq<DocSnapshot>, id: string): (r: Option<Listing>)
    ensures r.None? <==> forall k :: 0 <= k < |docs| ==> docs[k].id != id
    ensures r.Some? ==> r.value.id == id
    ensures r.Some? ==> exists k :: 0 <= k < |docs| && docs[k].id == id && r.value == ToListing(docs[k])
  {
    match FindPosition(docs, id)
    case None => None
    case Some(p) => Some(ToListing(docs[p]))
  }

  /** Where a document created at `now` enters the newest-first order. */
  function InsertPos(docs: seq<DocSnapshot>, now: Timestamp): (p: nat)
    ensures p <= |docs|
    ensures forall k :: 0 <= k < p ==> docs[k].data.createdAt > now
    ensures p < |docs| ==> docs[p].data.createdAt <= now
  {
    if docs == [] || docs[0].data.createdAt <= now then 0 else InsertPos(docs[1..], now) + 1
  }

  /** The document `createListing` writes: the supplied fields plus the store's `createdAt`. */
  function NewDoc(id: string, data: NewListing, now: Timestamp): DocSnapshot {
    DocSnapshot(id, DocData(data.title, data.description, data.price, data.ownerId, now))
  }

  /**
   * `createListing`: the store adds one document under a fresh id it assigns, holding the
   * supplied fields and the current time as `createdAt`; nothing else changes
   * (`CreateKeepsWellFormed`, `CreateThenGet`).
   */
  function CreateListing(docs: seq<DocSnapshot>, data: NewListing, newId: string, now: Timestamp): (r: seq<DocSnapshot>)
    requires forall k :: 0 <= k < |docs| ==> docs[k].id != newId
    ensures |r| == |docs| + 1
    ensures multiset(r) == multiset(docs) + multiset{NewDoc(newId, data, now)}
  {
    var p := InsertPos(docs, now);
    assert docs == docs[..p] + docs[p..];
    docs[..p] + [NewDoc(newId, data, now)] + docs[p..]
  }

  /** Creating a listing keeps the collection newest first and its ids distinct. */
  lemma CreateKeepsWellFormed(docs: seq<DocSnapshot>, data: NewListing, newId: string, now: Timestamp)
    requires forall k :: 0 <= k < |docs| ==> docs[k].id != newId
    requires WellFormed(docs)
    ensures WellFormed(CreateListing(docs, data, newId, now))
  {
    var d, p := NewDoc(newId, data, now), InsertPos(docs, now);
    InsertKeepsOrder(docs, d, p);
    InsertKeepsIdsDistinct(docs, d, p);
  }

  /** Inserting a document at its newest-first position keeps the order. */
  lemma InsertKeepsOrder(docs: seq<DocSnapshot>, d: DocSnapshot, p: nat)
    requires NewestFirst(Rows(docs)) && p <= |docs|
    requires forall k :: 0 <= k < p ==> docs[k].data.createdAt > d.data.createdAt
    requires p < |docs| ==> docs[p].data.createdAt <= d.data.createdAt
    ensures NewestFirst(Rows(docs[..p] + [d] + docs[p..]))
  {
    var r := docs[..p] + [d] + docs[p..];
    forall i, j | 0 <= i < j < |r| ensures Rows(r)[i].createdAt >= Rows(r)[j].createdAt {
      if i < p && j == p {
      } else if i < p && j > p {
        assert r[i] == docs[i] && r[j] == docs[j - 1];
        assert Rows(docs)[i].createdAt >= Rows(docs)[j - 1].createdAt;
      } else if i == p && j > p {
        assert r[j] == docs[j - 1];
        assert Rows(docs)[p].createdAt >= Rows(docs)[j - 1].createdAt;
      } else if j < p {
        assert Rows(docs)[i].createdAt >= Rows(docs)[j].createdAt;
      } else {
        assert r[i] == docs[i - 1] && r[j] == docs[j - 1];
        assert Rows(docs)[i - 1].createdAt >= Rows(docs)[j - 1].createdAt;
      }
    }
  }

  /** Inserting a document whose id is fresh keeps the ids distinct. */
  lemma InsertKeepsIdsDistinct(docs: seq<DocSnapshot>, d: DocSnapshot, p: nat)
    requires UniqueIds(Rows(docs)) && p <= |docs|
    requires forall k :: 0 <= k < |docs| ==> docs[k].id != d.id
    ensures UniqueIds(Rows(docs[..p] + [d] + docs[p..]))
  {
    var r := docs[..p] + [d] + docs[p..];
    forall i, j | 0 <= i < j < |r| ensures Rows(r)[i].id != Rows(r)[j].id {
      if i < p && j > p {
        assert r[i] == docs[i] && r[j] == docs[j - 1];
        assert Rows(docs)[i].id != Rows(docs)[j - 1].id;
      } else if i > p {
        assert r[i] == docs[i - 1] && r[j] == docs[j - 1];
        assert Rows(docs)[i - 1].id != Rows(docs)[j - 1].id;
      } else if j < p {
        assert r[i] == docs[i] && r[j] == docs[j];
        assert Rows(docs)[i].id != Rows(docs)[j].id;
      } else if j > p {
        assert r[j] == docs[j - 1];
      }
    }
  }

  /** The first position holding an id is the one before which no document has it. */
  lemma FindPositionIs(docs: seq<DocSnapshot>, id: string, p: nat)
    requires p < |docs| && docs[p].id == id
    requires forall k :: 0 <= k < p ==> docs[k].id != id
    ensures FindPosition(docs, id) == Some(p)
  {
  }

  /** Looking up a freshly created listing gives back the supplied fields, its id and `createdAt`. */
  lemma CreateThenGet(docs: seq<DocSnapshot>, data: NewListing, newId: string, now: Timestamp)
    requires forall k :: 0 <= k < |docs| ==> docs[k].id != newId
    ensures GetListingById(CreateListing(docs, data, newId, now), newId)
      == Some(Listing(newId, data.title, data.description, data.price, data.ownerId, now))
  {
    var r := CreateListing(docs, data, newId, now);
    var p := InsertPos(docs, now);
    assert r[p] == NewDoc(newId, data, now);
    assert forall k :: 0 <= k < p ==> r[k] == docs[k];
    FindPositionIs(r, newId, p);
  }

  /** The fields of a stored document after an update: supplied ones replace, the rest stay. */
  function Merge(data: DocData, u: ListingUpdate): DocData {
    data.(title := u.title.GetOr(data.title),
          description := u.description.GetOr(data.description),
          price := u.price.GetOr(data.price))
  }

  /**
   * `updateListing`: fails when no document has the id; otherwise merges the update into
   * that document. Ids, owners, creation times and the order never change.
   */
  function UpdateListing(docs: seq<DocSnapshot>, id: string, u: ListingUpdate): (r: Option<seq<DocSnapshot>>)
    ensures r.None? <==> forall k :: 0 <= k < |docs| ==> docs[k].id != id
    ensures r.Some? ==> |r.value| == |docs|
    ensures r.Some? ==> forall k :: 0 <= k < |docs| ==>
      && r.value[k].id == docs[k].id
      && r.value[k].data.ownerId == docs[k].data.ownerId
      && r.value[k].data.createdAt == docs[k].data.createdAt
    ensures r.Some? ==> forall k :: 0 <= k < |docs| && docs[k].id != id ==> r.value[k] == docs[k]
  {
    if FindPosition(docs, id).None? then None
    else
      Some(seq(|docs|, k requires 0 <= k < |docs| =>
        if docs[k].id == id then DocSnapshot(id, Merge(docs[k].data, u)) else docs[k]))
  }

  /** An update keeps the collection newest first and its ids distinct. */
  lemma UpdateKeepsWellFormed(docs: seq<DocSnapshot>, id: string, u: ListingUpdate)
    requires WellFormed(docs)
    requires UpdateListing(docs, id, u).Some?
    ensures WellFormed(UpdateListing(docs, id, u).value)
  {
    var r := UpdateListing(docs, id, u).value;
    assert forall k :: 0 <= k < |docs| ==> Rows(r)[k].createdAt == Rows(docs)[k].createdAt && Rows(r)[k].id == Rows(docs)[k].id;
  }

  /** After an update the record with that id carries the supplied fields and its old owner and time. */
  lemma UpdateThenGet(docs: seq<DocSnapshot>, id: string, u: ListingUpdate)
    requires GetListingById(docs, id).Some?
    ensures UpdateListing(docs, id, u).Some?
    ensures var before := GetListingById(docs, id).value;
      GetListingById(UpdateListing(docs, id, u).value, id)
        == Some(before.(title := u.title.GetOr(before.title),
                        description := u.description.GetOr(before.description),
                        price := u.price.GetOr(before.price)))
  {
    var r := UpdateListing(docs, id, u).value;
    var p := FindPosition(docs, id).value;
    FindPositionIs(r, id, p);
  }

  /** An update that restates the stored fields of the record it names leaves the store as it was. */
  lemma UpdateWithSameFieldsChangesNothing(docs: seq<DocSnapshot>, id: string, u: ListingUpdate)
    requires exists k :: 0 <= k < |docs| && docs[k].id == id
    requires forall k :: 0 <= k < |docs| && docs[k].id == id ==> Merge(docs[k].data, u) == docs[k].data
    ensures UpdateListing(docs, id, u) == Some(docs)
  {
    var r := UpdateListing(docs, id, u).value;
    forall k | 0 <= k < |docs| ensures r[k] == docs[k] {
      if docs[k].id == id {
        assert r[k] == DocSnapshot(id, Merge(docs[k].data, u));
      }
    }
    assert r == docs;
  }

  /**
   * In a collection with distinct ids, writing back the title, description and price of
   * the record `getListingById` returns leaves the collection as it was.
   */
  lemma WriteBackChangesNothing(docs: seq<DocSnapshot>, id: string)
    requires WellFormed(docs)
    requires GetListingById(docs, id).Some?
    ensures var l := GetListingById(docs, id).value;
      UpdateListing(docs, id, ListingUpdate(Some(l.title), Some(l.description), Some(l.price))) == Some(docs)
  {
    var l := GetListingById(docs, id).value;
    var u := ListingUpdate(Some(l.title), Some(l.description), Some(l.price));
    var p := FindPosition(docs, id).value;
    forall k | 0 <= k < |docs| && docs[k].id == id
      ensures Merge(docs[k].data, u) == docs[k].data
    {
      assert Rows(docs)[k].id == docs[k].id && Rows(docs)[p].id == docs[p].id;
      assert k == p;
    }
    UpdateWithSameFieldsChangesNothing(docs, id, u);
  }

  /** `deleteListing`: the collection without the documents that have the id, in its order. */
  function DeleteListing(docs: seq<DocSnapshot>, id: string): (r: seq<DocSnapshot>)
    ensures |r| <= |docs|
  {
    Filter(docs, IdOtherThan(id))
  }

  /**
   * After a delete no document has the id; every other document remains, and nothing is
   * added. Deleting a missing id changes nothing.
   */
  lemma DeleteRemovesOnlyThatId(docs: seq<DocSnapshot>, id: string)
    ensures var r := DeleteListing(docs, id);
      && (forall k :: 0 <= k < |r| ==> r[k].id != id)
      && (forall j :: 0 <= j < |docs| && docs[j].id != id ==> docs[j] in r)
      && (forall d :: d in r ==> d in docs)
      && ((forall k :: 0 <= k < |docs| ==> docs[k].id != id) ==> r == docs)
  {
    var r := DeleteListing(docs, id);
    var idx := KeptPositions(docs, IdOtherThan(id));
    KeptPositionsHold(docs, IdOtherThan(id));
    FilterSelects(docs, IdOtherThan(id));
    SelectedPositionsKept(docs, IdOtherThan(id));
    forall j | 0 <= j < |docs| && docs[j].id != id ensures docs[j] in r {
      var k :| 0 <= k < |idx| && idx[k] == j;
      assert r[k] == docs[j];
    }
    if forall k :: 0 <= k < |docs| ==> docs[k].id != id {
      KeepsAll(docs, IdOtherThan(id));
    }
  }

  /** A filter that selects every document keeps the collection as it is. */
  lemma {:induction false} KeepsAll(docs: seq<DocSnapshot>, c: Criterion)
    requires forall k :: 0 <= k < |docs| ==> Selects(c, docs[k])
    ensures Filter(docs, c) == docs
  {
    if docs != [] {
      var n := |docs| - 1;
      KeepsAll(docs[..n], c);
      assert docs[..n] + [docs[n]] == docs;
    }
  }

  /** A delete keeps the collection newest first and its ids distinct. */
  lemma DeleteKeepsWellFormed(docs: seq<DocSnapshot>, id: string)
    requires WellFormed(docs)
    ensures WellFormed(DeleteListing(docs, id))
  {
    FilterWellFormed(docs, IdOtherThan(id));
  }
}
