/** The in-memory bookmark store: newest records first, ids allocated as maximum plus one. */
module BookmarkStore {
  import opened Wrappers
  import opened Seqs
  import opened Records

  /** Every key the payload carries (other than `Id` and the timestamps) is in `b`. */
  ghost predicate CarriesPayload(b: Bookmark, data: BookmarkPatch) {
    && (data.url.Some? ==> b.url == data.url.value)
    && (data.title.Some? ==> b.title == data.title.value)
    && (data.description.Some? ==> b.description == data.description.value)
    && (data.tags.Some? ==> b.tags == data.tags.value)
    && (data.collectionId.Some? ==> b.collectionId == data.collectionId.value)
    && (data.favicon.Some? ==> b.favicon == data.favicon.value)
  }

  /** Every key the payload lacks (other than `Id` and the timestamps) is as in `prev`. */
  ghost predicate KeepsRest(b: Bookmark, prev: Bookmark, data: BookmarkPatch) {
    && (data.url.None? ==> b.url == prev.url)
    && (data.title.None? ==> b.title == prev.title)
    && (data.description.None? ==> b.description == prev.description)
    && (data.tags.None? ==> b.tags == prev.tags)
    && (data.collectionId.None? ==> b.collectionId == prev.collectionId)
    && (data.favicon.None? ==> b.favicon == prev.favicon)
  }

  /** A record whose every key is empty. */
  const Blank := Bookmark(0, "", "", "", [], None, "", 0, 0)

  /** The record `create` builds: `{ Id: maxId + 1, ...data, createdAt: now, updatedAt: now }`.
      Keys the payload lacks are empty. */
  function NewBookmark(store: seq<Bookmark>, data: BookmarkPatch, now: int): (b: Bookmark)
    ensures data.id.None? ==> forall i :: 0 <= i < |store| ==> store[i].id < b.id
    ensures data.id.None? && store == [] ==> b.id == 1
    ensures data.id.None? ==> b.id == NextId(store, BookmarkKey)
    ensures data.id.Some? ==> b.id == data.id.value
    ensures b.createdAt == now && b.updatedAt == now
    ensures CarriesPayload(b, data) && KeepsRest(b, Blank, data)
  {
    Bookmark(
      data.id.GetOr(NextId(store, BookmarkKey)),
      data.url.GetOr(""),
      data.title.GetOr(""),
      data.description.GetOr(""),
      data.tags.GetOr([]),
      data.collectionId.GetOr(None),
      data.favicon.GetOr(""),
      now,
      now)
  }

  /** The record `update` builds: `{ ...prev, ...data, Id: id, updatedAt: now }`. */
  function MergeBookmark(prev: Bookmark, data: BookmarkPatch, id: int, now: int): (b: Bookmark)
    ensures b.id == id && b.updatedAt == now
    ensures b.createdAt == data.createdAt.GetOr(prev.createdAt)
    ensures CarriesPayload(b, data) && KeepsRest(b, prev, data)
  {
    Bookmark(
      id,
      data.url.GetOr(prev.url),
      data.title.GetOr(prev.title),
      data.description.GetOr(prev.description),
      data.tags.GetOr(prev.tags),
      data.collectionId.GetOr(prev.collectionId),
      data.favicon.GetOr(prev.favicon),
      data.createdAt.GetOr(prev.createdAt),
      now)
  }

  /** An update with an empty payload only refreshes `updatedAt`. */
  lemma MergeNothing(b: Bookmark, now: int)
    ensures MergeBookmark(b, NoBookmarkChanges, b.id, now) == b.(updatedAt := now)
  {
  }

  /** Applying the same update twice leaves the same record as applying it once. */
  lemma MergeIdempotent(b: Bookmark, data: BookmarkPatch, id: int, now: int)
    ensures MergeBookmark(MergeBookmark(b, data, id, now), data, id, now) == MergeBookmark(b, data, id, now)
  {
  }

  /** A create without an `Id` in its payload keeps the ids unique. */
  lemma CreateKeepsIdsUnique(store: seq<Bookmark>, data: BookmarkPatch, now: int)
    requires UniqueIds(store, BookmarkKey) && data.id.None?
    ensures UniqueIds([NewBookmark(store, data, now)] + store, BookmarkKey)
  {
    var s' := [NewBookmark(store, data, now)] + store;
    forall i, j | 0 <= i < j < |s'| ensures BookmarkKey(s'[i]) != BookmarkKey(s'[j]) {
      if i > 0 {
        assert s'[i] == store[i - 1] && s'[j] == store[j - 1];
      } else {
        assert s'[j] == store[j - 1];
      }
    }
  }

  /** A payload that carries an id already in use produces a duplicate id. */
  lemma SuppliedIdCanDuplicate(store: seq<Bookmark>, data: BookmarkPatch, now: int, k: nat)
    requires k < |store| && data.id == Some(store[k].id)
    ensures !UniqueIds([NewBookmark(store, data, now)] + store, BookmarkKey)
  {
    var s' := [NewBookmark(store, data, now)] + store;
    assert s'[k + 1] == store[k];
    assert BookmarkKey(s'[0]) == BookmarkKey(s'[k + 1]);
  }

  /** An update keeps the ids unique: the merged record keeps the id it replaces. */
  lemma UpdateKeepsIdsUnique(store: seq<Bookmark>, i: nat, data: BookmarkPatch, now: int)
    requires i < |store| && UniqueIds(store, BookmarkKey)
    ensures UniqueIds(store[i := MergeBookmark(store[i], data, store[i].id, now)], BookmarkKey)
  {
    var s' := store[i := MergeBookmark(store[i], data, store[i].id, now)];
    forall a, b | 0 <= a < b < |s'| ensures BookmarkKey(s'[a]) != BookmarkKey(s'[b]) {
      assert BookmarkKey(s'[a]) == BookmarkKey(store[a]) && BookmarkKey(s'[b]) == BookmarkKey(store[b]);
    }
  }

  /** Ids are not reserved: after the newest bookmark is deleted, the next create reuses its id. */
  lemma IdReusedAfterDeletingNewest(store: seq<Bookmark>, data: BookmarkPatch, now: int,
                                    data2: BookmarkPatch, later: int)
    requires data.id.None? && data2.id.None?
    ensures NewBookmark(RemoveAt([NewBookmark(store, data, now)] + store, 0), data2, later).id
         == NewBookmark(store, data, now).id
  {
    assert RemoveAt([NewBookmark(store, data, now)] + store, 0) == store;
  }

  class BookmarkService {
    /** `this.bookmarks`, newest first. */
    var bookmarks: seq<Bookmark>

    constructor (seed: seq<Bookmark>)
      ensures bookmarks == seed
    {
      bookmarks := seed;
    }

    /** `getAll`: a copy of the whole store, in store order. */
    function GetAll(): seq<Bookmark>
      reads this
    {
      bookmarks
    }

    /** `getById`: the first record with that id, or `None`; never an error. */
    function GetById(id: int): (r: Option<Bookmark>)
      reads this
      ensures r.None? <==> forall i :: 0 <= i < |bookmarks| ==> bookmarks[i].id != id
      ensures r.Some? ==> r.value.id == id
      ensures r.Some? ==> exists i :: 0 <= i < |bookmarks| && bookmarks[i] == r.value &&
                                       forall j :: 0 <= j < i ==> bookmarks[j].id != id
    {
      match FindFirst(bookmarks, HasKey(BookmarkKey, id))
      case None => None
      case Some(i) => Some(bookmarks[i])
    }

    /** `create`: the new record goes in front of all others. */
    method Create(data: BookmarkPatch, now: int) returns (created: Bookmark)
      modifies this
      ensures created == NewBookmark(old(bookmarks), data, now)
      ensures bookmarks == [created] + old(bookmarks)
    {
      created := NewBookmark(bookmarks, data, now);
      bookmarks := [created] + bookmarks;
    }

    /** `update`: merge the payload over the first record with that id, in place. */
    method Update(id: int, data: BookmarkPatch, now: int) returns (r: Result<Bookmark, string>)
      modifies this
      ensures FindFirst(old(bookmarks), HasKey(BookmarkKey, id)).None? ==>
        r == Err("Bookmark not found") && bookmarks == old(bookmarks)
      ensures FindFirst(old(bookmarks), HasKey(BookmarkKey, id)).Some? ==>
        var i := FindFirst(old(bookmarks), HasKey(BookmarkKey, id)).value;
        r == Ok(MergeBookmark(old(bookmarks)[i], data, id, now)) &&
        bookmarks == old(bookmarks)[i := r.value]
    {
      match FindFirst(bookmarks, HasKey(BookmarkKey, id))
      case None =>
        r := Err("Bookmark not found");
      case Some(i) =>
        var updated := MergeBookmark(bookmarks[i], data, id, now);
        bookmarks := bookmarks[i := updated];
        r := Ok(updated);
    }

    /** `delete`: remove the first record with that id. */
    method Delete(id: int) returns (r: Result<bool, string>)
      modifies this
      ensures FindFirst(old(bookmarks), HasKey(BookmarkKey, id)).None? ==>
        r == Err("Bookmark not found") && bookmarks == old(bookmarks)
      ensures FindFirst(old(bookmarks), HasKey(BookmarkKey, id)).Some? ==>
        r == Ok(true) && bookmarks == RemoveAt(old(bookmarks), FindFirst(old(bookmarks), HasKey(BookmarkKey, id)).value)
    {
      match FindFirst(bookmarks, HasKey(BookmarkKey, id))
      case None =>
        r := Err("Bookmark not found");
      case Some(i) =>
        bookmarks := RemoveAt(bookmarks, i);
        r := Ok(true);
    }

    /** `getByCollection`: the members of collection `cid`, in store order. */
    function GetByCollection(cid: int): (r: seq<Bookmark>)
      reads this
      ensures IsSubsequence(r, bookmarks)
      ensures forall i :: 0 <= i < |r| ==> r[i].collectionId == Some(cid)
      ensures |r| == Count(bookmarks, InCollection(cid))
    {
      FilterIsSubsequence(bookmarks, InCollection(cid));
      Filter(bookmarks, InCollection(cid))
    }

    /** `getByTag`: the bookmarks carrying tag name `name`, in store order. */
    function GetByTag(name: string): (r: seq<Bookmark>)
      reads this
      ensures IsSubsequence(r, bookmarks)
      ensures forall i :: 0 <= i < |r| ==> name in r[i].tags
      ensures |r| == Count(bookmarks, HasTag(name))
    {
      FilterIsSubsequence(bookmarks, HasTag(name));
      Filter(bookmarks, HasTag(name))
    }
  }
}
