/** The in-memory collection store. Member counts are not stored: every read recounts them
    over the bookmark store's current contents. */
module CollectionStore {
  import opened Wrappers
  import opened Seqs
  import opened Records
  import opened BookmarkStore

  /** `{ ...collection, bookmarkCount }`, counted over `bookmarks`. */
  function WithCount(c: Collection, bookmarks: seq<Bookmark>): (r: Collection)
    ensures r.bookmarkCount == Count(bookmarks, InCollection(c.id))
    ensures r.(bookmarkCount := c.bookmarkCount) == c
  {
    c.(bookmarkCount := |Filter(bookmarks, InCollection(c.id))|)
  }

  /** The record `create` builds: `{ Id: maxId + 1, ...data, bookmarkCount: 0, createdAt: now }`.
      A missing name is empty. */
  function NewCollection(store: seq<Collection>, data: CollectionPatch, now: int): (c: Collection)
    ensures data.id.None? ==> forall i :: 0 <= i < |store| ==> store[i].id < c.id
    ensures data.id.None? && store == [] ==> c.id == 1
    ensures data.id.None? ==> c.id == NextId(store, CollectionKey)
    ensures data.id.Some? ==> c.id == data.id.value
    ensures data.name.Some? ==> c.name == data.name.value
    ensures data.name.None? ==> c.name == ""
    ensures c.bookmarkCount == 0 && c.createdAt == now
  {
    Collection(data.id.GetOr(NextId(store, CollectionKey)), data.name.GetOr(""), 0, now)
  }

  /** The record `update` builds: `{ ...prev, ...data, Id: id }`. */
  function MergeCollection(prev: Collection, data: CollectionPatch, id: int): (c: Collection)
    ensures c.id == id
    ensures c.name == data.name.GetOr(prev.name)
    ensures c.bookmarkCount == data.bookmarkCount.GetOr(prev.bookmarkCount)
    ensures c.createdAt == data.createdAt.GetOr(prev.createdAt)
  {
    Collection(id, data.name.GetOr(prev.name), data.bookmarkCount.GetOr(prev.bookmarkCount),
               data.createdAt.GetOr(prev.createdAt))
  }

  /** A create without an `Id` in its payload keeps the ids unique. */
  lemma CreateKeepsIdsUnique(store: seq<Collection>, data: CollectionPatch, now: int)
    requires UniqueIds(store, CollectionKey) && data.id.None?
    ensures UniqueIds(store + [NewCollection(store, data, now)], CollectionKey)
  {
    var s' := store + [NewCollection(store, data, now)];
    forall i, j | 0 <= i < j < |s'| ensures CollectionKey(s'[i]) != CollectionKey(s'[j]) {
      assert s'[i] == store[i];
    }
  }

  /** A bookmark created in front of the store raises exactly its own collection's count by one. */
  lemma CountAfterBookmarkCreate(bookmarks: seq<Bookmark>, data: BookmarkPatch, now: int, c: Collection)
    ensures var b := NewBookmark(bookmarks, data, now);
            WithCount(c, [b] + bookmarks).bookmarkCount
            == WithCount(c, bookmarks).bookmarkCount + (if b.collectionId == Some(c.id) then 1 else 0)
  {
    CountPrepend(NewBookmark(bookmarks, data, now), bookmarks, InCollection(c.id));
  }

  /** Deleting a bookmark lowers exactly its own collection's count by one. */
  lemma CountAfterBookmarkDelete(bookmarks: seq<Bookmark>, i: nat, c: Collection)
    requires i < |bookmarks|
    ensures WithCount(c, RemoveAt(bookmarks, i)).bookmarkCount
         == WithCount(c, bookmarks).bookmarkCount - (if bookmarks[i].collectionId == Some(c.id) then 1 else 0)
  {
    CountRemoveAt(bookmarks, i, InCollection(c.id));
  }

  class CollectionService {
    /** `this.collections`, in creation order. */
    var collections: seq<Collection>
    /** The bookmark store the counts are taken over. */
    const bookmarkService: BookmarkService

    constructor (seed: seq<Collection>, bookmarkService: BookmarkService)
      ensures collections == seed && this.bookmarkService == bookmarkService
    {
      collections := seed;
      this.bookmarkService := bookmarkService;
    }

    /** `getAll`: every collection in store order, each with its current member count. */
    function GetAll(): (r: seq<Collection>)
      reads this, bookmarkService
      ensures |r| == |collections|
      ensures forall i :: 0 <= i < |r| ==>
        r[i].bookmarkCount == Count(bookmarkService.bookmarks, InCollection(r[i].id)) &&
        r[i].(bookmarkCount := collections[i].bookmarkCount) == collections[i]
    {
      seq(|collections|, i requires 0 <= i < |collections| reads this, bookmarkService =>
        WithCount(collections[i], bookmarkService.bookmarks))
    }

    /** `getById`: the first collection with that id and its current member count, or `None`. */
    function GetById(id: int): (r: Option<Collection>)
      reads this, bookmarkService
      ensures r.None? <==> forall i :: 0 <= i < |collections| ==> collections[i].id != id
      ensures r.Some? ==> r.value.id == id && r.value.bookmarkCount == Count(bookmarkService.bookmarks, InCollection(id))
      ensures r.Some? ==> exists i :: 0 <= i < |collections| && collections[i] == r.value.(bookmarkCount := collections[i].bookmarkCount) &&
                                       forall j :: 0 <= j < i ==> collections[j].id != id
    {
      match FindFirst(collections, HasKey(CollectionKey, id))
      case None => None
      case Some(i) => Some(WithCount(collections[i], bookmarkService.bookmarks))
    }

    /** `create`: the new collection goes after all others; bookmarks are not touched. */
    method Create(data: CollectionPatch, now: int) returns (created: Collection)
      modifies this
      ensures created == NewCollection(old(collections), data, now)
      ensures collections == old(collections) + [created]
    {
      created := NewCollection(collections, data, now);
      collections := collections + [created];
    }

    /** `update`: merge the payload over the first collection with that id, in place. */
    method Update(id: int, data: CollectionPatch) returns (r: Result<Collection, string>)
      modifies this
      ensures FindFirst(old(collections), HasKey(CollectionKey, id)).None? ==>
        r == Err("Collection not found") && collections == old(collections)
      ensures FindFirst(old(collections), HasKey(CollectionKey, id)).Some? ==>
        var i := FindFirst(old(collections), HasKey(CollectionKey, id)).value;
        r == Ok(MergeCollection(old(collections)[i], data, id)) &&
        collections == old(collections)[i := r.value]
    {
      match FindFirst(collections, HasKey(CollectionKey, id))
      case None =>
        r := Err("Collection not found");
      case Some(i) =>
        var updated := MergeCollection(collections[i], data, id);
        collections := collections[i := updated];
        r := Ok(updated);
    }

    /** `delete`: remove the first collection with that id. Member bookmarks keep their
        (now dangling) `collectionId`: only `this` may change. */
    method Delete(id: int) returns (r: Result<bool, string>)
      modifies this
      ensures FindFirst(old(collections), HasKey(CollectionKey, id)).None? ==>
        r == Err("Collection not found") && collections == old(collections)
      ensures FindFirst(old(collections), HasKey(CollectionKey, id)).Some? ==>
        r == Ok(true) &&
        collections == RemoveAt(old(collections), FindFirst(old(collections), HasKey(CollectionKey, id)).value)
      ensures bookmarkService.bookmarks == old(bookmarkService.bookmarks)
    {
      match FindFirst(collections, HasKey(CollectionKey, id))
      case None =>
        r := Err("Collection not found");
      case Some(i) =>
        collections := RemoveAt(collections, i);
        r := Ok(true);
    }
  }
}
