/** The page listing one collection's bookmarks. */
module CollectionView {
  import opened Wrappers
  import opened Seqs
  import opened Records
  import opened BookmarkStore
  import opened CollectionStore
  import opened TagStore
  import opened BookmarkQuery
  import opened PageList

  class CollectionPage {
    /** The route's collection id (`parseInt(id)`). */
    const id: int
    const collectionService: CollectionService
    const tagService: TagService
    /** `bookmarks` and the filter bar's state. */
    const list: BookmarkList
    var collection: Option<Collection>
    var error: string
    var availableTags: seq<Tag>
    var collections: seq<Collection>

    /** The list is scoped to this page's collection. */
    ghost predicate Valid()
      reads this, list
    {
      list.scope == CollectionScope(id)
    }

    constructor (id: int, bookmarkService: BookmarkService, collectionService: CollectionService,
                 tagService: TagService)
      ensures Valid() && fresh(list) && list.bookmarkService == bookmarkService
      ensures this.id == id && this.collectionService == collectionService && this.tagService == tagService
      ensures list.bookmarks == [] && list.query == InitialQuery
      ensures collection.None? && error == "" && availableTags == [] && collections == []
    {
      this.id := id;
      this.collectionService := collectionService;
      this.tagService := tagService;
      list := new BookmarkList(bookmarkService, CollectionScope(id));
      collection := None;
      error := "";
      availableTags := [];
      collections := [];
    }

    /** `loadData`: an unknown collection sets the error and changes nothing else; otherwise
        the page holds the collection with its count, the store's members of it in store
        order, every tag (most used first) and every collection. */
    method Load()
      requires Valid()
      modifies this, list
      ensures Valid() && list.query == old(list.query)
      ensures old(collectionService.GetById(id)).None? ==>
        error == "Collection not found" && collection == old(collection) &&
        list.bookmarks == old(list.bookmarks) &&
        availableTags == old(availableTags) && collections == old(collections)
      ensures old(collectionService.GetById(id)).Some? ==>
        error == "" && collection == old(collectionService.GetById(id)) && list.Mirrors() &&
        availableTags == old(tagService.GetAll()) && collections == old(collectionService.GetAll())
    {
      var collectionData := collectionService.GetById(id);
      var allBookmarks := list.bookmarkService.GetAll();
      var tagsData := tagService.GetAll();
      var collectionsData := collectionService.GetAll();
      if collectionData.None? {
        error := "Collection not found";
        return;
      }
      Loaded(collectionData, Filter(allBookmarks, InCollection(id)), tagsData, collectionsData);
    }

    /** The state a successful `loadData` leaves: the collection, its bookmarks, every tag and
        every collection, with the error cleared. */
    method Loaded(found: Option<Collection>, members: seq<Bookmark>, tagsData: seq<Tag>,
                  collectionsData: seq<Collection>)
      requires Valid() && members == Filter(list.bookmarkService.bookmarks, InCollection(id))
      modifies this, list
      ensures Valid() && list.query == old(list.query) && list.Mirrors()
      ensures collection == found && error == "" && availableTags == tagsData && collections == collectionsData
    {
      assert Belongs(list.scope) == InCollection(id);
      list.bookmarks := members;
      collection, error, availableTags, collections := found, "", tagsData, collectionsData;
    }

    /** `handleSaveBookmark`: the payload always carries this page's collection id. An edit
        updates the store and replaces the record by id in the list; an add creates the record
        and puts it in front of the list. A failed update changes nothing. */
    method Save(data: BookmarkPatch, editing: Option<Bookmark>, now: int) returns (r: Result<Bookmark, string>)
      requires Valid()
      modifies list, list.bookmarkService
      ensures Valid() && list.query == old(list.query)
      ensures r.Ok? ==> r.value.collectionId == Some(id)
      ensures editing.None? ==>
        r == Ok(NewBookmark(old(list.bookmarkService.bookmarks), data.(collectionId := Some(Some(id))), now)) &&
        list.bookmarkService.bookmarks == [r.value] + old(list.bookmarkService.bookmarks) &&
        list.bookmarks == [r.value] + old(list.bookmarks)
      ensures editing.Some? && FindFirst(old(list.bookmarkService.bookmarks), HasKey(BookmarkKey, editing.value.id)).None? ==>
        r == Err("Bookmark not found") &&
        list.bookmarkService.bookmarks == old(list.bookmarkService.bookmarks) && list.bookmarks == old(list.bookmarks)
      ensures editing.Some? && FindFirst(old(list.bookmarkService.bookmarks), HasKey(BookmarkKey, editing.value.id)).Some? ==>
        var i := FindFirst(old(list.bookmarkService.bookmarks), HasKey(BookmarkKey, editing.value.id)).value;
        r == Ok(MergeBookmark(old(list.bookmarkService.bookmarks)[i], data.(collectionId := Some(Some(id))), editing.value.id, now)) &&
        list.bookmarkService.bookmarks == old(list.bookmarkService.bookmarks)[i := r.value] &&
        list.bookmarks == ReplaceById(old(list.bookmarks), editing.value.id, r.value)
      ensures (&& old(list.Mirrors()) && old(UniqueIds(list.bookmarkService.bookmarks, BookmarkKey))
               && (editing.Some? ==> editing.value in old(list.bookmarks)))
              ==> list.Mirrors()
    {
      var payload := data.(collectionId := Some(Some(id)));
      if editing.Some? {
        r := list.SaveEdit(editing.value, payload, now);
      } else {
        var created := list.SaveNew(payload, now);
        r := Ok(created);
      }
    }
  }
}
