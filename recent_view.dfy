/** The page listing the bookmarks created during the last seven days. */
module RecentView {
  import opened Wrappers
  import opened Seqs
  import opened Records
  import opened BookmarkStore
  import opened CollectionStore
  import opened TagStore
  import opened BookmarkQuery
  import opened PageList

  /** `RECENT_DAYS`. */
  const RecentDays := 7
  /** Milliseconds in a day; `subDays` is taken as a fixed number of them. */
  const DayMs := 86400000
  /** How far back the page looks, in milliseconds. */
  const RecentWindow := RecentDays * DayMs

  /** `subDays(new Date(), RECENT_DAYS)` at clock reading `now`. */
  function Cutoff(now: int): (c: int)
    ensures c < now && now - c == 604800000
  {
    now - RecentWindow
  }

  class RecentPage {
    const collectionService: CollectionService
    const tagService: TagService
    const list: BookmarkList
    var availableTags: seq<Tag>
    var collections: seq<Collection>

    /** The list is scoped to a creation-time cutoff. */
    ghost predicate Valid()
      reads this, list
    {
      list.scope.RecentScope?
    }

    constructor (bookmarkService: BookmarkService, collectionService: CollectionService,
                 tagService: TagService, now: int)
      ensures Valid() && fresh(list) && list.bookmarkService == bookmarkService
      ensures this.collectionService == collectionService && this.tagService == tagService
      ensures list.bookmarks == [] && list.query == InitialQuery
      ensures availableTags == [] && collections == []
    {
      this.collectionService := collectionService;
      this.tagService := tagService;
      list := new BookmarkList(bookmarkService, RecentScope(Cutoff(now)));
      availableTags := [];
      collections := [];
    }

    /** `loadData` at clock reading `now`: the store's bookmarks created after the cutoff, in
        store order, every tag (most used first) and every collection. */
    method Load(now: int)
      requires Valid()
      modifies this, list
      ensures Valid() && list.query == old(list.query)
      ensures list.scope == RecentScope(Cutoff(now)) && list.Mirrors()
      ensures forall i :: 0 <= i < |list.bookmarks| ==> now - list.bookmarks[i].createdAt < RecentWindow
      ensures availableTags == old(tagService.GetAll()) && collections == old(collectionService.GetAll())
    {
      var allBookmarks := list.bookmarkService.GetAll();
      var tagsData := tagService.GetAll();
      var collectionsData := collectionService.GetAll();
      var cutoff := Cutoff(now);
      Loaded(cutoff, Filter(allBookmarks, CreatedAfter(cutoff)), tagsData, collectionsData);
    }

    /** The state `loadData` leaves: the list rescoped to `cutoff` and holding the store's
        bookmarks created after it, every tag and every collection. */
    method Loaded(cutoff: int, recent: seq<Bookmark>, tagsData: seq<Tag>, collectionsData: seq<Collection>)
      requires recent == Filter(list.bookmarkService.bookmarks, CreatedAfter(cutoff))
      modifies this, list
      ensures Valid() && list.query == old(list.query)
      ensures list.scope == RecentScope(cutoff) && list.Mirrors()
      ensures availableTags == tagsData && collections == collectionsData
    {
      list.scope := RecentScope(cutoff);
      list.bookmarks := recent;
      availableTags, collections := tagsData, collectionsData;
    }

    /** `handleSaveBookmark` at clock reading `now`: an edit updates the store and replaces the
        record by id in the list; an add creates the record and puts it in front of the list
        when it was created after the cutoff, which a record stamped `now` always is. */
    method Save(data: BookmarkPatch, editing: Option<Bookmark>, now: int) returns (r: Result<Bookmark, string>)
      requires Valid()
      modifies list, list.bookmarkService
      ensures Valid() && list.query == old(list.query) && list.scope == old(list.scope)
      ensures editing.None? ==>
        r == Ok(NewBookmark(old(list.bookmarkService.bookmarks), data, now)) &&
        list.bookmarkService.bookmarks == [r.value] + old(list.bookmarkService.bookmarks) &&
        list.bookmarks == [r.value] + old(list.bookmarks)
      ensures editing.Some? && FindFirst(old(list.bookmarkService.bookmarks), HasKey(BookmarkKey, editing.value.id)).None? ==>
        r == Err("Bookmark not found") &&
        list.bookmarkService.bookmarks == old(list.bookmarkService.bookmarks) && list.bookmarks == old(list.bookmarks)
      ensures editing.Some? && FindFirst(old(list.bookmarkService.bookmarks), HasKey(BookmarkKey, editing.value.id)).Some? ==>
        var i := FindFirst(old(list.bookmarkService.bookmarks), HasKey(BookmarkKey, editing.value.id)).value;
        r == Ok(MergeBookmark(old(list.bookmarkService.bookmarks)[i], data, editing.value.id, now)) &&
        list.bookmarkService.bookmarks == old(list.bookmarkService.bookmarks)[i := r.value] &&
        list.bookmarks == ReplaceById(old(list.bookmarks), editing.value.id, r.value)
      ensures (&& old(list.Mirrors()) && old(UniqueIds(list.bookmarkService.bookmarks, BookmarkKey))
               && (editing.Some? ==> editing.value in old(list.bookmarks))
               && (r.Ok? ==> r.value.createdAt > list.scope.cutoff))
              ==> list.Mirrors()
    {
      if editing.Some? {
        r := list.SaveEdit(editing.value, data, now);
      } else {
        ghost var store := list.bookmarkService.bookmarks;
        var created := list.bookmarkService.Create(data, now);
        if created.createdAt > Cutoff(now) {
          list.bookmarks := [created] + list.bookmarks;
        }
        FilterCons(created, store, Belongs(list.scope));
        r := Ok(created);
      }
    }
  }

  /** A bookmark added after the page loaded, by the same clock, is one the page would list
      on a fresh load. */
  lemma AddedAfterLoadIsRecent(loadedAt: int, now: int, b: Bookmark)
    requires loadedAt <= now && b.createdAt == now
    ensures Belongs(RecentScope(Cutoff(loadedAt)))(b)
  {
  }
}
