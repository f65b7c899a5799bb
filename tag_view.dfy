/** The page listing the bookmarks that carry one tag name (the decoded route parameter). */
module TagView {
  import opened Wrappers
  import opened Seqs
  import opened Records
  import opened BookmarkStore
  import opened CollectionStore
  import opened TagStore
  import opened BookmarkQuery
  import opened PageList

  /** The tag `loadData` finds, `tagsData.find(t => t.name === name)` over the sorted `getAll`,
      is the tag `getByName` returns: the first one in store order with that name, with its
      count. Tags sharing a name share a count, so the stable sort keeps them in store order. */
  lemma FoundTagIsFirstByName(ts: TagService, name: string)
    ensures First(ts.GetAll(), Named(name)) == ts.GetByName(name)
  {
    var bs := ts.bookmarkService.bookmarks;
    var counted := TagsWithUsage(ts.tags, bs);
    FirstNamedCounted(ts.tags, bs, name);
    FirstNamedSurvivesSort(counted, name, Count(bs, HasTag(name)));
  }

  /** Editing a listed bookmark so that it no longer carries the page's tag leaves it on the
      page: the list no longer equals the store's tagged bookmarks. */
  lemma EditCanKeepUntaggedBookmark()
    ensures var b := Bookmark(1, "u", "t", "d", ["x"], None, "", 0, 0);
            var u := MergeBookmark(b, NoBookmarkChanges.(tags := Some([])), 1, 5);
            ReplaceById(Filter([b], HasTag("x")), 1, u) == [u] &&
            Filter([b][0 := u], HasTag("x")) == [] && "x" !in u.tags
  {
    var b := Bookmark(1, "u", "t", "d", ["x"], None, "", 0, 0);
    var u := MergeBookmark(b, NoBookmarkChanges.(tags := Some([])), 1, 5);
    assert HasTag("x")(b);
    FilterCons(b, [], HasTag("x"));
    assert [b] == [b] + [];
    assert [b][0 := u] == [u] + [];
    FilterCons(u, [], HasTag("x"));
  }

  class TagPage {
    /** The decoded route parameter. */
    const name: string
    const collectionService: CollectionService
    const tagService: TagService
    const list: BookmarkList
    var tag: Option<Tag>
    var error: string
    var availableTags: seq<Tag>
    var collections: seq<Collection>

    /** The list is scoped to this page's tag name. */
    ghost predicate Valid()
      reads this, list
    {
      list.scope == TagScope(name)
    }

    constructor (name: string, bookmarkService: BookmarkService, collectionService: CollectionService,
                 tagService: TagService)
      ensures Valid() && fresh(list) && list.bookmarkService == bookmarkService
      ensures this.name == name && this.collectionService == collectionService && this.tagService == tagService
      ensures list.bookmarks == [] && list.query == InitialQuery
      ensures tag.None? && error == "" && availableTags == [] && collections == []
    {
      this.name := name;
      this.collectionService := collectionService;
      this.tagService := tagService;
      list := new BookmarkList(bookmarkService, TagScope(name));
      tag := None;
      error := "";
      availableTags := [];
      collections := [];
    }

    /** `loadData`: a name no tag has sets the error and changes nothing else; otherwise the
        page holds the first tag with that name and its count, the store's bookmarks carrying
        the name in store order, every tag (most used first) and every collection. */
    method Load()
      requires Valid()
      modifies this, list
      ensures Valid() && list.query == old(list.query)
      ensures old(tagService.GetByName(name)).None? ==>
        error == "Tag not found" && tag == old(tag) && list.bookmarks == old(list.bookmarks) &&
        availableTags == old(availableTags) && collections == old(collections)
      ensures old(tagService.GetByName(name)).Some? ==>
        error == "" && tag == old(tagService.GetByName(name)) && list.Mirrors() &&
        availableTags == old(tagService.GetAll()) && collections == old(collectionService.GetAll())
    {
      var allBookmarks := list.bookmarkService.GetAll();
      var tagsData := tagService.GetAll();
      var collectionsData := collectionService.GetAll();
      var currentTag := First(tagsData, Named(name));
      FoundTagIsFirstByName(tagService, name);
      if currentTag.None? {
        error := "Tag not found";
        return;
      }
      Loaded(currentTag, Filter(allBookmarks, HasTag(name)), tagsData, collectionsData);
    }

    /** The state a successful `loadData` leaves: the tag, its bookmarks, every tag and every
        collection, with the error cleared. */
    method Loaded(found: Option<Tag>, tagged: seq<Bookmark>, tagsData: seq<Tag>, collectionsData: seq<Collection>)
      requires Valid() && tagged == Filter(list.bookmarkService.bookmarks, HasTag(name))
      modifies this, list
      ensures Valid() && list.query == old(list.query) && list.Mirrors()
      ensures tag == found && error == "" && availableTags == tagsData && collections == collectionsData
    {
      assert Belongs(list.scope) == HasTag(name);
      list.bookmarks := tagged;
      tag, error, availableTags, collections := found, "", tagsData, collectionsData;
    }

    /** `handleSaveBookmark`: an edit sends the payload as it is; an add puts this page's tag
        name first in the payload's tags, without repeats. A failed update changes nothing. */
    method Save(data: BookmarkPatch, editing: Option<Bookmark>, now: int) returns (r: Result<Bookmark, string>)
      requires Valid()
      modifies list, list.bookmarkService
      ensures Valid() && list.query == old(list.query)
      ensures editing.None? ==>
        r == Ok(NewBookmark(old(list.bookmarkService.bookmarks),
                            data.(tags := Some(Dedupe([name] + data.tags.GetOr([])))), now)) &&
        r.value.tags[0] == name &&
        list.bookmarkService.bookmarks == [r.value] + old(list.bookmarkService.bookmarks) &&
        list.bookmarks == [r.value] + old(list.bookmarks)
      ensures editing.Some? && FindFirst(old(list.bookmarkService.bookmarks), HasKey(BookmarkKey, editing.value.id)).None? ==>
        r == Err("Bookmark not found") &&
        list.bookmarkService.bookmarks == old(list.bookmarkService.bookmarks) && list.bookmarks == old(list.bookmarks)
      ensures editing.Some? && FindFirst(old(list.bookmarkService.bookmarks), HasKey(BookmarkKey, editing.value.id)).Some? ==>
        var i := FindFirst(old(list.bookmarkService.bookmarks), HasKey(BookmarkKey, editing.value.id)).value;
        r == Ok(MergeBookmark(old(list.bookmarkService.bookmarks)[i], data, editing.value.id, now)) &&
        list.bookmarkService.bookmarks == old(list.bookmarkService.bookmarks)[i := r.value] &&
        list.bookmarks == ReplaceById(old(list.bookmarks), editing.value.id, r.value)
      ensures (&& old(list.Mirrors()) && old(UniqueIds(list.bookmarkService.bookmarks, BookmarkKey))
               && (editing.Some? ==> editing.value in old(list.bookmarks))
               && (r.Ok? ==> name in r.value.tags))
              ==> list.Mirrors()
    {
      if editing.Some? {
        r := list.SaveEdit(editing.value, data, now);
      } else {
        var created := list.SaveNew(data.(tags := Some(Dedupe([name] + data.tags.GetOr([])))), now);
        assert name in created.tags;
        r := Ok(created);
      }
    }
  }
}
