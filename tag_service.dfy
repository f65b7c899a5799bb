/** The in-memory tag store. Usage counts are recounted over the bookmark store on every read,
    by tag NAME; `getAll` lists the most used tags first. */
module TagStore {
  import opened Wrappers
  import opened Seqs
  import opened Records
  import opened StableSort
  import opened BookmarkStore

  /** `{ ...tag, usageCount }`: the number of bookmarks (not tag occurrences) naming the tag. */
  function WithUsage(t: Tag, bookmarks: seq<Bookmark>): (r: Tag)
    ensures r.usageCount == Count(bookmarks, HasTag(t.name))
    ensures r.(usageCount := t.usageCount) == t
  {
    t.(usageCount := |Filter(bookmarks, HasTag(t.name))|)
  }

  /** `this.tags.map(tag => ({ ...tag, usageCount }))`. */
  function TagsWithUsage(tags: seq<Tag>, bookmarks: seq<Bookmark>): (r: seq<Tag>)
    ensures |r| == |tags|
    ensures forall i :: 0 <= i < |r| ==> r[i] == WithUsage(tags[i], bookmarks)
  {
    seq(|tags|, i requires 0 <= i < |tags| => WithUsage(tags[i], bookmarks))
  }

  /** The comparator `(a, b) => b.usageCount - a.usageCount` allows `a` before `b`. */
  predicate MoreUsed(a: Tag, b: Tag) {
    a.usageCount >= b.usageCount
  }

  /** The tag's name is `name` (`t => t.name === name`). */
  function Named(name: string): Tag -> bool {
    (t: Tag) => t.name == name
  }

  /** The tag's usage count is `n`. */
  function UsedTimes(n: int): Tag -> bool {
    (t: Tag) => t.usageCount == n
  }

  lemma MoreUsedIsTotalPreorder()
    ensures TotalPreorder(MoreUsed)
  {
  }

  /** `getAll`'s sort: most used first; tags used equally often keep their store order. */
  function ByUsage(tags: seq<Tag>): (r: seq<Tag>)
    ensures multiset(r) == multiset(tags)
    ensures forall i, j :: 0 <= i < j < |r| ==> r[i].usageCount >= r[j].usageCount
    ensures forall n :: Filter(r, UsedTimes(n)) == Filter(tags, UsedTimes(n))
  {
    MoreUsedIsTotalPreorder();
    SortSorted(tags, MoreUsed);
    SameUsageKeepsOrder(tags);
    Sort(tags, MoreUsed)
  }

  /** Tags used `n` times keep their relative order through the sort. */
  lemma SameUsageKeepsOrder(tags: seq<Tag>)
    ensures forall n :: Filter(Sort(tags, MoreUsed), UsedTimes(n)) == Filter(tags, UsedTimes(n))
  {
    forall n ensures Filter(Sort(tags, MoreUsed), UsedTimes(n)) == Filter(tags, UsedTimes(n)) {
      SameUsageKeepsOrderAt(tags, n);
    }
  }

  lemma SameUsageKeepsOrderAt(tags: seq<Tag>, n: int)
    ensures Filter(Sort(tags, MoreUsed), UsedTimes(n)) == Filter(tags, UsedTimes(n))
  {
    var y := Tag(0, "", None, "", n);
    var sorted := Sort(tags, MoreUsed);
    MoreUsedIsTotalPreorder();
    SortStable(tags, y, MoreUsed);
    forall i | 0 <= i < |sorted| ensures SameRank(y, MoreUsed)(sorted[i]) == UsedTimes(n)(sorted[i]) {
      SameRankIsUsage(n, sorted[i]);
    }
    forall i | 0 <= i < |tags| ensures SameRank(y, MoreUsed)(tags[i]) == UsedTimes(n)(tags[i]) {
      SameRankIsUsage(n, tags[i]);
    }
    FilterSamePredicate(sorted, SameRank(y, MoreUsed), UsedTimes(n));
    FilterSamePredicate(tags, SameRank(y, MoreUsed), UsedTimes(n));
  }

  /** Under `MoreUsed`, ranking level with a tag used `n` times means being used `n` times. */
  lemma SameRankIsUsage(n: int, t: Tag)
    ensures SameRank(Tag(0, "", None, "", n), MoreUsed)(t) == UsedTimes(n)(t)
  {
    var y := Tag(0, "", None, "", n);
    assert SameRank(y, MoreUsed)(t) == (MoreUsed(y, t) && MoreUsed(t, y));
  }

  /** When all tags named `name` are used equally often, sorting by usage does not change
      which of them comes first. */
  lemma FirstNamedSurvivesSort(counted: seq<Tag>, name: string, n: int)
    requires forall k :: 0 <= k < |counted| && Named(name)(counted[k]) ==> UsedTimes(n)(counted[k])
    ensures First(ByUsage(counted), Named(name)) == First(counted, Named(name))
  {
    var sorted := ByUsage(counted);
    forall k | 0 <= k < |sorted| && Named(name)(sorted[k]) ensures UsedTimes(n)(sorted[k]) {
      assert sorted[k] in multiset(counted);
      var j :| 0 <= j < |counted| && counted[j] == sorted[k];
    }
    FirstWithinFilter(sorted, Named(name), UsedTimes(n));
    FirstWithinFilter(counted, Named(name), UsedTimes(n));
  }

  /** Attaching usage counts leaves names, and so the first tag with a name, where they were. */
  lemma FirstNamedCounted(tags: seq<Tag>, bookmarks: seq<Bookmark>, name: string)
    ensures FindFirst(TagsWithUsage(tags, bookmarks), Named(name)) == FindFirst(tags, Named(name))
  {
    FindFirstSame(TagsWithUsage(tags, bookmarks), Named(name), tags, Named(name));
  }

  /** The record `create` builds: `{ Id: maxId + 1, ...data, usageCount: 0 }`.
      Keys the payload lacks are empty. */
  function NewTag(store: seq<Tag>, data: TagPatch): (t: Tag)
    ensures data.id.None? ==> forall i :: 0 <= i < |store| ==> store[i].id < t.id
    ensures data.id.None? && store == [] ==> t.id == 1
    ensures data.id.None? ==> t.id == NextId(store, TagKey)
    ensures data.id.Some? ==> t.id == data.id.value
    ensures data.name.Some? ==> t.name == data.name.value
    ensures data.category.Some? ==> t.category == data.category.value
    ensures data.color.Some? ==> t.color == data.color.value
    ensures data.name.None? ==> t.name == ""
    ensures data.category.None? ==> t.category == ""
    ensures data.color.None? ==> t.color == None
    ensures t.usageCount == 0
  {
    Tag(data.id.GetOr(NextId(store, TagKey)), data.name.GetOr(""), data.color.GetOr(None),
        data.category.GetOr(""), 0)
  }

  /** The record `update` builds: `{ ...prev, ...data, Id: id }`. */
  function MergeTag(prev: Tag, data: TagPatch, id: int): (t: Tag)
    ensures t.id == id
    ensures t.name == data.name.GetOr(prev.name)
    ensures t.color == data.color.GetOr(prev.color)
    ensures t.category == data.category.GetOr(prev.category)
    ensures t.usageCount == data.usageCount.GetOr(prev.usageCount)
  {
    Tag(id, data.name.GetOr(prev.name), data.color.GetOr(prev.color),
        data.category.GetOr(prev.category), data.usageCount.GetOr(prev.usageCount))
  }

  /** A create without an `Id` in its payload keeps the ids unique. */
  lemma CreateKeepsIdsUnique(store: seq<Tag>, data: TagPatch)
    requires UniqueIds(store, TagKey) && data.id.None?
    ensures UniqueIds(store + [NewTag(store, data)], TagKey)
  {
    var s' := store + [NewTag(store, data)];
    forall i, j | 0 <= i < j < |s'| ensures TagKey(s'[i]) != TagKey(s'[j]) {
      assert s'[i] == store[i];
    }
  }

  /** A bookmark created in front of the store raises the count of each tag it names by one. */
  lemma UsageAfterBookmarkCreate(bookmarks: seq<Bookmark>, data: BookmarkPatch, now: int, t: Tag)
    ensures var b := NewBookmark(bookmarks, data, now);
            WithUsage(t, [b] + bookmarks).usageCount
            == WithUsage(t, bookmarks).usageCount + (if t.name in b.tags then 1 else 0)
  {
    CountPrepend(NewBookmark(bookmarks, data, now), bookmarks, HasTag(t.name));
  }

  /** Deleting a bookmark lowers the count of each tag it names by one. */
  lemma UsageAfterBookmarkDelete(bookmarks: seq<Bookmark>, i: nat, t: Tag)
    requires i < |bookmarks|
    ensures WithUsage(t, RemoveAt(bookmarks, i)).usageCount
         == WithUsage(t, bookmarks).usageCount - (if t.name in bookmarks[i].tags then 1 else 0)
  {
    CountRemoveAt(bookmarks, i, HasTag(t.name));
  }

  /** A tag that a bookmark names twice is still counted once for it. */
  lemma UsageCountsBookmarksNotOccurrences(b: Bookmark, t: Tag)
    requires b.tags == [t.name, t.name]
    ensures WithUsage(t, [b]).usageCount == 1
  {
    assert HasTag(t.name)(b);
    assert [b][1..] == [];
  }

  class TagService {
    /** `this.tags`, in creation order. */
    var tags: seq<Tag>
    /** The bookmark store the counts are taken over. */
    const bookmarkService: BookmarkService

    constructor (seed: seq<Tag>, bookmarkService: BookmarkService)
      ensures tags == seed && this.bookmarkService == bookmarkService
    {
      tags := seed;
      this.bookmarkService := bookmarkService;
    }

    /** `getAll`: every tag with its current usage count, most used first, ties in store order. */
    function GetAll(): (r: seq<Tag>)
      reads this, bookmarkService
      ensures multiset(r) == multiset(TagsWithUsage(tags, bookmarkService.bookmarks))
      ensures forall i :: 0 <= i < |r| ==> r[i].usageCount == Count(bookmarkService.bookmarks, HasTag(r[i].name))
      ensures forall i, j :: 0 <= i < j < |r| ==> r[i].usageCount >= r[j].usageCount
      ensures forall n :: Filter(r, UsedTimes(n)) == Filter(TagsWithUsage(tags, bookmarkService.bookmarks), UsedTimes(n))
    {
      var counted := TagsWithUsage(tags, bookmarkService.bookmarks);
      var r := ByUsage(counted);
      assert forall i :: 0 <= i < |r| ==> r[i] in multiset(counted);
      r
    }

    /** `getById`: the first tag with that id and its current usage count, or `None`. */
    function GetById(id: int): (r: Option<Tag>)
      reads this, bookmarkService
      ensures r.None? <==> forall i :: 0 <= i < |tags| ==> tags[i].id != id
      ensures r.Some? ==> r.value.id == id && r.value.usageCount == Count(bookmarkService.bookmarks, HasTag(r.value.name))
      ensures r.Some? ==> exists i :: 0 <= i < |tags| && tags[i] == r.value.(usageCount := tags[i].usageCount) &&
                                       forall j :: 0 <= j < i ==> tags[j].id != id
    {
      assert forall j :: 0 <= j < |tags| ==> (HasKey(TagKey, id)(tags[j]) <==> tags[j].id == id);
      match FindFirst(tags, HasKey(TagKey, id))
      case None => None
      case Some(i) => Some(WithUsage(tags[i], bookmarkService.bookmarks))
    }

    /** `getByName`: the first tag whose name is exactly `name`, with its usage count, or `None`. */
    function GetByName(name: string): (r: Option<Tag>)
      reads this, bookmarkService
      ensures r.None? <==> forall i :: 0 <= i < |tags| ==> tags[i].name != name
      ensures r.Some? ==> r.value.name == name && r.value.usageCount == Count(bookmarkService.bookmarks, HasTag(name))
      ensures r.Some? ==> exists i :: 0 <= i < |tags| && tags[i] == r.value.(usageCount := tags[i].usageCount) &&
                                       forall j :: 0 <= j < i ==> tags[j].name != name
    {
      match FindFirst(tags, Named(name))
      case None => None
      case Some(i) => Some(WithUsage(tags[i], bookmarkService.bookmarks))
    }

    /** `create`: the new tag goes after all others. */
    method Create(data: TagPatch) returns (created: Tag)
      modifies this
      ensures created == NewTag(old(tags), data)
      ensures tags == old(tags) + [created]
    {
      created := NewTag(tags, data);
      tags := tags + [created];
    }

    /** `update`: merge the payload over the first tag with that id, in place. A rename does
        not touch the bookmarks that carry the old name: only `this` may change. */
    method Update(id: int, data: TagPatch) returns (r: Result<Tag, string>)
      modifies this
      ensures FindFirst(old(tags), HasKey(TagKey, id)).None? ==>
        r == Err("Tag not found") && tags == old(tags)
      ensures FindFirst(old(tags), HasKey(TagKey, id)).Some? ==>
        var i := FindFirst(old(tags), HasKey(TagKey, id)).value;
        r == Ok(MergeTag(old(tags)[i], data, id)) && tags == old(tags)[i := r.value]
      ensures bookmarkService.bookmarks == old(bookmarkService.bookmarks)
    {
      match FindFirst(tags, HasKey(TagKey, id))
      case None =>
        r := Err("Tag not found");
      case Some(i) =>
        var updated := MergeTag(tags[i], data, id);
        tags := tags[i := updated];
        r := Ok(updated);
    }

    /** `delete`: remove the first tag with that id. */
    method Delete(id: int) returns (r: Result<bool, string>)
      modifies this
      ensures FindFirst(old(tags), HasKey(TagKey, id)).None? ==>
        r == Err("Tag not found") && tags == old(tags)
      ensures FindFirst(old(tags), HasKey(TagKey, id)).Some? ==>
        r == Ok(true) && tags == RemoveAt(old(tags), FindFirst(old(tags), HasKey(TagKey, id)).value)
    {
      match FindFirst(tags, HasKey(TagKey, id))
      case None =>
        r := Err("Tag not found");
      case Some(i) =>
        tags := RemoveAt(tags, i);
        r := Ok(true);
    }
  }
}
