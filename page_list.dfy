/** The bookmark list a page holds (`bookmarks` state and the filter bar's state), the handlers
    the three bookmark pages share verbatim, and how the list keeps mirroring the store. */
module PageList {
  import opened Wrappers
  import opened Seqs
  import opened StableSort
  import opened Records
  import opened BookmarkStore
  import opened BookmarkQuery

  /** Which of the store's bookmarks a page lists. */
  datatype Scope = CollectionScope(cid: int) | TagScope(name: string) | RecentScope(cutoff: int)

  /** Created strictly after `cutoff` (`isAfter(new Date(b.createdAt), cutoffDate)`). */
  function CreatedAfter(cutoff: int): Bookmark -> bool {
    (b: Bookmark) => b.createdAt > cutoff
  }

  /** The membership test the page applies to the whole store when it loads. */
  function Belongs(scope: Scope): Bookmark -> bool {
    match scope
    case CollectionScope(cid) => InCollection(cid)
    case TagScope(name) => HasTag(name)
    case RecentScope(cutoff) => CreatedAfter(cutoff)
  }

  /** `prev.map(b => b.Id === id ? updated : b)`. */
  function ReplaceById(bs: seq<Bookmark>, id: int, updated: Bookmark): (r: seq<Bookmark>)
    ensures |r| == |bs|
    ensures forall i :: 0 <= i < |bs| && bs[i].id == id ==> r[i] == updated
    ensures forall i :: 0 <= i < |bs| && bs[i].id != id ==> r[i] == bs[i]
  {
    seq(|bs|, i requires 0 <= i < |bs| => if bs[i].id == id then updated else bs[i])
  }

  /** An element of a filtered list occurs in the list it was filtered from. */
  lemma FilterMember<T>(s: seq<T>, p: T -> bool, x: T) returns (k: nat)
    requires x in Filter(s, p)
    ensures k < |s| && s[k] == x && p(x)
  {
    assert x in multiset(s);
    k :| 0 <= k < |s| && s[k] == x;
  }

  /** No element of `Filter(t, p)` has an id no element of `t` has. */
  lemma FilterAvoidsId(t: seq<Bookmark>, p: Bookmark -> bool, id: int)
    requires forall k :: 0 <= k < |t| ==> t[k].id != id
    ensures forall k :: 0 <= k < |Filter(t, p)| ==> Filter(t, p)[k].id != id
  {
    forall k | 0 <= k < |Filter(t, p)| ensures Filter(t, p)[k].id != id {
      var j := FilterMember(t, p, Filter(t, p)[k]);
    }
  }

  /** Filtering a list with `y` at index `i` filters the parts before and after it apart. */
  lemma FilterAround(store: seq<Bookmark>, p: Bookmark -> bool, i: nat, y: Bookmark)
    requires i < |store|
    ensures Filter(store[..i] + [y] + store[i + 1..], p)
         == Filter(store[..i], p) + (if p(y) then [y] else []) + Filter(store[i + 1..], p)
  {
    var a, b := store[..i], store[i + 1..];
    FilterConcat(a + [y], b, p);
    FilterConcat(a, [y], p);
    FilterCons(y, [], p);
    assert [y] + [] == [y];
  }

  /** With unique ids, the records before and after index `i` carry ids other than `store[i]`'s. */
  lemma OthersAvoidId(store: seq<Bookmark>, i: nat, a: seq<Bookmark>, b: seq<Bookmark>)
    requires i < |store| && UniqueIds(store, BookmarkKey)
    requires a == store[..i] && b == store[i + 1..]
    ensures forall k :: 0 <= k < |a| ==> a[k].id != store[i].id
    ensures forall k :: 0 <= k < |b| ==> b[k].id != store[i].id
  {
    forall k | 0 <= k < |a| ensures a[k].id != store[i].id {
      assert BookmarkKey(store[k]) != BookmarkKey(store[i]);
    }
    forall k | 0 <= k < |b| ensures b[k].id != store[i].id {
      assert BookmarkKey(store[i]) != BookmarkKey(store[i + 1 + k]);
    }
  }

  /** Replacing by an id that only the middle record carries swaps in the update there. */
  lemma ReplaceMiddle(fa: seq<Bookmark>, x: Bookmark, fb: seq<Bookmark>, u: Bookmark)
    requires forall k :: 0 <= k < |fa| ==> fa[k].id != x.id
    requires forall k :: 0 <= k < |fb| ==> fb[k].id != x.id
    ensures ReplaceById(fa + [x] + fb, x.id, u) == fa + [u] + fb
  {
    var fx, fu := fa + [x], fa + [u];
    var l, want := fx + fb, fu + fb;
    var r := ReplaceById(l, x.id, u);
    assert |fx| == |fu| == |fa| + 1;
    forall j | 0 <= j < |r| ensures r[j] == want[j] {
      if j < |fa| {
        assert l[j] == fx[j] == fa[j] && want[j] == fu[j] == fa[j];
      } else if j == |fa| {
        assert l[j] == fx[j] == x && want[j] == fu[j] == u;
      } else {
        var k := j - |fx|;
        assert l[j] == fb[k] && want[j] == fb[k];
      }
    }
  }

  /** Updating a listed record in the store and replacing it by id in the page's list keep
      the list equal to the store's members, provided the new record is still a member. */
  lemma UpdateMirrors(store: seq<Bookmark>, p: Bookmark -> bool, i: nat, u: Bookmark)
    requires i < |store| && UniqueIds(store, BookmarkKey)
    requires p(store[i]) && p(u)
    ensures Filter(store[i := u], p) == ReplaceById(Filter(store, p), store[i].id, u)
  {
    var x := store[i];
    assert store == store[..i] + [x] + store[i + 1..];
    assert store[i := u] == store[..i] + [u] + store[i + 1..];
    FilterAround(store, p, i, x);
    FilterAround(store, p, i, u);
    var a, b := store[..i], store[i + 1..];
    OthersAvoidId(store, i, a, b);
    FilterAvoidsId(a, p, x.id);
    FilterAvoidsId(b, p, x.id);
    ReplaceMiddle(Filter(a, p), x, Filter(b, p), u);
  }

  /** Deleting a record from the store and filtering it out of the page's list by id keep the
      list equal to the store's members. */
  lemma DeleteMirrors(store: seq<Bookmark>, p: Bookmark -> bool, i: nat)
    requires i < |store| && UniqueIds(store, BookmarkKey)
    ensures Filter(RemoveAt(store, i), p) == Filter(Filter(store, p), NotKey(BookmarkKey, store[i].id))
  {
    var x := store[i];
    var q := NotKey(BookmarkKey, x.id);
    assert store == store[..i] + [x] + store[i + 1..];
    assert RemoveAt(store, i) == store[..i] + store[i + 1..];
    FilterConcat(store[..i], store[i + 1..], p);
    FilterAround(store, p, i, x);
    var a, b := store[..i], store[i + 1..];
    OthersAvoidId(store, i, a, b);
    FilterAvoidsId(a, p, x.id);
    FilterAvoidsId(b, p, x.id);
    var fa, fb := Filter(a, p), Filter(b, p);
    var mid := if p(x) then [x] else [];
    FilterConcat(fa + mid, fb, q);
    FilterConcat(fa, mid, q);
    forall k | 0 <= k < |fa| ensures q(fa[k]) {
      assert BookmarkKey(fa[k]) == fa[k].id;
    }
    forall k | 0 <= k < |fb| ensures q(fb[k]) {
      assert BookmarkKey(fb[k]) == fb[k].id;
    }
    FilterKeepsAll(fa, q);
    FilterKeepsAll(fb, q);
    FilterCons(x, [], q);
    assert Filter(mid, q) == [];
    assert fa + [] == fa;
  }

  /** The record an edit is opened on, when the list mirrors the store, is the first record
      with its id in the store, and it is a member. */
  lemma EditedIsStored(store: seq<Bookmark>, p: Bookmark -> bool, e: Bookmark, i: nat)
    requires UniqueIds(store, BookmarkKey) && e in Filter(store, p)
    requires i < |store| && store[i].id == e.id
    ensures store[i] == e && p(store[i])
  {
    var k := FilterMember(store, p, e);
  }

  /** Saving an edit keeps the mirror when the edited record stays a member. */
  lemma EditMirrors(store: seq<Bookmark>, p: Bookmark -> bool, e: Bookmark, i: nat, u: Bookmark)
    requires UniqueIds(store, BookmarkKey) && e in Filter(store, p)
    requires i < |store| && store[i].id == e.id && p(u)
    ensures Filter(store[i := u], p) == ReplaceById(Filter(store, p), e.id, u)
  {
    EditedIsStored(store, p, e, i);
    UpdateMirrors(store, p, i, u);
  }

  class BookmarkList {
    /** The shared bookmark store. */
    const bookmarkService: BookmarkService
    /** The page's `bookmarks` state. */
    var bookmarks: seq<Bookmark>
    /** `searchQuery`, `selectedTags` and `sortBy`. */
    var query: Query
    /** Which bookmarks the page last loaded. */
    ghost var scope: Scope

    constructor (bookmarkService: BookmarkService, scope: Scope)
      ensures this.bookmarkService == bookmarkService && this.scope == scope
      ensures bookmarks == [] && query == InitialQuery
    {
      this.bookmarkService := bookmarkService;
      this.scope := scope;
      bookmarks := [];
      query := InitialQuery;
    }

    /** `filteredBookmarks`, which the page recomputes whenever the list or the query changes. */
    function Visible(): seq<Bookmark>
      reads this
    {
      FilterBookmarks(bookmarks, query)
    }

    /** The list holds exactly the store's members, in store order. */
    ghost predicate Mirrors()
      reads this, bookmarkService
    {
      bookmarks == Filter(bookmarkService.bookmarks, Belongs(scope))
    }

    /** `handleDeleteBookmark`: unless the user confirms nothing happens; a failed delete
        leaves both the store and the list as they were; a successful one also drops every
        record with that id from the list. */
    method DeleteBookmark(b: Bookmark, confirmed: bool) returns (deleted: bool)
      modifies this, bookmarkService
      ensures deleted <==> confirmed && FindFirst(old(bookmarkService.bookmarks), HasKey(BookmarkKey, b.id)).Some?
      ensures !deleted ==> bookmarks == old(bookmarks) && bookmarkService.bookmarks == old(bookmarkService.bookmarks)
      ensures deleted ==>
        bookmarks == Filter(old(bookmarks), NotKey(BookmarkKey, b.id)) &&
        bookmarkService.bookmarks == RemoveAt(old(bookmarkService.bookmarks),
                                              FindFirst(old(bookmarkService.bookmarks), HasKey(BookmarkKey, b.id)).value)
      ensures query == old(query) && scope == old(scope)
      ensures old(Mirrors()) && old(UniqueIds(bookmarkService.bookmarks, BookmarkKey)) ==> Mirrors()
    {
      if !confirmed {
        return false;
      }
      ghost var store := bookmarkService.bookmarks;
      ghost var mirrored := Mirrors();
      var r := bookmarkService.Delete(b.id);
      if r.Err? {
        return false;
      }
      ghost var i := FindFirst(store, HasKey(BookmarkKey, b.id)).value;
      if mirrored && UniqueIds(store, BookmarkKey) {
        DeleteMirrors(store, Belongs(scope), i);
      }
      bookmarks := Filter(bookmarks, NotKey(BookmarkKey, b.id));
      deleted := true;
    }

    /** The edit branch of `handleSaveBookmark`: update the store, then replace the record by
        id in the list; a failed update changes neither. The list keeps mirroring the store when
        the edited record was listed and the updated one still belongs. */
    method SaveEdit(e: Bookmark, payload: BookmarkPatch, now: int) returns (r: Result<Bookmark, string>)
      modifies this, bookmarkService
      ensures query == old(query) && scope == old(scope)
      ensures FindFirst(old(bookmarkService.bookmarks), HasKey(BookmarkKey, e.id)).None? ==>
        r == Err("Bookmark not found") &&
        bookmarkService.bookmarks == old(bookmarkService.bookmarks) && bookmarks == old(bookmarks)
      ensures FindFirst(old(bookmarkService.bookmarks), HasKey(BookmarkKey, e.id)).Some? ==>
        var i := FindFirst(old(bookmarkService.bookmarks), HasKey(BookmarkKey, e.id)).value;
        r == Ok(MergeBookmark(old(bookmarkService.bookmarks)[i], payload, e.id, now)) &&
        bookmarkService.bookmarks == old(bookmarkService.bookmarks)[i := r.value] &&
        bookmarks == ReplaceById(old(bookmarks), e.id, r.value)
      ensures (&& old(Mirrors()) && old(UniqueIds(bookmarkService.bookmarks, BookmarkKey))
               && e in old(bookmarks) && (r.Ok? ==> Belongs(scope)(r.value)))
              ==> Mirrors()
    {
      ghost var store := bookmarkService.bookmarks;
      ghost var mirrored := Mirrors();
      r := bookmarkService.Update(e.id, payload, now);
      if r.Err? {
        return;
      }
      ghost var i := FindFirst(store, HasKey(BookmarkKey, e.id)).value;
      if mirrored && UniqueIds(store, BookmarkKey) && e in bookmarks && Belongs(scope)(r.value) {
        EditMirrors(store, Belongs(scope), e, i, r.value);
      }
      bookmarks := ReplaceById(bookmarks, e.id, r.value);
    }

    /** The add branch of `handleSaveBookmark` on the collection and tag pages: create the
        record and put it in front of the list, which keeps the mirror when it belongs. */
    method SaveNew(payload: BookmarkPatch, now: int) returns (created: Bookmark)
      modifies this, bookmarkService
      ensures query == old(query) && scope == old(scope)
      ensures created == NewBookmark(old(bookmarkService.bookmarks), payload, now)
      ensures bookmarkService.bookmarks == [created] + old(bookmarkService.bookmarks)
      ensures bookmarks == [created] + old(bookmarks)
      ensures old(Mirrors()) && Belongs(scope)(created) ==> Mirrors()
    {
      ghost var store := bookmarkService.bookmarks;
      created := bookmarkService.Create(payload, now);
      FilterCons(created, store, Belongs(scope));
      bookmarks := [created] + bookmarks;
    }

    /** `handleTagRemove`: drop every selected tag with that tag's id. */
    method TagRemove(t: Tag)
      modifies this
      ensures query == old(query).(selectedTags := Filter(old(query.selectedTags), NotKey(TagKey, t.id)))
      ensures forall i :: 0 <= i < |query.selectedTags| ==> query.selectedTags[i].id != t.id
      ensures bookmarks == old(bookmarks) && scope == old(scope)
    {
      query := query.(selectedTags := Filter(query.selectedTags, NotKey(TagKey, t.id)));
    }

    /** `handleClearFilters`: empty the search and the tag selection; the sort key stays, so
        the page then shows its whole list in sorted order. */
    method ClearFilters()
      modifies this
      ensures query == old(query).(searchQuery := "", selectedTags := [])
      ensures Visible() == Sort(bookmarks, Order(query.sortBy))
      ensures multiset(Visible()) == multiset(bookmarks)
      ensures bookmarks == old(bookmarks) && scope == old(scope)
    {
      query := query.(searchQuery := "", selectedTags := []);
      ClearedQueryOnlySorts(bookmarks, query.sortBy);
    }
  }
}
