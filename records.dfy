/** The records the services store and the pages pass around, and the partial payloads
    that JavaScript object spreads (`{ ...record, ...payload }`) merge over them.
    A payload field `None` is a key the payload does not carry. */
module Records {
  import opened Wrappers

  /** A saved link. `tags` holds tag names, not tag ids; `collectionId` may dangle. */
  datatype Bookmark = Bookmark(
    id: int,
    url: string,
    title: string,
    description: string,
    tags: seq<string>,
    collectionId: Option<int>,
    favicon: string,
    createdAt: int,
    updatedAt: int)

  datatype BookmarkPatch = BookmarkPatch(
    id: Option<int>,
    url: Option<string>,
    title: Option<string>,
    description: Option<string>,
    tags: Option<seq<string>>,
    collectionId: Option<Option<int>>,
    favicon: Option<string>,
    createdAt: Option<int>,
    updatedAt: Option<int>)

  const NoBookmarkChanges := BookmarkPatch(None, None, None, None, None, None, None, None, None)

  /** A named group of bookmarks; `bookmarkCount` is derived on every read. */
  datatype Collection = Collection(id: int, name: string, bookmarkCount: int, createdAt: int)

  datatype CollectionPatch = CollectionPatch(
    id: Option<int>,
    name: Option<string>,
    bookmarkCount: Option<int>,
    createdAt: Option<int>)

  /** A tag; bookmarks refer to it by `name`. `usageCount` is derived on every read. */
  datatype Tag = Tag(id: int, name: string, color: Option<string>, category: string, usageCount: int)

  datatype TagPatch = TagPatch(
    id: Option<int>,
    name: Option<string>,
    color: Option<Option<string>>,
    category: Option<string>,
    usageCount: Option<int>)

  /** `tags.map(tag => tag.name)`. */
  function TagNames(tags: seq<Tag>): (r: seq<string>)
    ensures |r| == |tags|
    ensures forall i :: 0 <= i < |tags| ==> r[i] == tags[i].name
  {
    seq(|tags|, i requires 0 <= i < |tags| => tags[i].name)
  }

  function BookmarkKey(b: Bookmark): int { b.id }
  function CollectionKey(c: Collection): int { c.id }
  function TagKey(t: Tag): int { t.id }

  /** The bookmark belongs to collection `cid` (`b.collectionId === cid`). */
  function InCollection(cid: int): Bookmark -> bool {
    (b: Bookmark) => b.collectionId == Some(cid)
  }

  /** The bookmark carries the tag name `name` (`b.tags && b.tags.includes(name)`). */
  function HasTag(name: string): Bookmark -> bool {
    (b: Bookmark) => name in b.tags
  }
}
