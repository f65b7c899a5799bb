# Bookmark manager core, modelled in Dafny

This project models the core of a single-page bookmark manager. It covers:

- the in-memory stores for bookmarks, collections and tags, which are mutable arrays behind asynchronous service objects;
- the preferences store kept in one local-storage slot;
- the three list pages (a collection's bookmarks, a tag's bookmarks, the last seven days);
- the tag picker;
- the add/edit bookmark dialog.

Modules, one per source file or shared concern:

- `BookmarkStore`, `CollectionStore`, `TagStore` and `SettingsStore` are the four services. Each service is a `class`. Its array is a `seq` field that `Create`, `Update` and `Delete` reassign. The reads are functions that `read` the store and, for the derived counts, the bookmark store.
  - Records are built by pure functions (`NewBookmark`, `MergeBookmark`, …). Each store method states its new state through them.
  - The lemmas beside them prove the following:
    - ids stay unique when a create carries no id;
    - counts are recomputed from the live bookmark set;
    - the usage sort keeps tags with equal counts in store order;
    - merges are idempotent.
- `BookmarkQuery` is the search / tag / sort pipeline that the three pages repeat word for word. Its `FilterBookmarks` is proved to keep exactly the bookmarks the query lets through, sorted by the chosen order, and stable.
- `PageList` is the list a page holds and the handlers the pages share (delete, the two branches of a save, tag-chip removal, clear filters). The central invariant, `Mirrors`, says that the page's list is exactly the store's members of the page's scope, in store order.
  - Deletes preserve it when the stored ids are unique, and so do edits that keep the record in scope. Adds preserve it whenever the new record is in scope.
  - Unique ids matter: `SuppliedIdCanDuplicate` shows a duplicate id can be stored, and then the store drops only the first record with the id while the list drops every one.
  - The lemmas `UpdateMirrors`, `DeleteMirrors` and `EditMirrors` prove this by splitting the store around the changed record.
- `CollectionView`, `TagView` and `RecentView` are the three pages, each with its `loadData` and `handleSaveBookmark`.
- `TagSelector` holds the picker's transitions: suggestions, select, remove, create, and Enter / Backspace.
- `BookmarkForm` is the dialog: filling the form, validation, title autofill from the URL, and the payload built on submit.
- `Seqs`, `Text` and `StableSort` are the sequence, string and stable-sort vocabulary the above are written in. `StableSort` stands for JavaScript's `Array.prototype.sort`, which is stable; it is an insertion sort, proved sorted, a permutation and stable.

Environment inputs that the model takes as parameters:

- the clock is a `now: int` argument, in milliseconds;
- `Date.now()` / `Math.random()` ids are a `stamp` argument;
- `new URL(s)` is a `parse` function argument that yields a host name or nothing;
- the user's answer to the delete confirmation is a `confirmed: bool` argument.

Where the design notes and the code disagree, the model follows the code:

- **Ids are reused.** The design says ids are never reused after deletion. The code allocates `max + 1` over the live records (bookmarkService.js:23-28), so deleting the newest record frees its id for the next create. `BookmarkStore.IdReusedAfterDeletingNewest` states this.
- **No merge with defaults on read.** The design says stored preferences are merged with the defaults on read. `getPreferences` returns the stored record as parsed (settingsService.js:14-17), and only an empty slot yields the defaults.

## Model

| member | source | states |
|---|---|---|
| BookmarkStore.NewBookmark | src/services/api/bookmarkService.js:23-32 | without a supplied `Id` the new id is the largest stored id plus one (`NextId`), so above every stored id, and 1 on an empty store; a supplied `Id` wins; both timestamps are the clock; every payload key is carried and every missing one is empty |
| BookmarkStore.MergeBookmark | src/services/api/bookmarkService.js:46-51 | the id is the requested one and `updatedAt` the clock; payload keys overwrite, every other key (and `createdAt` unless the payload has one) is kept |
| BookmarkStore.MergeNothing | src/services/api/bookmarkService.js:46-51 | an empty payload only refreshes `updatedAt` |
| BookmarkStore.MergeIdempotent | src/services/api/bookmarkService.js:46-51 | applying the same update twice equals applying it once |
| BookmarkStore.CreateKeepsIdsUnique | src/services/api/bookmarkService.js:23-34 | prepending a created record without a supplied id keeps ids unique |
| BookmarkStore.SuppliedIdCanDuplicate | src/services/api/bookmarkService.js:27-29 | a payload carrying an id in use yields a duplicate id, because the spread overrides `maxId + 1` |
| BookmarkStore.UpdateKeepsIdsUnique | src/services/api/bookmarkService.js:46-53 | replacing a record by its merge keeps ids unique |
| BookmarkStore.IdReusedAfterDeletingNewest | src/services/api/bookmarkService.js:23-28 | create, delete that record, create again: the second record gets the first one's id |
| BookmarkStore.BookmarkService.constructor | src/services/api/bookmarkService.js:4-6 | the store starts as the seed list |
| BookmarkStore.BookmarkService.GetById | src/services/api/bookmarkService.js:14-18 | `None` exactly when no record has the id; otherwise the first record with it |
| BookmarkStore.BookmarkService.Create | src/services/api/bookmarkService.js:20-36 | returns `NewBookmark` over the old store and puts it in front of all others |
| BookmarkStore.BookmarkService.Update | src/services/api/bookmarkService.js:38-55 | unknown id: error "Bookmark not found", store unchanged; else the first match is replaced in place by its merge, which is returned |
| BookmarkStore.BookmarkService.Delete | src/services/api/bookmarkService.js:57-67 | unknown id: error "Bookmark not found", store unchanged; else the first match is removed and `true` returned |
| BookmarkStore.BookmarkService.GetByCollection | src/services/api/bookmarkService.js:69-72 | an order-preserving subsequence of the store, all in the collection, as many as the store holds |
| BookmarkStore.BookmarkService.GetByTag | src/services/api/bookmarkService.js:74-77 | an order-preserving subsequence of the store, all carrying the tag name, as many as the store holds |
| CollectionStore.WithCount | src/services/api/collectionService.js:15-17 | the count is the number of bookmarks whose `collectionId` is the collection's id; nothing else changes |
| CollectionStore.NewCollection | src/services/api/collectionService.js:36-52 | id as for bookmarks (the largest stored id plus one, `NextId`, 1 when empty, or the supplied one); name from the payload, empty when missing; count 0; `createdAt` the clock |
| CollectionStore.MergeCollection | src/services/api/collectionService.js:54-70 | the id is the requested one; each payload key overwrites, others are kept |
| CollectionStore.CreateKeepsIdsUnique | src/services/api/collectionService.js:36-52 | appending a created collection without a supplied id keeps ids unique |
| CollectionStore.CountAfterBookmarkCreate | src/services/api/collectionService.js:9-21 | after a bookmark create, a collection's count rises by one exactly when the new bookmark is in it |
| CollectionStore.CountAfterBookmarkDelete | src/services/api/collectionService.js:9-21 | after a bookmark delete, a collection's count falls by one exactly when the deleted bookmark was in it |
| CollectionStore.CollectionService.constructor | src/services/api/collectionService.js:5-7 | the store starts as the seed list over the given bookmark store |
| CollectionStore.CollectionService.GetAll | src/services/api/collectionService.js:9-21 | every stored collection in order, each with the live member count and otherwise unchanged |
| CollectionStore.CollectionService.GetById | src/services/api/collectionService.js:23-34 | `None` exactly when no collection has the id; otherwise the first with it, with its live count |
| CollectionStore.CollectionService.Create | src/services/api/collectionService.js:36-52 | returns `NewCollection` over the old store and appends it |
| CollectionStore.CollectionService.Update | src/services/api/collectionService.js:54-70 | unknown id: error "Collection not found", store unchanged; else the first match is replaced by its merge |
| CollectionStore.CollectionService.Delete | src/services/api/collectionService.js:72-82 | unknown id: error "Collection not found"; else the first match is removed; member bookmarks are untouched |
| TagStore.WithUsage | src/services/api/tagService.js:15-19 | the usage count is the number of bookmarks whose tags include the tag's name; nothing else changes |
| TagStore.TagsWithUsage | src/services/api/tagService.js:15-20 | same length as the store, each tag with its live usage count |
| TagStore.MoreUsedIsTotalPreorder | src/services/api/tagService.js:23 | the comparator `b.usageCount - a.usageCount` is a total preorder |
| TagStore.ByUsage | src/services/api/tagService.js:23 | a permutation, non-increasing in usage count, and tags of equal count keep their relative order |
| TagStore.SameUsageKeepsOrder | src/services/api/tagService.js:23 | for every count n, the tags used n times appear in the same order before and after the sort |
| TagStore.FirstNamedSurvivesSort | src/services/api/tagService.js:23 | when all tags of one name are used equally often, the first of that name is the same before and after the sort |
| TagStore.FirstNamedCounted | src/services/api/tagService.js:15-20 | attaching counts does not move the first tag of a given name |
| TagStore.NewTag | src/services/api/tagService.js:56-71 | id as for bookmarks (the largest stored id plus one, `NextId`, 1 when empty, or the supplied one); name, category and colour from the payload, empty when missing; usage count 0 |
| TagStore.MergeTag | src/services/api/tagService.js:73-89 | the id is the requested one; each payload key overwrites, others are kept |
| TagStore.CreateKeepsIdsUnique | src/services/api/tagService.js:56-71 | appending a created tag without a supplied id keeps ids unique |
| TagStore.UsageAfterBookmarkCreate | src/services/api/tagService.js:9-24 | after a bookmark create, a tag's count rises by one exactly when the new bookmark names it |
| TagStore.UsageAfterBookmarkDelete | src/services/api/tagService.js:9-24 | after a bookmark delete, a tag's count falls by one exactly when the deleted bookmark named it |
| TagStore.UsageCountsBookmarksNotOccurrences | src/services/api/tagService.js:16-18 | a bookmark naming a tag twice counts once |
| TagStore.TagService.constructor | src/services/api/tagService.js:5-7 | the store starts as the seed list over the given bookmark store |
| TagStore.TagService.GetAll | src/services/api/tagService.js:9-24 | a permutation of the counted tags, each with its live count, most used first, ties in store order |
| TagStore.TagService.GetById | src/services/api/tagService.js:26-39 | `None` exactly when no tag has the id; otherwise the first stored tag with that id, unchanged except for its live usage count |
| TagStore.TagService.GetByName | src/services/api/tagService.js:41-54 | `None` exactly when no tag has the name; otherwise the first tag with it, with its live count |
| TagStore.TagService.Create | src/services/api/tagService.js:56-71 | returns `NewTag` over the old store and appends it |
| TagStore.TagService.Update | src/services/api/tagService.js:73-89 | unknown id: error "Tag not found", store unchanged; else the first match is replaced by its merge; bookmarks keep the old name |
| TagStore.TagService.Delete | src/services/api/tagService.js:91-101 | unknown id: error "Tag not found"; else the first match is removed |
| SettingsStore.Merge | src/services/api/settingsService.js:58 | each key the patch carries is taken from it, every other key from the current record |
| SettingsStore.ThemeOnly | src/services/api/settingsService.js:36 | the theme patch carries the theme and nothing else |
| SettingsStore.MergeIdempotent | src/services/api/settingsService.js:58 | merging the same patch again changes nothing |
| SettingsStore.MergeTwice | src/services/api/settingsService.js:58 | two merges in a row equal one merge of the later patch laid over the earlier |
| SettingsStore.MergeFullPatch | src/services/api/settingsService.js:58 | a patch with every key replaces the record |
| SettingsStore.SettingsService.constructor | src/services/api/settingsService.js:4-7 | the slot and the defaults are as given |
| SettingsStore.SettingsService.GetPreferences | src/services/api/settingsService.js:9-25 | empty slot: the defaults; parsed slot: the stored record as is; fails, with "Failed to fetch user preferences", exactly when the slot does not parse |
| SettingsStore.SettingsService.UpdateTheme | src/services/api/settingsService.js:27-48 | a theme outside light/dark/auto, or an unreadable slot, fails with "Failed to update theme preference" and writes nothing; else the merged record is stored and returned |
| SettingsStore.SettingsService.UpdatePreferences | src/services/api/settingsService.js:50-70 | a missing settings object, or an unreadable slot, fails with "Failed to update preferences" and writes nothing; else the merge is stored and returned |
| SettingsStore.SettingsService.ResetToDefaults | src/services/api/settingsService.js:72-85 | the slot is cleared, the defaults returned, and the next read yields the defaults |
| SettingsStore.UpdateTwiceSameAsOnce | src/services/api/settingsService.js:50-70 | two identical `updatePreferences` calls leave the slot as one does |
| BookmarkQuery.OrderIsTotalPreorder | src/components/pages/CollectionView.jsx:104-114 | each of the three comparators (title, url, newest first) is a total preorder |
| BookmarkQuery.FiltersAreOneFilter | src/components/pages/CollectionView.jsx:84-101 | the search step then the tag step is one filter by the combined test |
| BookmarkQuery.FilterBookmarks | src/components/pages/CollectionView.jsx:81-117 | a permutation of the bookmarks the query lets through, sorted by the chosen comparator |
| BookmarkQuery.ShownIff | src/components/pages/CollectionView.jsx:81-117 | a bookmark is displayed if and only if it is in the list and passes both tests |
| BookmarkQuery.SortKeepsListOrder | src/components/pages/CollectionView.jsx:104-114 | displayed bookmarks the comparator ranks level keep their list order |
| BookmarkQuery.PipelineIdempotent | src/components/pages/CollectionView.jsx:81-117 | running the pipeline on its own output changes nothing |
| BookmarkQuery.ClearedQueryOnlySorts | src/components/pages/CollectionView.jsx:160-163 | with search and tags cleared every bookmark is displayed, only sorted |
| BookmarkQuery.SearchIgnoresQueryCase | src/components/pages/CollectionView.jsx:86-92 | the search test does not depend on the query's letter case |
| BookmarkQuery.PaddedQueryIsNotTrimmed | src/components/pages/CollectionView.jsx:85-92 | the guard trims the query but the match does not, so a padded query hides a bookmark the bare query shows |
| BookmarkQuery.MoreTagsShowMore | src/components/pages/CollectionView.jsx:96-101 | the tag filter is "any of": selecting more tags never hides a shown bookmark |
| PageList.UpdateMirrors | src/components/pages/CollectionView.jsx:122-126 | replacing a member in the store and by id in the page list keeps the list equal to the store's members |
| PageList.DeleteMirrors | src/components/pages/CollectionView.jsx:142-146 | removing a record from the store and filtering its id out of the page list keeps the list equal to the store's members |
| PageList.EditMirrors | src/components/pages/CollectionView.jsx:119-127 | saving an edit of a listed record that stays in scope keeps the list equal to the store's members |
| PageList.BookmarkList.constructor | src/components/pages/CollectionView.jsx:22-30 | the list starts empty, with no search, no tags, newest first |
| PageList.BookmarkList.DeleteBookmark | src/components/pages/CollectionView.jsx:142-154 | deletes exactly when confirmed and the id is stored; the store loses the first match, the list every record with that id; the mirror invariant is kept when the stored ids are unique |
| PageList.BookmarkList.SaveEdit | src/components/pages/CollectionView.jsx:121-126 | the edit branch: the store's first record with the id is merged in place and the list replaces it by id, or both stay as they were with "Bookmark not found"; the mirror is kept when the stored ids are unique and the record stays in scope |
| PageList.BookmarkList.SaveNew | src/components/pages/CollectionView.jsx:127-132 | the add branch: the new record goes in front of the store and of the list; the mirror is kept when it is in scope |
| PageList.BookmarkList.TagRemove | src/components/pages/CollectionView.jsx:156-158 | no selected tag keeps the removed tag's id; the list is unchanged |
| PageList.BookmarkList.ClearFilters | src/components/pages/CollectionView.jsx:160-163 | the sort key stays; the displayed list is the whole list, sorted |
| CollectionView.CollectionPage.constructor | src/components/pages/CollectionView.jsx:21-36 | the page starts empty, scoped to its collection id |
| CollectionView.CollectionPage.Load | src/components/pages/CollectionView.jsx:46-79 | unknown collection: error "Collection not found", nothing else changes; else the collection, the store's members in order, all tags and all collections |
| CollectionView.CollectionPage.Save | src/components/pages/CollectionView.jsx:119-140 | the saved record is always in this collection; an add prepends to store and list, an edit replaces by id or fails "Bookmark not found"; the mirror invariant is kept when the stored ids are unique |
| TagView.FoundTagIsFirstByName | src/components/pages/TagView.jsx:61-65 | the tag found by name in the usage-sorted list is the first stored tag of that name |
| TagView.EditCanKeepUntaggedBookmark | src/components/pages/TagView.jsx:123-128 | an edit that drops the page's tag leaves the bookmark listed, so list and store disagree |
| TagView.TagPage.constructor | src/components/pages/TagView.jsx:22-37 | the page starts empty, scoped to its tag name |
| TagView.TagPage.Load | src/components/pages/TagView.jsx:49-83 | no tag of that name: error "Tag not found", nothing else changes; else that tag, the store's bookmarks carrying the name in order, all tags and all collections |
| TagView.TagPage.Save | src/components/pages/TagView.jsx:123-142 | an add carries the page's tag name first, deduplicated, and is prepended; an edit replaces by id or fails; the mirror is kept when the stored ids are unique and the record still carries the name |
| RecentView.Cutoff | src/components/pages/Recent.jsx:58-61 | the cutoff lies exactly seven days of milliseconds before the clock |
| RecentView.RecentPage.constructor | src/components/pages/Recent.jsx:20-34 | the page starts empty |
| RecentView.RecentPage.Load | src/components/pages/Recent.jsx:46-72 | the list is the store's bookmarks created after the cutoff, in order, so each is under seven days old |
| RecentView.RecentPage.Save | src/components/pages/Recent.jsx:112-131 | an add is prepended; an edit replaces by id or fails "Bookmark not found"; the mirror is kept when the stored ids are unique and the record stays after the cutoff |
| RecentView.AddedAfterLoadIsRecent | src/components/pages/Recent.jsx:119-123 | a bookmark created at or after loading is after the cutoff, so the unconditional prepend keeps the mirror |
| TagSelector.Suggestions | src/components/molecules/TagSelector.jsx:21-27 | an order-preserving subsequence of the available tags: exactly those whose name contains the input, ignoring case, and that are not selected, each kept as often as it is available |
| TagSelector.RemoveTag | src/components/molecules/TagSelector.jsx:47-50 | no remaining selected tag has the removed id; every selected tag with another id is kept, in order; the input stays |
| TagSelector.CustomTag | src/components/molecules/TagSelector.jsx:54-60 | the new tag's id is the stamp, its name the trimmed input, its category "custom", its colour "primary", its usage 0 |
| TagSelector.CreateTag | src/components/molecules/TagSelector.jsx:52-65 | text that no available tag has, ignoring case, appends a custom tag and clears the input; otherwise nothing changes |
| TagSelector.KeyDown | src/components/molecules/TagSelector.jsx:67-78 | Enter on text picks the first suggestion or creates; Backspace on an empty input removes the last chip; every other case changes nothing |
| TagSelector.SelectTag | src/components/molecules/TagSelector.jsx:41-45 | the picked tag is appended after the earlier selection, which stays as it was; the input is cleared |
| TagSelector.SelectThenRemove | src/components/molecules/TagSelector.jsx:41-50 | removing a tag just selected restores the selection |
| TagSelector.EnterThenBackspace | src/components/molecules/TagSelector.jsx:67-78 | Enter on text then Backspace restores the selection |
| TagSelector.PaddedNameCreatesDuplicate | src/components/molecules/TagSelector.jsx:53-56 | "react " is neither suggested nor taken by an available "react", and creates a second tag named "react" |
| BookmarkForm.EditForm | src/components/organisms/AddBookmarkModal.jsx:35-41 | url, title, description and tag names are copied from the bookmark; collection 0 becomes the empty choice |
| BookmarkForm.Validate | src/components/organisms/AddBookmarkModal.jsx:56-75 | "URL is required" exactly for a blank URL, "Please enter a valid URL" exactly for one that does not parse, "Title is required" exactly for a blank title; no errors exactly when all pass |
| BookmarkForm.SuggestedTitle | src/components/organisms/AddBookmarkModal.jsx:85-86 | the suggested title is the domain's first dot-separated label with its first letter upper-cased |
| BookmarkForm.UrlChanged | src/components/organisms/AddBookmarkModal.jsx:77-97 | the URL is stored; a title or description already typed is kept; when adding with an empty title and a parsing URL, the title and description are filled from the host |
| BookmarkForm.Payload | src/components/organisms/AddBookmarkModal.jsx:109-116 | every form field, tag names and the favicon address; when editing, the bookmark's id and timestamps as well |
| BookmarkForm.Submit | src/components/organisms/AddBookmarkModal.jsx:99-121 | rejected exactly when validation reports an error, with those errors; otherwise the payload |
| BookmarkForm.EditRoundTrip | src/components/organisms/AddBookmarkModal.jsx:109-116 | opening a valid bookmark and saving it unchanged stores it again, apart from the new `updatedAt`, the favicon derived from its URL and a collection id 0 that became the empty choice |
| BookmarkForm.UrlChangedIdempotent | src/components/organisms/AddBookmarkModal.jsx:77-97 | typing the same URL again changes nothing |
| BookmarkForm.GithubDomain | src/components/organisms/AddBookmarkModal.jsx:85 | host "www.github.com" has domain "github.com" |
| BookmarkForm.GithubTitle | src/components/organisms/AddBookmarkModal.jsx:86 | host "www.github.com" suggests the title "Github" |
| BookmarkForm.BookmarkDialog.constructor | src/components/organisms/AddBookmarkModal.jsx:19-28 | the dialog starts with the empty form and no errors |
| BookmarkForm.BookmarkDialog.Open | src/components/organisms/AddBookmarkModal.jsx:31-54 | the form is filled from the bookmark or emptied; errors are cleared |
| BookmarkForm.BookmarkDialog.ChangeUrl | src/components/organisms/AddBookmarkModal.jsx:77-97 | the form becomes `UrlChanged` of the old form; nothing else changes |
| BookmarkForm.BookmarkDialog.HandleSubmit | src/components/organisms/AddBookmarkModal.jsx:99-130 | the errors become the validation result; a payload is sent exactly when there are none, and it is the submission's payload; the form is unchanged |
| Seqs.NextId | src/services/api/bookmarkService.js:23-28 | `max + 1` over the ids, 1 for an empty list, above every id |
| Seqs.Dedupe | src/components/pages/TagView.jsx:132 | no repeats, same members, an order-preserving subsequence, and every element occurs in the input before any occurrence of the elements after it, so the elements stand in the order of their first occurrences |
| StableSort.SortStable | src/services/api/tagService.js:23 | the sort keeps the relative order of elements the comparator ranks level |
| StableSort.SortSorted | src/services/api/tagService.js:23 | the sort's output is ordered by any total-preorder comparator |

## Left out

- Latency: the `setTimeout` delay in every service method and the `Promise.all` fan-out in each `loadData` are left out. Operations run synchronously, one at a time. The catch branches around `Promise.all` cannot be reached once the services are synchronous and are not modelled.
- Persistence and parsing: `localStorage` and `JSON.parse`/`stringify` become an `Option<Stored>` slot, where `Malformed` stands for a parse failure. An empty stored string reads as an empty slot, as `if (stored)` treats it. The defaults fixture (settings.json) is a constructor argument.
- `resetToDefaults` cannot fail once `removeItem` is a field assignment, so its "Failed to reset preferences" path is not modelled.
- Rendering: JSX rendering, toasts, `window.confirm` (the user's answer is a parameter), and the `loading`, `isOpen`, `viewMode` and `isLoading` flags are left out. The sidebar refresh is left out too.
- Input handlers that only forward values: the click-outside handler and the `onChange` wiring of the picker are not modelled.
- Locale and Unicode: `localeCompare` is modelled as code-point order on strings. `toLowerCase`/`toUpperCase` map ASCII letters only. `trim` strips space, tab, line feed, carriage return, vertical tab, form feed, U+00A0 and U+FEFF. JS `trim` also strips U+1680, U+2000 to U+200A, U+2028, U+2029, U+202F, U+205F and U+3000, which the model keeps.
- Dates: timestamps are integer milliseconds, not ISO strings. `subDays(now, 7)` is a fixed 7 × 86 400 000 ms, so calendar and daylight-saving effects are not modelled.
- URLs: `new URL` is a parameter returning a host name or nothing, so URL syntax is not modelled.
- Dynamic typing: the `<select>` yields `collectionId` as a string while the stores compare numbers. The model types it `Option<int>` throughout and does not reproduce the mismatch. A route id that `parseInt` reads as `NaN` is not modelled; the page takes an integer id.
- Field defaults: fields a create payload omits are the empty string or list, not JavaScript's `undefined`. Records always carry every field, so `bookmark.tags && …` guards and `|| ""` fallbacks reduce to their defined case.
- Random ids: `Date.now() + Math.random()` tag ids in the edit form become a `stamp` function, and `Date.now()` in the picker a `stamp` argument.
- Sorting: the pages sort a fresh array with `Array.prototype.sort`. The model sorts a `seq` value with a stable insertion sort; update in place and aliasing of that temporary array are not modelled.
- Dialog to page wiring: the connection from the dialog's `onSave` to a page's `handleSaveBookmark` is not a Dafny call. `BookmarkDialog.HandleSubmit`'s payload is what a page's `Save` receives as `data`, and the edited bookmark as `editing`.
- Copies: `getAll`'s defensive copy is the `GetAll` function over the store; it has no contract, since it returns the field as is.
- TagView.TagPage.Save: keeps the mirror only when the saved record still carries the page's tag name. `EditCanKeepUntaggedBookmark` shows that an edit that drops the tag leaves the page's list and the store disagreeing, as the source does.
- Presentational components (sidebar, header, filter bar, cards, settings page, layout theming) are not part of this model.
