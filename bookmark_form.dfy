/** The add/edit bookmark dialog: its form state, how it is filled when the dialog opens,
    validation, the title/description autofill on URL entry, and the payload it submits. */
module BookmarkForm {
  import opened Wrappers
  import opened Text
  import opened Records
  import opened BookmarkStore

  /** What `new URL(s)` yields when it does not throw: only the host name is used. */
  datatype Url = Url(hostname: string)

  /** `formData`; `collectionId` `None` is the empty choice `""`. */
  datatype Form = Form(url: string, title: string, description: string, tags: seq<Tag>,
                       collectionId: Option<int>)

  /** `errors`: at most one message per field. */
  datatype FormErrors = FormErrors(url: Option<string>, title: Option<string>)

  const NoErrors := FormErrors(None, None)

  /** The form of a dialog opened to add. */
  const EmptyForm := Form("", "", "", [], None)

  const UrlRequired := "URL is required"
  const UrlInvalid := "Please enter a valid URL"
  const TitleRequired := "Title is required"

  /** The form of a dialog opened on `b`: each tag name becomes an unused custom tag without
      colour whose id is `stamp(i)`; a collection id 0, being falsy, becomes the empty choice. */
  function EditForm(b: Bookmark, stamp: nat -> int): (f: Form)
    ensures f.url == b.url && f.title == b.title && f.description == b.description
    ensures TagNames(f.tags) == b.tags
    ensures forall i :: 0 <= i < |f.tags| ==> f.tags[i].category == "custom" && f.tags[i].color.None? && f.tags[i].usageCount == 0
    ensures f.collectionId == if b.collectionId == Some(0) then None else b.collectionId
  {
    var tags := seq(|b.tags|, i requires 0 <= i < |b.tags| => Tag(stamp(i), b.tags[i], None, "custom", 0));
    Form(b.url, b.title, b.description, tags,
         if b.collectionId == Some(0) then None else b.collectionId)
  }

  /** `validateForm`: the URL must have text and parse; the title must have text. */
  function Validate(f: Form, parse: string -> Option<Url>): (e: FormErrors)
    ensures e.url == Some(UrlRequired) <==> IsBlank(f.url)
    ensures e.url == Some(UrlInvalid) <==> !IsBlank(f.url) && parse(f.url).None?
    ensures e.title == Some(TitleRequired) <==> IsBlank(f.title)
    ensures e == NoErrors <==> !IsBlank(f.url) && parse(f.url).Some? && !IsBlank(f.title)
  {
    FormErrors(
      if IsBlank(f.url) then Some(UrlRequired) else if parse(f.url).None? then Some(UrlInvalid) else None,
      if IsBlank(f.title) then Some(TitleRequired) else None)
  }

  /** The host name with its first "www." removed. */
  function Domain(host: string): string {
    ReplaceFirst(host, "www.", "")
  }

  /** The title autofill offers: the domain's first label, capitalised. */
  function SuggestedTitle(host: string): (t: string)
    ensures '.' !in t && |t| <= |Domain(host)|
    ensures |t| < |Domain(host)| ==> Domain(host)[|t|] == '.'
    ensures t != [] ==> t[0] == UpperChar(Domain(host)[0]) && t[1..] == Domain(host)[1..|t|]
  {
    Capitalize(BeforeFirst(Domain(host), '.'))
  }

  /** `handleUrlChange`: the URL is stored; when adding, with a non-empty URL that parses and
      an empty title, the title and (if empty) the description are filled from the host. */
  function UrlChanged(f: Form, url: string, editing: bool, parse: string -> Option<Url>): (r: Form)
    ensures r.url == url && r.tags == f.tags && r.collectionId == f.collectionId
    ensures f.title != "" ==> r.title == f.title && r.description == f.description
    ensures f.description != "" ==> r.description == f.description
    ensures url == "" || editing || parse(url).None? ==> r == f.(url := url)
    ensures url != "" && !editing && f.title == "" && parse(url).Some? ==>
      var host := parse(url).value.hostname;
      r.title == SuggestedTitle(host) &&
      (f.description == "" ==> r.description == "Resource from " + Domain(host))
  {
    var f' := f.(url := url);
    if url != "" && f.title == "" && !editing && parse(url).Some? then
      var host := parse(url).value.hostname;
      f'.(title := SuggestedTitle(host),
          description := if f'.description != "" then f'.description else "Resource from " + Domain(host))
    else f'
  }

  /** The favicon address the dialog stores for a URL's host. */
  function FaviconUrl(host: string): string {
    "https://www.google.com/s2/favicons?domain=" + host + "&sz=32"
  }

  /** `bookmarkData`, laid over the bookmark being edited when there is one: every form
      field (tags as names), the favicon, and when editing also the bookmark's own id and
      timestamps. */
  function Payload(f: Form, editing: Option<Bookmark>, host: string): (p: BookmarkPatch)
    ensures p.url == Some(f.url) && p.title == Some(f.title) && p.description == Some(f.description)
    ensures p.tags == Some(TagNames(f.tags)) && p.collectionId == Some(f.collectionId)
    ensures p.favicon == Some(FaviconUrl(host))
    ensures editing.None? ==> p.id.None? && p.createdAt.None? && p.updatedAt.None?
    ensures editing.Some? ==> p.id == Some(editing.value.id) && p.createdAt == Some(editing.value.createdAt)
                              && p.updatedAt == Some(editing.value.updatedAt)
  {
    BookmarkPatch(
      if editing.Some? then Some(editing.value.id) else None,
      Some(f.url), Some(f.title), Some(f.description), Some(TagNames(f.tags)), Some(f.collectionId),
      Some(FaviconUrl(host)),
      if editing.Some? then Some(editing.value.createdAt) else None,
      if editing.Some? then Some(editing.value.updatedAt) else None)
  }

  /** The outcome of `handleSubmit`: the errors shown, or the payload handed to `onSave`. */
  datatype Submission = Rejected(errors: FormErrors) | Submitted(payload: BookmarkPatch)

  /** `handleSubmit`: a form with errors submits nothing; otherwise the payload is sent. */
  function Submit(f: Form, editing: Option<Bookmark>, parse: string -> Option<Url>): (s: Submission)
    ensures s.Rejected? <==> Validate(f, parse) != NoErrors
    ensures s.Rejected? ==> s.errors == Validate(f, parse)
    ensures s.Submitted? ==> s.payload == Payload(f, editing, parse(f.url).value.hostname)
  {
    if Validate(f, parse) != NoErrors then Rejected(Validate(f, parse))
    else Submitted(Payload(f, editing, parse(f.url).value.hostname))
  }

  /** Opening the dialog on a bookmark and submitting it unchanged stores the same bookmark
      again, apart from the favicon derived from its URL, a collection id 0 that became the
      empty choice, and the new update time. */
  lemma EditRoundTrip(b: Bookmark, stamp: nat -> int, parse: string -> Option<Url>, now: int)
    requires Validate(EditForm(b, stamp), parse) == NoErrors
    ensures var s := Submit(EditForm(b, stamp), Some(b), parse);
            s.Submitted? &&
            MergeBookmark(b, s.payload, b.id, now)
            == b.(favicon := FaviconUrl(parse(b.url).value.hostname), updatedAt := now,
                  collectionId := if b.collectionId == Some(0) then None else b.collectionId)
  {
  }

  /** Typing the same URL again does not change an autofilled form. */
  lemma UrlChangedIdempotent(f: Form, url: string, editing: bool, parse: string -> Option<Url>)
    requires url != "" && parse(url).Some? ==> SuggestedTitle(parse(url).value.hostname) != ""
    ensures UrlChanged(UrlChanged(f, url, editing, parse), url, editing, parse) == UrlChanged(f, url, editing, parse)
  {
  }

  /** A worked example, with `UrlChanged`'s contract: a URL on host "www.github.com" fills
      in the domain "github.com" and the title "Github". */
  lemma GithubDomain(host: string)
    requires host == "www.github.com"
    ensures Domain(host) == "github.com"
  {
    assert OccursAt(host, "www.", 0);
    assert host[4..] == "github.com";
  }

  /** The title offered for host "www.github.com". */
  lemma GithubTitle(host: string)
    requires host == "www.github.com"
    ensures SuggestedTitle(host) == "Github"
  {
    GithubDomain(host);
    GithubLabel(Domain(host));
    GithubCapital(BeforeFirst(Domain(host), '.'));
  }

  lemma GithubLabel(d: string)
    requires d == "github.com"
    ensures BeforeFirst(d, '.') == "github"
  {
    assert d == "github" + ['.'] + "com";
    BeforeFirstOf("github", '.', "com");
  }

  lemma GithubCapital(s: string)
    requires s == "github"
    ensures Capitalize(s) == "Github"
  {
    assert UpperChar('g') == 'G';
  }

  class BookmarkDialog {
    /** The bookmark the dialog edits, or `None` when it adds. */
    var bookmark: Option<Bookmark>
    var form: Form
    var errors: FormErrors
    /** `new URL(s)`, with a throw as `None`. */
    const parse: string -> Option<Url>

    constructor (parse: string -> Option<Url>)
      ensures this.parse == parse && bookmark.None? && form == EmptyForm && errors == NoErrors
    {
      this.parse := parse;
      bookmark := None;
      form := EmptyForm;
      errors := NoErrors;
    }

    /** The effect that runs when the dialog opens: fill the form from the bookmark, or empty
        it, and clear the errors. */
    method Open(b: Option<Bookmark>, stamp: nat -> int)
      modifies this
      ensures bookmark == b && errors == NoErrors
      ensures form == if b.Some? then EditForm(b.value, stamp) else EmptyForm
    {
      bookmark := b;
      form := if b.Some? then EditForm(b.value, stamp) else EmptyForm;
      errors := NoErrors;
    }

    method ChangeUrl(url: string)
      modifies this
      ensures form == UrlChanged(old(form), url, bookmark.Some?, parse)
      ensures bookmark == old(bookmark) && errors == old(errors)
    {
      form := UrlChanged(form, url, bookmark.Some?, parse);
    }

    /** `handleSubmit`: record the validation errors; when there are none, return the payload
        for `onSave`. */
    method HandleSubmit() returns (payload: Option<BookmarkPatch>)
      modifies this
      ensures errors == Validate(form, parse)
      ensures payload.None? <==> errors != NoErrors
      ensures payload.Some? ==> Submit(form, bookmark, parse) == Submitted(payload.value)
      ensures form == old(form) && bookmark == old(bookmark)
    {
      errors := Validate(form, parse);
      if errors != NoErrors {
        return None;
      }
      payload := Some(Payload(form, bookmark, parse(form.url).value.hostname));
    }
  }
}
