/** The tag picker: suggestions for the typed text, picking a suggestion, removing a chip,
    creating a tag from the typed text, and the Enter/Backspace shortcuts. The picker owns
    only the typed text; the selection belongs to its parent, which `onChange` updates. */
module TagSelector {
  import opened Seqs
  import opened Text
  import opened Records
  import opened Wrappers

  /** The selection the parent holds and the text in the input. */
  datatype Picker = Picker(selected: seq<Tag>, input: string)

  datatype Key = Enter | Backspace | OtherKey

  /** A tag is offered when its lower-cased name contains the lower-cased input (untrimmed)
      and no selected tag has its id. */
  predicate OfferedText(t: Tag, selected: seq<Tag>, input: string) {
    Contains(Lower(t.name), Lower(input)) && forall i :: 0 <= i < |selected| ==> selected[i].id != t.id
  }

  function Offered(selected: seq<Tag>, input: string): Tag -> bool {
    (t: Tag) => OfferedText(t, selected, input)
  }

  /** `filteredTags`: the offered available tags, in the order they are available. */
  function Suggestions(available: seq<Tag>, p: Picker): (r: seq<Tag>)
    ensures forall i :: 0 <= i < |r| ==> OfferedText(r[i], p.selected, p.input)
    ensures forall i :: 0 <= i < |available| && OfferedText(available[i], p.selected, p.input) ==> available[i] in r
    ensures IsSubsequence(r, available)
    ensures |r| == Count(available, Offered(p.selected, p.input))
  {
    forall i | 0 <= i < |available| && OfferedText(available[i], p.selected, p.input)
      ensures available[i] in Filter(available, Offered(p.selected, p.input))
    {
      FilterKeeps(available, Offered(p.selected, p.input), i);
    }
    FilterIsSubsequence(available, Offered(p.selected, p.input));
    Filter(available, Offered(p.selected, p.input))
  }

  /** `handleTagSelect`: append the tag to the selection and clear the input. */
  function SelectTag(p: Picker, t: Tag): (r: Picker)
    ensures |r.selected| == |p.selected| + 1 && r.selected[..|p.selected|] == p.selected
    ensures r.selected[|p.selected|] == t && r.input == ""
  {
    Picker(p.selected + [t], "")
  }

  /** `handleTagRemove`: drop every selected tag with the tag's id; the input stays. */
  function RemoveTag(p: Picker, t: Tag): (r: Picker)
    ensures forall i :: 0 <= i < |r.selected| ==> r.selected[i].id != t.id
    ensures IsSubsequence(r.selected, p.selected) && r.input == p.input
    ensures |r.selected| == Count(p.selected, NotKey(TagKey, t.id))
  {
    var kept := Filter(p.selected, NotKey(TagKey, t.id));
    forall i | 0 <= i < |kept| ensures kept[i].id != t.id {
      assert NotKey(TagKey, t.id)(kept[i]);
      assert TagKey(kept[i]) == kept[i].id;
    }
    FilterIsSubsequence(p.selected, NotKey(TagKey, t.id));
    p.(selected := kept)
  }

  /** Some available tag's lower-cased name equals the lower-cased input (untrimmed). */
  predicate NameTaken(available: seq<Tag>, input: string) {
    exists i :: 0 <= i < |available| && Lower(available[i].name) == Lower(input)
  }

  /** The tag `handleCreateTag` makes: the trimmed input, colour "primary", category "custom",
      unused, with the clock reading `stamp` as its id. */
  function CustomTag(input: string, stamp: int): (t: Tag)
    ensures t.id == stamp && t.name == Trim(input) && t.usageCount == 0
    ensures t.category == "custom" && t.color == Some("primary")
  {
    Tag(stamp, Trim(input), Some("primary"), "custom", 0)
  }

  /** `handleCreateTag`: when the input has text and no available tag has its name (case
      aside), append a new custom tag and clear the input; otherwise nothing changes. */
  function CreateTag(available: seq<Tag>, p: Picker, stamp: int): (r: Picker)
    ensures !IsBlank(p.input) && !NameTaken(available, p.input) ==>
      r.selected == p.selected + [CustomTag(p.input, stamp)] && r.input == ""
    ensures IsBlank(p.input) || NameTaken(available, p.input) ==> r == p
  {
    if !IsBlank(p.input) && !NameTaken(available, p.input) then
      Picker(p.selected + [CustomTag(p.input, stamp)], "")
    else p
  }

  /** `handleKeyDown`. Enter with text in the input picks the first suggestion, or creates a
      tag when there is none; Backspace on an empty input removes the last selected tag. */
  function KeyDown(available: seq<Tag>, p: Picker, key: Key, stamp: int): (r: Picker)
    ensures key == Enter && !IsBlank(p.input) && Suggestions(available, p) != [] ==>
      r == SelectTag(p, Suggestions(available, p)[0])
    ensures key == Enter && !IsBlank(p.input) && Suggestions(available, p) == [] ==>
      r == CreateTag(available, p, stamp)
    ensures key == Backspace && p.input == [] && p.selected != [] ==>
      r == RemoveTag(p, p.selected[|p.selected| - 1])
    ensures key == OtherKey ==> r == p
    ensures key == Enter && IsBlank(p.input) ==> r == p
    ensures key == Backspace && (p.input != [] || p.selected == []) ==> r == p
  {
    if key == Enter && !IsBlank(p.input) then
      var suggestions := Suggestions(available, p);
      if suggestions != [] then SelectTag(p, suggestions[0]) else CreateTag(available, p, stamp)
    else if key == Backspace && p.input == [] && p.selected != [] then
      RemoveTag(p, p.selected[|p.selected| - 1])
    else p
  }

  /** Removing a tag just selected, whose id no other selected tag has, restores the selection. */
  lemma SelectThenRemove(p: Picker, t: Tag)
    requires forall i :: 0 <= i < |p.selected| ==> p.selected[i].id != t.id
    ensures RemoveTag(SelectTag(p, t), t).selected == p.selected
  {
    FilterConcat(p.selected, [t], NotKey(TagKey, t.id));
    forall i | 0 <= i < |p.selected| ensures NotKey(TagKey, t.id)(p.selected[i]) {
      assert TagKey(p.selected[i]) == p.selected[i].id;
    }
    FilterKeepsAll(p.selected, NotKey(TagKey, t.id));
    FilterCons(t, [], NotKey(TagKey, t.id));
    assert [t] == [t] + [];
  }

  /** Enter on typed text followed by Backspace leaves the selection as it was, provided the
      clock reading is not the id of a selected tag. */
  lemma EnterThenBackspace(available: seq<Tag>, p: Picker, stamp: int, stamp': int)
    requires !IsBlank(p.input)
    requires forall i :: 0 <= i < |p.selected| ==> p.selected[i].id != stamp
    ensures KeyDown(available, KeyDown(available, p, Enter, stamp), Backspace, stamp').selected == p.selected
  {
    var q := KeyDown(available, p, Enter, stamp);
    assert p.input != [];
    var suggestions := Suggestions(available, p);
    if suggestions != [] {
      SelectThenRemove(p, suggestions[0]);
    } else if !NameTaken(available, p.input) {
      SelectThenRemove(p, CustomTag(p.input, stamp));
    }
  }

  /** The name check compares the untrimmed input: "react " is not taken by an available tag
      named "react", so Enter creates a second tag named "react". */
  lemma PaddedNameCreatesDuplicate(stamp: int)
    ensures var available := [Tag(1, "react", None, "frameworks", 3)];
            var r := KeyDown(available, Picker([], "react "), Enter, stamp);
            r.selected == [CustomTag("react ", stamp)] && r.selected[0].name == available[0].name
  {
    var available := [Tag(1, "react", None, "frameworks", 3)];
    var p := Picker([], "react ");
    PaddedNameNotOffered(available);
    PaddedNameNotTaken(available);
    TrimPadded("react ");
    assert !IsSpace(p.input[0]);
  }

  lemma PaddedNameNotOffered(available: seq<Tag>)
    requires available == [Tag(1, "react", None, "frameworks", 3)]
    ensures Suggestions(available, Picker([], "react ")) == []
  {
    assert Lower("react ") == "react " && Lower("react") == "react";
    assert !Contains("react", "react ");
    assert !Offered([], "react ")(available[0]);
    FilterCons(available[0], [], Offered([], "react "));
    assert available == [available[0]] + [];
  }

  lemma PaddedNameNotTaken(available: seq<Tag>)
    requires available == [Tag(1, "react", None, "frameworks", 3)]
    ensures !NameTaken(available, "react ")
  {
    assert |Lower(available[0].name)| != |Lower("react ")|;
  }

  lemma TrimPadded(name: string)
    requires name == "react "
    ensures Trim(name) == "react"
  {
    assert LeadingSpace(name) == 0;
    assert name[..5] == "react";
    assert TrailingEnd(name[..5]) == 5;
  }
}
