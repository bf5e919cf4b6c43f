/** The note form: its field defaults, and the tag list it keeps free of
    duplicates while tags are added and removed. */
module NoteForm {
  import opened Wrappers
  import opened Types
  import opened Text
  import opened Seqs
  import NoteStore

  /** `formData`. */
  datatype FormData = FormData(
    title: string, subtitle: string, content: string, category: string, tags: seq<string>,
    backgroundColor: string, fontFamily: string, fontSize: string)

  /** The form's starting values: the note being edited, with each empty or
      missing field defaulted. */
  function InitialForm(initial: Option<Note>): (f: FormData)
    ensures initial.None? ==>
      f == FormData("", "", "", "", [], NoteStore.DefaultBackground, NoteStore.DefaultFont, NoteStore.DefaultFontSize)
    ensures initial.Some? ==>
      (&& f.title == initial.value.title && f.content == initial.value.content
       && f.subtitle == OrElse(initial.value.subtitle, "") && f.category == OrElse(initial.value.category, "")
       && f.tags == (if initial.value.tags.Some? then initial.value.tags.value else [])
       && f.backgroundColor == OrElse(initial.value.backgroundColor, NoteStore.DefaultBackground)
       && f.fontFamily == OrElse(initial.value.fontFamily, NoteStore.DefaultFont)
       && f.fontSize == OrElse(initial.value.fontSize, NoteStore.DefaultFontSize))
  {
    match initial
    case None => FormData("", "", "", "", [], NoteStore.DefaultBackground, NoteStore.DefaultFont, NoteStore.DefaultFontSize)
    case Some(n) =>
      FormData(n.title, OrElse(n.subtitle, ""), n.content, OrElse(n.category, ""),
               if n.tags.Some? then n.tags.value else [],
               OrElse(n.backgroundColor, NoteStore.DefaultBackground),
               OrElse(n.fontFamily, NoteStore.DefaultFont), OrElse(n.fontSize, NoteStore.DefaultFontSize))
  }

  /** What `handleSubmit` hands to the page: every field present. */
  function Submitted(f: FormData): (fields: NoteFields)
    ensures fields.title == Some(f.title) && fields.content == Some(f.content) && fields.tags == Some(f.tags)
  {
    NoteFields(Some(f.title), Some(f.subtitle), Some(f.content), Some(f.category), Some(f.tags),
               Some(f.backgroundColor), Some(f.fontFamily), Some(f.fontSize))
  }

  /** Submitting an untouched new form inserts the same row as adding a note
      with no fields at all: the form's defaults and the store's agree. */
  lemma BlankFormMatchesStoreDefaults(userId: string, now: string, encrypt: Cipher)
    ensures NoteStore.NewRow(Submitted(InitialForm(None)), userId, now, encrypt)
      == NoteStore.NewRow(NoteFields(None, None, None, None, None, None, None, None), userId, now, encrypt)
  {
  }

  /** The tags and the tag input, the part of the form the tag buttons change. */
  datatype TagState = TagState(tags: seq<string>, input: string)

  /** `handleAddTag`: the trimmed input is appended, and the input cleared,
      only when it is non-blank and not yet a tag. */
  function AddTag(s: TagState): (r: TagState)
    ensures Trim(s.input) != "" && Trim(s.input) !in s.tags ==> r == TagState(s.tags + [Trim(s.input)], "")
    ensures Trim(s.input) == "" || Trim(s.input) in s.tags ==> r == s
    ensures forall t :: t in r.tags <==> t in s.tags || (t == Trim(s.input) && t != "")
  {
    var t := Trim(s.input);
    if t != "" && t !in s.tags then TagState(s.tags + [t], "") else s
  }

  /** `handleRemoveTag`: every occurrence goes; the others keep their order. */
  function RemoveTag(s: TagState, tag: string): (r: TagState)
    ensures forall t :: t in r.tags <==> t in s.tags && t != tag
    ensures IsSubseq(r.tags, s.tags) && r.input == s.input
  {
    s.(tags := Filter(s.tags, t => t != tag))
  }

  /** What the user does to the tags. */
  datatype TagEvent = TypeTag(text: string) | ClickAdd | ClickRemove(tag: string)

  function TagStep(s: TagState, e: TagEvent): TagState {
    match e
    case TypeTag(text) => s.(input := text)
    case ClickAdd => AddTag(s)
    case ClickRemove(tag) => RemoveTag(s, tag)
  }

  function RunTags(s: TagState, events: seq<TagEvent>): TagState
    decreases |events|
  {
    if events == [] then s else RunTags(TagStep(s, events[0]), events[1..])
  }

  /** Every tag is non-empty and trimmed, and none occurs twice. */
  predicate GoodTags(tags: seq<string>) {
    NoDuplicates(tags) && forall i :: 0 <= i < |tags| ==> tags[i] != "" && Trim(tags[i]) == tags[i]
  }

  lemma StepKeepsGoodTags(s: TagState, e: TagEvent)
    requires GoodTags(s.tags)
    ensures GoodTags(TagStep(s, e).tags)
  {
    StepKeepsNoDuplicates(s, e);
    TrimIdempotent(s.input);
    var r := TagStep(s, e).tags;
    forall i | 0 <= i < |r| ensures r[i] != "" && Trim(r[i]) == r[i] {
      assert r[i] in s.tags || (!e.ClickRemove? && r[i] == Trim(s.input) != "");
    }
  }

  /** One typing, add or remove never creates a duplicate, whatever the
      tags looked like before. */
  lemma StepKeepsNoDuplicates(s: TagState, e: TagEvent)
    requires NoDuplicates(s.tags)
    ensures NoDuplicates(TagStep(s, e).tags)
  {
    match e
    case TypeTag(_) =>
    case ClickAdd =>
      var t := Trim(s.input);
      if t != "" && t !in s.tags {
        var r := s.tags + [t];
        forall i, j | 0 <= i < j < |r| ensures r[i] != r[j] {
          if j == |s.tags| {
            assert r[i] == s.tags[i];
          } else {
            assert r[i] == s.tags[i] && r[j] == s.tags[j];
          }
        }
      }
    case ClickRemove(tag) =>
      FilterNoDuplicates(s.tags, t => t != tag);
  }

  /** From any duplicate-free tag list, including the stored tags an edit
      form starts with, any sequence of typing, adding and removing keeps
      the tags duplicate-free. */
  lemma {:induction false} TagsStayDuplicateFree(s: TagState, events: seq<TagEvent>)
    requires NoDuplicates(s.tags)
    ensures NoDuplicates(RunTags(s, events).tags)
    decreases |events|
  {
    if events != [] {
      StepKeepsNoDuplicates(s, events[0]);
      TagsStayDuplicateFree(TagStep(s, events[0]), events[1..]);
    }
  }

  /** Starting from a good tag list (a new form's empty list is one; an
      edited note's stored tags need not be), any sequence of typing, adding
      and removing keeps it free of duplicates and of blank or untrimmed
      tags. */
  lemma {:induction false} TagsStayDistinct(s: TagState, events: seq<TagEvent>)
    requires GoodTags(s.tags)
    ensures GoodTags(RunTags(s, events).tags)
    decreases |events|
  {
    if events != [] {
      StepKeepsGoodTags(s, events[0]);
      TagsStayDistinct(TagStep(s, events[0]), events[1..]);
    }
  }

  class NoteForm {
    var formData: FormData
    var tagInput: string

    function Tags(): TagState
      reads this
    {
      TagState(formData.tags, tagInput)
    }

    constructor (initial: Option<Note>)
      ensures formData == InitialForm(initial) && tagInput == ""
    {
      formData := InitialForm(initial);
      tagInput := "";
    }

    method SetTagInput(text: string)
      modifies this
      ensures Tags() == TagStep(old(Tags()), TypeTag(text)) && formData == old(formData)
    {
      tagInput := text;
    }

    method HandleAddTag()
      modifies this
      ensures Tags() == AddTag(old(Tags()))
      ensures formData == old(formData).(tags := Tags().tags)
    {
      var t := Trim(tagInput);
      if t != "" && t !in formData.tags {
        formData := formData.(tags := formData.tags + [t]);
        tagInput := "";
      }
    }

    method HandleRemoveTag(tag: string)
      modifies this
      ensures Tags() == RemoveTag(old(Tags()), tag)
      ensures formData == old(formData).(tags := Tags().tags)
    {
      formData := formData.(tags := Filter(formData.tags, t => t != tag));
    }

    /** `handleSubmit`: the form as it stands. */
    method HandleSubmit() returns (fields: NoteFields)
      ensures fields == Submitted(formData)
    {
      fields := Submitted(formData);
    }
  }
}
