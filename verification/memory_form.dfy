/**
 * The memory form's state and the rules that edit it: trimmed, duplicate-free
 * tag and companion lists, and the guard that keeps a form without an emotion
 * from being submitted.
 */
module MemoryForm {
  import opened Types
  import opened Seqs
  import opened Text

  /** The form's fields; an emotion not yet chosen is `None`. */
  datatype FormData = FormData(
    title: string,
    description: string,
    location: string,
    date: string,
    emotion: Option<Emotion>,
    tags: seq<string>,
    companions: seq<string>,
    mood: int,
    isPublic: bool)

  /** The fields plus the text typed into the tag and companion inputs. */
  datatype FormState = FormState(data: FormData, currentTag: string, currentCompanion: string)

  /** A fresh form, dated `today`. */
  function InitialForm(today: string): (f: FormState)
    ensures f.data.title == "" && f.data.description == "" && f.data.location == ""
    ensures f.data.date == today && f.data.emotion == None
    ensures f.data.tags == [] && f.data.companions == []
    ensures f.data.mood == 5 && !f.data.isPublic
    ensures f.currentTag == "" && f.currentCompanion == ""
  {
    FormState(FormData("", "", "", today, None, [], [], 5, false), "", "")
  }

  /** A list and the text of its input field. */
  datatype Entry = Entry(items: seq<string>, pending: string)

  /**
   * Add the trimmed input text to the list, unless it trims to nothing or is
   * already listed; a successful add clears the input.
   */
  function AddEntry(items: seq<string>, pending: string): (e: Entry)
    ensures e.items == items || e.items == items + [Trim(pending)]
    ensures e.items != items <==> Trim(pending) != "" && Trim(pending) !in items
    ensures e.pending == if e.items != items then "" else pending
  {
    var t := Trim(pending);
    if t != "" && t !in items then Entry(items + [t], "") else Entry(items, pending)
  }

  /** The list without any element equal to `x`, the rest in their original order. */
  function RemoveEntry(items: seq<string>, x: string): (r: seq<string>)
    ensures x !in r
    ensures forall i :: 0 <= i < |items| && items[i] != x ==> items[i] in r
    ensures forall i :: 0 <= i < |r| ==> r[i] in items
    ensures Subsequence(r, items)
    ensures x !in items ==> r == items
  {
    Filter(items, (y: string) => y != x)
  }

  /** Add the typed tag; only the tag list and the tag input can change. */
  function AddTag(f: FormState): (f': FormState)
    ensures f'.data == f.data.(tags := f'.data.tags) && f'.currentCompanion == f.currentCompanion
    ensures Trim(f.currentTag) == "" || Trim(f.currentTag) in f.data.tags ==> f' == f
    ensures Trim(f.currentTag) != "" && Trim(f.currentTag) !in f.data.tags ==>
      f'.data.tags == f.data.tags + [Trim(f.currentTag)] && f'.currentTag == ""
  {
    var e := AddEntry(f.data.tags, f.currentTag);
    f.(data := f.data.(tags := e.items), currentTag := e.pending)
  }

  /** Remove every copy of `tag`; only the tag list changes. */
  function RemoveTag(f: FormState, tag: string): (f': FormState)
    ensures f' == f.(data := f.data.(tags := f'.data.tags))
    ensures tag !in f'.data.tags
    ensures forall i :: 0 <= i < |f.data.tags| && f.data.tags[i] != tag ==> f.data.tags[i] in f'.data.tags
    ensures Subsequence(f'.data.tags, f.data.tags)
  {
    f.(data := f.data.(tags := RemoveEntry(f.data.tags, tag)))
  }

  /** Add the typed companion; only the companion list and the companion input can change. */
  function AddCompanion(f: FormState): (f': FormState)
    ensures f'.data == f.data.(companions := f'.data.companions) && f'.currentTag == f.currentTag
    ensures Trim(f.currentCompanion) == "" || Trim(f.currentCompanion) in f.data.companions ==> f' == f
    ensures Trim(f.currentCompanion) != "" && Trim(f.currentCompanion) !in f.data.companions ==>
      f'.data.companions == f.data.companions + [Trim(f.currentCompanion)] && f'.currentCompanion == ""
  {
    var e := AddEntry(f.data.companions, f.currentCompanion);
    f.(data := f.data.(companions := e.items), currentCompanion := e.pending)
  }

  /** Remove every copy of `companion`; only the companion list changes. */
  function RemoveCompanion(f: FormState, companion: string): (f': FormState)
    ensures f' == f.(data := f.data.(companions := f'.data.companions))
    ensures companion !in f'.data.companions
    ensures forall i :: 0 <= i < |f.data.companions| && f.data.companions[i] != companion ==>
      f.data.companions[i] in f'.data.companions
    ensures Subsequence(f'.data.companions, f.data.companions)
  {
    f.(data := f.data.(companions := RemoveEntry(f.data.companions, companion)))
  }

  /**
   * Submitting: nothing without an emotion; otherwise the form's fields, with the
   * season always set to summer.
   */
  function HandleSubmit(f: FormState): (r: Option<MemoryInput>)
    ensures r.None? <==> f.data.emotion.None?
    ensures r.Some? ==>
      var d, m := f.data, r.value;
      && m.emotion == d.emotion.value && m.season == Summer
      && m.title == d.title && m.description == d.description && m.location == d.location
      && m.date == d.date && m.tags == d.tags && m.companions == d.companions
      && m.mood == d.mood && m.isPublic == d.isPublic
  {
    match f.data.emotion
    case None => None
    case Some(e) =>
      var d := f.data;
      Some(MemoryInput(d.title, d.description, d.location, d.date, e, d.tags, d.companions, d.mood, d.isPublic, Summer))
  }

  /** A list the form keeps: no duplicates, and every entry non-empty and trimmed. */
  predicate CleanList(items: seq<string>) {
    Distinct(items) && forall i :: 0 <= i < |items| ==> items[i] != "" && Trimmed(items[i])
  }

  lemma AddEntryKeepsClean(items: seq<string>, pending: string)
    requires CleanList(items)
    ensures CleanList(AddEntry(items, pending).items)
  {
    var t := Trim(pending);
    if t != "" && t !in items {
      AppendDistinct(items, t);
    }
  }

  lemma RemoveEntryKeepsClean(items: seq<string>, x: string)
    requires CleanList(items)
    ensures CleanList(RemoveEntry(items, x))
  {
    FilterDistinct(items, (y: string) => y != x);
  }

  /** The user's edits to the tag and companion lists. */
  datatype FormEdit =
    | TypeTag(text: string)
    | SubmitTag
    | DeleteTag(tag: string)
    | TypeCompanion(text: string)
    | SubmitCompanion
    | DeleteCompanion(companion: string)

  function Apply(f: FormState, edit: FormEdit): FormState {
    match edit
    case TypeTag(text) => f.(currentTag := text)
    case SubmitTag => AddTag(f)
    case DeleteTag(tag) => RemoveTag(f, tag)
    case TypeCompanion(text) => f.(currentCompanion := text)
    case SubmitCompanion => AddCompanion(f)
    case DeleteCompanion(c) => RemoveCompanion(f, c)
  }

  function ApplyAll(f: FormState, edits: seq<FormEdit>): FormState
    decreases |edits|
  {
    if |edits| == 0 then f else ApplyAll(Apply(f, edits[0]), edits[1..])
  }

  /**
   * Under any sequence of edits from a fresh form, the tag and companion lists stay
   * duplicate-free, with no empty or untrimmed entry.
   */
  lemma {:induction false} ListsStayClean(f: FormState, edits: seq<FormEdit>)
    requires CleanList(f.data.tags) && CleanList(f.data.companions)
    ensures CleanList(ApplyAll(f, edits).data.tags)
    ensures CleanList(ApplyAll(f, edits).data.companions)
    decreases |edits|
  {
    if |edits| > 0 {
      match edits[0] {
        case SubmitTag => AddEntryKeepsClean(f.data.tags, f.currentTag);
        case DeleteTag(tag) => RemoveEntryKeepsClean(f.data.tags, tag);
        case SubmitCompanion => AddEntryKeepsClean(f.data.companions, f.currentCompanion);
        case DeleteCompanion(c) => RemoveEntryKeepsClean(f.data.companions, c);
        case _ =>
      }
      ListsStayClean(Apply(f, edits[0]), edits[1..]);
    }
  }

  lemma FreshFormStaysClean(today: string, edits: seq<FormEdit>)
    ensures CleanList(ApplyAll(InitialForm(today), edits).data.tags)
    ensures CleanList(ApplyAll(InitialForm(today), edits).data.companions)
  {
    ListsStayClean(InitialForm(today), edits);
  }
}
