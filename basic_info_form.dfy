// The basic-information step: text and select fields forwarded as
// one-key payloads, and the tag list with its de-duplicating add and
// its remove.

module BasicInfoForm {
  import opened Wrappers
  import opened Seqs
  import opened CourseFormSlice

  /** A change made in one of this step's inputs. */
  datatype FieldEdit =
    | TitleEdit(text: string)
    | SubtitleEdit(text: string)
    | DescriptionEdit(text: string)
    | CategoryEdit(text: string)
    | LevelEdit(level: Level)
    | LanguageEdit(text: string)

  /** The key each input is bound to. */
  function EditedField(e: FieldEdit): Field {
    match e
    case TitleEdit(_) => Title
    case SubtitleEdit(_) => Subtitle
    case DescriptionEdit(_) => Description
    case CategoryEdit(_) => Category
    case LevelEdit(_) => LevelField
    case LanguageEdit(_) => Language
  }

  /**
   * handleBasicInfoChange, handleDescriptionChange and handleSelectChange:
   * the updateBasicInfo payload holding the edited key alone.
   */
  function ChangePayload(e: FieldEdit): (p: seq<Write>)
    ensures PatchFits(p)
    ensures |p| == 1 && p[0].key == EditedField(e)
  {
    match e
    case TitleEdit(t) => [Write(Title, Text(t))]
    case SubtitleEdit(t) => [Write(Subtitle, Text(t))]
    case DescriptionEdit(t) => [Write(Description, Text(t))]
    case CategoryEdit(t) => [Write(Category, Text(t))]
    case LevelEdit(l) => [Write(LevelField, LevelValue(l))]
    case LanguageEdit(t) => [Write(Language, Text(t))]
  }

  /** An edit writes its own field and leaves every other field as it was. */
  lemma ChangeWritesOnlyItsField(s: CourseFormState, e: FieldEdit)
    ensures var r := Reduce(s, UpdateBasicInfo(ChangePayload(e)));
      forall k :: k != EditedField(e) ==> Read(r, k) == Read(s, k)
    ensures Read(Reduce(s, UpdateBasicInfo(ChangePayload(e))), EditedField(e)) == ChangePayload(e)[0].value
  {
    OneKeyPatch(s, ChangePayload(e)[0]);
  }

  /** What addTag leaves: the list to dispatch, if any, and the tag input. */
  datatype TagEntry = TagEntry(dispatched: Option<seq<string>>, tagInput: string)

  /**
   * addTag: an empty input or a tag already present (compared exactly,
   * untrimmed) dispatches nothing; otherwise the input is appended and the
   * input box cleared.
   */
  function AddTag(tags: seq<string>, input: string): (r: TagEntry)
    ensures r.dispatched.None? <==> input == "" || input in tags
    ensures r.dispatched.Some? ==> r.dispatched.value == tags + [input] && r.tagInput == ""
    ensures r.dispatched.None? ==> r.tagInput == input
  {
    if input != "" && input !in tags then TagEntry(Some(tags + [input]), "")
    else TagEntry(None, input)
  }

  function IsNotTag(tag: string): string -> bool {
    (t: string) => t != tag
  }

  /** removeTag: every occurrence of the tag goes, the rest keep their order. */
  function RemoveTag(tags: seq<string>, tag: string): (r: seq<string>)
    ensures |r| <= |tags|
    ensures forall t :: t in r <==> t in tags && t != tag
  {
    Filter(tags, IsNotTag(tag))
  }

  /** A list without duplicates stays without duplicates under addTag. */
  lemma AddTagKeepsDistinct(tags: seq<string>, input: string)
    requires Distinct(tags)
    ensures AddTag(tags, input).dispatched.Some? ==> Distinct(AddTag(tags, input).dispatched.value)
  {
    if input != "" && input !in tags {
      var r := tags + [input];
      forall i, j | 0 <= i < j < |r| ensures r[i] != r[j] {
        if j == |tags| {
          assert r[i] == tags[i];
        }
      }
    }
  }

  /** ...and under removeTag. */
  lemma RemoveTagKeepsDistinct(tags: seq<string>, tag: string)
    requires Distinct(tags)
    ensures Distinct(RemoveTag(tags, tag))
  {
    FilterDistinct(tags, IsNotTag(tag));
  }

  /** Removing a tag that is not there changes nothing. */
  lemma RemoveAbsentTag(tags: seq<string>, tag: string)
    requires tag !in tags
    ensures RemoveTag(tags, tag) == tags
  {
    FilterKeepsAll(tags, IsNotTag(tag));
  }

  /** removeTag keeps the relative order of the tags it keeps. */
  lemma RemoveTagKeepsOrder(a: seq<string>, b: seq<string>, tag: string)
    ensures RemoveTag(a + b, tag) == RemoveTag(a, tag) + RemoveTag(b, tag)
  {
    FilterConcat(a, b, IsNotTag(tag));
  }

  /** Removing a tag just added restores the list. */
  lemma RemoveUndoesAdd(tags: seq<string>, input: string)
    requires AddTag(tags, input).dispatched.Some?
    ensures RemoveTag(AddTag(tags, input).dispatched.value, input) == tags
  {
    RemoveTagKeepsOrder(tags, [input], input);
    RemoveAbsentTag(tags, input);
    assert RemoveTag([input], input) == [];
  }

  /** The tag handlers keep the record's guarantees, duplicate-free tags included. */
  lemma TagHandlersKeepGuarded(s: CourseFormState, input: string, tag: string)
    requires Guarded(s)
    ensures AddTag(s.tags, input).dispatched.Some? ==>
      Guarded(Reduce(s, UpdateTags(AddTag(s.tags, input).dispatched.value)))
    ensures Guarded(Reduce(s, UpdateTags(RemoveTag(s.tags, tag))))
  {
    AddTagKeepsDistinct(s.tags, input);
    RemoveTagKeepsDistinct(s.tags, tag);
  }
}
