// The settings step: SEO and audience text fields, the certificate and
// drip toggles, the clamped drip interval, learning objectives, and the
// slug derived from the title while the slug field is empty.

module SettingsForm {
  import opened Wrappers
  import opened Seqs
  import opened Text
  import opened CourseFormSlice

  // ---------------------------------------------------------------------
  // Slug derivation: lowercase, strip, hyphenate white-space runs
  // ---------------------------------------------------------------------

  predicate IsUpper(c: char) {
    'A' <= c <= 'Z'
  }

  function LowerChar(c: char): (r: char)
    ensures !IsUpper(r)
  {
    if IsUpper(c) then (c as int + 32) as char else c
  }

  /** `toLowerCase` on ASCII letters. */
  function ToLowerAscii(s: string): (r: string)
    ensures |r| == |s|
    ensures forall i :: 0 <= i < |s| ==> r[i] == LowerChar(s[i])
    ensures forall c :: c in r ==> !IsUpper(c)
  {
    seq(|s|, i requires 0 <= i < |s| => LowerChar(s[i]))
  }

  /** The regular-expression class `\w`. */
  predicate IsWordChar(c: char) {
    'A' <= c <= 'Z' || 'a' <= c <= 'z' || '0' <= c <= '9' || c == '_'
  }

  /** The characters `replace(/[^\w\s-]/g, '')` keeps. */
  predicate KeptForSlug(c: char) {
    IsWordChar(c) || IsWhitespace(c) || c == '-'
  }

  /** `replace(/[^\w\s-]/g, '')`. */
  function StripForSlug(s: string): (r: string)
    ensures forall c :: c in r <==> c in s && KeptForSlug(c)
  {
    Filter(s, KeptForSlug)
  }

  /** `replace(/\s+/g, '-')`: each maximal white-space run becomes one hyphen. */
  function HyphenateWhitespace(s: string): (r: string)
    ensures forall c :: c in r ==> !IsWhitespace(c) && (c == '-' || c in s)
    decreases |s|
  {
    if s == [] then []
    else if IsWhitespace(s[0]) then
      "-" + HyphenateWhitespace(TrimStart(s))
    else [s[0]] + HyphenateWhitespace(s[1..])
  }

  /** Stripping works character by character, so it keeps the order of what it keeps. */
  lemma StripConcat(a: string, b: string)
    ensures StripForSlug(a + b) == StripForSlug(a) + StripForSlug(b)
  {
    FilterConcat(a, b, KeptForSlug);
  }

  /** A single character survives stripping exactly when the class keeps it. */
  lemma StripOne(c: char)
    ensures StripForSlug([c]) == (if KeptForSlug(c) then [c] else [])
  {
    assert [c][1..] == [];
  }

  /** Leading white space of any length is dropped up to the first other character. */
  lemma {:induction false} TrimStartRun(w: string, rest: string)
    requires forall i :: 0 <= i < |w| ==> IsWhitespace(w[i])
    requires rest == [] || !IsWhitespace(rest[0])
    ensures TrimStart(w + rest) == rest
    decreases |w|
  {
    if w == [] {
      assert w + rest == rest;
    } else {
      assert (w + rest)[1..] == w[1..] + rest;
      TrimStartRun(w[1..], rest);
    }
  }

  /** A whole run of white space, however long, becomes one hyphen. */
  lemma HyphenateRun(w: string, rest: string)
    requires w != [] && forall i :: 0 <= i < |w| ==> IsWhitespace(w[i])
    requires rest == [] || !IsWhitespace(rest[0])
    ensures HyphenateWhitespace(w + rest) == "-" + HyphenateWhitespace(rest)
  {
    assert (w + rest)[0] == w[0];
    TrimStartRun(w, rest);
  }

  /** Any other character is copied and the hyphenation continues after it. */
  lemma HyphenateKeeps(c: char, rest: string)
    requires !IsWhitespace(c)
    ensures HyphenateWhitespace([c] + rest) == [c] + HyphenateWhitespace(rest)
  {
    assert ([c] + rest)[1..] == rest;
  }

  /** A mixed run of spaces and a tab between two words gives a single hyphen. */
  lemma HyphenateRunExample()
    ensures HyphenateWhitespace("a \t b") == "a-b"
  {
    assert "a \t b" == ['a'] + (" \t " + "b");
    HyphenateKeeps('a', " \t " + "b");
    HyphenateRun(" \t ", "b");
    HyphenateWithoutWhitespace("b");
  }

  /** The slug the settings step derives from a title. */
  function Slugify(title: string): string {
    HyphenateWhitespace(StripForSlug(ToLowerAscii(title)))
  }

  /** The characters a generated slug may contain: `[a-z0-9_-]`. */
  predicate IsSlugChar(c: char) {
    'a' <= c <= 'z' || '0' <= c <= '9' || c == '_' || c == '-'
  }

  /** A generated slug holds only `[a-z0-9_-]`, so no white space. */
  lemma SlugAlphabet(title: string)
    ensures forall c :: c in Slugify(title) ==> IsSlugChar(c)
  {
    var lowered := ToLowerAscii(title);
    var stripped := StripForSlug(lowered);
    forall c | c in Slugify(title) ensures IsSlugChar(c) {
      if c != '-' {
        assert c in stripped && !IsWhitespace(c);
        assert c in lowered && KeptForSlug(c);
      }
    }
  }

  /** A string without white space is left as it is by the hyphenation. */
  lemma {:induction false} HyphenateWithoutWhitespace(s: string)
    requires forall i :: 0 <= i < |s| ==> !IsWhitespace(s[i])
    ensures HyphenateWhitespace(s) == s
    decreases |s|
  {
    if s != [] {
      HyphenateWithoutWhitespace(s[1..]);
      assert [s[0]] + s[1..] == s;
    }
  }

  /** Deriving a slug from a generated slug gives it back unchanged. */
  lemma SlugifyIdempotent(title: string)
    ensures Slugify(Slugify(title)) == Slugify(title)
  {
    var u := Slugify(title);
    SlugAlphabet(title);
    assert forall i :: 0 <= i < |u| ==> IsSlugChar(u[i]) by {
      forall i | 0 <= i < |u| ensures IsSlugChar(u[i]) {
        assert u[i] in u;
      }
    }
    assert ToLowerAscii(u) == u;
    FilterKeepsAll(u, KeptForSlug);
    HyphenateWithoutWhitespace(u);
  }

  lemma LowerExample()
    ensures ToLowerAscii("Intro to React!") == "intro to react!"
  {
  }

  /** Stripping keeps kept text and drops a trailing character it rejects. */
  lemma StripDropsLast(kept: string, c: char)
    requires forall j :: 0 <= j < |kept| ==> KeptForSlug(kept[j])
    requires !KeptForSlug(c)
    ensures StripForSlug(kept + [c]) == kept
  {
    FilterConcat(kept, [c], KeptForSlug);
    FilterKeepsAll(kept, KeptForSlug);
    assert Filter([c], KeptForSlug) == [];
  }

  /** A single space between a word and the rest becomes one hyphen. */
  lemma {:induction false} HyphenateAtSpace(a: string, b: string)
    requires forall i :: 0 <= i < |a| ==> !IsWhitespace(a[i])
    requires b == [] || !IsWhitespace(b[0])
    ensures HyphenateWhitespace(a + " " + b) == a + "-" + HyphenateWhitespace(b)
    decreases |a|
  {
    if a == [] {
      assert a + " " + b == " " + b;
      assert TrimStart(" " + b) == TrimStart(b) by {
        assert (" " + b)[1..] == b;
      }
    } else {
      assert (a + " " + b)[1..] == a[1..] + " " + b;
      HyphenateAtSpace(a[1..], b);
    }
  }

  lemma StripExample()
    ensures StripForSlug("intro to react!") == "intro to react"
  {
    assert "intro to react!" == "intro to react" + ['!'];
    StripDropsLast("intro to react", '!');
  }

  /** Words separated by single spaces come out joined by hyphens. */
  lemma HyphenateThreeWords(a: string, b: string, c: string)
    requires forall i :: 0 <= i < |a| ==> !IsWhitespace(a[i])
    requires forall i :: 0 <= i < |b| ==> !IsWhitespace(b[i])
    requires forall i :: 0 <= i < |c| ==> !IsWhitespace(c[i])
    requires b != [] && c != []
    ensures HyphenateWhitespace(a + " " + (b + " " + c)) == a + "-" + (b + "-" + c)
  {
    var tail := b + " " + c;
    HyphenateWithoutWhitespace(c);
    HyphenateAtSpace(b, c);
    assert tail[0] == b[0];
    HyphenateAtSpace(a, tail);
  }

  lemma HyphenateExample()
    ensures HyphenateWhitespace("intro to react") == "intro-to-react"
  {
    assert "intro to react" == "intro" + " " + ("to" + " " + "react");
    assert "intro-to-react" == "intro" + "-" + ("to" + "-" + "react");
    HyphenateThreeWords("intro", "to", "react");
  }

  /** The documented example: "Intro to React!" gives "intro-to-react". */
  lemma SlugExample()
    ensures Slugify("Intro to React!") == "intro-to-react"
  {
    LowerExample();
    StripExample();
    HyphenateExample();
  }

  /**
   * The slug effect: a slug is derived only while the slug field is empty
   * and the title is not; a slug the author typed is never replaced.
   */
  function AutoSlug(slug: string, title: string): (r: Option<string>)
    ensures r.Some? <==> slug == "" && title != ""
    ensures r.Some? ==> r.value == Slugify(title)
  {
    if slug == "" && title != "" then Some(Slugify(title)) else None
  }

  /** Once a non-empty slug is derived, the effect derives nothing more. */
  lemma AutoSlugSettles(s: CourseFormState)
    requires AutoSlug(s.slug, s.title).Some?
    requires Slugify(s.title) != ""
    ensures var r := Reduce(s, UpdateBasicInfo([Write(Slug, Text(Slugify(s.title)))]));
      && r == s.(slug := Slugify(s.title))
      && AutoSlug(r.slug, r.title).None?
  {
    OneKeyPatch(s, Write(Slug, Text(Slugify(s.title))));
  }

  // ---------------------------------------------------------------------
  // Field handlers
  // ---------------------------------------------------------------------

  /**
   * handleDripIntervalChange: `Math.max(1, parseInt(v) || 1)`, with the
   * parser's NaN as None.
   */
  function DripIntervalFrom(parsed: Option<int>): (r: int)
    ensures r >= 1
    ensures parsed.Some? && parsed.value >= 1 ==> r == parsed.value
    ensures !(parsed.Some? && parsed.value >= 1) ==> r == 1
  {
    var v := if parsed.None? || parsed.value == 0 then 1 else parsed.value;
    if v < 1 then 1 else v
  }

  /** A change made in one of this step's inputs. */
  datatype SettingsEdit =
    | SlugEdit(text: string)
    | MetaTitleEdit(text: string)
    | MetaDescriptionEdit(text: string)
    | TargetAudienceEdit(text: string)
    | PrerequisitesEdit(text: string)
    | CertificateToggle(checked: bool)
    | DripToggle(checked: bool)
    | DripIntervalEdit(parsed: Option<int>)

  function EditedField(e: SettingsEdit): Field {
    match e
    case SlugEdit(_) => Slug
    case MetaTitleEdit(_) => MetaTitle
    case MetaDescriptionEdit(_) => MetaDescription
    case TargetAudienceEdit(_) => TargetAudience
    case PrerequisitesEdit(_) => Prerequisites
    case CertificateToggle(_) => CertificateEnabled
    case DripToggle(_) => DripEnabled
    case DripIntervalEdit(_) => DripInterval
  }

  /**
   * handleSettingsChange, handleToggleChange and handleDripIntervalChange:
   * the one-key updateBasicInfo payload.
   */
  function ChangePayload(e: SettingsEdit): (p: seq<Write>)
    ensures PatchFits(p)
    ensures |p| == 1 && p[0].key == EditedField(e)
    ensures e.DripIntervalEdit? ==> p[0].value.Count? && p[0].value.count >= 1
  {
    match e
    case SlugEdit(t) => [Write(Slug, Text(t))]
    case MetaTitleEdit(t) => [Write(MetaTitle, Text(t))]
    case MetaDescriptionEdit(t) => [Write(MetaDescription, Text(t))]
    case TargetAudienceEdit(t) => [Write(TargetAudience, Text(t))]
    case PrerequisitesEdit(t) => [Write(Prerequisites, Text(t))]
    case CertificateToggle(b) => [Write(CertificateEnabled, Flag(b))]
    case DripToggle(b) => [Write(DripEnabled, Flag(b))]
    case DripIntervalEdit(v) => [Write(DripInterval, Count(DripIntervalFrom(v)))]
  }

  /**
   * Every settings edit writes its own field only and keeps the record's
   * guarantees; in particular the stored drip interval stays at least 1.
   */
  lemma SettingsEditKeepsGuarded(s: CourseFormState, e: SettingsEdit)
    requires Guarded(s)
    ensures var r := Reduce(s, UpdateBasicInfo(ChangePayload(e)));
      && Guarded(r)
      && (forall k :: k != EditedField(e) ==> Read(r, k) == Read(s, k))
      && (e.DripIntervalEdit? ==> r.dripInterval == DripIntervalFrom(e.parsed))
  {
    OneKeyPatch(s, ChangePayload(e)[0]);
  }

  /**
   * handleAddObjective: the trimmed input, or nothing when the input is
   * blank.
   */
  function NewObjective(input: string): (r: Option<string>)
    ensures r.None? <==> forall j :: 0 <= j < |input| ==> IsWhitespace(input[j])
    ensures r.Some? ==> r.value == Trim(input) && r.value != ""
  {
    TrimEmptyIffBlank(input);
    if Trim(input) != "" then Some(Trim(input)) else None
  }

  /** An added objective has no surrounding white space and is appended last. */
  lemma AddedObjectiveIsTrimmed(s: CourseFormState, input: string)
    requires NewObjective(input).Some?
    ensures var r := Reduce(s, AddLearningObjective(NewObjective(input).value));
      && r.learningObjectives == s.learningObjectives + [Trim(input)]
      && Trim(r.learningObjectives[|s.learningObjectives|]) == r.learningObjectives[|s.learningObjectives|]
  {
    TrimIdempotent(input);
  }
}
