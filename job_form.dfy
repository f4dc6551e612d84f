/**
 * The job create/edit form: slug generation from the title, per-field
 * editing, the requirement and tag lists, validation and the data it submits.
 */
module JobForm {
  import opened Wrappers
  import opened Seqs
  import opened Text
  import opened Records

  /** The characters a slug may contain: `a-z`, `0-9` and `-`. */
  predicate IsSlugChar(c: char)
  {
    ('a' <= c <= 'z') || ('0' <= c <= '9') || c == '-'
  }

  /** The characters the first replacement lets through: slug characters and white space. */
  predicate Allowed(c: char)
  {
    IsSlugChar(c) || IsSpace(c)
  }

  /**
   * `.replace(/[^a-z0-9\s-]/g, '')`: drop everything but slug characters and
   * white space; what is let through keeps its order.
   */
  function KeepAllowed(s: string): (r: string)
    ensures forall c :: c in r ==> Allowed(c)
  {
    Filter(s, Allowed)
  }

  /**
   * Filtering removes exactly the characters that are not allowed: the result
   * is the input read at the positions of its allowed characters, in order.
   */
  lemma KeepAllowedKeepsOrder(s: string)
    ensures forall c :: c in KeepAllowed(s) <==> c in s && Allowed(c)
    ensures PickedAt(KeepAllowed(s), s, Kept(s, Allowed))
    ensures forall k :: k in Kept(s, Allowed) <==> 0 <= k < |s| && Allowed(s[k])
  {
    FilterMember(s, Allowed);
    FilterPicksKept(s, Allowed);
  }

  /** `.replace(/\s+/g, '-')`: each maximal run of white space becomes one hyphen. */
  function CollapseSpaces(s: string): string
    decreases |s|
  {
    if s == [] then []
    else if IsSpace(s[0]) then "-" + CollapseSpaces(TrimStart(s[1..]))
    else [s[0]] + CollapseSpaces(s[1..])
  }

  /** `r` has no white space and nothing but hyphens and characters of `s`. */
  predicate CollapsedFrom(r: string, s: string)
  {
    forall c :: c in r ==> (c == '-' || c in s) && !IsSpace(c)
  }

  /** A character followed by a collapsed suffix of `s` is collapsed from `s`. */
  lemma CollapsedCons(head: char, tail: string, s: string, k: nat)
    requires k <= |s| && CollapsedFrom(tail, s[k..])
    requires head == '-' || (head in s && !IsSpace(head))
    ensures CollapsedFrom([head] + tail, s)
  {
    forall c | c in [head] + tail
      ensures (c == '-' || c in s) && !IsSpace(c)
    {
      if c != head && c != '-' {
        assert c in s[k..];
        var j :| k <= j < |s| && s[j] == c;
      }
    }
  }

  /** Collapsing leaves no white space and brings in nothing but hyphens. */
  lemma {:induction false} CollapseSpacesChars(s: string)
    ensures CollapsedFrom(CollapseSpaces(s), s)
    decreases |s|
  {
    if s != [] {
      CollapseStep(s);
      if IsSpace(s[0]) {
        var rest := TrimStart(s[1..]);
        assert rest == s[|s| - |rest|..];
        CollapseSpacesChars(rest);
        CollapsedCons('-', CollapseSpaces(rest), s, |s| - |rest|);
      } else {
        CollapseSpacesChars(s[1..]);
        CollapsedCons(s[0], CollapseSpaces(s[1..]), s, 1);
      }
    }
  }

  /** `.replace(/^-+/, '')`: the suffix after the leading run of hyphens. */
  function DropLeadingHyphens(s: string): (r: string)
    ensures |r| <= |s| && r == s[|s| - |r|..]
    ensures r == [] || r[0] != '-'
  {
    if s != [] && s[0] == '-' then DropLeadingHyphens(s[1..]) else s
  }

  /** `.replace(/-+$/, '')`: the prefix before the trailing run of hyphens. */
  function DropTrailingHyphens(s: string): (r: string)
    ensures |r| <= |s| && r == s[..|r|]
    ensures r == [] || r[|r| - 1] != '-'
  {
    if s != [] && s[|s| - 1] == '-' then DropTrailingHyphens(s[..|s| - 1]) else s
  }

  /** Leading white space ahead of a non-space character (or of nothing) is exactly what `TrimStart` removes. */
  lemma {:induction false} TrimStartRun(w: string, y: string)
    requires forall i :: 0 <= i < |w| ==> IsSpace(w[i])
    requires y == [] || !IsSpace(y[0])
    ensures TrimStart(w + y) == y
  {
    if w == [] {
      assert w + y == y;
    } else {
      assert (w + y)[1..] == w[1..] + y;
      TrimStartRun(w[1..], y);
    }
  }

  /**
   * `/\s+/g` replaces a whole run at once: a maximal run `w` of white space,
   * followed by a non-space character or by the end, becomes a single hyphen.
   */
  lemma CollapseSpacesRun(w: string, y: string)
    requires w != [] && forall i :: 0 <= i < |w| ==> IsSpace(w[i])
    requires y == [] || !IsSpace(y[0])
    ensures CollapseSpaces(w + y) == "-" + CollapseSpaces(y)
  {
    var s := w + y;
    assert s[0] == w[0];
    assert s[1..] == w[1..] + y;
    TrimStartRun(w[1..], y);
    CollapseStep(s);
  }

  /** The leading hyphens are all that `DropLeadingHyphens` removes. */
  lemma {:induction false} DropLeadingOnlyHyphens(s: string)
    ensures var r := DropLeadingHyphens(s);
      forall i :: 0 <= i < |s| - |r| ==> s[i] == '-'
  {
    if s != [] && s[0] == '-' {
      DropLeadingOnlyHyphens(s[1..]);
    }
  }

  /** The trailing hyphens are all that `DropTrailingHyphens` removes. */
  lemma {:induction false} DropTrailingOnlyHyphens(s: string)
    ensures var r := DropTrailingHyphens(s);
      forall i :: |r| <= i < |s| ==> s[i] == '-'
  {
    if s != [] && s[|s| - 1] == '-' {
      DropTrailingOnlyHyphens(s[..|s| - 1]);
    }
  }

  /** `.replace(/^-+|-+$/g, '')`: the hyphens at either end removed. */
  function TrimHyphens(s: string): string
  {
    DropTrailingHyphens(DropLeadingHyphens(s))
  }

  /** The slug `handleInputChange` derives from a title. */
  function Slugify(title: string): string
  {
    TrimHyphens(CollapseSpaces(KeepAllowed(ToLower(title))))
  }

  /** A well-formed slug: only `a-z`, `0-9` and `-`, and no hyphen at either end. */
  predicate IsSlug(s: string)
  {
    && (forall c :: c in s ==> IsSlugChar(c))
    && (s == [] || (s[0] != '-' && s[|s| - 1] != '-'))
  }

  /** Every generated slug is well formed. */
  lemma SlugifyIsSlug(title: string)
    ensures IsSlug(Slugify(title))
  {
    var kept := KeepAllowed(ToLower(title));
    var collapsed := CollapseSpaces(kept);
    CollapseSpacesChars(kept);
    var lead := DropLeadingHyphens(collapsed);
    var r := DropTrailingHyphens(lead);
    assert forall c :: c in collapsed ==> IsSlugChar(c);
    assert forall c :: c in lead ==> c in collapsed;
    assert forall c :: c in r ==> c in lead;
    if r != [] {
      assert lead[0] == r[0];
    }
  }

  /** Collapsing white space changes nothing in a string without white space. */
  lemma {:induction false} CollapseNoSpaces(s: string)
    requires forall c :: c in s ==> !IsSpace(c)
    ensures CollapseSpaces(s) == s
  {
    if s != [] {
      assert forall c :: c in s[1..] ==> c in s;
      CollapseNoSpaces(s[1..]);
    }
  }

  /** Lower-casing leaves slug characters alone. */
  lemma LowerSlugChars(s: string)
    requires forall c :: c in s ==> IsSlugChar(c)
    ensures ToLower(s) == s
  {
    forall i | 0 <= i < |s|
      ensures ToLower(s)[i] == s[i]
    {
      assert s[i] in s;
    }
  }

  /** Lower-casing and filtering leave a well-formed slug alone. */
  lemma KeepSlug(s: string)
    requires IsSlug(s)
    ensures KeepAllowed(ToLower(s)) == s
  {
    LowerSlugChars(s);
    FilterAll(s, Allowed);
  }

  /** A well-formed slug is its own slug. */
  lemma SlugFixpoint(s: string)
    requires IsSlug(s)
    ensures Slugify(s) == s
  {
    KeepSlug(s);
    assert forall c :: c in s ==> !IsSpace(c) by {
      assert forall c :: c in s ==> IsSlugChar(c);
    }
    CollapseNoSpaces(s);
    assert DropLeadingHyphens(s) == s;
    assert DropTrailingHyphens(s) == s;
  }

  /** Generating a slug from a generated slug gives it back unchanged. */
  lemma SlugifyIdempotent(title: string)
    ensures Slugify(Slugify(title)) == Slugify(title)
  {
    SlugifyIsSlug(title);
    SlugFixpoint(Slugify(title));
  }

  /** Each white-space character replaced by a hyphen, one for one. */
  function SpacesToHyphens(s: string): (r: string)
    ensures |r| == |s|
    ensures forall i :: 0 <= i < |s| ==> r[i] == if IsSpace(s[i]) then '-' else s[i]
  {
    seq(|s|, i requires 0 <= i < |s| => if IsSpace(s[i]) then '-' else s[i])
  }

  /** No two white-space characters stand next to each other. */
  predicate SingleSpaced(s: string)
  {
    forall i :: 0 <= i < |s| - 1 ==> !(IsSpace(s[i]) && IsSpace(s[i + 1]))
  }

  /** One step of `CollapseSpaces`: the first character, then the rest. */
  lemma CollapseStep(s: string)
    requires s != []
    ensures IsSpace(s[0]) ==> CollapseSpaces(s) == ['-'] + CollapseSpaces(TrimStart(s[1..]))
    ensures !IsSpace(s[0]) ==> CollapseSpaces(s) == [s[0]] + CollapseSpaces(s[1..])
  {
  }

  /** One step of `SpacesToHyphens`: the first character, then the rest. */
  lemma SpacesToHyphensStep(s: string)
    requires s != []
    ensures SpacesToHyphens(s) == [if IsSpace(s[0]) then '-' else s[0]] + SpacesToHyphens(s[1..])
  {
    var r, t := SpacesToHyphens(s), SpacesToHyphens(s[1..]);
    forall i | 1 <= i < |s|
      ensures r[i] == t[i - 1]
    {
      assert s[1..][i - 1] == s[i];
    }
  }

  /**
   * Where white space never comes in runs, collapsing turns each white-space
   * character into its own hyphen: nothing is merged with a neighbouring `-`.
   */
  lemma {:induction false} CollapseSingleSpaces(s: string)
    requires SingleSpaced(s)
    ensures CollapseSpaces(s) == SpacesToHyphens(s)
    decreases |s|
  {
    if s != [] {
      var t := s[1..];
      forall i | 0 <= i < |t| - 1
        ensures !(IsSpace(t[i]) && IsSpace(t[i + 1]))
      {
        assert t[i] == s[i + 1] && t[i + 1] == s[i + 2];
      }
      CollapseSingleSpaces(t);
      CollapseStep(s);
      SpacesToHyphensStep(s);
      if IsSpace(s[0]) && t != [] {
        assert t[0] == s[1];
        assert TrimStart(t) == t;
      }
    }
  }

  /** A letter or digit: a slug character other than the hyphen. */
  predicate IsAlnum(c: char)
  {
    ('a' <= c <= 'z') || ('0' <= c <= '9')
  }

  /** A lower-case title "x - y" passes lower-casing and filtering unchanged. */
  lemma KeepSpacedHyphen(x: char, y: char)
    requires IsAlnum(x) && IsAlnum(y)
    ensures KeepAllowed(ToLower([x, ' ', '-', ' ', y])) == [x, ' ', '-', ' ', y]
  {
    var s := [x, ' ', '-', ' ', y];
    forall i | 0 <= i < |s|
      ensures ToLower(s)[i] == s[i]
    {
    }
    assert ToLower(s) == s;
    FilterAll(s, Allowed);
  }

  /** "x - y" has no two white-space characters side by side. */
  lemma SpacedTitleSingleSpaced(x: char, y: char)
    requires !IsSpace(x) && !IsSpace(y)
    ensures SingleSpaced([x, ' ', '-', ' ', y])
  {
    var title := [x, ' ', '-', ' ', y];
    assert !IsSpace('-');
    forall i | 0 <= i < |title| - 1
      ensures !(IsSpace(title[i]) && IsSpace(title[i + 1]))
    {
      assert title[i] == '-' || title[i + 1] == '-' || title[i] == x || title[i + 1] == y;
    }
  }

  /** In "x - y" each of the two spaces becomes a hyphen. */
  lemma SpacedTitleHyphens(x: char, y: char)
    requires !IsSpace(x) && !IsSpace(y)
    ensures SpacesToHyphens([x, ' ', '-', ' ', y]) == [x, '-', '-', '-', y]
  {
    var title := [x, ' ', '-', ' ', y];
    var r := SpacesToHyphens(title);
    assert IsSpace(' ') && !IsSpace('-');
    assert r[0] == x && r[1] == '-' && r[2] == '-' && r[3] == '-' && r[4] == y;
  }

  /** Collapsing "x - y": each of the two spaces becomes its own hyphen. */
  lemma CollapseSpacedTitle(x: char, y: char)
    requires !IsSpace(x) && !IsSpace(y)
    ensures CollapseSpaces([x, ' ', '-', ' ', y]) == [x, '-', '-', '-', y]
  {
    SpacedTitleSingleSpaced(x, y);
    CollapseSingleSpaces([x, ' ', '-', ' ', y]);
    SpacedTitleHyphens(x, y);
  }

  /** Hyphen trimming leaves a string that neither starts nor ends with `-` alone. */
  lemma TrimHyphensKeeps(t: string)
    requires t != [] && t[0] != '-' && t[|t| - 1] != '-'
    ensures TrimHyphens(t) == t
  {
    assert DropLeadingHyphens(t) == t;
  }

  /**
   * White space around a hyphen in a title is not absorbed: "a - b" gives
   * "a---b", and likewise for any two letters or digits.
   */
  lemma SlugifySpacedHyphen(x: char, y: char)
    requires IsAlnum(x) && IsAlnum(y)
    ensures Slugify([x, ' ', '-', ' ', y]) == [x, '-', '-', '-', y]
  {
    KeepSpacedHyphen(x, y);
    CollapseSpacedTitle(x, y);
    TrimHyphensKeeps([x, '-', '-', '-', y]);
  }

  /** The inputs `handleInputChange` is bound to. */
  datatype InputField = TitleInput | SlugInput | StatusInput | DescriptionInput

  /** The keys of the error object. */
  datatype Field = Title | Slug | Status | Description | Requirements

  function FieldOf(f: InputField): Field
  {
    match f
    case TitleInput => Title
    case SlugInput => Slug
    case StatusInput => Status
    case DescriptionInput => Description
  }

  /** The form's starting data: the job's fields, with "active" for a missing status and one empty requirement for a new job. */
  function InitialData(job: Option<Job>): (r: JobData)
    ensures job.None? ==> r == JobData("", "", "active", "", [""], [])
    ensures job.Some? ==> r.title == job.value.title && r.slug == job.value.slug &&
                          r.description == job.value.description && r.requirements == job.value.requirements &&
                          r.tags == job.value.tags
    ensures r.status == if job.Some? && job.value.status != "" then job.value.status else "active"
  {
    match job
    case None => JobData("", "", "active", "", [""], [])
    case Some(j) => JobData(j.title, j.slug, if j.status != "" then j.status else "active", j.description, j.requirements, j.tags)
  }

  /** `handleInputChange` on the data: the field takes the value, and a new title also regenerates the slug. */
  function Edited(d: JobData, field: InputField, value: string): (r: JobData)
    ensures r.requirements == d.requirements && r.tags == d.tags
    ensures field == TitleInput ==> r == d.(title := value, slug := Slugify(value)) && IsSlug(r.slug)
    ensures field == SlugInput ==> r == d.(slug := value)
    ensures field == StatusInput ==> r == d.(status := value)
    ensures field == DescriptionInput ==> r == d.(description := value)
  {
    SlugifyIsSlug(value);
    match field
    case TitleInput => d.(title := value, slug := Slugify(value))
    case SlugInput => d.(slug := value)
    case StatusInput => d.(status := value)
    case DescriptionInput => d.(description := value)
  }

  /** `filter((_, i) => i !== index)`: the list without position `index`; unchanged when there is no such position. */
  function RemoveAt(xs: seq<string>, index: int): (r: seq<string>)
    ensures 0 <= index < |xs| ==> |r| == |xs| - 1 && r == xs[..index] + xs[index + 1..]
    ensures !(0 <= index < |xs|) ==> r == xs
  {
    if 0 <= index < |xs| then xs[..index] + xs[index + 1..] else xs
  }

  /** `removeRequirement`: drops a requirement only while more than one is left. */
  function RemoveRequirementFrom(reqs: seq<string>, index: int): (r: seq<string>)
    ensures |reqs| >= 1 ==> |r| >= 1
    ensures |reqs| <= 1 ==> r == reqs
    ensures |reqs| > 1 ==> r == RemoveAt(reqs, index)
    ensures |reqs| > 1 && 0 <= index < |reqs| ==> r == reqs[..index] + reqs[index + 1..]
  {
    if |reqs| > 1 then RemoveAt(reqs, index) else reqs
  }

  /** No tag appears twice. */
  predicate NoDuplicates(tags: seq<string>)
  {
    forall i, j :: 0 <= i < j < |tags| ==> tags[i] != tags[j]
  }

  /** `addTag` on the list: the trimmed tag is appended when it is non-blank and not already there. */
  function AddedTag(tags: seq<string>, newTag: string): (r: seq<string>)
    ensures var t := Trim(newTag);
      r == if t != "" && t !in tags then tags + [t] else tags
    ensures NoDuplicates(tags) ==> NoDuplicates(r)
    ensures forall x :: x in r ==> x in tags || x == Trim(newTag)
  {
    var t := Trim(newTag);
    if t != "" && t !in tags then tags + [t] else tags
  }

  /** `removeTag`: every copy of the tag is gone and every other tag stays, in order. */
  function RemovedTag(tags: seq<string>, tag: string): (r: seq<string>)
    ensures forall x :: x in r <==> x in tags && x != tag
    ensures PickedAt(r, tags, Kept(tags, (t: string) => t != tag))
    ensures NoDuplicates(tags) ==> NoDuplicates(r)
  {
    FilterMember(tags, (t: string) => t != tag);
    var r := Filter(tags, (t: string) => t != tag);
    FilterPicksKept(tags, (t: string) => t != tag);
    r
  }

  /** A requirement that is not blank. */
  predicate Filled(x: string)
  {
    !IsBlank(x)
  }

  /** The requirements that are not blank, in their original order and with their repeats. */
  function FilledRequirements(reqs: seq<string>): (r: seq<string>)
    ensures forall x :: x in r <==> x in reqs && !IsBlank(x)
    ensures PickedAt(r, reqs, Kept(reqs, Filled))
    ensures forall k :: k in Kept(reqs, Filled) <==> 0 <= k < |reqs| && !IsBlank(reqs[k])
  {
    FilterMember(reqs, Filled);
    FilterPicksKept(reqs, Filled);
    Filter(reqs, Filled)
  }

  /** Whether a field fails its check in `validateForm`; the status is never checked. */
  predicate Fails(d: JobData, f: Field)
  {
    match f
    case Title => IsBlank(d.title)
    case Slug => IsBlank(d.slug)
    case Status => false
    case Description => IsBlank(d.description)
    case Requirements => FilledRequirements(d.requirements) == []
  }

  /** The message shown under a field that fails its check. */
  function Message(f: Field): string
  {
    match f
    case Title => "Title is required"
    case Slug => "Slug is required"
    case Status => ""
    case Description => "Description is required"
    case Requirements => "At least one requirement is needed"
  }

  const AllFields: set<Field> := {Title, Slug, Status, Description, Requirements}

  lemma AllFieldsListed()
    ensures forall f: Field :: f in AllFields
  {
    forall f: Field
      ensures f in AllFields
    {
      match f
      case Title =>
      case Slug =>
      case Status =>
      case Description =>
      case Requirements =>
    }
  }

  /** `validateForm`'s error object: one message for each failing field. */
  function ValidationErrors(d: JobData): (r: map<Field, string>)
    ensures forall f :: f in r <==> Fails(d, f)
    ensures forall f :: f in r ==> r[f] == Message(f)
  {
    AllFieldsListed();
    map f | f in AllFields && Fails(d, f) :: Message(f)
  }

  /** The requirements field has an error exactly when every requirement is blank. */
  lemma RequirementsErrorIff(d: JobData)
    ensures Requirements in ValidationErrors(d) <==> forall x :: x in d.requirements ==> IsBlank(x)
  {
    var f := FilledRequirements(d.requirements);
    if f != [] {
      assert f[0] in f;
    }
  }

  /**
   * A field has an error exactly when it fails its check: a blank title, slug
   * or description, or no requirement that is not blank. Status never has one,
   * and the form is valid exactly when all four checks pass.
   */
  lemma ValidationErrorsSpec(d: JobData)
    ensures Requirements in ValidationErrors(d) <==> forall x :: x in d.requirements ==> IsBlank(x)
    ensures Status !in ValidationErrors(d)
    ensures ValidationErrors(d) == map[] <==>
      !IsBlank(d.title) && !IsBlank(d.slug) && !IsBlank(d.description) &&
      exists x :: x in d.requirements && !IsBlank(x)
  {
    RequirementsErrorIff(d);
    var e := ValidationErrors(d);
    if e == map[] {
      assert Title !in e && Slug !in e && Description !in e && Requirements !in e;
    } else {
      var g :| g in e;
      assert Fails(d, g);
    }
  }

  /** The data `handleSubmit` hands on: the form's data with blank requirements dropped. */
  function CleanData(d: JobData): (r: JobData)
    ensures r == d.(requirements := r.requirements)
    ensures forall x :: x in r.requirements <==> x in d.requirements && !IsBlank(x)
    ensures PickedAt(r.requirements, d.requirements, Kept(d.requirements, Filled))
  {
    d.(requirements := FilledRequirements(d.requirements))
  }

  /** What a valid form submits keeps at least one requirement, and none of them blank. */
  lemma SubmittedRequirementsFilled(d: JobData)
    requires ValidationErrors(d) == map[]
    ensures CleanData(d).requirements != []
    ensures forall x :: x in CleanData(d).requirements ==> !IsBlank(x)
  {
    ValidationErrorsSpec(d);
    var x :| x in d.requirements && !IsBlank(x);
    assert x in CleanData(d).requirements;
  }

  class Form {
    var formData: JobData
    var newTag: string
    var errors: map<Field, string>

    constructor (job: Option<Job>)
      ensures formData == InitialData(job) && newTag == "" && errors == map[]
    {
      formData, newTag, errors := InitialData(job), "", map[];
    }

    /** `handleInputChange`: updates the data and clears that field's error. */
    method HandleInputChange(field: InputField, value: string)
      modifies this`formData, this`errors
      ensures formData == Edited(old(formData), field, value)
      ensures errors == old(errors) - {FieldOf(field)}
    {
      formData := Edited(formData, field, value);
      if FieldOf(field) in errors {
        errors := errors - {FieldOf(field)};
      }
    }

    /** `handleRequirementChange` for one of the listed requirement inputs. */
    method HandleRequirementChange(index: nat, value: string)
      requires index < |formData.requirements|
      modifies this`formData
      ensures formData == old(formData).(requirements := old(formData.requirements)[index := value])
    {
      formData := formData.(requirements := formData.requirements[index := value]);
    }

    /** `addRequirement`: one more, empty, requirement at the end. */
    method AddRequirement()
      modifies this`formData
      ensures formData == old(formData).(requirements := old(formData.requirements) + [""])
    {
      formData := formData.(requirements := formData.requirements + [""]);
    }

    /** `removeRequirement`. */
    method RemoveRequirement(index: int)
      modifies this`formData
      ensures formData == old(formData).(requirements := RemoveRequirementFrom(old(formData.requirements), index))
    {
      formData := formData.(requirements := RemoveRequirementFrom(formData.requirements, index));
    }

    /** The tag input. */
    method EditTag(value: string)
      modifies this`newTag
      ensures newTag == value
    {
      newTag := value;
    }

    /** `addTag`: the tag input is cleared only when the tag was added. */
    method AddTag()
      modifies this`formData, this`newTag
      ensures formData == old(formData).(tags := AddedTag(old(formData.tags), old(newTag)))
      ensures newTag == if |formData.tags| > |old(formData.tags)| then "" else old(newTag)
    {
      var t := Trim(newTag);
      if t != "" && t !in formData.tags {
        formData := formData.(tags := formData.tags + [t]);
        newTag := "";
      }
    }

    /** `removeTag`. */
    method RemoveTag(tag: string)
      modifies this`formData
      ensures formData == old(formData).(tags := RemovedTag(old(formData.tags), tag))
    {
      formData := formData.(tags := RemovedTag(formData.tags, tag));
    }

    /** `validateForm`: records the errors and reports whether there are none. */
    method Validate() returns (valid: bool)
      modifies this`errors
      ensures errors == ValidationErrors(formData)
      ensures valid <==> errors == map[]
    {
      errors := ValidationErrors(formData);
      valid := errors == map[];
    }

    /** `handleSubmit`: the cleaned data when the form is valid, nothing otherwise. */
    method HandleSubmit() returns (submitted: Option<JobData>)
      modifies this`errors
      ensures errors == ValidationErrors(formData)
      ensures submitted == if errors == map[] then Some(CleanData(formData)) else None
    {
      var valid := Validate();
      if !valid {
        return None;
      }
      submitted := Some(CleanData(formData));
    }
  }
}
