/**
 * The assessment builder: the question editor, the section editor and the
 * builder form that holds one assessment while it is edited, with the checks
 * it makes before saving.
 */
module AssessmentBuilder {
  import opened Wrappers
  import opened Seqs
  import opened Text
  import opened Stages
  import opened Records

  // ---------------------------------------------------------------------------
  // Question editor

  /** The edits `QuestionEditor.handleUpdate` is called with, one per input. */
  datatype QuestionEdit =
    | EditText(text: string)
    | EditType(qtype: string)
    | EditRequired(required: bool)
    | EditMinValue(minValue: Option<int>)
    | EditMaxValue(maxValue: Option<int>)
    | EditMaxLength(maxLength: Option<int>)

  /** `{ ...question, [field]: value }`: the edited field takes the value; the id and the options stay. */
  function ApplyEdit(q: Question, e: QuestionEdit): (r: Question)
    ensures r.id == q.id && r.options == q.options
    ensures e.EditText? ==> r == q.(question := e.text)
    ensures e.EditType? ==> r == q.(qtype := e.qtype)
    ensures e.EditRequired? ==> r == q.(required := e.required)
    ensures e.EditMinValue? ==> r == q.(minValue := e.minValue)
    ensures e.EditMaxValue? ==> r == q.(maxValue := e.maxValue)
    ensures e.EditMaxLength? ==> r == q.(maxLength := e.maxLength)
  {
    match e
    case EditText(t) => q.(question := t)
    case EditType(t) => q.(qtype := t)
    case EditRequired(b) => q.(required := b)
    case EditMinValue(v) => q.(minValue := v)
    case EditMaxValue(v) => q.(maxValue := v)
    case EditMaxLength(v) => q.(maxLength := v)
  }

  /** `handleAddOption`: one more, empty, option at the end. */
  function AddOption(q: Question): (r: Question)
    ensures r == q.(options := r.options)
    ensures |r.options| == |q.options| + 1 && r.options[..|q.options|] == q.options && r.options[|q.options|] == ""
  {
    q.(options := q.options + [""])
  }

  /** `handleUpdateOption` for one of the listed option inputs. */
  function UpdateOption(q: Question, index: nat, value: string): (r: Question)
    requires index < |q.options|
    ensures r == q.(options := r.options)
    ensures |r.options| == |q.options| && r.options[index] == value
    ensures forall i :: 0 <= i < |q.options| && i != index ==> r.options[i] == q.options[i]
  {
    q.(options := q.options[index := value])
  }

  /** `handleRemoveOption`: drops an option only while more than two are left. */
  function RemoveOption(q: Question, index: int): (r: Question)
    ensures r == q.(options := r.options)
    ensures |q.options| <= 2 ==> r == q
    ensures !(0 <= index < |q.options|) ==> r == q
    ensures |q.options| > 2 && 0 <= index < |q.options| ==>
      r.options == q.options[..index] + q.options[index + 1..]
  {
    if |q.options| > 2 && 0 <= index < |q.options| then q.(options := q.options[..index] + q.options[index + 1..])
    else q
  }

  /** Removing options never takes a question with at least two options below two. */
  lemma RemoveOptionKeepsTwo(q: Question, index: int)
    requires |q.options| >= 2
    ensures |RemoveOption(q, index).options| >= 2
  {
  }

  // ---------------------------------------------------------------------------
  // Numeric inputs: what the range and length inputs show for a stored value

  /** `String(v)` for an integer. */
  function IntText(v: int): (r: string)
    ensures r != []
  {
    if v < 0 then "-" + DecimalString(-v) else DecimalString(v)
  }

  /** `e.target.value ? Number(e.target.value) : undefined`, for the integer texts a number input gives. */
  function ReadNumber(raw: string): Option<int>
  {
    if raw == [] then None
    else if raw[0] == '-' && |raw| > 1 && forall c :: c in raw[1..] ==> '0' <= c <= '9' then Some(-(DecimalValue(raw[1..]) as int))
    else if forall c :: c in raw ==> '0' <= c <= '9' then Some(DecimalValue(raw))
    else None
  }

  /** `value={question.minValue || ''}` as written: zero is falsy, so a stored 0 shows as an empty field. */
  function ShownNumberAsWritten(v: Option<int>): string
  {
    if v.None? || v.value == 0 then "" else IntText(v.value)
  }

  /** A limit of 0 is shown exactly like no limit, and reading the field back loses it. */
  lemma ZeroShownAsUnset()
    ensures ShownNumberAsWritten(Some(0)) == ShownNumberAsWritten(None)
    ensures ReadNumber(ShownNumberAsWritten(Some(0))) == None
  {
  }

  /** What the input should show: empty only for an unset value. */
  function ShownNumber(v: Option<int>): (r: string)
    ensures r == [] <==> v.None?
  {
    if v.None? then "" else IntText(v.value)
  }

  /** Reading back what the input shows gives the stored value, so every value, 0 included, is shown distinctly. */
  lemma ShownNumberRoundTrip(v: Option<int>)
    ensures ReadNumber(ShownNumber(v)) == v
  {
    if v.Some? {
      var n := v.value;
      if n < 0 {
        DecimalRoundTrip(-n);
        assert ShownNumber(v)[1..] == DecimalString(-n);
      } else {
        DecimalRoundTrip(n);
        assert ShownNumber(v)[0] in ShownNumber(v);
      }
    }
  }

  // ---------------------------------------------------------------------------
  // Section editor

  /** The question `addNewQuestion` creates: an optional, empty short-text question. */
  function NewQuestion(freshId: string): (r: Question)
    ensures r.id == freshId && r.qtype == QuestionTypeName(ShortText)
    ensures r.question == "" && r.options == [] && !r.required
    ensures r.minValue.None? && r.maxValue.None? && r.maxLength.None?
  {
    Question(freshId, "short_text", "", [], false, None, None, None)
  }

  /** `handleUpdateQuestion`: questions with that id become `data`; the others stay in place. */
  function UpdateQuestionIn(s: Section, questionId: string, data: Question): (r: Section)
    ensures r.id == s.id && r.title == s.title && |r.questions| == |s.questions|
    ensures forall i :: 0 <= i < |s.questions| ==>
      r.questions[i] == if s.questions[i].id == questionId then data else s.questions[i]
  {
    s.(questions := MapIf(s.questions, (q: Question) => q.id == questionId, (q: Question) => data))
  }

  /** `handleDeleteQuestion`: exactly the questions with another id are kept, in order. */
  function DeleteQuestionFrom(s: Section, questionId: string): (r: Section)
    ensures r.id == s.id && r.title == s.title
    ensures forall q :: q in r.questions <==> q in s.questions && q.id != questionId
    ensures PickedAt(r.questions, s.questions, Kept(s.questions, (q: Question) => q.id != questionId))
  {
    FilterMember(s.questions, (q: Question) => q.id != questionId);
    FilterPicksKept(s.questions, (q: Question) => q.id != questionId);
    s.(questions := Filter(s.questions, (q: Question) => q.id != questionId))
  }

  // ---------------------------------------------------------------------------
  // Builder: the sections of the assessment being edited

  /** The assessment the builder starts from: the one given, or an untitled one with one empty section. */
  function InitialForm(jobId: string, assessment: Option<Assessment>, freshId: string): (r: Assessment)
    ensures assessment.Some? ==> r == assessment.value
    ensures assessment.None? ==> r.jobId == jobId && r.title == "" &&
                                 r.sections == [Section(freshId, "General Questions", [])]
  {
    if assessment.Some? then assessment.value
    else Assessment(jobId, "", [Section(freshId, "General Questions", [])])
  }

  /** No two sections share an id. */
  predicate DistinctIds(ss: seq<Section>)
  {
    forall i, j :: 0 <= i < j < |ss| ==> ss[i].id != ss[j].id
  }

  /** `handleUpdateSection`: sections with that id become `data`; the others stay in place. */
  function UpdateSection(ss: seq<Section>, sectionId: string, data: Section): (r: seq<Section>)
    ensures |r| == |ss|
    ensures forall i :: 0 <= i < |ss| ==> r[i] == if ss[i].id == sectionId then data else ss[i]
    ensures DistinctIds(ss) && data.id == sectionId ==> DistinctIds(r)
  {
    MapIf(ss, (s: Section) => s.id == sectionId, (s: Section) => data)
  }

  /** `handleDeleteSection`: while more than one section is left, drops those with that id. */
  function DeleteSection(ss: seq<Section>, sectionId: string): (r: seq<Section>)
    ensures |ss| <= 1 ==> r == ss
    ensures |ss| > 1 ==> forall s :: s in r <==> s in ss && s.id != sectionId
    ensures |ss| > 1 ==> PickedAt(r, ss, Kept(ss, (s: Section) => s.id != sectionId))
    ensures DistinctIds(ss) ==> DistinctIds(r)
  {
    if |ss| > 1 then
      FilterMember(ss, (s: Section) => s.id != sectionId);
      FilterPicksKept(ss, (s: Section) => s.id != sectionId);
      Filter(ss, (s: Section) => s.id != sectionId)
    else ss
  }

  /** With distinct ids, deleting a section never leaves the assessment without one. */
  lemma DeleteSectionKeepsOne(ss: seq<Section>, sectionId: string)
    requires DistinctIds(ss) && |ss| >= 1
    ensures |DeleteSection(ss, sectionId)| >= 1
  {
    if |ss| > 1 {
      var keep := if ss[0].id != sectionId then ss[0] else ss[1];
      assert keep in ss && keep.id != sectionId;
      assert keep in DeleteSection(ss, sectionId);
    }
  }

  /** The guard counts sections but the filter goes by id: two sections sharing an id are both deleted. */
  lemma DeleteSectionSharedId()
    ensures DeleteSection([Section("x", "A", []), Section("x", "B", [])], "x") == []
  {
    var ss := [Section("x", "A", []), Section("x", "B", [])];
    FilterNone(ss, (s: Section) => s.id != "x");
  }

  /** The title `handleAddSection` gives the section it appends: its position, counted from 1. */
  function SectionTitle(count: nat): string
  {
    "Section " + DecimalString(count)
  }

  /** `handleAddSection`: an empty section titled by its number goes last. */
  function AddSection(ss: seq<Section>, freshId: string): (r: seq<Section>)
    ensures |r| == |ss| + 1 && r[..|ss|] == ss
    ensures r[|ss|] == Section(freshId, SectionTitle(|r|), [])
    ensures DistinctIds(ss) && (forall s :: s in ss ==> s.id != freshId) ==> DistinctIds(r)
  {
    ss + [Section(freshId, SectionTitle(|ss| + 1), [])]
  }

  /** The number in a new section's title reads back as the section count. */
  lemma AddSectionNumbered(ss: seq<Section>, freshId: string)
    ensures var t := AddSection(ss, freshId)[|ss|].title;
      |t| > 8 && t[..8] == "Section " && DecimalValue(t[8..]) == |ss| + 1
  {
    DecimalRoundTrip(|ss| + 1);
    var t := AddSection(ss, freshId)[|ss|].title;
    assert t[8..] == DecimalString(|ss| + 1);
  }

  /** `handleAddQuestion`: the question goes at the end of each section with that id. */
  function AddQuestionTo(ss: seq<Section>, sectionId: string, q: Question): (r: seq<Section>)
    ensures |r| == |ss|
    ensures forall i :: 0 <= i < |ss| ==>
      r[i] == if ss[i].id == sectionId then ss[i].(questions := ss[i].questions + [q]) else ss[i]
  {
    MapIf(ss, (s: Section) => s.id == sectionId, (s: Section) => s.(questions := s.questions + [q]))
  }

  /** `totalQuestions`: the questions of all sections together. */
  function TotalQuestions(ss: seq<Section>): nat
  {
    if ss == [] then 0 else |ss[0].questions| + TotalQuestions(ss[1..])
  }

  /** How many sections carry the id. */
  function SectionsWithId(ss: seq<Section>, sectionId: string): nat
  {
    if ss == [] then 0 else (if ss[0].id == sectionId then 1 else 0) + SectionsWithId(ss[1..], sectionId)
  }

  /** Adding a question raises the total by the number of sections with that id: by one when ids are distinct and it exists. */
  lemma {:induction false} AddQuestionCount(ss: seq<Section>, sectionId: string, q: Question)
    ensures TotalQuestions(AddQuestionTo(ss, sectionId, q)) == TotalQuestions(ss) + SectionsWithId(ss, sectionId)
  {
    if ss != [] {
      AddQuestionCount(ss[1..], sectionId, q);
      assert AddQuestionTo(ss, sectionId, q)[1..] == AddQuestionTo(ss[1..], sectionId, q);
    }
  }

  /** `sections.some(s => s.questions && s.questions.length > 0)`. */
  predicate HasQuestions(ss: seq<Section>)
  {
    exists i :: 0 <= i < |ss| && |ss[i].questions| > 0
  }

  /** Some section has a question exactly when the total is positive. */
  lemma {:induction false} HasQuestionsIffTotal(ss: seq<Section>)
    ensures HasQuestions(ss) <==> TotalQuestions(ss) > 0
  {
    if ss != [] {
      HasQuestionsIffTotal(ss[1..]);
      if HasQuestions(ss[1..]) {
        var i :| 0 <= i < |ss[1..]| && |ss[1..][i].questions| > 0;
        assert |ss[i + 1].questions| > 0;
      }
      if HasQuestions(ss) && |ss[0].questions| == 0 {
        var i :| 0 <= i < |ss| && |ss[i].questions| > 0;
        assert ss[1..][i - 1] == ss[i];
      }
    }
  }

  /** What pressing save leads to: an alert, or the assessment handed to `onSave`. */
  datatype SaveOutcome = Alert(message: string) | Save(assessment: Assessment)

  const TitleAlert := "Please enter an assessment title"
  const QuestionsAlert := "Please add at least one question"

  /** `handleSave`'s checks, in order: a title, then at least one question. */
  function SaveCheck(a: Assessment): SaveOutcome
  {
    if IsBlank(a.title) then Alert(TitleAlert)
    else if !HasQuestions(a.sections) then Alert(QuestionsAlert)
    else Save(a)
  }

  /**
   * The assessment is handed on, unchanged, exactly when its title is not blank
   * and it has at least one question; a blank title is reported before a
   * missing question.
   */
  lemma SaveCheckSpec(a: Assessment)
    ensures SaveCheck(a).Save? <==> !IsBlank(a.title) && TotalQuestions(a.sections) > 0
    ensures SaveCheck(a).Save? ==> SaveCheck(a).assessment == a
    ensures IsBlank(a.title) ==> SaveCheck(a) == Alert(TitleAlert)
    ensures !IsBlank(a.title) && TotalQuestions(a.sections) == 0 ==> SaveCheck(a) == Alert(QuestionsAlert)
  {
    HasQuestionsIffTotal(a.sections);
  }

  class Builder {
    var formData: Assessment
    var showPreview: bool

    constructor (jobId: string, assessment: Option<Assessment>, freshId: string)
      ensures formData == InitialForm(jobId, assessment, freshId) && !showPreview
    {
      formData := InitialForm(jobId, assessment, freshId);
      showPreview := false;
    }

    /** `handleTitleChange`. */
    method HandleTitleChange(value: string)
      modifies this`formData
      ensures formData == old(formData).(title := value)
    {
      formData := formData.(title := value);
    }

    /** `handleUpdateSection`, with the section the section editor produced. */
    method HandleUpdateSection(sectionId: string, data: Section)
      modifies this`formData
      ensures formData == old(formData).(sections := UpdateSection(old(formData.sections), sectionId, data))
    {
      formData := formData.(sections := UpdateSection(formData.sections, sectionId, data));
    }

    /** `handleDeleteSection`. */
    method HandleDeleteSection(sectionId: string)
      modifies this`formData
      ensures formData == old(formData).(sections := DeleteSection(old(formData.sections), sectionId))
    {
      formData := formData.(sections := DeleteSection(formData.sections, sectionId));
    }

    /** `handleAddSection`. */
    method HandleAddSection(freshId: string)
      modifies this`formData
      ensures formData == old(formData).(sections := AddSection(old(formData.sections), freshId))
    {
      formData := formData.(sections := AddSection(formData.sections, freshId));
    }

    /** `handleAddQuestion`. */
    method HandleAddQuestion(sectionId: string, q: Question)
      modifies this`formData
      ensures formData == old(formData).(sections := AddQuestionTo(old(formData.sections), sectionId, q))
      ensures TotalQuestions(formData.sections) ==
              TotalQuestions(old(formData.sections)) + SectionsWithId(old(formData.sections), sectionId)
    {
      AddQuestionCount(formData.sections, sectionId, q);
      formData := formData.(sections := AddQuestionTo(formData.sections, sectionId, q));
    }

    /** The preview button. */
    method TogglePreview()
      modifies this`showPreview
      ensures showPreview == !old(showPreview)
    {
      showPreview := !showPreview;
    }

    /** `handleSave`: changes nothing in the form; says whether the assessment is handed on or which alert is shown. */
    method HandleSave() returns (outcome: SaveOutcome)
      ensures outcome.Save? <==> !IsBlank(formData.title) && TotalQuestions(formData.sections) > 0
      ensures outcome.Save? ==> outcome.assessment == formData
    {
      SaveCheckSpec(formData);
      outcome := SaveCheck(formData);
    }
  }
}
