/**
 * The enumerations of the hiring pipeline: the six candidate stages, the two job
 * statuses and the six assessment question types. The source spells each stage
 * list out again in several components; here it is defined once, and records
 * keep the stage as the string the data carries, so that values outside the
 * enumeration can still be reasoned about.
 */
module Stages {
  import opened Wrappers
  import opened Seqs

  datatype Stage = Applied | Screen | Tech | Offer | Hired | Rejected

  /** The string each stage is stored as. */
  function Name(st: Stage): string
  {
    match st
    case Applied => "applied"
    case Screen => "screen"
    case Tech => "tech"
    case Offer => "offer"
    case Hired => "hired"
    case Rejected => "rejected"
  }

  /** `Object.values(CANDIDATE_STAGES)`: the stage strings in declaration order. */
  const Names: seq<string> := ["applied", "screen", "tech", "offer", "hired", "rejected"]

  /** The stages in the same order. */
  const Order: seq<Stage> := [Applied, Screen, Tech, Offer, Hired, Rejected]

  /** The stage a string names, if it names one. */
  function Parse(s: string): (r: Option<Stage>)
    ensures r.Some? ==> Name(r.value) == s
    ensures r.None? <==> s !in Names
  {
    if s == "applied" then Some(Applied)
    else if s == "screen" then Some(Screen)
    else if s == "tech" then Some(Tech)
    else if s == "offer" then Some(Offer)
    else if s == "hired" then Some(Hired)
    else if s == "rejected" then Some(Rejected)
    else None
  }

  /** `Object.values(CANDIDATE_STAGES).indexOf(s)`: -1 for a string outside the enumeration. */
  function Index(s: string): int
  {
    IndexOf(Names, s)
  }

  /** A stage's position in the declaration order. */
  function Position(st: Stage): nat
  {
    match st
    case Applied => 0
    case Screen => 1
    case Tech => 2
    case Offer => 3
    case Hired => 4
    case Rejected => 5
  }

  /** Names, parsing and positions agree: each stage's string sits at its position and parses back to it. */
  lemma NameRoundTrip(st: Stage)
    ensures Parse(Name(st)) == Some(st)
    ensures Index(Name(st)) == Position(st)
    ensures Names[Position(st)] == Name(st) && Order[Position(st)] == st
  {
    assert Names[Position(st)] == Name(st);
    assert Name(st) !in Names[..Position(st)];
  }

  /** A string's index is -1 exactly when it names no stage. */
  lemma IndexOfUnknown(s: string)
    ensures Index(s) == -1 <==> Parse(s).None?
    ensures Parse(s).Some? ==> Index(s) == Position(Parse(s).value)
  {
    if Parse(s).Some? {
      NameRoundTrip(Parse(s).value);
    }
  }

  /** `JOB_STATUSES`. */
  datatype JobStatus = Active | Archived

  function StatusName(s: JobStatus): string
  {
    match s
    case Active => "active"
    case Archived => "archived"
  }

  /** `QUESTION_TYPES`. */
  datatype QuestionType = SingleChoice | MultiChoice | ShortText | LongText | Numeric | FileUpload

  function QuestionTypeName(t: QuestionType): string
  {
    match t
    case SingleChoice => "single_choice"
    case MultiChoice => "multi_choice"
    case ShortText => "short_text"
    case LongText => "long_text"
    case Numeric => "numeric"
    case FileUpload => "file_upload"
  }
}
