/**
 * The records the mock data store holds and the components pass around: jobs,
 * candidates with their notes, and assessments made of sections of questions.
 * Enumerated values (stage, status, question type) are kept as the strings the
 * data carries; `Stages` says which strings are valid.
 */
module Records {
  import opened Wrappers
  import opened Seqs

  datatype Job = Job(
    id: string,
    title: string,
    slug: string,
    status: string,
    tags: seq<string>,
    order: int,
    description: string,
    requirements: seq<string>,
    createdAt: string)

  datatype Note = Note(id: string, content: string, createdAt: string, author: string)

  datatype Candidate = Candidate(
    id: string,
    name: string,
    email: string,
    stage: string,
    jobId: string,
    appliedAt: string,
    notes: seq<Note>)

  /**
   * One assessment question. `options` is used by the choice types, the value
   * range by numeric questions and the length limit by text questions; an
   * unset number is `None`.
   */
  datatype Question = Question(
    id: string,
    qtype: string,
    question: string,
    options: seq<string>,
    required: bool,
    minValue: Option<int>,
    maxValue: Option<int>,
    maxLength: Option<int>)

  datatype Section = Section(id: string, title: string, questions: seq<Question>)

  datatype Assessment = Assessment(jobId: string, title: string, sections: seq<Section>)

  /** What the job form submits and `createJob` receives. */
  datatype JobData = JobData(
    title: string,
    slug: string,
    status: string,
    description: string,
    requirements: seq<string>,
    tags: seq<string>)

  /** An `updates` object for `updateJob`: the fields it carries. */
  datatype JobPatch = JobPatch(
    id: Option<string>,
    title: Option<string>,
    slug: Option<string>,
    status: Option<string>,
    tags: Option<seq<string>>,
    order: Option<int>,
    description: Option<string>,
    requirements: Option<seq<string>>,
    createdAt: Option<string>)

  /** An `updates` object for `updateCandidate`: the fields it carries. */
  datatype CandidatePatch = CandidatePatch(
    id: Option<string>,
    name: Option<string>,
    email: Option<string>,
    stage: Option<string>,
    jobId: Option<string>,
    appliedAt: Option<string>,
    notes: Option<seq<Note>>)

  function Or<T>(o: Option<T>, keep: T): T
  {
    if o.Some? then o.value else keep
  }

  /** `{ ...job, ...updates }`. */
  function MergeJob(j: Job, u: JobPatch): Job
  {
    Job(Or(u.id, j.id), Or(u.title, j.title), Or(u.slug, j.slug), Or(u.status, j.status),
        Or(u.tags, j.tags), Or(u.order, j.order), Or(u.description, j.description),
        Or(u.requirements, j.requirements), Or(u.createdAt, j.createdAt))
  }

  /** `{ ...candidate, ...updates }`. */
  function MergeCandidate(c: Candidate, u: CandidatePatch): Candidate
  {
    Candidate(Or(u.id, c.id), Or(u.name, c.name), Or(u.email, c.email), Or(u.stage, c.stage),
              Or(u.jobId, c.jobId), Or(u.appliedAt, c.appliedAt), Or(u.notes, c.notes))
  }

  /** `{ status }`. */
  function StatusPatch(status: string): JobPatch
  {
    JobPatch(None, None, None, Some(status), None, None, None, None, None)
  }

  /** The fields of a submitted job form as an `updates` object. */
  function DataPatch(d: JobData): JobPatch
  {
    JobPatch(None, Some(d.title), Some(d.slug), Some(d.status), Some(d.tags), None,
             Some(d.description), Some(d.requirements), None)
  }

  /** `{ stage }`. */
  function StagePatch(stage: string): CandidatePatch
  {
    CandidatePatch(None, None, None, Some(stage), None, None, None)
  }

  /** `candidates.filter(c => c.stage === stage)`: the candidates at one stage, in list order. */
  function AtStage(cs: seq<Candidate>, stage: string): seq<Candidate>
  {
    Filter(cs, (c: Candidate) => c.stage == stage)
  }

  /** A merge changes exactly the fields the patch carries; the stage patch changes only the stage. */
  lemma StagePatchOnlyStage(c: Candidate, stage: string)
    ensures MergeCandidate(c, StagePatch(stage)) == c.(stage := stage)
  {
  }
}
