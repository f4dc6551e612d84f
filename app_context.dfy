/**
 * The application-wide state and its reducer: a record of job and candidate
 * lists, assessments keyed by job id, a loading flag, an error and the current
 * selections, changed only by dispatched actions.
 */
module AppContext {
  import opened Wrappers
  import opened Seqs
  import opened Records

  datatype AppState = AppState(
    jobs: seq<Job>,
    candidates: seq<Candidate>,
    assessments: map<string, Option<Assessment>>,
    loading: bool,
    error: Option<string>,
    selectedJob: Option<Job>,
    selectedCandidate: Option<Candidate>)

  /** `initialState`. */
  const InitialState := AppState([], [], map[], false, None, None, None)

  /** `ActionTypes` with their payloads; `Other` is any other type string. */
  datatype Action =
    | SetLoading(loading: bool)
    | SetError(error: Option<string>)
    | SetJobs(jobs: seq<Job>)
    | SetCandidates(candidates: seq<Candidate>)
    | SetAssessment(jobId: string, assessment: Option<Assessment>)
    | SelectJob(selectedJob: Option<Job>)
    | SelectCandidate(selectedCandidate: Option<Candidate>)
    | UpdateJob(job: Job)
    | UpdateCandidate(candidate: Candidate)
    | AddJob(job: Job)
    | RemoveJob(id: string)
    | Other(actionType: string)

  /** `appReducer`. */
  function Reduce(s: AppState, a: Action): AppState
  {
    match a
    case SetLoading(l) => s.(loading := l)
    case SetError(e) => s.(error := e, loading := false)
    case SetJobs(js) => s.(jobs := js)
    case SetCandidates(cs) => s.(candidates := cs)
    case SetAssessment(id, x) => s.(assessments := s.assessments[id := x])
    case SelectJob(j) => s.(selectedJob := j)
    case SelectCandidate(c) => s.(selectedCandidate := c)
    case UpdateJob(j) => s.(jobs := MapIf(s.jobs, (x: Job) => x.id == j.id, _ => j))
    case UpdateCandidate(c) => s.(candidates := MapIf(s.candidates, (x: Candidate) => x.id == c.id, _ => c))
    case AddJob(j) => s.(jobs := s.jobs + [j])
    case RemoveJob(id) => s.(jobs := Filter(s.jobs, (x: Job) => x.id != id))
    case Other(_) => s
  }

  /** The state fields an action may change. */
  datatype Field = Jobs | Candidates | Assessments | Loading | Error | SelectedJob | SelectedCandidate

  function Touches(a: Action): set<Field>
  {
    match a
    case SetLoading(_) => {Loading}
    case SetError(_) => {Error, Loading}
    case SetJobs(_) | UpdateJob(_) | AddJob(_) | RemoveJob(_) => {Jobs}
    case SetCandidates(_) | UpdateCandidate(_) => {Candidates}
    case SetAssessment(_, _) => {Assessments}
    case SelectJob(_) => {SelectedJob}
    case SelectCandidate(_) => {SelectedCandidate}
    case Other(_) => {}
  }

  /** Two states agree on every field outside `fs`. */
  predicate AgreeOutside(s: AppState, t: AppState, fs: set<Field>)
  {
    && (Jobs !in fs ==> s.jobs == t.jobs)
    && (Candidates !in fs ==> s.candidates == t.candidates)
    && (Assessments !in fs ==> s.assessments == t.assessments)
    && (Loading !in fs ==> s.loading == t.loading)
    && (Error !in fs ==> s.error == t.error)
    && (SelectedJob !in fs ==> s.selectedJob == t.selectedJob)
    && (SelectedCandidate !in fs ==> s.selectedCandidate == t.selectedCandidate)
  }

  /** Every action leaves the fields it does not name untouched; an unknown action changes nothing. */
  lemma ReduceFrame(s: AppState, a: Action)
    ensures AgreeOutside(s, Reduce(s, a), Touches(a))
    ensures a.Other? ==> Reduce(s, a) == s
  {
  }

  /** `SET_ERROR` records the error and always clears `loading`; `SET_LOADING` sets only `loading`. */
  lemma SetErrorStopsLoading(s: AppState, e: Option<string>, l: bool)
    ensures Reduce(s, SetError(e)).error == e && !Reduce(s, SetError(e)).loading
    ensures Reduce(s, SetLoading(l)) == s.(loading := l)
  {
  }

  /**
   * `UPDATE_JOB` replaces every job whose id is the payload's id by the payload
   * and keeps the length, the order and every other job.
   */
  lemma UpdateJobReplaces(s: AppState, j: Job)
    ensures |Reduce(s, UpdateJob(j)).jobs| == |s.jobs|
    ensures forall i :: 0 <= i < |s.jobs| ==>
      Reduce(s, UpdateJob(j)).jobs[i] == if s.jobs[i].id == j.id then j else s.jobs[i]
  {
  }

  /** `UPDATE_CANDIDATE` does the same for candidates. */
  lemma UpdateCandidateReplaces(s: AppState, c: Candidate)
    ensures |Reduce(s, UpdateCandidate(c)).candidates| == |s.candidates|
    ensures forall i :: 0 <= i < |s.candidates| ==>
      Reduce(s, UpdateCandidate(c)).candidates[i] == if s.candidates[i].id == c.id then c else s.candidates[i]
  {
  }

  /** `ADD_JOB` appends the payload, so the list grows by exactly one. */
  lemma AddJobAppends(s: AppState, j: Job)
    ensures Reduce(s, AddJob(j)).jobs == s.jobs + [j]
    ensures |Reduce(s, AddJob(j)).jobs| == |s.jobs| + 1
  {
  }

  /** `REMOVE_JOB` drops every job with the id and keeps the others in their order. */
  lemma RemoveJobDrops(s: AppState, id: string)
    ensures forall j :: j in Reduce(s, RemoveJob(id)).jobs <==> j in s.jobs && j.id != id
    ensures PickedAt(Reduce(s, RemoveJob(id)).jobs, s.jobs, Kept(s.jobs, (x: Job) => x.id != id))
  {
    FilterMember(s.jobs, (x: Job) => x.id != id);
    FilterPicksKept(s.jobs, (x: Job) => x.id != id);
  }

  /** `SET_ASSESSMENT` sets the payload's job key and leaves every other key as it was. */
  lemma SetAssessmentOneKey(s: AppState, id: string, x: Option<Assessment>)
    ensures var t := Reduce(s, SetAssessment(id, x));
      id in t.assessments && t.assessments[id] == x &&
      forall k :: k != id ==> (k in t.assessments <==> k in s.assessments) &&
                              (k in s.assessments ==> t.assessments[k] == s.assessments[k])
  {
  }
}
