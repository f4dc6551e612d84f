/**
 * The assessments page: one card per job with its assessment's question and
 * section counts, the map of assessments loaded for the listed jobs, and
 * saving from the builder.
 */
module AssessmentsBoard {
  import opened Wrappers
  import opened Records
  import opened MockApi
  import opened AssessmentBuilder

  /** A card's question badge: the questions of all sections, 0 without an assessment. */
  function QuestionCount(a: Option<Assessment>): (r: nat)
    ensures a.None? ==> r == 0
    ensures a.Some? ==> r == TotalQuestions(a.value.sections)
    ensures a.Some? ==> (r > 0 <==> HasQuestions(a.value.sections))
  {
    if a.None? then 0
    else
      HasQuestionsIffTotal(a.value.sections);
      TotalQuestions(a.value.sections)
  }

  /** A card's section count, 0 without an assessment. */
  function SectionCount(a: Option<Assessment>): (r: nat)
    ensures r == if a.Some? then |a.value.sections| else 0
  {
    if a.None? then 0 else |a.value.sections|
  }

  /** A card's subtitle: the assessment's title, or a placeholder when there is none or it is empty. */
  function Subtitle(a: Option<Assessment>): (r: string)
    ensures a.Some? && a.value.title != "" ==> r == a.value.title
    ensures a.None? || a.value.title == "" ==> r == "No assessment created"
  {
    if a.Some? && a.value.title != "" then a.value.title else "No assessment created"
  }

  datatype CardAction = Preview | Edit | Copy | Create

  /** The buttons on a card: preview, edit and copy for an existing assessment, create otherwise. */
  function CardActions(a: Option<Assessment>): (r: seq<CardAction>)
    ensures Create in r <==> a.None?
    ensures Edit in r <==> a.Some?
    ensures r == if a.Some? then [Preview, Edit, Copy] else [Create]
  {
    if a.Some? then [Preview, Edit, Copy] else [Create]
  }

  /** One resolved `getAssessment` call, tagged with its job. */
  datatype Fetched = Fetched(jobId: string, assessment: Option<Assessment>)

  /** The results of asking the store for each job's assessment, in job order. */
  function FetchAll(jobs: seq<Job>, stored: map<string, Assessment>): (r: seq<Fetched>)
    ensures |r| == |jobs|
    ensures forall i :: 0 <= i < |jobs| ==> r[i] == Fetched(jobs[i].id, Lookup(stored, jobs[i].id))
  {
    seq(|jobs|, i requires 0 <= i < |jobs| => Fetched(jobs[i].id, Lookup(stored, jobs[i].id)))
  }

  /** The `forEach` over the results: each found assessment is entered under its job id, later entries winning. */
  function AssessmentsMap(results: seq<Fetched>): map<string, Assessment>
  {
    if results == [] then map[]
    else
      var n := |results| - 1;
      var m := AssessmentsMap(results[..n]);
      if results[n].assessment.Some? then m[results[n].jobId := results[n].assessment.value] else m
  }

  /**
   * Built from the store's own answers, the map holds exactly the listed jobs
   * that have a stored assessment, each with the stored one.
   */
  lemma {:induction false} AssessmentsMapOfStore(jobs: seq<Job>, stored: map<string, Assessment>)
    ensures forall k :: k in AssessmentsMap(FetchAll(jobs, stored)) <==>
      k in stored && exists i :: 0 <= i < |jobs| && jobs[i].id == k
    ensures forall k :: k in AssessmentsMap(FetchAll(jobs, stored)) ==> AssessmentsMap(FetchAll(jobs, stored))[k] == stored[k]
  {
    if jobs != [] {
      var n := |jobs| - 1;
      AssessmentsMapOfStore(jobs[..n], stored);
      assert FetchAll(jobs, stored)[..n] == FetchAll(jobs[..n], stored);
      forall k | k in stored && (exists i :: 0 <= i < |jobs| && jobs[i].id == k)
        ensures k in AssessmentsMap(FetchAll(jobs, stored))
      {
        var i :| 0 <= i < |jobs| && jobs[i].id == k;
        if i < n {
          assert jobs[..n][i].id == k;
        }
      }
      forall k | k in AssessmentsMap(FetchAll(jobs, stored))
        ensures exists i :: 0 <= i < |jobs| && jobs[i].id == k
      {
        if k != jobs[n].id {
          var i :| 0 <= i < n && jobs[..n][i].id == k;
          assert jobs[i].id == k;
        }
      }
    }
  }

  /** The `forEach` loop that builds `assessmentsMap` from the resolved calls. */
  method BuildAssessmentsMap(results: seq<Fetched>) returns (m: map<string, Assessment>)
    ensures m == AssessmentsMap(results)
    ensures forall k :: k in m <==> exists i :: 0 <= i < |results| && results[i].jobId == k && results[i].assessment.Some?
  {
    m := map[];
    var i := 0;
    while i < |results|
      invariant 0 <= i <= |results|
      invariant m == AssessmentsMap(results[..i])
      invariant forall k :: k in m <==> exists j :: 0 <= j < i && results[j].jobId == k && results[j].assessment.Some?
    {
      assert results[..i + 1][..i] == results[..i];
      var r := results[i];
      if r.assessment.Some? {
        m := m[r.jobId := r.assessment.value];
      }
      i := i + 1;
    }
    assert results[..i] == results;
  }

  /** `getJobs({ pageSize: 100 })`. */
  const LoadQuery := DefaultJobQuery.(pageSize := 100)

  /** The local map agrees with the store on every key it has. */
  ghost predicate Synced(local: map<string, Assessment>, stored: map<string, Assessment>)
  {
    forall k :: k in local ==> k in stored && local[k] == stored[k]
  }

  class Board {
    var jobs: seq<Job>
    var assessments: map<string, Assessment>
    var loading: bool
    var selectedJobId: Option<string>
    var selectedAssessment: Option<Assessment>
    var isBuilderOpen: bool
    var isPreviewOpen: bool

    constructor ()
      ensures jobs == [] && assessments == map[] && !loading
      ensures selectedJobId.None? && selectedAssessment.None? && !isBuilderOpen && !isPreviewOpen
    {
      jobs, assessments, loading := [], map[], false;
      selectedJobId, selectedAssessment, isBuilderOpen, isPreviewOpen := None, None, false, false;
    }

    /**
     * `loadData`: the first 100 jobs, then every listed job's assessment. When
     * the calls fail the jobs and the map stay as they were; when they succeed
     * the map holds the listed jobs' stored assessments and agrees with the store.
     */
    method LoadData(api: MockStore)
      modifies this`jobs, this`assessments, this`loading
      ensures api.available ==> jobs == GetJobs(api.jobs, LoadQuery).jobs &&
                                assessments == AssessmentsMap(FetchAll(jobs, api.assessments)) &&
                                Synced(assessments, api.assessments)
      ensures !api.available ==> jobs == old(jobs) && assessments == old(assessments)
      ensures !loading
    {
      loading := true;
      var page := api.FetchJobs(LoadQuery);
      if page.Err? {
        loading := false;
        return;
      }
      jobs := page.value.jobs;
      var results: seq<Fetched> := [];
      var i := 0;
      while i < |jobs|
        invariant 0 <= i <= |jobs|
        invariant api.available && jobs == page.value.jobs
        invariant results == FetchAll(jobs[..i], api.assessments)
      {
        var a := api.FetchAssessment(jobs[i].id);
        results := results + [Fetched(jobs[i].id, if a.Ok? then a.value else None)];
        i := i + 1;
      }
      assert jobs[..i] == jobs;
      assessments := BuildAssessmentsMap(results);
      AssessmentsMapOfStore(jobs, api.assessments);
      loading := false;
    }

    /** `handleEditAssessment`: opens the builder on the job's assessment, or on a new one. */
    method HandleEditAssessment(jobId: string, assessment: Option<Assessment>)
      modifies this`selectedJobId, this`selectedAssessment, this`isBuilderOpen
      ensures selectedJobId == Some(jobId) && selectedAssessment == assessment && isBuilderOpen
    {
      selectedJobId, selectedAssessment, isBuilderOpen := Some(jobId), assessment, true;
    }

    /** `handleViewAssessment`: opens the preview on the job's assessment. */
    method HandleViewAssessment(jobId: string, assessment: Option<Assessment>)
      modifies this`selectedJobId, this`selectedAssessment, this`isPreviewOpen
      ensures selectedJobId == Some(jobId) && selectedAssessment == assessment && isPreviewOpen
    {
      selectedJobId, selectedAssessment, isPreviewOpen := Some(jobId), assessment, true;
    }

    /** The header's create button, enabled only when some job is listed: a new assessment for the first job. */
    method HandleCreate()
      requires jobs != []
      modifies this`selectedJobId, this`selectedAssessment, this`isBuilderOpen
      ensures selectedJobId == Some(jobs[0].id) && selectedAssessment.None? && isBuilderOpen
    {
      HandleEditAssessment(jobs[0].id, None);
    }

    /**
     * `handleSaveAssessment`, called by the open builder: stores the data under
     * the selected job, and only once that succeeds enters it in the local map
     * and closes the builder. On failure nothing changes. A save keeps the local
     * map in agreement with the store.
     */
    method HandleSaveAssessment(api: MockStore, data: Assessment) returns (ok: bool)
      requires selectedJobId.Some?
      modifies this`assessments, this`isBuilderOpen, this`selectedJobId, this`selectedAssessment, api`assessments
      ensures ok <==> old(api.available)
      ensures ok ==> assessments == old(assessments)[old(selectedJobId).value := data] &&
                     api.assessments == old(api.assessments)[old(selectedJobId).value := data] &&
                     !isBuilderOpen && selectedJobId.None? && selectedAssessment.None?
      ensures !ok ==> assessments == old(assessments) && api.assessments == old(api.assessments) &&
                      isBuilderOpen == old(isBuilderOpen) && selectedJobId == old(selectedJobId) &&
                      selectedAssessment == old(selectedAssessment)
      ensures Synced(old(assessments), old(api.assessments)) ==> Synced(assessments, api.assessments)
    {
      var jobId := selectedJobId.value;
      var r := api.SaveAssessment(jobId, data);
      ok := r.Ok?;
      if ok {
        assessments := assessments[jobId := data];
        isBuilderOpen, selectedJobId, selectedAssessment := false, None, None;
      }
    }
  }
}
