/**
 * The mock API: an in-memory store of jobs, candidates and assessments with
 * read operations (filter, sort, offset pagination) and write operations
 * (append, merge-update by id, keyed overwrite). The artificial latency of every
 * call is not modelled; instead each call may fail as a whole, which the store's
 * `available` flag decides, so the callers' error paths can be stated.
 */
module MockApi {
  import opened Wrappers
  import opened Seqs
  import opened Text
  import opened Records
  import opened Sorting

  /** The parameters of `getJobs`; `DefaultJobQuery` gives the destructuring defaults. */
  datatype JobQuery = JobQuery(search: string, status: string, page: int, pageSize: int, sort: string)

  const DefaultJobQuery := JobQuery("", "", 1, 10, "order")

  datatype JobPage = JobPage(jobs: seq<Job>, total: nat, page: int, pageSize: int, totalPages: int)

  /** The parameters of `getCandidates`; `DefaultCandidateQuery` gives the destructuring defaults. */
  datatype CandidateQuery = CandidateQuery(search: string, stage: string, page: int, pageSize: int)

  const DefaultCandidateQuery := CandidateQuery("", "", 1, 50)

  datatype CandidatePage = CandidatePage(candidates: seq<Candidate>, total: nat, page: int, pageSize: int, hasMore: bool)

  /** The `getJobs` filter: an empty search or status matches everything. */
  predicate JobMatches(j: Job, search: string, status: string)
  {
    && (search == "" || IncludesIgnoreCase(j.title, search))
    && (status == "" || j.status == status)
  }

  function FilterJobs(jobs: seq<Job>, search: string, status: string): seq<Job>
  {
    Filter(jobs, j => JobMatches(j, search, status))
  }

  predicate OrderLe(a: Job, b: Job) { a.order <= b.order }

  predicate TitleLe(a: Job, b: Job) { LexLe(a.title, b.title) }

  /** Sorting the filtered copy: by `order`, by title, or not at all for any other key. */
  function SortJobs(jobs: seq<Job>, sort: string): (r: seq<Job>)
    ensures multiset(r) == multiset(jobs)
  {
    if sort == "order" then SortBy(jobs, OrderLe)
    else if sort == "title" then SortBy(jobs, TitleLe)
    else jobs
  }

  /** `Math.ceil(n / d)` for a positive divisor. */
  function CeilDiv(n: nat, d: int): (r: nat)
    requires d > 0
    ensures r * d >= n
    ensures r == 0 || (r - 1) * d < n
  {
    (n + d - 1) / d
  }

  /** The jobs `getJobs` pages through: the matching jobs, sorted. */
  function SortedMatches(jobs: seq<Job>, q: JobQuery): (r: seq<Job>)
    ensures |r| == |FilterJobs(jobs, q.search, q.status)|
  {
    var filtered := FilterJobs(jobs, q.search, q.status);
    var sorted := SortJobs(filtered, q.sort);
    assert |sorted| == |multiset(sorted)| == |filtered|;
    sorted
  }

  /** `xs.slice((page - 1) * size, (page - 1) * size + size)`. */
  function PageOf<T>(xs: seq<T>, page: int, size: int): (r: seq<T>)
    ensures size >= 0 ==> |r| <= size
  {
    var start := PageStart(page, size);
    Slice(xs, start, start + size)
  }

  /** `getJobs`: filter, sort the filtered copy, then cut out page `page` of `pageSize` jobs. */
  function GetJobs(jobs: seq<Job>, q: JobQuery): (r: JobPage)
    requires q.pageSize > 0
    ensures r.total == |FilterJobs(jobs, q.search, q.status)|
    ensures r.page == q.page && r.pageSize == q.pageSize
    ensures |r.jobs| <= q.pageSize
    ensures r.totalPages == CeilDiv(r.total, q.pageSize)
  {
    var sorted := SortedMatches(jobs, q);
    JobPage(PageOf(sorted, q.page, q.pageSize), |sorted|, q.page, q.pageSize, CeilDiv(|sorted|, q.pageSize))
  }

  /** A job is kept by the `getJobs` filter exactly when it matches both the search and the status. */
  lemma FilterJobsIff(jobs: seq<Job>, search: string, status: string)
    ensures forall j :: j in FilterJobs(jobs, search, status) <==>
      j in jobs && (search == "" || IncludesIgnoreCase(j.title, search)) && (status == "" || j.status == status)
  {
    FilterMember(jobs, j => JobMatches(j, search, status));
  }

  /** Every job on a page is a stored job that matches the query. */
  lemma GetJobsMatch(jobs: seq<Job>, q: JobQuery)
    requires q.pageSize > 0
    ensures forall j :: j in GetJobs(jobs, q).jobs ==> j in jobs && JobMatches(j, q.search, q.status)
  {
    var filtered := FilterJobs(jobs, q.search, q.status);
    var sorted := SortedMatches(jobs, q);
    assert sorted == SortJobs(filtered, q.sort);
    forall j | j in GetJobs(jobs, q).jobs
      ensures j in jobs && JobMatches(j, q.search, q.status)
    {
      var start := PageStart(q.page, q.pageSize);
      SliceMember(sorted, start, start + q.pageSize, j);
      assert j in multiset(sorted);
      assert j in filtered;
    }
  }

  /** With sort key `order`, a page is in non-decreasing `order`. */
  lemma GetJobsSorted(jobs: seq<Job>, q: JobQuery)
    requires q.pageSize > 0 && q.sort == "order"
    ensures SortedBy(GetJobs(jobs, q).jobs, OrderLe)
  {
    var filtered := FilterJobs(jobs, q.search, q.status);
    var sorted := SortedMatches(jobs, q);
    assert sorted == SortBy(filtered, OrderLe);
    var start := PageStart(q.page, q.pageSize);
    var from, to := Clamp(start, |sorted|), Clamp(start + q.pageSize, |sorted|);
    assert forall a, b :: OrderLe(a, b) || OrderLe(b, a);
    SortBySorted(filtered, OrderLe);
    if from < to {
      SortedSlice(sorted, OrderLe, from, to);
    }
  }

  /** For a page number of 1 or more the page is the range `[(page-1)*pageSize, page*pageSize)` of the sorted matching jobs. */
  lemma GetJobsRange(jobs: seq<Job>, q: JobQuery)
    requires q.pageSize > 0 && q.page >= 1
    ensures var sorted := SortedMatches(jobs, q);
      var start := PageStart(q.page, q.pageSize);
      GetJobs(jobs, q).jobs == if 0 <= start < |sorted| then sorted[start..Min(start + q.pageSize, |sorted|)] else []
  {
    PageOfRange(SortedMatches(jobs, q), q.page, q.pageSize);
  }

  /** A page numbered 1 or more holds jobs exactly when its number is at most `totalPages`. */
  lemma GetJobsNonEmptyPages(jobs: seq<Job>, q: JobQuery)
    requires q.pageSize > 0 && q.page >= 1
    ensures |GetJobs(jobs, q).jobs| > 0 <==> q.page <= GetJobs(jobs, q).totalPages
  {
    var n := |SortedMatches(jobs, q)|;
    GetJobsRange(jobs, q);
    PageStartNonNegative(q.page, q.pageSize);
    PagesWithinTotal(n, q.pageSize, q.page);
  }

  /** Page `page` starts inside a list of `n` items exactly when `page` is at most `ceil(n / size)`. */
  lemma PagesWithinTotal(n: nat, size: int, page: int)
    requires size > 0 && page >= 1
    ensures PageStart(page, size) < n <==> page <= CeilDiv(n, size)
  {
    var r := CeilDiv(n, size);
    if page <= r {
      MulMonotone(page - 1, r - 1, size);
    } else {
      MulMonotone(r, page - 1, size);
    }
  }

  lemma MulMonotone(a: int, b: int, c: int)
    requires a <= b && c >= 0
    ensures a * c <= b * c
  {
    assert b * c - a * c == (b - a) * c;
  }

  /** For a page number of 1 or more, a page is the range `[(page-1)*size, page*size)` of the list, cut at its end. */
  lemma PageOfRange<T>(xs: seq<T>, page: int, size: int)
    requires page >= 1 && size >= 0
    ensures var start := PageStart(page, size);
      PageOf(xs, page, size) == if 0 <= start < |xs| then xs[start..Min(start + size, |xs|)] else []
  {
    PageStartNonNegative(page, size);
  }

  lemma SliceMember<T>(xs: seq<T>, start: int, end: int, x: T)
    requires x in Slice(xs, start, end)
    ensures x in xs
  {
  }

  lemma PageStartNonNegative(page: int, size: int)
    requires page >= 1 && size >= 0
    ensures PageStart(page, size) >= 0
  {
  }

  /** The offset of page `page`: `(page - 1) * pageSize`. */
  function PageStart(page: int, size: int): int { (page - 1) * size }

  function Min(a: int, b: int): int { if a <= b then a else b }

  lemma PageEnd(page: int, size: int)
    ensures PageStart(page, size) + size == page * size
  {
  }

  /** The `getCandidates` filter: the search matches the name or the e-mail; an empty search or stage matches everything. */
  predicate CandidateMatches(c: Candidate, search: string, stage: string)
  {
    && (search == "" || IncludesIgnoreCase(c.name, search) || IncludesIgnoreCase(c.email, search))
    && (stage == "" || c.stage == stage)
  }

  function FilterCandidates(cs: seq<Candidate>, search: string, stage: string): seq<Candidate>
  {
    Filter(cs, c => CandidateMatches(c, search, stage))
  }

  /** `getCandidates`: filter in stored order, then cut out one page. */
  function GetCandidates(cs: seq<Candidate>, q: CandidateQuery): (r: CandidatePage)
    ensures r.total == |FilterCandidates(cs, q.search, q.stage)|
    ensures r.page == q.page && r.pageSize == q.pageSize
    ensures q.pageSize >= 0 ==> |r.candidates| <= q.pageSize
    ensures r.hasMore <==> q.page * q.pageSize < r.total
  {
    var filtered := FilterCandidates(cs, q.search, q.stage);
    var end := PageStart(q.page, q.pageSize) + q.pageSize;
    PageEnd(q.page, q.pageSize);
    CandidatePage(PageOf(filtered, q.page, q.pageSize), |filtered|, q.page, q.pageSize, end < |filtered|)
  }

  /**
   * The `getCandidates` filter keeps a candidate exactly when it matches, and
   * keeps the stored order: the result is the store read at ascending positions.
   */
  lemma FilterCandidatesIff(cs: seq<Candidate>, search: string, stage: string)
    ensures forall c :: c in FilterCandidates(cs, search, stage) <==> c in cs && CandidateMatches(c, search, stage)
    ensures PickedAt(FilterCandidates(cs, search, stage), cs, Kept(cs, c => CandidateMatches(c, search, stage)))
  {
    FilterMember(cs, c => CandidateMatches(c, search, stage));
    FilterPicksKept(cs, c => CandidateMatches(c, search, stage));
  }

  /** A page numbered 1 or more is the range `[(page-1)*pageSize, page*pageSize)` of the filtered candidates. */
  lemma GetCandidatesRange(cs: seq<Candidate>, q: CandidateQuery)
    requires q.page >= 1 && q.pageSize >= 0
    ensures var filtered := FilterCandidates(cs, q.search, q.stage);
      var start := PageStart(q.page, q.pageSize);
      GetCandidates(cs, q).candidates == if 0 <= start < |filtered| then filtered[start..Min(start + q.pageSize, |filtered|)] else []
  {
    PageOfRange(FilterCandidates(cs, q.search, q.stage), q.page, q.pageSize);
  }

  /** `mockAssessments[jobId] || null`. */
  function Lookup(m: map<string, Assessment>, jobId: string): Option<Assessment>
  {
    if jobId in m then Some(m[jobId]) else None
  }

  /** After `saveAssessment(j, a)`, `getAssessment(j)` gives `a` and every other job's lookup is as before. */
  lemma SaveThenGet(m: map<string, Assessment>, j: string, a: Assessment)
    ensures Lookup(m[j := a], j) == Some(a)
    ensures forall k :: k != j ==> Lookup(m[j := a], k) == Lookup(m, k)
    ensures forall k :: k != j && k !in m ==> Lookup(m[j := a], k) == None
  {
  }

  const Unavailable := "Request failed"

  /** The module-level `mockJobs`, `mockCandidates` and `mockAssessments`, with the API calls over them. */
  class MockStore {
    var jobs: seq<Job>
    var candidates: seq<Candidate>
    var assessments: map<string, Assessment>
    /** Whether calls resolve; when false every call rejects and nothing changes. */
    var available: bool

    constructor (jobs0: seq<Job>, candidates0: seq<Candidate>, assessments0: map<string, Assessment>)
      ensures jobs == jobs0 && candidates == candidates0 && assessments == assessments0 && available
    {
      jobs, candidates, assessments, available := jobs0, candidates0, assessments0, true;
    }

    method FetchJobs(q: JobQuery) returns (r: Result<JobPage>)
      requires q.pageSize > 0
      ensures available ==> r == Ok(GetJobs(jobs, q))
      ensures !available ==> r.Err?
    {
      if !available { return Err(Unavailable); }
      r := Ok(GetJobs(jobs, q));
    }

    /** `createJob`: appends one job numbered one past the current count; every existing job is kept. */
    method CreateJob(data: JobData, freshId: string, now: string) returns (r: Result<Job>)
      modifies this`jobs
      ensures !available ==> r.Err? && jobs == old(jobs)
      ensures available ==> r.Ok? && jobs == old(jobs) + [r.value]
      ensures available ==> r.value == Job(freshId, data.title, data.slug, data.status, data.tags,
                                           |old(jobs)| + 1, data.description, data.requirements, now)
    {
      if !available { return Err(Unavailable); }
      var job := Job(freshId, data.title, data.slug, data.status, data.tags,
                     |jobs| + 1, data.description, data.requirements, now);
      jobs := jobs + [job];
      r := Ok(job);
    }

    /**
     * `updateJob`: merges `updates` into the first job with that id and returns
     * it; every other job is unchanged. An unknown id fails with "Job not found"
     * and changes nothing.
     */
    method UpdateJob(id: string, updates: JobPatch) returns (r: Result<Job>)
      modifies this`jobs
      ensures var i := FindIndex(old(jobs), (j: Job) => j.id == id);
        if !available then r.Err? && jobs == old(jobs)
        else if i == -1 then r == Err("Job not found") && jobs == old(jobs)
        else r == Ok(MergeJob(old(jobs)[i], updates)) && jobs == old(jobs)[i := r.value]
    {
      if !available { return Err(Unavailable); }
      var i := FindIndex(jobs, (j: Job) => j.id == id);
      if i == -1 { return Err("Job not found"); }
      var merged := MergeJob(jobs[i], updates);
      jobs := jobs[i := merged];
      r := Ok(merged);
    }

    method FetchCandidates(q: CandidateQuery) returns (r: Result<CandidatePage>)
      ensures available ==> r == Ok(GetCandidates(candidates, q))
      ensures !available ==> r.Err?
    {
      if !available { return Err(Unavailable); }
      r := Ok(GetCandidates(candidates, q));
    }

    /**
     * `updateCandidate`: merges `updates` into the first candidate with that id;
     * every other candidate is unchanged. An unknown id fails with "Candidate not
     * found" and changes nothing.
     */
    method UpdateCandidate(id: string, updates: CandidatePatch) returns (r: Result<Candidate>)
      modifies this`candidates
      ensures var i := FindIndex(old(candidates), (c: Candidate) => c.id == id);
        if !available then r.Err? && candidates == old(candidates)
        else if i == -1 then r == Err("Candidate not found") && candidates == old(candidates)
        else r == Ok(MergeCandidate(old(candidates)[i], updates)) && candidates == old(candidates)[i := r.value]
    {
      if !available { return Err(Unavailable); }
      var i := FindIndex(candidates, (c: Candidate) => c.id == id);
      if i == -1 { return Err("Candidate not found"); }
      var merged := MergeCandidate(candidates[i], updates);
      candidates := candidates[i := merged];
      r := Ok(merged);
    }

    method FetchAssessment(jobId: string) returns (r: Result<Option<Assessment>>)
      ensures available ==> r == Ok(Lookup(assessments, jobId))
      ensures !available ==> r.Err?
    {
      if !available { return Err(Unavailable); }
      r := Ok(Lookup(assessments, jobId));
    }

    /** `saveAssessment`: overwrites the entry for `jobId` only. */
    method SaveAssessment(jobId: string, data: Assessment) returns (r: Result<Assessment>)
      modifies this`assessments
      ensures !available ==> r.Err? && assessments == old(assessments)
      ensures available ==> r == Ok(data) && assessments == old(assessments)[jobId := data]
    {
      if !available { return Err(Unavailable); }
      assessments := assessments[jobId := data];
      r := Ok(data);
    }
  }
}
