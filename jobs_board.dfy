/**
 * The jobs page: a server-side search, status filter and pagination over the
 * jobs, twelve to a page in the stored order, with creating, editing and
 * archiving jobs, each of which reloads the first page once the call succeeds.
 */
module JobsBoard {
  import opened Wrappers
  import opened Seqs
  import opened Records
  import opened MockApi

  const PageSize := 12

  /** The status the archive toggle switches a job to: an active job is archived, any other becomes active. */
  function ToggleStatus(status: string): (r: string)
    ensures r == "archived" <==> status == "active"
    ensures r == "archived" || r == "active"
  {
    if status == "active" then "archived" else "active"
  }

  /** Toggling twice gives back a job's status when it is one of the two the board knows. */
  lemma ToggleTwice(status: string)
    requires status == "active" || status == "archived"
    ensures ToggleStatus(ToggleStatus(status)) == status
  {
  }

  /** The success notice of the archive toggle. */
  function ToggleMessage(newStatus: string): (r: string)
    ensures newStatus == "archived" ==> r == "Job archived successfully"
    ensures newStatus != "archived" ==> r == "Job unarchived successfully"
  {
    "Job " + (if newStatus == "archived" then "archived" else "unarchived") + " successfully"
  }

  /** `handleStatusFilter`'s mapping: the "all" entry means no filter. */
  function StatusFilterFromSelect(value: string): (r: string)
    ensures r == "" <==> value == "all" || value == ""
    ensures value != "all" ==> r == value
  {
    if value == "all" then "" else value
  }

  /** `statusFilter || "all"`: the entry the select shows for a filter. */
  function SelectShown(filter: string): (r: string)
    ensures r == "all" <==> filter == "" || filter == "all"
  {
    if filter == "" then "all" else filter
  }

  /** Choosing an entry and showing the filter it sets gives back the entry; setting a shown filter keeps it. */
  lemma SelectRoundTrip(value: string, filter: string)
    ensures value != "" ==> SelectShown(StatusFilterFromSelect(value)) == value
    ensures filter != "all" ==> StatusFilterFromSelect(SelectShown(filter)) == filter
  {
  }

  /** The query `loadJobs` sends. */
  function PageQuery(page: int, search: string, status: string): (q: JobQuery)
    ensures q.pageSize == PageSize && q.sort == "order" && q.page == page
  {
    JobQuery(search, status, page, PageSize, "order")
  }

  class Board {
    var jobs: seq<Job>
    var loading: bool
    var searchTerm: string
    var statusFilter: string
    var currentPage: int
    var totalPages: int
    var selectedJob: Option<Job>
    var isCreateModalOpen: bool
    var isEditModalOpen: bool

    constructor ()
      ensures jobs == [] && !loading && searchTerm == "" && statusFilter == ""
      ensures currentPage == 1 && totalPages == 1
      ensures selectedJob.None? && !isCreateModalOpen && !isEditModalOpen
    {
      jobs, loading, searchTerm, statusFilter := [], false, "", "";
      currentPage, totalPages := 1, 1;
      selectedJob, isCreateModalOpen, isEditModalOpen := None, false, false;
    }

    /** The pagination bar appears only when there is more than one page. */
    predicate ShowsPagination()
      reads this
    {
      totalPages > 1
    }

    predicate PreviousDisabled()
      reads this
    {
      currentPage == 1 || loading
    }

    predicate NextDisabled()
      reads this
    {
      currentPage == totalPages || loading
    }

    /** The board shows the first page of the store's jobs for its search and filter, with their page count. */
    predicate ShowsFirstPage(api: MockStore)
      reads this, api
    {
      var r := GetJobs(api.jobs, PageQuery(1, searchTerm, statusFilter));
      jobs == r.jobs && totalPages == r.totalPages && currentPage == 1
    }

    /**
     * `loadJobs`: on success the board shows that page of the matching jobs,
     * with the total page count, and remembers the page; on failure the jobs
     * and the page numbers stay. Loading ends either way.
     */
    method LoadJobs(api: MockStore, page: int, search: string, status: string)
      modifies this`jobs, this`totalPages, this`currentPage, this`loading
      ensures var r := GetJobs(api.jobs, PageQuery(page, search, status));
        if api.available then jobs == r.jobs && totalPages == r.totalPages && currentPage == page
        else jobs == old(jobs) && totalPages == old(totalPages) && currentPage == old(currentPage)
      ensures !loading
    {
      loading := true;
      var r := api.FetchJobs(PageQuery(page, search, status));
      if r.Ok? {
        jobs := r.value.jobs;
        totalPages := r.value.totalPages;
        currentPage := page;
      }
      loading := false;
    }

    /** `handleSearch`: records the term and loads its first page; the page number is 1 even if the load fails. */
    method HandleSearch(api: MockStore, value: string)
      modifies this`jobs, this`totalPages, this`currentPage, this`loading, this`searchTerm
      ensures searchTerm == value && statusFilter == old(statusFilter) && currentPage == 1 && !loading
      ensures api.available ==> var r := GetJobs(api.jobs, PageQuery(1, value, statusFilter));
        jobs == r.jobs && totalPages == r.totalPages
      ensures !api.available ==> jobs == old(jobs) && totalPages == old(totalPages)
    {
      searchTerm := value;
      currentPage := 1;
      LoadJobs(api, 1, value, statusFilter);
    }

    /** `handleStatusFilter`: records the filter ("all" clears it) and loads its first page. */
    method HandleStatusFilter(api: MockStore, value: string)
      modifies this`jobs, this`totalPages, this`currentPage, this`loading, this`statusFilter
      ensures statusFilter == StatusFilterFromSelect(value) && searchTerm == old(searchTerm) && currentPage == 1 && !loading
      ensures api.available ==> var r := GetJobs(api.jobs, PageQuery(1, searchTerm, statusFilter));
        jobs == r.jobs && totalPages == r.totalPages
      ensures !api.available ==> jobs == old(jobs) && totalPages == old(totalPages)
    {
      statusFilter := StatusFilterFromSelect(value);
      currentPage := 1;
      LoadJobs(api, 1, searchTerm, statusFilter);
    }

    /** The "Previous" button, pressed while it is enabled. */
    method PreviousPage(api: MockStore)
      requires !PreviousDisabled()
      modifies this`jobs, this`totalPages, this`currentPage, this`loading
      ensures api.available ==> var r := GetJobs(api.jobs, PageQuery(old(currentPage) - 1, searchTerm, statusFilter));
        currentPage == old(currentPage) - 1 && jobs == r.jobs && totalPages == r.totalPages
      ensures !api.available ==> jobs == old(jobs) && currentPage == old(currentPage) && totalPages == old(totalPages)
      ensures !loading
    {
      LoadJobs(api, currentPage - 1, searchTerm, statusFilter);
    }

    /**
     * The "Next" button, pressed while it is enabled. When the shown page
     * count is that of the store, the page it loads is not empty.
     */
    method NextPage(api: MockStore)
      requires !NextDisabled()
      modifies this`jobs, this`totalPages, this`currentPage, this`loading
      ensures api.available ==> var r := GetJobs(api.jobs, PageQuery(old(currentPage) + 1, searchTerm, statusFilter));
        currentPage == old(currentPage) + 1 && jobs == r.jobs && totalPages == r.totalPages
      ensures !api.available ==> jobs == old(jobs) && currentPage == old(currentPage) && totalPages == old(totalPages)
      ensures !loading
      ensures api.available && 1 <= old(currentPage) < old(totalPages) &&
              old(totalPages) == GetJobs(api.jobs, PageQuery(old(currentPage) + 1, searchTerm, statusFilter)).totalPages
              ==> jobs != []
    {
      var next := currentPage + 1;
      if api.available && 1 <= currentPage < totalPages {
        GetJobsNonEmptyPages(api.jobs, PageQuery(next, searchTerm, statusFilter));
      }
      LoadJobs(api, next, searchTerm, statusFilter);
    }

    /**
     * `handleCreateJob`: asks the API to create the job; once that succeeds the
     * dialog closes and the first page is reloaded, which counts the new job.
     * On failure nothing changes.
     */
    method HandleCreateJob(api: MockStore, data: JobData, freshId: string, now: string) returns (ok: bool)
      modifies this`jobs, this`totalPages, this`currentPage, this`loading, this`isCreateModalOpen, api`jobs
      ensures ok <==> old(api.available)
      ensures ok ==> api.jobs == old(api.jobs) + [Job(freshId, data.title, data.slug, data.status, data.tags,
                                                      |old(api.jobs)| + 1, data.description, data.requirements, now)]
      ensures ok ==> !isCreateModalOpen && !loading
      ensures ok ==> ShowsFirstPage(api)
      ensures !ok ==> api.jobs == old(api.jobs) && jobs == old(jobs) && isCreateModalOpen == old(isCreateModalOpen) &&
                      currentPage == old(currentPage) && totalPages == old(totalPages) && loading == old(loading)
    {
      var r := api.CreateJob(data, freshId, now);
      ok := r.Ok?;
      if ok {
        isCreateModalOpen := false;
        LoadJobs(api, 1, searchTerm, statusFilter);
      }
    }

    /** `handleEditClick`: opens the edit dialog on the job. */
    method HandleEditClick(job: Job)
      modifies this`selectedJob, this`isEditModalOpen
      ensures selectedJob == Some(job) && isEditModalOpen
    {
      selectedJob, isEditModalOpen := Some(job), true;
    }

    /** `handleViewJob`: selects the job. */
    method HandleViewJob(job: Job)
      modifies this`selectedJob
      ensures selectedJob == Some(job)
    {
      selectedJob := Some(job);
    }

    /**
     * `handleEditJob`, from the edit dialog: merges the form's data into the
     * selected job in the store; once that succeeds the dialog closes, the
     * selection clears and the first page is reloaded. On failure (including
     * a job no longer in the store) nothing changes.
     */
    method HandleEditJob(api: MockStore, data: JobData) returns (ok: bool)
      requires selectedJob.Some?
      modifies this`jobs, this`totalPages, this`currentPage, this`loading, this`isEditModalOpen, this`selectedJob, api`jobs
      ensures var id := old(selectedJob).value.id; var i := FindIndex(old(api.jobs), (j: Job) => j.id == id);
        ok <==> old(api.available) && i != -1
      ensures ok ==> var id := old(selectedJob).value.id; var i := FindIndex(old(api.jobs), (j: Job) => j.id == id);
        api.jobs == old(api.jobs)[i := MergeJob(old(api.jobs)[i], DataPatch(data))] &&
        !isEditModalOpen && selectedJob.None? && !loading
      ensures ok ==> ShowsFirstPage(api)
      ensures !ok ==> api.jobs == old(api.jobs) && jobs == old(jobs) && selectedJob == old(selectedJob) &&
                      isEditModalOpen == old(isEditModalOpen) &&
                      currentPage == old(currentPage) && totalPages == old(totalPages) && loading == old(loading)
    {
      var r := api.UpdateJob(selectedJob.value.id, DataPatch(data));
      ok := r.Ok?;
      if ok {
        isEditModalOpen, selectedJob := false, None;
        LoadJobs(api, 1, searchTerm, statusFilter);
      }
    }

    /**
     * `handleArchiveToggle`: gives the job the toggled status in the store and,
     * once that succeeds, reloads the first page. On failure nothing changes.
     */
    method HandleArchiveToggle(api: MockStore, job: Job) returns (ok: bool)
      modifies this`jobs, this`totalPages, this`currentPage, this`loading, api`jobs
      ensures var i := FindIndex(old(api.jobs), (j: Job) => j.id == job.id);
        ok <==> old(api.available) && i != -1
      ensures ok ==> var i := FindIndex(old(api.jobs), (j: Job) => j.id == job.id);
        api.jobs == old(api.jobs)[i := old(api.jobs)[i].(status := ToggleStatus(job.status))] &&
        !loading
      ensures ok ==> ShowsFirstPage(api)
      ensures !ok ==> api.jobs == old(api.jobs) && jobs == old(jobs) &&
                      currentPage == old(currentPage) && totalPages == old(totalPages) && loading == old(loading)
    {
      var r := api.UpdateJob(job.id, StatusPatch(ToggleStatus(job.status)));
      ok := r.Ok?;
      if ok {
        LoadJobs(api, 1, searchTerm, statusFilter);
      }
    }
  }
}
