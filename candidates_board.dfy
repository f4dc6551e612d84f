/**
 * The candidates list page: a client-side search and stage filter over the
 * loaded candidates, a list capped at 50 entries, and the stage update that
 * changes the local list only after the API call has succeeded.
 */
module CandidatesBoard {
  import opened Wrappers
  import opened Seqs
  import opened Text
  import opened Records
  import opened MockApi

  /** The search half of the filter: the name or the e-mail contains the term, ignoring case. */
  predicate SearchHit(c: Candidate, term: string)
  {
    IncludesIgnoreCase(c.name, term) || IncludesIgnoreCase(c.email, term)
  }

  /** The filter effect: a non-empty search, then a non-empty stage filter, each narrowing the list. */
  function ClientFilter(cs: seq<Candidate>, searchTerm: string, stageFilter: string): seq<Candidate>
  {
    var searched := if searchTerm != "" then Filter(cs, (c: Candidate) => SearchHit(c, searchTerm)) else cs;
    if stageFilter != "" then Filter(searched, (c: Candidate) => c.stage == stageFilter) else searched
  }

  /** The client filter keeps exactly what the mock API's `getCandidates` filter keeps, in the same order. */
  lemma ClientFilterMatchesApi(cs: seq<Candidate>, searchTerm: string, stageFilter: string)
    ensures ClientFilter(cs, searchTerm, stageFilter) == FilterCandidates(cs, searchTerm, stageFilter)
  {
    var search := (c: Candidate) => SearchHit(c, searchTerm);
    var stage := (c: Candidate) => c.stage == stageFilter;
    var both := (c: Candidate) => CandidateMatches(c, searchTerm, stageFilter);
    if searchTerm != "" && stageFilter != "" {
      FilterFilter(cs, search, stage, both);
    } else if searchTerm != "" {
      FilterSame(cs, search, both);
    } else if stageFilter != "" {
      FilterSame(cs, stage, both);
    } else {
      FilterAll(cs, both);
    }
  }

  /**
   * A candidate is listed exactly when the search is empty or hits its name or
   * e-mail, and the stage filter is empty or equal to its stage. The list is
   * the loaded candidates read at ascending positions, and with both filters
   * empty it is the whole list.
   */
  lemma ClientFilterSpec(cs: seq<Candidate>, searchTerm: string, stageFilter: string)
    ensures forall c :: c in ClientFilter(cs, searchTerm, stageFilter) <==>
      c in cs && (searchTerm == "" || SearchHit(c, searchTerm)) && (stageFilter == "" || c.stage == stageFilter)
    ensures PickedAt(ClientFilter(cs, searchTerm, stageFilter), cs,
                     Kept(cs, (c: Candidate) => CandidateMatches(c, searchTerm, stageFilter)))
    ensures searchTerm == "" && stageFilter == "" ==> ClientFilter(cs, searchTerm, stageFilter) == cs
  {
    ClientFilterMatchesApi(cs, searchTerm, stageFilter);
    FilterCandidatesIff(cs, searchTerm, stageFilter);
  }

  /**
   * The stage select: "all" means no stage filter; any other value is the
   * filter. The jobs page maps its status select the same way
   * (`JobsBoard.StatusFilterFromSelect`), in its own handler.
   */
  function StageFilterFromSelect(value: string): (r: string)
    ensures r == "" <==> value == "all" || value == ""
    ensures value != "all" ==> r == value
  {
    if value == "all" then "" else value
  }

  const DisplayCap := 50

  /** `filteredCandidates.slice(0, 50)`: the first 50 entries, or all of them when there are fewer. */
  function Displayed(filtered: seq<Candidate>): (r: seq<Candidate>)
    ensures |r| <= DisplayCap
    ensures |r| == |filtered| || |r| == DisplayCap
    ensures |r| <= |filtered| && r == filtered[..|r|]
  {
    if |filtered| <= DisplayCap then filtered else filtered[..DisplayCap]
  }

  /** The "Showing first 50" notice. */
  predicate ShowsOverflowNotice(filtered: seq<Candidate>)
  {
    |filtered| > DisplayCap
  }

  /** The notice appears exactly when some filtered candidates are not displayed. */
  lemma OverflowNoticeIffHidden(filtered: seq<Candidate>)
    ensures ShowsOverflowNotice(filtered) <==> |Displayed(filtered)| < |filtered|
  {
  }

  /** The local update after a successful call: the candidates with that id get the new stage. */
  function WithStage(cs: seq<Candidate>, id: string, stage: string): (r: seq<Candidate>)
    ensures |r| == |cs|
    ensures forall i :: 0 <= i < |cs| ==> r[i] == if cs[i].id == id then cs[i].(stage := stage) else cs[i]
  {
    MapIf(cs, (c: Candidate) => c.id == id, (c: Candidate) => c.(stage := stage))
  }

  /** The query the page loads with: its filters, first page, up to 1000 candidates. */
  function LoadQuery(searchTerm: string, stageFilter: string): CandidateQuery
  {
    CandidateQuery(searchTerm, stageFilter, 1, 1000)
  }

  class Board {
    var candidates: seq<Candidate>
    var searchTerm: string
    var stageFilter: string
    var loading: bool

    constructor ()
      ensures candidates == [] && searchTerm == "" && stageFilter == "" && !loading
    {
      candidates, searchTerm, stageFilter, loading := [], "", "", false;
    }

    /** `filteredCandidates`, recomputed whenever the list or a filter changes. */
    function Filtered(): seq<Candidate>
      reads this
    {
      ClientFilter(candidates, searchTerm, stageFilter)
    }

    /** `loadCandidates`: on success the list is the API's answer; on failure it is kept. */
    method LoadCandidates(api: MockStore)
      modifies this`candidates, this`loading
      ensures candidates == if api.available then GetCandidates(api.candidates, LoadQuery(searchTerm, stageFilter)).candidates
                           else old(candidates)
      ensures !loading
    {
      loading := true;
      var r := api.FetchCandidates(LoadQuery(searchTerm, stageFilter));
      if r.Ok? {
        candidates := r.value.candidates;
      }
      loading := false;
    }

    /** Typing in the search box: records the term and reloads with it. */
    method ChangeSearch(api: MockStore, value: string)
      modifies this`candidates, this`loading, this`searchTerm
      ensures searchTerm == value && stageFilter == old(stageFilter) && !loading
      ensures candidates == if api.available then GetCandidates(api.candidates, LoadQuery(value, stageFilter)).candidates
                           else old(candidates)
    {
      searchTerm := value;
      LoadCandidates(api);
    }

    /** Choosing in the stage select: records the filter ("all" clears it) and reloads with it. */
    method ChangeStageFilter(api: MockStore, value: string)
      modifies this`candidates, this`loading, this`stageFilter
      ensures stageFilter == StageFilterFromSelect(value) && searchTerm == old(searchTerm) && !loading
      ensures candidates == if api.available then GetCandidates(api.candidates, LoadQuery(searchTerm, stageFilter)).candidates
                           else old(candidates)
    {
      stageFilter := StageFilterFromSelect(value);
      LoadCandidates(api);
    }

    /**
     * `handleUpdateCandidateStage`: asks the API to change the stage and, only
     * once that succeeds, gives the candidates with that id the new stage in the
     * local list. When the call fails (unknown id, or the call rejects) the
     * local list is left as it was.
     */
    method UpdateCandidateStage(api: MockStore, id: string, newStage: string) returns (ok: bool)
      modifies this`candidates, api`candidates
      ensures ok <==> old(api.available) && FindIndex(old(api.candidates), (c: Candidate) => c.id == id) != -1
      ensures candidates == if ok then WithStage(old(candidates), id, newStage) else old(candidates)
      ensures ok ==> var i := FindIndex(old(api.candidates), (c: Candidate) => c.id == id);
        api.candidates == old(api.candidates)[i := old(api.candidates)[i].(stage := newStage)]
      ensures !ok ==> api.candidates == old(api.candidates)
    {
      var r := api.UpdateCandidate(id, StagePatch(newStage));
      ok := r.Ok?;
      if ok {
        candidates := WithStage(candidates, id, newStage);
      }
    }
  }
}
