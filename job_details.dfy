/**
 * The job details page: the job looked up by id, its candidates, the count
 * of candidates at each stage, and the five most recent candidates.
 */
module JobDetails {
  import opened Wrappers
  import opened Seqs
  import opened Stages
  import opened Records

  /** `jobs.find(j => j.id === id)`: the first job with that id, if any. */
  function FindJob(jobs: seq<Job>, id: string): (r: Option<Job>)
    ensures r.None? <==> forall k :: 0 <= k < |jobs| ==> jobs[k].id != id
    ensures r.Some? ==> exists k :: 0 <= k < |jobs| && jobs[k] == r.value && r.value.id == id &&
                                    forall j :: 0 <= j < k ==> jobs[j].id != id
  {
    var i := FindIndex(jobs, (j: Job) => j.id == id);
    if i == -1 then None else Some(jobs[i])
  }

  /** The candidates who applied for the job, in stored order. */
  function JobCandidates(cs: seq<Candidate>, jobId: string): (r: seq<Candidate>)
    ensures forall c :: c in r <==> c in cs && c.jobId == jobId
    ensures PickedAt(r, cs, Kept(cs, (c: Candidate) => c.jobId == jobId))
  {
    FilterMember(cs, (c: Candidate) => c.jobId == jobId);
    FilterPicksKept(cs, (c: Candidate) => c.jobId == jobId);
    Filter(cs, (c: Candidate) => c.jobId == jobId)
  }

  /** The `reduce` over the stage names that maps each name to the number of candidates at it. */
  function Tally(cs: seq<Candidate>, stages: seq<string>): (r: map<string, nat>)
    ensures forall s :: s in r <==> s in stages
    ensures forall s :: s in r ==> r[s] == |AtStage(cs, s)|
  {
    if stages == [] then map[]
    else
      var n := |stages| - 1;
      Tally(cs, stages[..n])[stages[n] := |AtStage(cs, stages[n])|]
  }

  /** `candidateStats`: a count for each of the six stages. */
  function StageCounts(cs: seq<Candidate>): map<string, nat>
  {
    Tally(cs, Names)
  }

  /** The counts shown for the stages in `stages`, added up. */
  function SumCounts(counts: map<string, nat>, stages: seq<string>): nat
    requires forall s :: s in stages ==> s in counts
  {
    if stages == [] then 0
    else
      var n := |stages| - 1;
      SumCounts(counts, stages[..n]) + counts[stages[n]]
  }

  /** Whether a candidate's stage is one of `stages`. */
  function StageIn(stages: seq<string>): Candidate -> bool
  {
    (c: Candidate) => c.stage in stages
  }

  predicate Distinct(ss: seq<string>)
  {
    forall i, j :: 0 <= i < j < |ss| ==> ss[i] != ss[j]
  }

  /** Over distinct stage names, the counts add up to the number of candidates at one of those stages. */
  lemma {:induction false} SumCountsFiltered(cs: seq<Candidate>, stages: seq<string>)
    requires Distinct(stages)
    ensures forall s :: s in stages ==> s in Tally(cs, stages)
    ensures SumCounts(Tally(cs, stages), stages) == |Filter(cs, StageIn(stages))|
  {
    if stages == [] {
      FilterNone(cs, StageIn(stages));
    } else {
      var n := |stages| - 1;
      var init, last := stages[..n], stages[n];
      assert stages == init + [last];
      SumCountsFiltered(cs, init);
      var counts := Tally(cs, stages);
      SumCountsPrefix(counts, Tally(cs, init), init);
      FilterSplitCount(cs, StageIn(init), (c: Candidate) => c.stage == last, StageIn(stages));
    }
  }

  /** Summing over `stages` reads only those keys, so two maps that agree on them give the same sum. */
  lemma {:induction false} SumCountsPrefix(big: map<string, nat>, small: map<string, nat>, stages: seq<string>)
    requires forall s :: s in stages ==> s in big && s in small && big[s] == small[s]
    ensures SumCounts(big, stages) == SumCounts(small, stages)
  {
    if stages != [] {
      SumCountsPrefix(big, small, stages[..|stages| - 1]);
    }
  }

  /** The six stage names are pairwise different. */
  lemma NamesDistinct()
    ensures Distinct(Names)
  {
    assert Names == ["applied", "screen", "tech", "offer", "hired", "rejected"];
  }

  /**
   * Every stage has a count, each count is the number of candidates at that
   * stage, and when every candidate's stage is one of the six the counts add
   * up to the number of candidates.
   */
  lemma StageCountsTotal(cs: seq<Candidate>)
    ensures StageCounts(cs).Keys == set s | s in Names
    ensures forall s :: s in Names ==> StageCounts(cs)[s] == |AtStage(cs, s)|
    ensures (forall c :: c in cs ==> c.stage in Names) ==> SumCounts(StageCounts(cs), Names) == |cs|
  {
    NamesDistinct();
    SumCountsFiltered(cs, Names);
    if forall c :: c in cs ==> c.stage in Names {
      FilterAll(cs, StageIn(Names));
    }
  }

  const RecentCount := 5

  /** `candidates.slice(0, 5)`. */
  function Recent(cs: seq<Candidate>): (r: seq<Candidate>)
    ensures |r| <= RecentCount && |r| <= |cs| && r == cs[..|r|]
    ensures |r| == |cs| || |r| == RecentCount
  {
    if |cs| <= RecentCount then cs else cs[..RecentCount]
  }

  /** The "View all" link. */
  predicate ShowsViewAll(cs: seq<Candidate>)
  {
    |cs| > RecentCount
  }

  /** The link appears exactly when some of the job's candidates are not in the recent list. */
  lemma ViewAllIffHidden(cs: seq<Candidate>)
    ensures ShowsViewAll(cs) <==> |Recent(cs)| < |cs|
  {
  }

  /** The status badge: "Active" for an active job, "Archived" for any other status. */
  function StatusLabel(status: string): (r: string)
    ensures r == "Active" <==> status == "active"
    ensures r == "Active" || r == "Archived"
  {
    if status == "active" then "Active" else "Archived"
  }

  class Details {
    var jobId: string
    var job: Option<Job>
    var candidates: seq<Candidate>
    var loading: bool

    constructor (jobId: string)
      ensures this.jobId == jobId && job.None? && candidates == [] && loading
    {
      this.jobId := jobId;
      job, candidates, loading := None, [], true;
    }

    /**
     * The load effect: finds the job in `jobs`; when found, the candidates are
     * those who applied for it. When not found nothing but loading changes.
     */
    method Load(jobs: seq<Job>, cs: seq<Candidate>)
      modifies this`job, this`candidates, this`loading
      ensures var found := FindJob(jobs, jobId);
        if found.Some? then job == found && candidates == JobCandidates(cs, jobId)
        else job == old(job) && candidates == old(candidates)
      ensures !loading
    {
      var found := FindJob(jobs, jobId);
      if found.Some? {
        job := found;
        candidates := JobCandidates(cs, jobId);
      }
      loading := false;
    }
  }
}
