/**
 * The kanban board's stage logic: the rule that picks the stage the "advance"
 * button moves a candidate to, and the partition of candidates into one column
 * per stage.
 */
module CandidateKanban {
  import opened Wrappers
  import opened Seqs
  import opened Stages
  import opened Records

  /**
   * `getNextStage`: the stage after `current` in declaration order, except that
   * the last two (hired, rejected) have none. A string outside the enumeration
   * has index -1 and so advances to the first stage.
   */
  function NextStage(current: string): Option<string>
  {
    var i := Index(current);
    if i < |Names| - 2 && current != "rejected" then Some(Names[i + 1]) else None
  }

  /** The advance button is rendered exactly when there is a next stage. */
  predicate ShowsAdvance(c: Candidate)
  {
    NextStage(c.stage).Some?
  }

  /** The pipeline applied → screen → tech → offer → hired. */
  lemma NextStageSteps()
    ensures NextStage("applied") == Some("screen")
    ensures NextStage("screen") == Some("tech")
    ensures NextStage("tech") == Some("offer")
    ensures NextStage("offer") == Some("hired")
  {
    NameRoundTrip(Applied);
    NameRoundTrip(Screen);
    NameRoundTrip(Tech);
    NameRoundTrip(Offer);
  }

  /** Hired and rejected are terminal: no next stage, so no advance button. */
  lemma NextStageTerminal(c: Candidate)
    requires c.stage == "hired" || c.stage == "rejected"
    ensures NextStage(c.stage) == None
    ensures !ShowsAdvance(c)
  {
    NameRoundTrip(Hired);
  }

  /**
   * From any of the six stages the next stage, when there is one, is a valid
   * stage exactly one position later; in particular it is never `rejected` and
   * never an earlier stage.
   */
  lemma NextStageForward(st: Stage)
    ensures NextStage(Name(st)).Some? <==> st != Hired && st != Rejected
    ensures NextStage(Name(st)).Some? ==>
      var next := Parse(NextStage(Name(st)).value);
      next.Some? && next.value != Rejected && Position(next.value) == Position(st) + 1
  {
    NameRoundTrip(st);
    if NextStage(Name(st)).Some? {
      var k := Position(st) + 1;
      assert NextStage(Name(st)).value == Names[k] == Name(Order[k]);
      NameRoundTrip(Order[k]);
    }
  }

  /** A stage string outside the enumeration advances to `applied`. */
  lemma NextStageUnknown(s: string)
    requires Parse(s).None?
    ensures Index(s) == -1
    ensures NextStage(s) == Some("applied")
  {
    IndexOfUnknown(s);
  }

  /** Advancing `n` times, stopping once there is no next stage. */
  function AdvanceTimes(stage: string, n: nat): Option<string>
    decreases n
  {
    if n == 0 then Some(stage)
    else match NextStage(stage)
      case None => None
      case Some(next) => AdvanceTimes(next, n - 1)
  }

  /** Four advances take an applied candidate to hired; a fifth finds no next stage. */
  lemma AppliedToHired()
    ensures AdvanceTimes("applied", 4) == Some("hired")
    ensures AdvanceTimes("applied", 5) == None
  {
    NextStageSteps();
    NameRoundTrip(Hired);
    assert AdvanceTimes("hired", 0) == Some("hired");
    assert AdvanceTimes("hired", 1) == None;
  }

  /** The `reduce` that builds one bucket per stage name in `stages`. */
  function Group(cs: seq<Candidate>, stages: seq<string>): (r: map<string, seq<Candidate>>)
    ensures forall s :: s in r <==> s in stages
    ensures forall s :: s in r ==> r[s] == AtStage(cs, s)
  {
    if stages == [] then map[]
    else
      var n := |stages| - 1;
      Group(cs, stages[..n])[stages[n] := AtStage(cs, stages[n])]
  }

  /** `groupedCandidates`: one bucket for each of the six stages. */
  function GroupedCandidates(cs: seq<Candidate>): map<string, seq<Candidate>>
  {
    Group(cs, Names)
  }

  /**
   * Each bucket holds exactly the candidates at its stage, in input order. A
   * candidate lies in the bucket of its own stage and in no other, so one with a
   * valid stage is in exactly one bucket and one with any other stage in none.
   */
  lemma GroupedPartition(cs: seq<Candidate>)
    ensures GroupedCandidates(cs).Keys == set s | s in Names
    ensures forall s :: s in Names ==>
      PickedAt(GroupedCandidates(cs)[s], cs, Kept(cs, (c: Candidate) => c.stage == s))
    ensures forall c, s :: c in cs && s in Names ==> (c in GroupedCandidates(cs)[s] <==> c.stage == s)
  {
    var g := GroupedCandidates(cs);
    forall s | s in Names
      ensures PickedAt(g[s], cs, Kept(cs, (c: Candidate) => c.stage == s))
      ensures forall c :: c in cs ==> (c in g[s] <==> c.stage == s)
    {
      FilterPicksKept(cs, (c: Candidate) => c.stage == s);
      FilterMember(cs, (c: Candidate) => c.stage == s);
    }
  }
}
