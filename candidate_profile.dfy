/**
 * The candidate profile page: the candidate looked up by id, the notes (the
 * saved ones, or two default notes when none were saved), adding a note, and
 * the application timeline.
 */
module CandidateProfile {
  import opened Wrappers
  import opened Seqs
  import opened Text
  import opened Stages
  import opened Records

  /** The notes shown when nothing is stored; the two timestamps are two days and one day before now. */
  function DefaultNotes(twoDaysAgo: string, oneDayAgo: string): seq<Note>
  {
    [ Note("1", "Initial screening completed. Strong technical background.", twoDaysAgo, "HR Team"),
      Note("2", "Scheduled for technical interview next week.", oneDayAgo, "Tech Lead") ]
  }

  /** `cs.find(c => c.id === id)`: the first candidate with that id, if any. */
  function FindCandidate(cs: seq<Candidate>, id: string): (r: Option<Candidate>)
    ensures r.None? <==> forall k :: 0 <= k < |cs| ==> cs[k].id != id
    ensures r.Some? ==> exists k :: 0 <= k < |cs| && cs[k] == r.value && r.value.id == id &&
                                    forall j :: 0 <= j < k ==> cs[j].id != id
  {
    var i := FindIndex(cs, (c: Candidate) => c.id == id);
    if i == -1 then None else Some(cs[i])
  }

  /**
   * The note `handleAddNote` would add for the text typed: none for blank
   * text; otherwise a note by "Current User" whose content is the text with
   * its surrounding white space removed, so it is non-empty, neither starts
   * nor ends with white space, and occurs in the typed text.
   */
  function NoteFrom(text: string, freshId: string, now: string): (r: Option<Note>)
    ensures r.None? <==> IsBlank(text)
    ensures r.Some? ==> r.value.id == freshId && r.value.createdAt == now && r.value.author == "Current User"
    ensures r.Some? ==> r.value.content == Trim(text)
    ensures r.Some? ==> var body := r.value.content;
      body != [] && !IsSpace(body[0]) && !IsSpace(body[|body| - 1]) && Contains(text, body)
  {
    TrimShape(text);
    if IsBlank(text) then None else Some(Note(freshId, Trim(text), now, "Current User"))
  }

  /** One entry of the application timeline. */
  datatype TimelineEvent = TimelineEvent(stage: string, date: string, description: string)

  /** The two events the timeline can show; `screenDate` is two days after the application date. */
  function TimelineEvents(c: Candidate, screenDate: string): seq<TimelineEvent>
  {
    [ TimelineEvent("applied", c.appliedAt, "Application submitted"),
      TimelineEvent("screen", screenDate, "Screening interview completed") ]
  }

  /** The events whose stage comes no later than the candidate's, by position in the stage list. */
  function Timeline(c: Candidate, screenDate: string): seq<TimelineEvent>
  {
    Filter(TimelineEvents(c, screenDate), (e: TimelineEvent) => Index(e.stage) <= Index(c.stage))
  }

  /** The timeline keeps the application event when the stage is listed, and the screening event when it is past applied. */
  lemma TimelineByIndex(c: Candidate, screenDate: string)
    ensures var events := TimelineEvents(c, screenDate);
      Timeline(c, screenDate) ==
        (if Index(c.stage) >= 0 then [events[0]] else []) + (if Index(c.stage) >= 1 then [events[1]] else [])
  {
    var events := TimelineEvents(c, screenDate);
    NameRoundTrip(Applied);
    NameRoundTrip(Screen);
    assert events == [events[0]] + [events[1]];
    FilterAppend([events[0]], [events[1]], (e: TimelineEvent) => Index(e.stage) <= Index(c.stage));
  }

  /**
   * An applied candidate sees only the application; any later stage, rejected
   * included, sees both events; a stage outside the list sees none.
   */
  lemma TimelineByStage(c: Candidate, screenDate: string)
    ensures c.stage == "applied" ==> Timeline(c, screenDate) == TimelineEvents(c, screenDate)[..1]
    ensures c.stage in Names && c.stage != "applied" ==> Timeline(c, screenDate) == TimelineEvents(c, screenDate)
    ensures c.stage !in Names ==> Timeline(c, screenDate) == []
  {
    TimelineByIndex(c, screenDate);
    IndexOfUnknown(c.stage);
    if c.stage in Names {
      var st := Parse(c.stage).value;
      NameRoundTrip(st);
    }
  }

  class Profile {
    var candidateId: string
    var candidate: Option<Candidate>
    var notes: seq<Note>
    var newNote: string
    var loading: bool

    constructor (candidateId: string)
      ensures this.candidateId == candidateId
      ensures candidate.None? && notes == [] && newNote == "" && loading
    {
      this.candidateId := candidateId;
      candidate, notes, newNote, loading := None, [], "", true;
    }

    /**
     * The load effect: finds the candidate among `all`; when found, the notes
     * are the saved ones, or the two defaults when none were saved. When not
     * found the notes stay as they were. Loading ends either way.
     */
    method Load(all: seq<Candidate>, saved: Option<seq<Note>>, twoDaysAgo: string, oneDayAgo: string)
      modifies this`candidate, this`notes, this`loading
      ensures var found := FindCandidate(all, candidateId);
        candidate == if found.Some? then found else old(candidate)
      ensures notes == if FindCandidate(all, candidateId).None? then old(notes)
                       else if saved.Some? then saved.value
                       else DefaultNotes(twoDaysAgo, oneDayAgo)
      ensures !loading
    {
      var found := FindCandidate(all, candidateId);
      if found.Some? {
        candidate := found;
        notes := if saved.Some? then saved.value else DefaultNotes(twoDaysAgo, oneDayAgo);
      }
      loading := false;
    }

    /** The note text area. */
    method EditNote(value: string)
      modifies this`newNote
      ensures newNote == value
    {
      newNote := value;
    }

    /**
     * `handleAddNote`: blank text changes nothing; otherwise the new note goes
     * first, the older notes follow in their order, and the text area is cleared.
     */
    method AddNote(freshId: string, now: string)
      modifies this`notes, this`newNote
      ensures var made := NoteFrom(old(newNote), freshId, now);
        if made.None? then notes == old(notes) && newNote == old(newNote)
        else notes == [made.value] + old(notes) && newNote == ""
    {
      var made := NoteFrom(newNote, freshId, now);
      if made.None? {
        return;
      }
      notes := [made.value] + notes;
      newNote := "";
    }
  }
}
