# TalentFlow hiring pipeline — a verified model

TalentFlow is a single-page hiring tool. A recruiter lists jobs, moves
candidates through the stages of a hiring pipeline and builds a per-job
assessment form. All data lives in an in-memory mock API. This project models
the logic under the React views:

- **The mock data store** (`MockApi`). Jobs, candidates and assessments sit in
  one `MockStore` object whose API calls work on them:
  - the reads filter, sort and page;
  - the writes append, merge-update by id (an unknown id fails with
    "… not found" and changes nothing) and overwrite by key.
- **The six candidate stages** (`Stages`). They form one enumeration. Records
  keep the stage as the string the data carries, so the model can also reason
  about a string outside the six.
- **The kanban stage rule** (`CandidateKanban`). `getNextStage` is
  applied → screen → tech → offer → hired. It stops at hired and rejected. A
  string outside the six advances to applied. The board also splits the
  candidates into one column per stage.
- **The application reducer** (`AppContext`). `appReducer` is a pure function
  over a record of lists and maps.
- **The candidates page** (`CandidatesBoard`):
  - the client-side search and stage filter;
  - the 50-entry display cap;
  - the stage update, which changes the local list only after the API call
    has succeeded.
- **The candidate profile** (`CandidateProfile`):
  - the lookup by id;
  - adding a note, with blank text refused;
  - the timeline, filtered by stage order.
- **The job details page** (`JobDetails`): the job's candidates, the count
  per stage, and the five-entry recent list.
- **The job form** (`JobForm`): slug generation, validation, the cleaned data
  it submits, and requirement and tag editing with their guards.
- **The assessment builder** (`AssessmentBuilder`):
  - option, question and section editing, with the "keep two options" and
    "keep one section" guards;
  - the starting form;
  - the checks made before saving;
  - the question total.
- **The assessments page** (`AssessmentsBoard`): the per-job cards, the map of
  loaded assessments, and saving.
- **The jobs page** (`JobsBoard`):
  - server-side search, status filter and paging;
  - the archive toggle;
  - create and edit, each of which reloads the first page once the call
    succeeds.

Pages that change state step by step are classes. Their fields are the
component's state, and their methods are its handlers. Every method states
its whole new state in terms of functions of the old state and its inputs.
Lemmas about those functions prove the properties.

Every API call is one synchronous step. The store's `available` flag stands
for an awaited call that rejects: when it is false, every call fails and
nothing changes. The store itself fails only on an unknown id. Clock-derived
ids and timestamps come in as parameters.

Four behaviours of the code are worth stating plainly:

- **The stage update is apply-after-confirm.** `handleUpdateCandidateStage`
  changes the local list only after `updateCandidate` has returned
  (`CandidatesBoard.Board.UpdateCandidateStage`).
- **Four advances reach hired.** From applied, four advances reach hired and
  a fifth finds no next stage (`CandidateKanban.AppliedToHired`).
- **A terminal stage has no next stage; it is not an error.** `getNextStage`
  returns `null` for hired and rejected, and the advance button is not shown.
- **No stage check on update.** There is no separate "set stage" operation
  that checks its argument. `updateCandidate` merges any `stage` string it is
  given.

## Model

| member | source | states |
|---|---|---|
| `Stages.Parse` | frontend/src/lib/mock.js:10-17 | A string parses to a stage exactly when it is one of the six stage names, and the stage parsed is the one with that name |
| `Stages.NameRoundTrip` | frontend/src/lib/mock.js:10-17 | Each stage's name parses back to it and sits at the stage's position in the declaration order |
| `Stages.IndexOfUnknown` | frontend/src/components/Candidates/CandidateKanban.js:56-57 | `indexOf` over the stage list is -1 exactly for strings that name no stage, and otherwise the stage's position |
| `Text.BlankIffAllSpace` | frontend/src/components/Candidates/CandidateProfile.js:43 | `!s.trim()` holds exactly when every character of `s` is white space |
| `Text.TrimShape` | frontend/src/components/Candidates/CandidateProfile.js:47 | `trim` returns a contiguous piece of its input, drops only white space on either side, and leaves no white space at either end |
| `Sorting.SortBySorted` | frontend/src/lib/mock.js:174-177 | Sorting with a total, transitive comparator gives an ordered permutation of the input |
| `Records.StagePatchOnlyStage` | frontend/src/lib/mock.js:253 | Merging `{ stage }` into a candidate changes its stage and nothing else |
| `MockApi.SortJobs` | frontend/src/lib/mock.js:173-178 | Sorting the filtered copy (by order, by title or not at all) keeps exactly the same jobs |
| `MockApi.CeilDiv` | frontend/src/lib/mock.js:188 | The page count is the least number of pages whose capacity covers the total |
| `MockApi.GetJobs` | frontend/src/lib/mock.js:163-190 | `total` is the number of matching jobs, `page` and `pageSize` are echoed, a page holds at most `pageSize` jobs, and `totalPages` is ceil(total / pageSize) |
| `MockApi.FilterJobsIff` | frontend/src/lib/mock.js:167-171 | A job is kept exactly when the search is empty or its title contains it ignoring case, and the status filter is empty or equal to its status |
| `MockApi.GetJobsMatch` | frontend/src/lib/mock.js:167-184 | Every job on a page is a stored job that matches the query |
| `MockApi.GetJobsSorted` | frontend/src/lib/mock.js:174-184 | With sort key `order`, a page is in non-decreasing `order` |
| `MockApi.GetJobsRange` | frontend/src/lib/mock.js:180-184 | Page p is positions [(p-1)·size, p·size) of the sorted matches, cut at the end of the list |
| `MockApi.GetJobsNonEmptyPages` | frontend/src/lib/mock.js:180-188 | A page numbered 1 or more holds jobs exactly when its number is at most `totalPages` |
| `MockApi.PagesWithinTotal` | frontend/src/lib/mock.js:180-188 | Page p starts inside a list of n items exactly when p ≤ ceil(n / size) |
| `MockApi.GetCandidates` | frontend/src/lib/mock.js:226-247 | `total` is the number of matching candidates, a page holds at most `pageSize` of them, and `hasMore` holds exactly when page·pageSize < total |
| `MockApi.FilterCandidatesIff` | frontend/src/lib/mock.js:230-235 | A candidate is kept exactly when the search is empty or hits its name or e-mail ignoring case, and the stage is empty or equal; the result is the store read at ascending positions |
| `MockApi.GetCandidatesRange` | frontend/src/lib/mock.js:237-241 | Page p is positions [(p-1)·size, p·size) of the filtered candidates |
| `MockApi.SaveThenGet` | frontend/src/lib/mock.js:260-269 | After saving `a` under job `j`, looking up `j` gives `a` and every other job's lookup is unchanged; an unsaved key gives nothing |
| `MockApi.MockStore.FetchJobs` | frontend/src/lib/mock.js:163-190 | An available store answers with `GetJobs` over its jobs; an unavailable one fails |
| `MockApi.MockStore.CreateJob` | frontend/src/lib/mock.js:192-202 | Exactly one job is appended, carrying the form's fields, the fresh id, the time and `order` = previous count + 1; the jobs before it are unchanged |
| `MockApi.MockStore.UpdateJob` | frontend/src/lib/mock.js:204-212 | The first job with the id gets the patched fields merged in and every other job is unchanged; an unknown id fails with "Job not found" and changes nothing |
| `MockApi.MockStore.FetchCandidates` | frontend/src/lib/mock.js:226-247 | An available store answers with `GetCandidates` over its candidates; an unavailable one fails |
| `MockApi.MockStore.UpdateCandidate` | frontend/src/lib/mock.js:249-257 | The first candidate with the id gets the patched fields merged in and every other candidate is unchanged; an unknown id fails with "Candidate not found" and changes nothing |
| `MockApi.MockStore.FetchAssessment` | frontend/src/lib/mock.js:260-263 | Gives the stored assessment for the job, or none when nothing is stored under its id |
| `MockApi.MockStore.SaveAssessment` | frontend/src/lib/mock.js:265-269 | Overwrites the entry for the job id only and returns the saved data |
| `CandidateKanban.NextStageSteps` | frontend/src/components/Candidates/CandidateKanban.js:55-62 | applied→screen, screen→tech, tech→offer, offer→hired |
| `CandidateKanban.NextStageTerminal` | frontend/src/components/Candidates/CandidateKanban.js:55-62 | Hired and rejected have no next stage, so the advance button is not rendered |
| `CandidateKanban.NextStageForward` | frontend/src/components/Candidates/CandidateKanban.js:55-62 | For each of the six stages there is a next stage exactly when it is not hired or rejected; that next stage is valid, is never rejected and is exactly one position later |
| `CandidateKanban.NextStageUnknown` | frontend/src/components/Candidates/CandidateKanban.js:55-62 | A string outside the six has index -1, passes the guard and advances to `applied` |
| `CandidateKanban.AppliedToHired` | frontend/src/components/Candidates/CandidateKanban.js:55-62 | Four advances from applied reach hired, and a fifth finds no next stage |
| `CandidateKanban.Group` | frontend/src/components/Candidates/CandidateKanban.js:50-53 | The reduce makes a bucket for exactly the listed stage names, and each bucket holds the candidates at that stage |
| `CandidateKanban.GroupedPartition` | frontend/src/components/Candidates/CandidateKanban.js:50-53 | There are six buckets. Each holds exactly the candidates at its stage, in input order. A candidate is in the bucket of its own stage and in no other |
| `AppContext.ReduceFrame` | frontend/src/contexts/AppContext.js:30-87 | Every action leaves the state fields it does not name untouched, and an unknown action type returns the state unchanged |
| `AppContext.SetErrorStopsLoading` | frontend/src/contexts/AppContext.js:32-36 | `SET_ERROR` sets the error and forces `loading` to false; `SET_LOADING` changes only `loading` |
| `AppContext.UpdateJobReplaces` | frontend/src/contexts/AppContext.js:59-65 | `UPDATE_JOB` replaces every job with the payload's id by the payload, keeping length, order and every other job |
| `AppContext.UpdateCandidateReplaces` | frontend/src/contexts/AppContext.js:67-73 | `UPDATE_CANDIDATE` replaces every candidate with the payload's id by the payload, keeping length, order and every other candidate |
| `AppContext.AddJobAppends` | frontend/src/contexts/AppContext.js:75-76 | `ADD_JOB` appends the payload at the end, so the list grows by one |
| `AppContext.RemoveJobDrops` | frontend/src/contexts/AppContext.js:78-82 | `REMOVE_JOB` keeps exactly the jobs with another id, in their relative order |
| `AppContext.SetAssessmentOneKey` | frontend/src/contexts/AppContext.js:44-51 | `SET_ASSESSMENT` sets the payload's job key; every other key is present and mapped exactly as before |
| `CandidatesBoard.ClientFilterMatchesApi` | frontend/src/components/Candidates/CandidatesBoard.js:103-118 | The two-step client filter gives exactly the list the mock API's single filter gives |
| `CandidatesBoard.ClientFilterSpec` | frontend/src/components/Candidates/CandidatesBoard.js:103-118 | A candidate is listed exactly when an empty or hitting search and an empty or equal stage filter both hold; the list is an order-preserving subsequence; with both filters empty it is the whole list |
| `CandidatesBoard.StageFilterFromSelect` | frontend/src/components/Candidates/CandidatesBoard.js:213 | "all" clears the stage filter; any other value is used as it is |
| `CandidatesBoard.Displayed` | frontend/src/components/Candidates/CandidatesBoard.js:250 | The listed candidates are the first min(50, n) filtered ones |
| `CandidatesBoard.OverflowNoticeIffHidden` | frontend/src/components/Candidates/CandidatesBoard.js:281-285 | The "Showing first 50" notice appears exactly when some filtered candidates are not listed |
| `CandidatesBoard.WithStage` | frontend/src/components/Candidates/CandidatesBoard.js:125-131 | The candidates with the id get the new stage; every other candidate and the length are unchanged |
| `CandidatesBoard.Board.constructor` | frontend/src/components/Candidates/CandidatesBoard.js:67-71 | The page starts with no candidates, no search, no stage filter and not loading |
| `CandidatesBoard.Board.LoadCandidates` | frontend/src/components/Candidates/CandidatesBoard.js:75-96 | On success the list is the API's answer for the current filters (page 1, up to 1000); on failure it is kept; loading ends either way |
| `CandidatesBoard.Board.ChangeSearch` | frontend/src/components/Candidates/CandidatesBoard.js:207 | Records the term, keeps the stage filter and reloads with the new term; loading ends |
| `CandidatesBoard.Board.ChangeStageFilter` | frontend/src/components/Candidates/CandidatesBoard.js:213 | Records the filter ("all" clears it), keeps the search and reloads with the new filter; loading ends |
| `CandidatesBoard.Board.UpdateCandidateStage` | frontend/src/components/Candidates/CandidatesBoard.js:120-144 | Succeeds exactly when the call resolves for a known id. Only then does the first stored candidate with that id take the new stage, with every other stored candidate unchanged, and only then do the listed candidates with that id take it too. On failure the local list and the store are unchanged |
| `CandidateProfile.FindCandidate` | frontend/src/components/Candidates/CandidateProfile.js:19 | Gives the first candidate with the id, or none exactly when no candidate has it |
| `CandidateProfile.NoteFrom` | frontend/src/components/Candidates/CandidateProfile.js:42-50 | Blank text gives no note. Otherwise the note, by "Current User", holds exactly `Trim` of the text: non-empty, starting and ending with a non-space, and contained in the typed text |
| `CandidateProfile.TimelineByIndex` | frontend/src/components/Candidates/CandidateProfile.js:83-99 | The application event is kept when the stage index is at least 0, and the screening event when it is at least 1 |
| `CandidateProfile.TimelineByStage` | frontend/src/components/Candidates/CandidateProfile.js:83-99 | An applied candidate sees only the application; any later stage, rejected included, sees both events; a stage outside the six sees none |
| `CandidateProfile.Profile.constructor` | frontend/src/components/Candidates/CandidateProfile.js:11-16 | The profile starts with no candidate, no notes, an empty draft and loading |
| `CandidateProfile.Profile.Load` | frontend/src/components/Candidates/CandidateProfile.js:18-40 | A found candidate is shown with its saved notes, or the two default notes when none were saved. An unknown id leaves the candidate absent, which gives the not-found page. Loading ends either way |
| `CandidateProfile.Profile.EditNote` | frontend/src/components/Candidates/CandidateProfile.js:220 | The draft takes the typed value |
| `CandidateProfile.Profile.AddNote` | frontend/src/components/Candidates/CandidateProfile.js:42-56 | A blank draft changes nothing. Otherwise the new note goes first, the older notes follow in order, and the draft is cleared |
| `JobDetails.FindJob` | frontend/src/components/Jobs/JobDetails.js:18 | Gives the first job with the id, or none exactly when no job has it |
| `JobDetails.JobCandidates` | frontend/src/components/Jobs/JobDetails.js:22 | Exactly the candidates whose `jobId` is the route id, read at ascending store positions, so in stored order and with repeats kept |
| `JobDetails.Tally` | frontend/src/components/Jobs/JobDetails.js:46-49 | The reduce gives a count for exactly the listed stages, each the number of candidates at that stage |
| `JobDetails.SumCountsFiltered` | frontend/src/components/Jobs/JobDetails.js:46-49 | Over distinct stage names the counts add up to the number of candidates at one of those stages |
| `JobDetails.StageCountsTotal` | frontend/src/components/Jobs/JobDetails.js:46-49 | Every one of the six stages has a count, zero included, equal to the number of candidates at it; when every stage is valid the counts add up to the number of candidates |
| `JobDetails.Recent` | frontend/src/components/Jobs/JobDetails.js:166 | The recent list is the first min(5, n) candidates |
| `JobDetails.ViewAllIffHidden` | frontend/src/components/Jobs/JobDetails.js:182-188 | The "View all" link appears exactly when some of the job's candidates are not in the recent list |
| `JobDetails.StatusLabel` | frontend/src/components/Jobs/JobDetails.js:70 | The badge reads "Active" exactly for an active job and "Archived" for every other status |
| `JobDetails.Details.constructor` | frontend/src/components/Jobs/JobDetails.js:10-14 | The page starts with no job, no candidates and loading |
| `JobDetails.Details.Load` | frontend/src/components/Jobs/JobDetails.js:16-26 | A found job is shown with its candidates. An unknown id leaves no job and no candidates, which gives the not-found page. Loading ends either way |
| `JobForm.KeepAllowed` | frontend/src/components/Jobs/JobForm.js:33 | Only slug characters and white space are left |
| `JobForm.KeepAllowedKeepsOrder` | frontend/src/components/Jobs/JobForm.js:33 | Exactly the slug characters and white space of the input are kept: the result is the input read at the positions of those characters, in ascending order |
| `JobForm.CollapseSpacesChars` | frontend/src/components/Jobs/JobForm.js:34 | Replacing white-space runs leaves no white space and adds nothing but hyphens |
| `JobForm.TrimStartRun` | frontend/src/components/Jobs/JobForm.js:34 | A run of white space ahead of a non-space character, or of the end, is exactly what is skipped |
| `JobForm.CollapseSpacesRun` | frontend/src/components/Jobs/JobForm.js:34 | A whole run of white space, followed by a non-space character or the end, becomes a single hyphen |
| `JobForm.DropLeadingHyphens` | frontend/src/components/Jobs/JobForm.js:35 | The result is a suffix of the input that does not start with `-` |
| `JobForm.DropLeadingOnlyHyphens` | frontend/src/components/Jobs/JobForm.js:35 | Every character dropped from the front is a `-` |
| `JobForm.DropTrailingHyphens` | frontend/src/components/Jobs/JobForm.js:35 | The result is a prefix of the input that does not end with `-` |
| `JobForm.DropTrailingOnlyHyphens` | frontend/src/components/Jobs/JobForm.js:35 | Every character dropped from the end is a `-` |
| `JobForm.SlugifyIsSlug` | frontend/src/components/Jobs/JobForm.js:31-35 | A generated slug contains only `a-z`, `0-9` and `-`, and neither starts nor ends with `-` |
| `JobForm.SlugFixpoint` | frontend/src/components/Jobs/JobForm.js:31-35 | Slug generation leaves a well-formed slug unchanged |
| `JobForm.SlugifyIdempotent` | frontend/src/components/Jobs/JobForm.js:31-35 | Generating a slug from a generated slug gives it back unchanged |
| `JobForm.CollapseSingleSpaces` | frontend/src/components/Jobs/JobForm.js:34 | Where white space never comes in runs, each white-space character becomes its own hyphen and is not merged with a neighbouring `-` |
| `JobForm.SlugifySpacedHyphen` | frontend/src/components/Jobs/JobForm.js:32-35 | Hyphens already in the title are not collapsed: "a - b" becomes "a---b", and likewise for any two letters or digits |
| `JobForm.InitialData` | frontend/src/components/Jobs/JobForm.js:12-19 | A new job starts blank, "active", with one empty requirement and no tags; an existing job's fields are copied, with "active" for an empty status |
| `JobForm.Edited` | frontend/src/components/Jobs/JobForm.js:24-37 | The edited field takes the value and nothing else changes, except that a new title also sets the slug generated from it |
| `JobForm.RemoveAt` | frontend/src/components/Jobs/JobForm.js:60 | Drops exactly the indexed entry and keeps the others in order; no change for an index outside the list |
| `JobForm.RemoveRequirementFrom` | frontend/src/components/Jobs/JobForm.js:58-63 | With one requirement left nothing changes, so a non-empty list never becomes empty; with more, exactly the indexed requirement is removed and the others keep their order (an index outside the list removes nothing) |
| `JobForm.AddedTag` | frontend/src/components/Jobs/JobForm.js:65-73 | The trimmed tag is appended exactly when it is non-blank and not already present, so a duplicate-free list stays duplicate-free |
| `JobForm.RemovedTag` | frontend/src/components/Jobs/JobForm.js:75-80 | Exactly the tags other than the removed value stay, in their order, and no duplicates are introduced |
| `JobForm.FilledRequirements` | frontend/src/components/Jobs/JobForm.js:97 | Exactly the requirements that are not blank after trimming, read at their ascending positions, so in their order and with repeats kept |
| `JobForm.ValidationErrors` | frontend/src/components/Jobs/JobForm.js:82-104 | A field gets an error exactly when it fails its check, and the error is that field's message |
| `JobForm.RequirementsErrorIff` | frontend/src/components/Jobs/JobForm.js:97-100 | The requirements error appears exactly when every requirement is blank |
| `JobForm.ValidationErrorsSpec` | frontend/src/components/Jobs/JobForm.js:82-104 | The form is valid exactly when title, slug and description are non-blank and some requirement is non-blank; status never has an error |
| `JobForm.CleanData` | frontend/src/components/Jobs/JobForm.js:113-117 | The submitted data is the form's data with exactly the non-blank requirements, read at their ascending positions, so in their order |
| `JobForm.SubmittedRequirementsFilled` | frontend/src/components/Jobs/JobForm.js:106-120 | A valid form submits at least one requirement, and none of them is blank |
| `JobForm.Form.constructor` | frontend/src/components/Jobs/JobForm.js:11-22 | The form starts from the initial data, with no tag draft and no errors |
| `JobForm.Form.HandleInputChange` | frontend/src/components/Jobs/JobForm.js:24-43 | The data is edited as `Edited` says, and that field's error is cleared |
| `JobForm.Form.HandleRequirementChange` | frontend/src/components/Jobs/JobForm.js:45-49 | Only the indexed requirement changes |
| `JobForm.Form.AddRequirement` | frontend/src/components/Jobs/JobForm.js:51-56 | One empty requirement is appended |
| `JobForm.Form.RemoveRequirement` | frontend/src/components/Jobs/JobForm.js:58-63 | The requirements become `RemoveRequirementFrom` of the old list; nothing else changes |
| `JobForm.Form.EditTag` | frontend/src/components/Jobs/JobForm.js:226 | The tag draft takes the typed value |
| `JobForm.Form.AddTag` | frontend/src/components/Jobs/JobForm.js:65-73 | The tags become `AddedTag` of the old tags; the draft is cleared exactly when a tag was added |
| `JobForm.Form.RemoveTag` | frontend/src/components/Jobs/JobForm.js:75-80 | The tags become `RemovedTag` of the old tags |
| `JobForm.Form.Validate` | frontend/src/components/Jobs/JobForm.js:82-104 | Records the validation errors and reports valid exactly when there are none |
| `JobForm.Form.HandleSubmit` | frontend/src/components/Jobs/JobForm.js:106-120 | Submits the cleaned data exactly when the form is valid, and nothing otherwise |
| `AssessmentBuilder.ApplyEdit` | frontend/src/components/Assessments/AssessmentBuilder.js:15-17 | For each of the six inputs, the question is the old one with only that field set to the value; the id and the options always stay |
| `AssessmentBuilder.AddOption` | frontend/src/components/Assessments/AssessmentBuilder.js:19-22 | One empty option is appended after the existing ones; nothing else changes |
| `AssessmentBuilder.UpdateOption` | frontend/src/components/Assessments/AssessmentBuilder.js:24-28 | Only the indexed option changes |
| `AssessmentBuilder.RemoveOption` | frontend/src/components/Assessments/AssessmentBuilder.js:30-35 | Nothing changes with two or fewer options or an index outside the list; otherwise exactly the indexed option is removed and the others keep their order |
| `AssessmentBuilder.RemoveOptionKeepsTwo` | frontend/src/components/Assessments/AssessmentBuilder.js:30-35 | Removing never takes a question with at least two options below two |
| `AssessmentBuilder.ZeroShownAsUnset` | frontend/src/components/Assessments/AssessmentBuilder.js:145-146 | A stored limit of 0 shows as an empty field, like no limit, and reading the field back loses it |
| `AssessmentBuilder.ShownNumber` | frontend/src/components/Assessments/AssessmentBuilder.js:145 | The field is empty exactly when no value is stored |
| `AssessmentBuilder.ShownNumberRoundTrip` | frontend/src/components/Assessments/AssessmentBuilder.js:145-146 | Reading back what the field shows gives the stored value, 0 included |
| `AssessmentBuilder.NewQuestion` | frontend/src/components/Assessments/AssessmentBuilder.js:205-212 | A new question is an optional, empty short-text question with the fresh id, no options and no limits |
| `AssessmentBuilder.UpdateQuestionIn` | frontend/src/components/Assessments/AssessmentBuilder.js:193-198 | Only the questions with the id are replaced; length, the other questions and the section's id and title are unchanged |
| `AssessmentBuilder.DeleteQuestionFrom` | frontend/src/components/Assessments/AssessmentBuilder.js:200-203 | Exactly the questions with another id are kept, in their order |
| `AssessmentBuilder.InitialForm` | frontend/src/components/Assessments/AssessmentBuilder.js:285-300 | The given assessment is edited as it is; without one the form is untitled with exactly one empty "General Questions" section |
| `AssessmentBuilder.UpdateSection` | frontend/src/components/Assessments/AssessmentBuilder.js:306-313 | Only the sections with the id are replaced; the length and every other section are unchanged, and distinct ids stay distinct |
| `AssessmentBuilder.DeleteSection` | frontend/src/components/Assessments/AssessmentBuilder.js:315-322 | With one section left nothing changes; otherwise exactly the sections with another id are kept, in their order |
| `AssessmentBuilder.DeleteSectionKeepsOne` | frontend/src/components/Assessments/AssessmentBuilder.js:315-322 | With distinct section ids, deleting never leaves the assessment without a section |
| `AssessmentBuilder.DeleteSectionSharedId` | frontend/src/components/Assessments/AssessmentBuilder.js:315-322 | The guard counts sections but the filter goes by id, so two sections that share an id are both deleted |
| `AssessmentBuilder.AddSection` | frontend/src/components/Assessments/AssessmentBuilder.js:324-335 | One empty section titled "Section n+1" is appended after the n existing ones, which are unchanged |
| `AssessmentBuilder.AddSectionNumbered` | frontend/src/components/Assessments/AssessmentBuilder.js:327 | The number in the new section's title reads back as the new section count |
| `AssessmentBuilder.AddQuestionTo` | frontend/src/components/Assessments/AssessmentBuilder.js:337-346 | The question is appended to the end of each section with the id; every other section is unchanged |
| `AssessmentBuilder.AddQuestionCount` | frontend/src/components/Assessments/AssessmentBuilder.js:337-346 | Adding a question raises the total by the number of sections with that id |
| `AssessmentBuilder.HasQuestionsIffTotal` | frontend/src/components/Assessments/AssessmentBuilder.js:354-368 | Some section has a question exactly when `totalQuestions`, the sum of the per-section counts, is positive |
| `AssessmentBuilder.SaveCheckSpec` | frontend/src/components/Assessments/AssessmentBuilder.js:348-364 | The assessment is handed on unchanged exactly when the title is non-blank and some section has a question; a blank title is reported before a missing question |
| `AssessmentBuilder.Builder.constructor` | frontend/src/components/Assessments/AssessmentBuilder.js:283-300 | The builder starts from `InitialForm`, with the preview closed |
| `AssessmentBuilder.Builder.HandleTitleChange` | frontend/src/components/Assessments/AssessmentBuilder.js:302-304 | Only the title changes |
| `AssessmentBuilder.Builder.HandleUpdateSection` | frontend/src/components/Assessments/AssessmentBuilder.js:306-313 | The sections become `UpdateSection` of the old ones |
| `AssessmentBuilder.Builder.HandleDeleteSection` | frontend/src/components/Assessments/AssessmentBuilder.js:315-322 | The sections become `DeleteSection` of the old ones |
| `AssessmentBuilder.Builder.HandleAddSection` | frontend/src/components/Assessments/AssessmentBuilder.js:324-335 | The sections become `AddSection` of the old ones |
| `AssessmentBuilder.Builder.HandleAddQuestion` | frontend/src/components/Assessments/AssessmentBuilder.js:337-346 | The sections become `AddQuestionTo` of the old ones, and the total rises by the number of sections with the id |
| `AssessmentBuilder.Builder.TogglePreview` | frontend/src/components/Assessments/AssessmentBuilder.js:384 | The preview flag flips |
| `AssessmentBuilder.Builder.HandleSave` | frontend/src/components/Assessments/AssessmentBuilder.js:348-364 | Hands the form on exactly when its title is non-blank and it has at least one question |
| `AssessmentsBoard.QuestionCount` | frontend/src/components/Assessments/AssessmentsBoard.js:12-13 | The badge is the sum of the section question counts, and 0 without an assessment |
| `AssessmentsBoard.SectionCount` | frontend/src/components/Assessments/AssessmentsBoard.js:30 | The number of sections, 0 without an assessment |
| `AssessmentsBoard.Subtitle` | frontend/src/components/Assessments/AssessmentsBoard.js:26 | The assessment's title, or "No assessment created" when there is none or it is empty |
| `AssessmentsBoard.CardActions` | frontend/src/components/Assessments/AssessmentsBoard.js:34-54 | Preview, Edit and Copy exactly when an assessment exists, otherwise only Create |
| `AssessmentsBoard.FetchAll` | frontend/src/components/Assessments/AssessmentsBoard.js:84-88 | One result per listed job, in job order, each the store's answer for that job |
| `AssessmentsBoard.AssessmentsMapOfStore` | frontend/src/components/Assessments/AssessmentsBoard.js:84-94 | Built from the store's answers, the map has an entry exactly for the listed jobs with a stored assessment, each the stored one |
| `AssessmentsBoard.BuildAssessmentsMap` | frontend/src/components/Assessments/AssessmentsBoard.js:89-94 | The `forEach` loop enters a job exactly when some result for it is non-null |
| `AssessmentsBoard.Board.constructor` | frontend/src/components/Assessments/AssessmentsBoard.js:63-69 | The page starts empty, with nothing selected and both dialogs closed |
| `AssessmentsBoard.Board.LoadData` | frontend/src/components/Assessments/AssessmentsBoard.js:76-106 | On success the jobs are the first 100 and the map holds their stored assessments and agrees with the store; on failure both are kept; loading ends either way |
| `AssessmentsBoard.Board.HandleEditAssessment` | frontend/src/components/Assessments/AssessmentsBoard.js:108-112 | Selects the job and its assessment and opens the builder |
| `AssessmentsBoard.Board.HandleViewAssessment` | frontend/src/components/Assessments/AssessmentsBoard.js:114-118 | Selects the job and its assessment and opens the preview |
| `AssessmentsBoard.Board.HandleCreate` | frontend/src/components/Assessments/AssessmentsBoard.js:166 | With a job listed, opens the builder on a new assessment for the first job |
| `AssessmentsBoard.Board.HandleSaveAssessment` | frontend/src/components/Assessments/AssessmentsBoard.js:128-153 | On success only the selected job's entry is replaced, in the store and locally, and the builder closes. On failure the map, the store and the open builder are unchanged. A local map that agrees with the store keeps agreeing |
| `JobsBoard.ToggleStatus` | frontend/src/components/Jobs/JobsBoard.js:167 | Gives "archived" exactly for an active job and "active" for any other status |
| `JobsBoard.ToggleTwice` | frontend/src/components/Jobs/JobsBoard.js:167 | On the two statuses the toggle is an involution |
| `JobsBoard.ToggleMessage` | frontend/src/components/Jobs/JobsBoard.js:172 | The notice says "archived" for a job just archived and "unarchived" otherwise |
| `JobsBoard.StatusFilterFromSelect` | frontend/src/components/Jobs/JobsBoard.js:121-122 | "all" becomes the empty filter; every other value passes through |
| `JobsBoard.SelectShown` | frontend/src/components/Jobs/JobsBoard.js:239 | The select shows "all" exactly for an empty filter (or the filter "all") |
| `JobsBoard.SelectRoundTrip` | frontend/src/components/Jobs/JobsBoard.js:239 | Choosing an entry and showing the filter it sets gives the entry back, and setting a shown filter keeps it |
| `JobsBoard.PageQuery` | frontend/src/components/Jobs/JobsBoard.js:89-95 | Pages of 12, sorted by `order`, at the requested page |
| `JobsBoard.Board.constructor` | frontend/src/components/Jobs/JobsBoard.js:75-83 | The page starts with no jobs, no filters, page 1 of 1, nothing selected and no dialog open |
| `JobsBoard.Board.LoadJobs` | frontend/src/components/Jobs/JobsBoard.js:86-109 | On success the jobs, `totalPages` and `currentPage` come from the response for the requested page. On failure these fields are unchanged. Loading ends either way |
| `JobsBoard.Board.HandleSearch` | frontend/src/components/Jobs/JobsBoard.js:115-119 | Records the term and resets the page to 1. When the call succeeds the list and the page count are page 1's for the new term; otherwise both are kept. Loading ends |
| `JobsBoard.Board.HandleStatusFilter` | frontend/src/components/Jobs/JobsBoard.js:121-126 | Records the filter ("all" clears it) and resets the page to 1. When the call succeeds the list and the page count are page 1's for the new filter; otherwise both are kept. Loading ends |
| `JobsBoard.Board.PreviousPage` | frontend/src/components/Jobs/JobsBoard.js:279-285 | Callable only while "Previous" is enabled, which is not at page 1. On success the page number, the list and the page count are those of the page before; on failure all three are kept. Loading ends |
| `JobsBoard.Board.NextPage` | frontend/src/components/Jobs/JobsBoard.js:291-297 | Callable only while "Next" is enabled, which is not at `totalPages`. On success the page number, the list and the page count are those of the next page, which is not empty when the shown page count is the store's; on failure all three are kept |
| `JobsBoard.Board.HandleCreateJob` | frontend/src/components/Jobs/JobsBoard.js:128-144 | On success the store gains exactly one job at the end, carrying the form's fields, the fresh id, `order` = previous count + 1 and the time; the dialog closes, and the list, page number and page count are page 1's. On failure the store, the list, the page number, the page count and the dialog are unchanged |
| `JobsBoard.Board.HandleEditClick` | frontend/src/components/Jobs/JobsBoard.js:194-197 | Selects the job and opens the edit dialog |
| `JobsBoard.Board.HandleViewJob` | frontend/src/components/Jobs/JobsBoard.js:185-192 | Selects the job |
| `JobsBoard.Board.HandleEditJob` | frontend/src/components/Jobs/JobsBoard.js:146-163 | On success the selected job's stored fields become the form's, the dialog closes, the selection clears, and the list, page number and page count are page 1's. On failure, an unknown id included, nothing changes |
| `JobsBoard.Board.HandleArchiveToggle` | frontend/src/components/Jobs/JobsBoard.js:165-183 | On success only that job's stored status flips, and the list, page number and page count are page 1's. On failure the store, the list, the page number and the page count are unchanged |

## Left out

- Artificial latency: `delay`, the awaits, `Promise.all` ordering and `useEffect` scheduling are not modelled. Each API call is one synchronous step that either succeeds or fails as a whole.
- Random data: the random candidate generator and `reorderJobs` are not modelled. The generator is replaced by any initial candidate list. `reorderJobs` has only a random failure and an empty body.
- Persistence: `localStorage` and JSON in the application provider and for candidate notes are I/O. Saved notes come in as a parameter of `CandidateProfile.Profile.Load`.
- Clock values: ids and timestamps from `Date.now()` / `new Date()` are parameters. The code does not guarantee that they are unique, and the model does not assume it (see `AssessmentBuilder.DeleteSectionSharedId`). The timeline's screening date is a parameter.
- Text: `toLowerCase` is modelled on ASCII letters only. `localeCompare` is modelled as code-point lexicographic order. `Array.prototype.sort` is taken to be stable, as ECMAScript 2019 requires.
- MockApi.GetJobs: requires a positive `pageSize`. With 0 the source divides by zero for `totalPages`, and every caller passes 10, 12 or 100.
- CollapseSpacesChars: states only which characters can appear in the result. That a whole white-space run becomes one hyphen is the contract of `JobForm.CollapseSpacesRun`.
- AssessmentBuilder.ApplyEdit: the minimum, maximum and length limits are integers. `Number` also stores fractional values, so a typed "1.5" is stored as 1.5 by the source, while `ReadNumber` reads it as no value.
- ShownNumberRoundTrip: proved for integer limits only. Fractional limits and the text `String` gives them are not modelled.
- JobForm.Form.HandleInputChange: a cleared error is removed from the map, where the source stores `null` under the key. Both render no message and both are replaced by the next validation.
- UI only: these are not modelled:
  - JSX rendering, styling, dialogs, toasts and `alert`;
  - date formatting;
  - routing, the navigation layout and the provider guard of the context hook;
  - the kanban/list view switch;
  - `handleCopyAssessment` and `handleViewCandidate`, which only show a notice;
  - the assessment preview's rendering of questions.
- The section editor's title input edits a section through `AssessmentBuilder.UpdateSection` with the whole new section. Its one-field spread is not modelled separately.

## Findings

| source | as written | input that shows it | evidently intended | confidence | as-written member | corrected member |
|---|---|---|---|---|---|---|
| frontend/src/components/Assessments/AssessmentBuilder.js:145-146 | The min/max value and max length inputs show the stored value or, when it is falsy, the empty string, so a stored 0 shows as an empty field | A numeric question whose minimum is set to 0: the field shows nothing, exactly as for an unset minimum | Show every stored number, 0 included, and empty only for an unset value | medium, not executed | `AssessmentBuilder.ZeroShownAsUnset` | `AssessmentBuilder.ShownNumberRoundTrip` |
