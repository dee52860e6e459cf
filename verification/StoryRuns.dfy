/**
 * Story runs (internal/server/story_run_handlers.go, with the run table of
 * internal/registry/store.go and the story columns of internal/hierarchy/store.go).
 * Each handler is taken as one step.
 */
module StoryRuns {
  import opened Basics

  datatype RunStatus = Queued | Running | Completed | Failed | Cancelled

  /** A row of story_runs; the row at index i has id i + 1. */
  datatype StoryRun = StoryRun(
    storyId: int, profileId: int, sessionKey: string, agentSessionId: string, execId: string,
    status: RunStatus, error: string, startedAt: int, finishedAt: int)

  /** The run columns of a story; a latest status of None is the empty string. */
  datatype StoryRow = StoryRow(
    closed: bool, profile: Option<int>,
    latestRunId: Option<int>, latestSessionKey: string, latestStatus: Option<RunStatus>)

  datatype Db = Db(runs: seq<StoryRun>, stories: map<int, StoryRow>, nextStory: int)

  predicate Active(r: StoryRun) {
    r.status.Queued? || r.status.Running?
  }

  predicate HasRuns(runs: seq<StoryRun>, story: int) {
    exists i :: 0 <= i < |runs| && runs[i].storyId == story
  }

  predicate HasActiveRun(runs: seq<StoryRun>, story: int) {
    exists i :: 0 <= i < |runs| && runs[i].storyId == story && Active(runs[i])
  }

  // ---- the handlers as functions ------------------------------------------------------------

  /** Everything outside the two tables that decides how creating a run goes. */
  datatype Outcome =
    | NoAgentManager
    | ResumeFailed(sessionKey: string, error: string)
    | SessionFailed(error: string)
    | RegistrationFailed(error: string)
    | StartFailed(sessionKey: string, agentSessionId: string, error: string)
    | Started(sessionKey: string, agentSessionId: string, execId: string)

  function NewRun(story: int, profile: int): StoryRun {
    StoryRun(story, profile, "", "", "", Queued, "", 0, 0)
  }

  function Ended(r: StoryRun, status: RunStatus, error: string, now: int): StoryRun {
    r.(status := status, error := error, finishedAt := now)
  }

  /** The row of a new run when its handler returns. */
  function FinalRun(r: StoryRun, outcome: Outcome, started: int, finished: int): StoryRun {
    match outcome
    case NoAgentManager => Ended(r, Failed, "agent manager not configured", finished)
    case ResumeFailed(_, error) => Ended(r, Failed, error, finished)
    case SessionFailed(error) => Ended(r, Failed, error, finished)
    case RegistrationFailed(error) => Ended(r, Failed, error, finished)
    case StartFailed(key, id, error) =>
      var running := r.(sessionKey := key, agentSessionId := id, status := Running, startedAt := started);
      Ended(running, Failed, error, finished)
    case Started(key, id, exec) =>
      r.(sessionKey := key, agentSessionId := id, status := Running, startedAt := started, execId := exec)
  }

  function Summary(row: StoryRow, runId: int, key: string, status: RunStatus): StoryRow {
    row.(latestRunId := Some(runId), latestSessionKey := key, latestStatus := Some(status))
  }

  /** The story's summary when the handler returns; a failed registration leaves it as it was. */
  function FinalSummary(row: StoryRow, runId: int, outcome: Outcome): StoryRow {
    match outcome
    case NoAgentManager => Summary(row, runId, "", Failed)
    case ResumeFailed(key, _) => Summary(row, runId, key, Failed)
    case SessionFailed(_) => Summary(row, runId, "", Failed)
    case RegistrationFailed(_) => row
    case StartFailed(key, _, _) => Summary(row, runId, key, Failed)
    case Started(key, _, _) => Summary(row, runId, key, Running)
  }

  /** The profile found for the story's agent, and the capability found for the profile's provider. */
  datatype Profile = Profile(disabled: bool)
  datatype Capability = Capability(available: bool, unauthenticated: bool)

  /** What the checks of handleCreateRun find outside the two tables. */
  datatype Request = Request(
    workspaceFound: bool, admin: bool, profile: Option<Profile>, runtimeFound: bool, capability: Option<Capability>,
    bodyReadable: bool, directoryFound: bool, userKnown: bool)

  datatype Refusal =
    | StoryNotFound | WorkspaceNotFound | Forbidden | StoryClosed | NoAgentBound | ProfileNotFound | ProfileDisabled
    | RuntimeNotFound | CapabilityNotAvailable | NotAuthenticated | AlreadyRunning | InvalidJson | NoDirectory
    | UserUnknown
    | RunNotFound | OtherStory | NotRunning | CancelFailed
    | ProfileRequired | OtherWorkspace | AgentLocked

  /** The first check that fails, in the order of the handler. */
  function RefusalOf(db: Db, story: int, req: Request): Option<Refusal> {
    if story !in db.stories then Some(StoryNotFound)
    else if !req.workspaceFound then Some(WorkspaceNotFound)
    else if !req.admin then Some(Forbidden)
    else if db.stories[story].closed then Some(StoryClosed)
    else if db.stories[story].profile.None? then Some(NoAgentBound)
    else if req.profile.None? then Some(ProfileNotFound)
    else if req.profile.value.disabled then Some(ProfileDisabled)
    else if !req.runtimeFound then Some(RuntimeNotFound)
    else if req.capability.None? || !req.capability.value.available then Some(CapabilityNotAvailable)
    else if req.capability.value.unauthenticated then Some(NotAuthenticated)
    else if HasActiveRun(db.runs, story) then Some(AlreadyRunning)
    else if !req.bodyReadable then Some(InvalidJson)
    else if !req.directoryFound then Some(NoDirectory)
    else if !req.userKnown then Some(UserUnknown)
    else None
  }

  predicate Accepts(db: Db, story: int, req: Request) {
    RefusalOf(db, story, req).None?
  }

  /** handleCreateRun. */
  function CreateRun(db: Db, story: int, req: Request, outcome: Outcome, started: int, finished: int): Db {
    if !Accepts(db, story, req) then db
    else
      var row := db.stories[story];
      db.(runs := db.runs + [FinalRun(NewRun(story, row.profile.value), outcome, started, finished)],
          stories := db.stories[story := FinalSummary(row, |db.runs| + 1, outcome)])
  }

  /** What handleCancelRun finds outside the tables; `sdkFails` says that cancelling the execution fails if tried. */
  datatype CancelRequest = CancelRequest(workspaceFound: bool, admin: bool, sdkFails: bool)

  function CancelRefusal(db: Db, story: int, runId: int, req: CancelRequest): Option<Refusal> {
    if story !in db.stories || !req.workspaceFound then Some(WorkspaceNotFound)
    else if !req.admin then Some(Forbidden)
    else if !(1 <= runId <= |db.runs|) then Some(RunNotFound)
    else if db.runs[runId - 1].storyId != story then Some(OtherStory)
    else if !db.runs[runId - 1].status.Running? then Some(NotRunning)
    else if db.runs[runId - 1].agentSessionId != "" && req.sdkFails then Some(CancelFailed)
    else None
  }

  /** handleCancelRun. */
  function CancelRun(db: Db, story: int, runId: int, req: CancelRequest, now: int): Db {
    if CancelRefusal(db, story, runId, req).Some? then db
    else
      var r := db.runs[runId - 1];
      db.(runs := db.runs[runId - 1 := Ended(r, Cancelled, "", now)],
          stories := db.stories[story := Summary(db.stories[story], runId, r.sessionKey, Cancelled)])
  }

  /** The profile a bind request names. */
  datatype Candidate = Candidate(sameWorkspace: bool, disabled: bool)

  /** What handleBindAgent finds outside the two tables; the profile id is None when the body cannot be read. */
  datatype BindRequest = BindRequest(
    workspaceFound: bool, admin: bool, profileId: Option<int>, profile: Option<Candidate>)

  /** The first check that fails; last comes the lock: with runs, a story's agent cannot be replaced. */
  function BindRefusal(db: Db, story: int, req: BindRequest): Option<Refusal> {
    if story !in db.stories then Some(StoryNotFound)
    else if !req.workspaceFound then Some(WorkspaceNotFound)
    else if !req.admin then Some(Forbidden)
    else if req.profileId.None? then Some(InvalidJson)
    else if req.profileId.value == 0 then Some(ProfileRequired)
    else if req.profile.None? then Some(ProfileNotFound)
    else if !req.profile.value.sameWorkspace then Some(OtherWorkspace)
    else if req.profile.value.disabled then Some(ProfileDisabled)
    else
      var current := db.stories[story].profile;
      if HasRuns(db.runs, story) && current.Some? && current != req.profileId then Some(AgentLocked) else None
  }

  /** handleBindAgent. */
  function BindAgent(db: Db, story: int, req: BindRequest): Db {
    if BindRefusal(db, story, req).Some? then db
    else db.(stories := db.stories[story := db.stories[story].(profile := req.profileId)])
  }

  // ---- what the handlers answer and write -----------------------------------------------------

  /** No run of the story is queued or running. */
  ghost predicate NothingActive(db: Db, story: int) {
    forall i :: 0 <= i < |db.runs| && db.runs[i].storyId == story ==> db.runs[i].status !in {Queued, Running}
  }

  /** A condition, and the refusal that reports its failure. */
  datatype Check = Check(holds: bool, refusal: Refusal)

  /** The i-th condition fails, and all before it hold. */
  predicate FailsAt(checks: seq<Check>, i: nat) {
    i < |checks| && !checks[i].holds && forall j :: 0 <= j < i ==> checks[j].holds
  }

  /** The answer is the refusal of the first condition that fails, or none if all hold. */
  ghost predicate AnswersFirst(answer: Option<Refusal>, checks: seq<Check>) {
    match answer
    case None => forall i :: 0 <= i < |checks| ==> checks[i].holds
    case Some(r) => exists i: nat :: FailsAt(checks, i) && checks[i].refusal == r
  }

  /** There is one such answer. */
  lemma AnswerIsUnique(a: Option<Refusal>, b: Option<Refusal>, checks: seq<Check>)
    requires AnswersFirst(a, checks) && AnswersFirst(b, checks)
    ensures a == b
  {
    if a.Some? && b.Some? {
      var i: nat :| FailsAt(checks, i) && checks[i].refusal == a.value;
      var j: nat :| FailsAt(checks, j) && checks[j].refusal == b.value;
      assert i == j;
    }
  }

  ghost function CreateChecks(db: Db, story: int, req: Request): seq<Check> {
    var there := story in db.stories;
    [Check(there, StoryNotFound),
     Check(req.workspaceFound, WorkspaceNotFound),
     Check(req.admin, Forbidden),
     Check(there && !db.stories[story].closed, StoryClosed),
     Check(there && db.stories[story].profile != None, NoAgentBound),
     Check(req.profile != None, ProfileNotFound),
     Check(req.profile != Some(Profile(disabled := true)), ProfileDisabled),
     Check(req.runtimeFound, RuntimeNotFound),
     Check(req.capability.Some? && req.capability.value.available, CapabilityNotAvailable),
     Check(req.capability != Some(Capability(available := true, unauthenticated := true)), NotAuthenticated),
     Check(NothingActive(db, story), AlreadyRunning),
     Check(req.bodyReadable, InvalidJson),
     Check(req.directoryFound, NoDirectory),
     Check(req.userKnown, UserUnknown)]
  }

  /** A new run is refused for the first of these that fails. */
  lemma CreateRefusedForFirst(db: Db, story: int, req: Request)
    ensures AnswersFirst(RefusalOf(db, story, req), CreateChecks(db, story, req))
  {
    var checks := CreateChecks(db, story, req);
    ActiveOrNothing(db, story);
    hide HasActiveRun, NothingActive;
    var answer := RefusalOf(db, story, req);
    if answer == Some(StoryNotFound) {
      assert FailsAt(checks, 0);
    } else if answer == Some(WorkspaceNotFound) {
      assert FailsAt(checks, 1);
    } else if answer == Some(Forbidden) {
      assert FailsAt(checks, 2);
    } else if answer == Some(StoryClosed) {
      assert FailsAt(checks, 3);
    } else if answer == Some(NoAgentBound) {
      assert FailsAt(checks, 4);
    } else if answer == Some(ProfileNotFound) {
      assert FailsAt(checks, 5);
    } else if answer == Some(ProfileDisabled) {
      assert FailsAt(checks, 6);
    } else if answer == Some(RuntimeNotFound) {
      assert FailsAt(checks, 7);
    } else if answer == Some(CapabilityNotAvailable) {
      assert FailsAt(checks, 8);
    } else if answer == Some(NotAuthenticated) {
      assert FailsAt(checks, 9);
    } else if answer == Some(AlreadyRunning) {
      assert FailsAt(checks, 10);
    } else if answer == Some(InvalidJson) {
      assert FailsAt(checks, 11);
    } else if answer == Some(NoDirectory) {
      assert FailsAt(checks, 12);
    } else if answer == Some(UserUnknown) {
      assert FailsAt(checks, 13);
    }
  }

  lemma ActiveOrNothing(db: Db, story: int)
    ensures HasActiveRun(db.runs, story) <==> !NothingActive(db, story)
  {
  }

  /** A run is created exactly when all of these hold, and otherwise nothing changes. */
  lemma CreatedIff(db: Db, story: int, req: Request, outcome: Outcome, started: int, finished: int)
    ensures var db2 := CreateRun(db, story, req, outcome, started, finished);
            && (db2 == db || |db2.runs| == |db.runs| + 1)
            && (db2 != db <==>
                  && story in db.stories && req.workspaceFound && req.admin
                  && !db.stories[story].closed && db.stories[story].profile.Some?
                  && req.profile == Some(Profile(disabled := false)) && req.runtimeFound
                  && req.capability == Some(Capability(available := true, unauthenticated := false))
                  && NothingActive(db, story)
                  && req.bodyReadable && req.directoryFound && req.userKnown)
  {
  }

  ghost function CancelChecks(db: Db, story: int, runId: int, req: CancelRequest): seq<Check> {
    var there := 1 <= runId <= |db.runs|;
    [Check(story in db.stories && req.workspaceFound, WorkspaceNotFound),
     Check(req.admin, Forbidden),
     Check(there, RunNotFound),
     Check(there && db.runs[runId - 1].storyId == story, OtherStory),
     Check(there && db.runs[runId - 1].status == Running, NotRunning),
     Check(there && (db.runs[runId - 1].agentSessionId == "" || !req.sdkFails), CancelFailed)]
  }

  /** Cancelling is refused for the first of these that fails. */
  lemma CancelRefusedForFirst(db: Db, story: int, runId: int, req: CancelRequest)
    ensures AnswersFirst(CancelRefusal(db, story, runId, req), CancelChecks(db, story, runId, req))
  {
    var checks := CancelChecks(db, story, runId, req);
    var answer := CancelRefusal(db, story, runId, req);
    if answer == Some(WorkspaceNotFound) {
      assert FailsAt(checks, 0);
    } else if answer == Some(Forbidden) {
      assert FailsAt(checks, 1);
    } else if answer == Some(RunNotFound) {
      assert FailsAt(checks, 2);
    } else if answer == Some(OtherStory) {
      assert FailsAt(checks, 3);
    } else if answer == Some(NotRunning) {
      assert FailsAt(checks, 4);
    } else if answer == Some(CancelFailed) {
      assert FailsAt(checks, 5);
    }
  }

  /** With all of them, exactly this run and its story's summary change; else nothing does. */
  lemma CancelledIff(db: Db, story: int, runId: int, req: CancelRequest, now: int)
    ensures var db2 := CancelRun(db, story, runId, req, now);
            if && story in db.stories && req.workspaceFound && req.admin && 1 <= runId <= |db.runs|
               && db.runs[runId - 1].storyId == story && db.runs[runId - 1].status == Running
               && (db.runs[runId - 1].agentSessionId == "" || !req.sdkFails)
            then
              var run := db.runs[runId - 1];
              db2 == db.(runs := db.runs[runId - 1 := run.(status := Cancelled, error := "", finishedAt := now)],
                         stories := db.stories[story := db.stories[story].(
                           latestRunId := Some(runId), latestSessionKey := run.sessionKey,
                           latestStatus := Some(Cancelled))])
            else db2 == db
  {
  }

  ghost function BindChecks(db: Db, story: int, req: BindRequest): seq<Check> {
    var there := story in db.stories;
    [Check(there, StoryNotFound),
     Check(req.workspaceFound, WorkspaceNotFound),
     Check(req.admin, Forbidden),
     Check(req.profileId.Some?, InvalidJson),
     Check(req.profileId != Some(0), ProfileRequired),
     Check(req.profile.Some?, ProfileNotFound),
     Check(req.profile.Some? && req.profile.value.sameWorkspace, OtherWorkspace),
     Check(req.profile.Some? && !req.profile.value.disabled, ProfileDisabled),
     Check(there && (db.stories[story].profile in {None, req.profileId}
                     || forall i :: 0 <= i < |db.runs| ==> db.runs[i].storyId != story), AgentLocked)]
  }

  /** Binding an agent is refused for the first of these that fails. */
  lemma BindRefusedForFirst(db: Db, story: int, req: BindRequest)
    ensures AnswersFirst(BindRefusal(db, story, req), BindChecks(db, story, req))
  {
    var checks := BindChecks(db, story, req);
    var answer := BindRefusal(db, story, req);
    if answer == Some(StoryNotFound) {
      assert FailsAt(checks, 0);
    } else if answer == Some(WorkspaceNotFound) {
      assert FailsAt(checks, 1);
    } else if answer == Some(Forbidden) {
      assert FailsAt(checks, 2);
    } else if answer == Some(InvalidJson) {
      assert FailsAt(checks, 3);
    } else if answer == Some(ProfileRequired) {
      assert FailsAt(checks, 4);
    } else if answer == Some(ProfileNotFound) {
      assert FailsAt(checks, 5);
    } else if answer == Some(OtherWorkspace) {
      assert FailsAt(checks, 6);
    } else if answer == Some(ProfileDisabled) {
      assert FailsAt(checks, 7);
    } else if answer == Some(AgentLocked) {
      assert FailsAt(checks, 8);
    }
  }

  /** With all of them the story has the agent; else nothing changes. */
  lemma BoundIff(db: Db, story: int, req: BindRequest)
    ensures BindAgent(db, story, req)
            == if && story in db.stories && req.workspaceFound && req.admin
                  && req.profileId.Some? && req.profileId.value != 0
                  && req.profile == Some(Candidate(sameWorkspace := true, disabled := false))
                  && (db.stories[story].profile in {None, req.profileId}
                      || forall i :: 0 <= i < |db.runs| ==> db.runs[i].storyId != story)
               then db.(stories := db.stories[story := db.stories[story].(profile := req.profileId)])
               else db
  {
  }

  /** What a created run's row holds, outcome by outcome. */
  lemma RunRowWritten(db: Db, story: int, req: Request, outcome: Outcome, started: int, finished: int)
    requires CreateRun(db, story, req, outcome, started, finished) != db
    ensures var profile := db.stories[story].profile.value;
            CreateRun(db, story, req, outcome, started, finished).runs
            == db.runs + [match outcome
               case NoAgentManager =>
                 StoryRun(story, profile, "", "", "", Failed, "agent manager not configured", 0, finished)
               case ResumeFailed(_, error) => StoryRun(story, profile, "", "", "", Failed, error, 0, finished)
               case SessionFailed(error) => StoryRun(story, profile, "", "", "", Failed, error, 0, finished)
               case RegistrationFailed(error) => StoryRun(story, profile, "", "", "", Failed, error, 0, finished)
               case StartFailed(key, id, error) =>
                 StoryRun(story, profile, key, id, "", Failed, error, started, finished)
               case Started(key, id, exec) => StoryRun(story, profile, key, id, exec, Running, "", started, 0)]
  {
  }

  /** And what the story's row says of it; a failed registration leaves that row, and other stories' rows stay. */
  lemma SummaryWritten(db: Db, story: int, req: Request, outcome: Outcome, started: int, finished: int)
    requires CreateRun(db, story, req, outcome, started, finished) != db
    ensures var row := db.stories[story];
            var told := (key: string, status: RunStatus) =>
              db.stories[story := row.(latestRunId := Some(|db.runs| + 1), latestSessionKey := key,
                                       latestStatus := Some(status))];
            CreateRun(db, story, req, outcome, started, finished).stories
            == match outcome
               case RegistrationFailed(_) => db.stories
               case ResumeFailed(key, _) => told(key, Failed)
               case StartFailed(key, _, _) => told(key, Failed)
               case Started(key, _, _) => told(key, Running)
               case _ => told("", Failed)
  {
  }

  datatype Step =
    | NewStory
    | DeleteStory(story: int)
    | SetClosed(story: int, closed: bool)
    | Bind(story: int, bindReq: BindRequest)
    | Create(story: int, req: Request, outcome: Outcome, started: int, finished: int)
    | Cancel(story: int, runId: int, cancelReq: CancelRequest, now: int)

  function NextDb(db: Db, step: Step): Db {
    match step
    case NewStory =>
      db.(stories := db.stories[db.nextStory := StoryRow(false, None, None, "", None)], nextStory := db.nextStory + 1)
    case DeleteStory(s) => db.(stories := db.stories - {s})
    case SetClosed(s, closed) =>
      if s in db.stories then db.(stories := db.stories[s := db.stories[s].(closed := closed)]) else db
    case Bind(s, req) => BindAgent(db, s, req)
    case Create(s, req, outcome, started, finished) => CreateRun(db, s, req, outcome, started, finished)
    case Cancel(s, id, req, now) => CancelRun(db, s, id, req, now)
  }

  function RunDb(db: Db, steps: seq<Step>): Db
    decreases |steps|
  {
    if steps == [] then db else RunDb(NextDb(db, steps[0]), steps[1..])
  }

  lemma {:induction false} RunDbSnoc(db: Db, steps: seq<Step>, step: Step)
    ensures RunDb(db, []) == db && RunDb(db, steps + [step]) == NextDb(RunDb(db, steps), step)
    decreases |steps|
  {
    hide NextDb;
    if steps == [] {
      assert [] + [step] == [step];
      assert [step][1..] == [];
      assert RunDb(NextDb(db, step), []) == NextDb(db, step);
    } else {
      assert (steps + [step])[1..] == steps[1..] + [step];
      RunDbSnoc(NextDb(db, steps[0]), steps[1..], step);
    }
  }

  /** What happens to stories outside the three handlers. */
  lemma StorySteps(db: Db, story: int, closed: bool)
    ensures NextDb(db, NewStory)
            == db.(stories := db.stories[db.nextStory := StoryRow(false, None, None, "", None)],
                   nextStory := db.nextStory + 1)
    ensures NextDb(db, DeleteStory(story)) == db.(stories := db.stories - {story})
    ensures story in db.stories ==>
              NextDb(db, SetClosed(story, closed))
              == db.(stories := db.stories[story := db.stories[story].(closed := closed)])
  {
  }

  // ---- the invariant -----------------------------------------------------------------------------

  /** Clock readings are positive. */
  predicate Ticks(step: Step) {
    (step.Create? ==> step.finished > 0) && (step.Cancel? ==> step.now > 0)
  }

  ghost predicate Inv(db: Db) {
    // only the newest run of a story can be active
    && (forall i, j :: 0 <= i < j < |db.runs| && db.runs[i].storyId == db.runs[j].storyId ==> !Active(db.runs[i]))
    // all runs of a story carry the profile bound to it
    && (forall i :: 0 <= i < |db.runs| && db.runs[i].storyId in db.stories ==>
          db.stories[db.runs[i].storyId].profile == Some(db.runs[i].profileId))
    // an ended run has its end time
    && (forall i :: 0 <= i < |db.runs| && !Active(db.runs[i]) ==> db.runs[i].finishedAt > 0)
    // story ids are not used again
    && (forall i :: 0 <= i < |db.runs| ==> db.runs[i].storyId < db.nextStory)
    && (forall s :: s in db.stories ==> s < db.nextStory)
    // a story's latest run is in the table
    && (forall s :: s in db.stories && db.stories[s].latestRunId.Some? ==> db.stories[s].latestRunId.value <= |db.runs|)
  }

  /** What the rest needs to know about the two final rows. */
  lemma FinalRows(r: StoryRun, row: StoryRow, runId: int, outcome: Outcome, started: int, finished: int)
    requires r.status.Queued?
    ensures var run, row2 := FinalRun(r, outcome, started, finished), FinalSummary(row, runId, outcome);
            && run.storyId == r.storyId && run.profileId == r.profileId && row2.profile == row.profile
            && (Active(run) <==> outcome.Started?) && (!Active(run) ==> run.finishedAt == finished)
            && (if outcome.RegistrationFailed? then row2 == row
                else row2.latestRunId == Some(runId) && row2.latestStatus == Some(run.status))
  {
  }

  lemma CreateKeepsInv(db: Db, step: Step)
    requires Inv(db) && step.Create? && step.finished > 0 && Accepts(db, step.story, step.req)
    ensures Inv(NextDb(db, step))
  {
    var row := db.stories[step.story];
    FinalRows(NewRun(step.story, row.profile.value), row, |db.runs| + 1, step.outcome, step.started, step.finished);
    hide FinalRun, FinalSummary, HasRuns;
  }

  lemma CancelKeepsInv(db: Db, step: Step)
    requires Inv(db) && step.Cancel? && step.now > 0
    ensures Inv(NextDb(db, step))
  {
  }

  lemma NextKeepsInv(db: Db, step: Step)
    requires Inv(db) && Ticks(step)
    ensures Inv(NextDb(db, step))
  {
    if step.Create? && Accepts(db, step.story, step.req) {
      CreateKeepsInv(db, step);
    } else if step.Cancel? {
      CancelKeepsInv(db, step);
    } else {
      assert NextDb(db, step).runs == db.runs;
      hide HasActiveRun;
    }
  }

  /** Each story has at most one queued or running run, and all its runs carry the agent still bound to it. */
  lemma {:induction false} RunKeepsInv(db: Db, steps: seq<Step>)
    requires Inv(db) && forall i :: 0 <= i < |steps| ==> Ticks(steps[i])
    ensures Inv(RunDb(db, steps))
    decreases |steps|
  {
    hide Inv, NextDb, Ticks;
    if steps != [] {
      NextKeepsInv(db, steps[0]);
      assert forall i :: 0 <= i < |steps[1..]| ==> steps[1..][i] == steps[i + 1];
      RunKeepsInv(NextDb(db, steps[0]), steps[1..]);
    }
  }

  // ---- what never changes ------------------------------------------------------------------------------

  /** What a step keeps of the runs that are already there. */
  ghost predicate KeepsRuns(db: Db, db2: Db) {
    && |db.runs| <= |db2.runs|
    && forall i :: 0 <= i < |db.runs| ==>
         && db2.runs[i].storyId == db.runs[i].storyId && db2.runs[i].profileId == db.runs[i].profileId
         && (!Active(db.runs[i]) ==> db2.runs[i] == db.runs[i])
  }

  lemma NextKeepsRuns(db: Db, step: Step)
    ensures KeepsRuns(db, NextDb(db, step))
  {
  }

  /** An ended run never changes again. */
  lemma {:induction false} EndedRunsStay(db: Db, steps: seq<Step>, i: nat)
    requires i < |db.runs| && !Active(db.runs[i])
    ensures i < |RunDb(db, steps).runs| && RunDb(db, steps).runs[i] == db.runs[i]
    decreases |steps|
  {
    hide NextDb;
    if steps != [] {
      NextKeepsRuns(db, steps[0]);
      EndedRunsStay(NextDb(db, steps[0]), steps[1..], i);
    }
  }

  /** As long as a story with runs is there, its agent is the one it had. */
  lemma {:induction false} AgentIsLocked(db: Db, steps: seq<Step>, story: int)
    requires Inv(db) && (forall i :: 0 <= i < |steps| ==> Ticks(steps[i]))
    requires HasRuns(db.runs, story) && story in db.stories && story in RunDb(db, steps).stories
    ensures RunDb(db, steps).stories[story].profile == db.stories[story].profile
  {
    var i :| 0 <= i < |db.runs| && db.runs[i].storyId == story;
    RunKeepsInv(db, steps);
    RunKeepsRuns(db, steps);
    assert RunDb(db, steps).runs[i].profileId == db.runs[i].profileId;
  }

  lemma {:induction false} RunKeepsRuns(db: Db, steps: seq<Step>)
    ensures |db.runs| <= |RunDb(db, steps).runs|
    ensures forall i :: 0 <= i < |db.runs| ==>
              && RunDb(db, steps).runs[i].storyId == db.runs[i].storyId
              && RunDb(db, steps).runs[i].profileId == db.runs[i].profileId
    decreases |steps|
  {
    hide NextDb;
    if steps != [] {
      NextKeepsRuns(db, steps[0]);
      RunKeepsRuns(NextDb(db, steps[0]), steps[1..]);
    }
  }

  // ---- the summary on the story --------------------------------------------------------------------------

  ghost predicate IsNewest(runs: seq<StoryRun>, story: int, i: nat) {
    i < |runs| && runs[i].storyId == story && forall j :: i < j < |runs| ==> runs[j].storyId != story
  }

  /** A story row's latest run id and status are those of the newest run. */
  ghost predicate MirrorsNewest(runs: seq<StoryRun>, row: StoryRow, story: int) {
    && (!HasRuns(runs, story) ==> row.latestRunId == None && row.latestStatus == None)
    && forall i: nat :: IsNewest(runs, story, i) ==>
         row.latestRunId == Some(i + 1) && row.latestStatus == Some(runs[i].status)
  }

  ghost predicate Mirrored(db: Db, story: int)
    requires story in db.stories
  {
    MirrorsNewest(db.runs, db.stories[story], story)
  }

  /** Creating a run leaves the summary in agreement exactly when the session could be registered. */
  lemma MirroredAfterCreateIff(db: Db, story: int, req: Request, outcome: Outcome, started: int, finished: int)
    requires Accepts(db, story, req) && Inv(db)
    ensures Mirrored(CreateRun(db, story, req, outcome, started, finished), story) <==> !outcome.RegistrationFailed?
  {
    var db2 := CreateRun(db, story, req, outcome, started, finished);
    assert IsNewest(db2.runs, story, |db.runs|);
  }

  /** A new run is the newest of its story, and changes nothing for the others. */
  lemma NewestAfterInsert(runs: seq<StoryRun>, r: StoryRun, story: int)
    ensures HasRuns(runs + [r], story) <==> r.storyId == story || HasRuns(runs, story)
    ensures forall i: nat ::
              IsNewest(runs + [r], story, i) <==> if r.storyId == story then i == |runs| else IsNewest(runs, story, i)
  {
    var after := runs + [r];
    assert after[|runs|] == r && forall j :: 0 <= j < |runs| ==> after[j] == runs[j];
    if HasRuns(runs, story) {
      var i :| 0 <= i < |runs| && runs[i].storyId == story;
      assert after[i].storyId == story;
    }
  }

  /** Updating a run in place leaves open which runs are newest. */
  lemma NewestAfterUpdate(runs: seq<StoryRun>, k: nat, r: StoryRun, story: int)
    requires k < |runs| && r.storyId == runs[k].storyId
    ensures HasRuns(runs[k := r], story) <==> HasRuns(runs, story)
    ensures forall i: nat :: IsNewest(runs[k := r], story, i) <==> IsNewest(runs, story, i)
  {
    var after := runs[k := r];
    assert forall j :: 0 <= j < |runs| ==> after[j].storyId == runs[j].storyId;
    if HasRuns(runs, story) {
      var i :| 0 <= i < |runs| && runs[i].storyId == story;
      assert after[i].storyId == story;
    }
  }

  lemma InsertMirrors(runs: seq<StoryRun>, r: StoryRun, row: StoryRow, story: int)
    requires if r.storyId == story then row.latestRunId == Some(|runs| + 1) && row.latestStatus == Some(r.status)
             else MirrorsNewest(runs, row, story)
    ensures MirrorsNewest(runs + [r], row, story)
  {
    NewestAfterInsert(runs, r, story);
    hide HasRuns;
  }

  lemma UpdateMirrors(runs: seq<StoryRun>, k: nat, r: StoryRun, row: StoryRow, story: int)
    requires k < |runs| && r.storyId == runs[k].storyId
    requires if r.storyId == story
             then IsNewest(runs, story, k) && row.latestRunId == Some(k + 1) && row.latestStatus == Some(r.status)
             else MirrorsNewest(runs, row, story)
    ensures MirrorsNewest(runs[k := r], row, story)
  {
    NewestAfterUpdate(runs, k, r, story);
    if r.storyId == story {
      assert forall i: nat :: IsNewest(runs, story, i) ==> i == k;
      assert HasRuns(runs, story);
    }
  }

  lemma CreateMirrors(db: Db, step: Step, story: int)
    requires step.Create? && Accepts(db, step.story, step.req) && !step.outcome.RegistrationFailed?
    requires story in db.stories && Mirrored(db, story)
    ensures Mirrored(NextDb(db, step), story)
  {
    var row := db.stories[step.story];
    var r := FinalRun(NewRun(step.story, row.profile.value), step.outcome, step.started, step.finished);
    FinalRows(NewRun(step.story, row.profile.value), row, |db.runs| + 1, step.outcome, step.started, step.finished);
    hide FinalRun, FinalSummary, RefusalOf, MirrorsNewest;
    InsertMirrors(db.runs, r, NextDb(db, step).stories[story], story);
  }

  lemma CancelMirrors(db: Db, step: Step, story: int)
    requires Inv(db) && step.Cancel? && CancelRefusal(db, step.story, step.runId, step.cancelReq).None?
    requires story in db.stories && Mirrored(db, story)
    ensures Mirrored(NextDb(db, step), story)
  {
    var db2, c := NextDb(db, step), step.runId - 1;
    assert IsNewest(db.runs, step.story, c);
    hide Inv, MirrorsNewest;
    if db2 != db {
      UpdateMirrors(db.runs, c, Ended(db.runs[c], Cancelled, "", step.now), db2.stories[story], story);
    }
  }

  lemma NextMirrors(db: Db, step: Step, story: int)
    requires Inv(db) && (step.Create? ==> !step.outcome.RegistrationFailed?)
    requires story in db.stories ==> Mirrored(db, story)
    requires story in NextDb(db, step).stories
    ensures Mirrored(NextDb(db, step), story)
  {
    if step.Create? && Accepts(db, step.story, step.req) {
      CreateMirrors(db, step, story);
    } else if step.Cancel? && CancelRefusal(db, step.story, step.runId, step.cancelReq).None? {
      CancelMirrors(db, step, story);
    } else {
      assert NextDb(db, step).runs == db.runs;
    }
  }

  /** The empty tables, with which a database starts, satisfy both. */
  lemma EmptyTablesAreInv()
    ensures var db := Db([], map[], 1); Inv(db) && forall s :: s in db.stories ==> Mirrored(db, s)
  {
  }

  /** Without failed registrations every story mirrors its newest run, always. */
  lemma {:induction false} RunMirrors(db: Db, steps: seq<Step>)
    requires Inv(db) && forall s :: s in db.stories ==> Mirrored(db, s)
    requires forall i :: 0 <= i < |steps| ==>
               Ticks(steps[i]) && (steps[i].Create? ==> !steps[i].outcome.RegistrationFailed?)
    ensures forall s :: s in RunDb(db, steps).stories ==> Mirrored(RunDb(db, steps), s)
    decreases |steps|
  {
    hide Inv, NextDb, Mirrored, Ticks;
    if steps != [] {
      var db2 := NextDb(db, steps[0]);
      NextKeepsInv(db, steps[0]);
      forall s | s in db2.stories
        ensures Mirrored(db2, s)
      {
        NextMirrors(db, steps[0], s);
      }
      assert forall i :: 0 <= i < |steps[1..]| ==> steps[1..][i] == steps[i + 1];
      RunMirrors(db2, steps[1..]);
    }
  }

  /** So from the empty tables on: the invariant over every run, and the mirror without failed registrations. */
  lemma FromEmptyTables(steps: seq<Step>)
    requires forall i :: 0 <= i < |steps| ==> Ticks(steps[i])
    ensures var db := RunDb(Db([], map[], 1), steps);
            && Inv(db)
            && ((forall i :: 0 <= i < |steps| && steps[i].Create? ==> !steps[i].outcome.RegistrationFailed?) ==>
                  forall s :: s in db.stories ==> Mirrored(db, s))
  {
    EmptyTablesAreInv();
    RunKeepsInv(Db([], map[], 1), steps);
    if forall i :: 0 <= i < |steps| && steps[i].Create? ==> !steps[i].outcome.RegistrationFailed? {
      RunMirrors(Db([], map[], 1), steps);
    }
  }

  // ---- the handlers on the tables ---------------------------------------------------------------------------

  /** UpdateRunStatus, on the row. */
  function WithStatus(r: StoryRun, status: RunStatus, error: string, finishedAt: int, now: int): StoryRun {
    match status
    case Running => r.(status := Running, startedAt := now)
    case Queued => r.(status := Queued, error := error)
    case _ => Ended(r, status, error, if finishedAt == 0 then now else finishedAt)
  }

  class RunTables {
    var runs: seq<StoryRun>
    var stories: map<int, StoryRow>
    var nextStory: int

    function Now(): Db
      reads this
    {
      Db(runs, stories, nextStory)
    }

    /** registry.CreateRun: a queued row, and its id. */
    method InsertRun(story: int, profile: int) returns (id: int)
      modifies this`runs
      ensures id == |runs| && runs == old(runs) + [NewRun(story, profile)]
    {
      runs := runs + [StoryRun(story, profile, "", "", "", Queued, "", 0, 0)];
      id := |runs|;
    }

    method UpdateRunStatus(id: int, status: RunStatus, error: string, finishedAt: int, now: int)
      modifies this`runs
      ensures runs == if 1 <= id <= |old(runs)|
                      then old(runs)[id - 1 := WithStatus(old(runs)[id - 1], status, error, finishedAt, now)]
                      else old(runs)
    {
      if 1 <= id <= |runs| {
        var r := runs[id - 1];
        match status
        case Running => runs := runs[id - 1 := r.(status := Running, startedAt := now)];
        case Queued => runs := runs[id - 1 := r.(status := Queued, error := error)];
        case _ =>
          var finish := if finishedAt == 0 then now else finishedAt;
          runs := runs[id - 1 := r.(status := status, error := error, finishedAt := finish)];
      }
    }

    method UpdateRunSession(id: int, key: string, agentSessionId: string)
      requires 1 <= id <= |runs|
      modifies this`runs
      ensures runs == old(runs)[id - 1 := old(runs)[id - 1].(sessionKey := key, agentSessionId := agentSessionId)]
    {
      runs := runs[id - 1 := runs[id - 1].(sessionKey := key, agentSessionId := agentSessionId)];
    }

    method UpdateRunExecID(id: int, execId: string)
      requires 1 <= id <= |runs|
      modifies this`runs
      ensures runs == old(runs)[id - 1 := old(runs)[id - 1].(execId := execId)]
    {
      runs := runs[id - 1 := runs[id - 1].(execId := execId)];
    }

    method UpdateStoryRunSummary(story: int, runId: int, key: string, status: RunStatus)
      modifies this`stories
      ensures stories == if story in old(stories)
                         then old(stories)[story := Summary(old(stories)[story], runId, key, status)]
                         else old(stories)
    {
      if story in stories {
        var row := stories[story];
        row := row.(latestRunId := Some(runId), latestSessionKey := key, latestStatus := Some(status));
        stories := stories[story := row];
      }
    }

    /** hasRunningRun: newest first. */
    method HasRunningRun(story: int) returns (found: bool)
      ensures found <==> HasActiveRun(runs, story)
    {
      var i := |runs|;
      while i > 0
        invariant 0 <= i <= |runs|
        invariant forall j :: i <= j < |runs| && runs[j].storyId == story ==> !Active(runs[j])
      {
        i := i - 1;
        if runs[i].storyId == story && (runs[i].status.Running? || runs[i].status.Queued?) {
          return true;
        }
      }
      return false;
    }

    /** handleCreateRun, after its checks: insert, get a session, start. */
    method StartRun(story: int, outcome: Outcome, started: int, finished: int)
      requires story in stories && stories[story].profile.Some?
      modifies this`runs, this`stories
      ensures runs == old(runs)
                      + [FinalRun(NewRun(story, old(stories)[story].profile.value), outcome, started, finished)]
      ensures stories == old(stories)[story := FinalSummary(old(stories)[story], |old(runs)| + 1, outcome)]
    {
      var id := InsertRun(story, stories[story].profile.value);
      match outcome
      case NoAgentManager =>
        UpdateRunStatus(id, Failed, "agent manager not configured", 0, finished);
        UpdateStoryRunSummary(story, id, "", Failed);
      case ResumeFailed(key, error) =>
        UpdateRunStatus(id, Failed, error, 0, finished);
        UpdateStoryRunSummary(story, id, key, Failed);
      case SessionFailed(error) =>
        UpdateRunStatus(id, Failed, error, 0, finished);
        UpdateStoryRunSummary(story, id, "", Failed);
      case RegistrationFailed(error) =>
        UpdateRunStatus(id, Failed, error, 0, finished);
      case StartFailed(key, agentSessionId, error) =>
        MarkRunning(story, id, key, agentSessionId, started);
        UpdateRunStatus(id, Failed, error, 0, finished);
        UpdateStoryRunSummary(story, id, key, Failed);
      case Started(key, agentSessionId, execId) =>
        MarkRunning(story, id, key, agentSessionId, started);
        UpdateRunExecID(id, execId);
    }

    method MarkRunning(story: int, id: int, key: string, agentSessionId: string, started: int)
      requires 1 <= id <= |runs| && story in stories
      modifies this`runs, this`stories
      ensures runs == old(runs)[id - 1 :=
                old(runs)[id - 1].(sessionKey := key, agentSessionId := agentSessionId, status := Running,
                                   startedAt := started)]
      ensures stories == old(stories)[story := Summary(old(stories)[story], id, key, Running)]
    {
      UpdateRunSession(id, key, agentSessionId);
      UpdateRunStatus(id, Running, "", 0, started);
      UpdateStoryRunSummary(story, id, key, Running);
    }

    method HandleCreateRun(story: int, req: Request, outcome: Outcome, started: int, finished: int)
        returns (refusal: Option<Refusal>)
      modifies this`runs, this`stories
      ensures refusal == RefusalOf(old(Now()), story, req)
      ensures AnswersFirst(refusal, CreateChecks(old(Now()), story, req))
      ensures Now() == CreateRun(old(Now()), story, req, outcome, started, finished)
    {
      CreateRefusedForFirst(Now(), story, req);
      hide CreateChecks, AnswersFirst;
      if story !in stories {
        return Some(StoryNotFound);
      }
      if !req.workspaceFound {
        return Some(WorkspaceNotFound);
      }
      if !req.admin {
        return Some(Forbidden);
      }
      if stories[story].closed {
        return Some(StoryClosed);
      }
      if stories[story].profile.None? {
        return Some(NoAgentBound);
      }
      if req.profile.None? {
        return Some(ProfileNotFound);
      }
      if req.profile.value.disabled {
        return Some(ProfileDisabled);
      }
      if !req.runtimeFound {
        return Some(RuntimeNotFound);
      }
      if req.capability.None? || !req.capability.value.available {
        return Some(CapabilityNotAvailable);
      }
      if req.capability.value.unauthenticated {
        return Some(NotAuthenticated);
      }
      var running := HasRunningRun(story);
      if running {
        return Some(AlreadyRunning);
      }
      if !req.bodyReadable {
        return Some(InvalidJson);
      }
      if !req.directoryFound {
        return Some(NoDirectory);
      }
      if !req.userKnown {
        return Some(UserUnknown);
      }
      StartRun(story, outcome, started, finished);
      return None;
    }

    method HandleCancelRun(story: int, runId: int, req: CancelRequest, now: int) returns (refusal: Option<Refusal>)
      modifies this`runs, this`stories
      ensures refusal == CancelRefusal(old(Now()), story, runId, req)
      ensures AnswersFirst(refusal, CancelChecks(old(Now()), story, runId, req))
      ensures Now() == CancelRun(old(Now()), story, runId, req, now)
    {
      CancelRefusedForFirst(Now(), story, runId, req);
      hide CancelChecks, AnswersFirst;
      if story !in stories || !req.workspaceFound {
        return Some(WorkspaceNotFound);
      }
      if !req.admin {
        return Some(Forbidden);
      }
      if runId < 1 || runId > |runs| {
        return Some(RunNotFound);
      }
      var run := runs[runId - 1];
      if run.storyId != story {
        return Some(OtherStory);
      }
      if !run.status.Running? {
        return Some(NotRunning);
      }
      if run.agentSessionId != "" && req.sdkFails {
        return Some(CancelFailed);
      }
      UpdateRunStatus(runId, Cancelled, "", 0, now);
      UpdateStoryRunSummary(story, runId, run.sessionKey, Cancelled);
      return None;
    }

    method StoryHasRuns(story: int) returns (found: bool)
      ensures found <==> HasRuns(runs, story)
    {
      var count := 0;
      for i := 0 to |runs|
        invariant count > 0 <==> HasRuns(runs[..i], story)
      {
        if runs[i].storyId == story {
          count := count + 1;
          assert runs[..i + 1][i].storyId == story;
        }
        assert forall j :: 0 <= j < i ==> runs[..i + 1][j] == runs[..i][j];
      }
      assert runs[..|runs|] == runs;
      return count > 0;
    }

    /** BindAgentToStory: sets the agent, or answers that it is locked. */
    method BindAgentToStory(story: int, profile: int) returns (locked: bool)
      requires story in stories
      modifies this`stories
      ensures var row := old(stories)[story];
              && (locked <==> HasRuns(runs, story) && row.profile.Some? && row.profile != Some(profile))
              && stories == if locked then old(stories) else old(stories)[story := row.(profile := Some(profile))]
    {
      var hasRuns := StoryHasRuns(story);
      if hasRuns {
        var current := stories[story].profile;
        if current.Some? && current.value != profile {
          return true;
        }
      }
      stories := stories[story := stories[story].(profile := Some(profile))];
      return false;
    }

    method HandleBindAgent(story: int, req: BindRequest) returns (refusal: Option<Refusal>)
      modifies this`stories
      ensures refusal == BindRefusal(old(Now()), story, req)
      ensures AnswersFirst(refusal, BindChecks(old(Now()), story, req))
      ensures Now() == BindAgent(old(Now()), story, req)
    {
      BindRefusedForFirst(Now(), story, req);
      hide BindChecks, AnswersFirst;
      if story !in stories {
        return Some(StoryNotFound);
      }
      if !req.workspaceFound {
        return Some(WorkspaceNotFound);
      }
      if !req.admin {
        return Some(Forbidden);
      }
      if req.profileId.None? {
        return Some(InvalidJson);
      }
      if req.profileId.value == 0 {
        return Some(ProfileRequired);
      }
      if req.profile.None? {
        return Some(ProfileNotFound);
      }
      if !req.profile.value.sameWorkspace {
        return Some(OtherWorkspace);
      }
      if req.profile.value.disabled {
        return Some(ProfileDisabled);
      }
      var locked := BindAgentToStory(story, req.profileId.value);
      if locked {
        return Some(AgentLocked);
      }
      return None;
    }
  }
}
