/**
 * The estimation worker: the per-job state machine and the seeding of a
 * batch's session, over the shared `sessions` table.
 *
 * The collaborators a job calls are given as their outcomes, one
 * `JobEnvironment` per job: building the LLM provider, generating the BA
 * notes (which fetches the page), writing the output files, and generating
 * the PERT sheet. A `Failure` carries the text of the exception raised.
 * Whether the Confluence configuration can be parsed follows from the
 * Atlassian URL (`ConfigRejectedIff`). Every broadcast is recorded,
 * in order, in `outbox`; what the registry then does with it is
 * `WebSocketManager.Broadcast`.
 */
module Worker {
  import opened Wrappers
  import opened Models
  import opened Utils
  import opened ConfluenceClient

  /** The outcome of a step that may raise: `Failure` holds `str(e)`. */
  type Outcome<T> = Result<T, string>

  /** What BA generation returns: the page title, the page as Markdown, and the notes. */
  datatype BaDraft = BaDraft(title: string, pageMarkdown: string, baNotes: string)

  /** The outcomes of the collaborators one job calls, in the order it calls them. */
  datatype JobEnvironment = JobEnvironment(
    provider: Outcome<()>,
    atlassianUrl: Url,
    atlassianEmail: string,
    atlassianToken: string,
    baGeneration: Outcome<BaDraft>,
    baFilesWritten: Outcome<()>,
    pertGeneration: Outcome<string>,
    pertFileWritten: Outcome<()>)

  const FetchingProgress := "Fetching content from Confluence/Jira"
  const BaProgress := "Generating BA estimation notes"
  const PertProgress := "Generating PERT estimation"
  const CompletedProgress := "Completed"
  const FailedProgress := "Failed"
  const ConfigErrorMessage := "ATLASSIAN_URL must be a full URL"

  /**
   * Whether `parse_confluence_config` raises for the job's settings: exactly
   * when the Atlassian URL lacks a scheme or a network location
   * (`ConfigRejectedIff`). The configuration itself only feeds BA generation,
   * whose outcome is given.
   */
  predicate ConfigRejected(env: JobEnvironment)
  {
    env.atlassianUrl.scheme == "" || env.atlassianUrl.netloc == ""
  }

  lemma ConfigRejectedIff(env: JobEnvironment)
    ensures ConfigRejected(env) <==> ParseConfluenceConfig(env.atlassianUrl, env.atlassianEmail, env.atlassianToken).Failure?
  {
  }

  /** The `except` branch: the result marked failed with the exception's text, all else kept. */
  function MarkFailed(r: EstimationResult, message: string): (f: EstimationResult)
    ensures f.status == Failed && f.error == Some(message) && f.progress == Some(FailedProgress)
    ensures f.name == r.name && f.manWeeks == r.manWeeks && f.tshirtSize == r.tshirtSize
    ensures f.baNotesAvailable == r.baNotesAvailable && f.pertAvailable == r.pertAvailable
  {
    r.(status := Failed, error := Some(message), progress := Some(FailedProgress))
  }

  /** `if man_weeks:` — a parsed estimate that is neither missing nor zero. */
  predicate TruthyWeeks(w: Option<real>)
  {
    w.Some? && w.value != 0.0
  }

  /** The estimate and size recorded once the PERT sheet is written: both from a truthy parse, else neither. */
  function WithEstimate(r: EstimationResult, pertSheet: string): (e: EstimationResult)
    ensures TruthyWeeks(ParseManWeeks(pertSheet)) ==>
              e.manWeeks == ParseManWeeks(pertSheet) && e.tshirtSize == Some(TShirtSizeFor(e.manWeeks.value))
    ensures !TruthyWeeks(ParseManWeeks(pertSheet)) ==> e == r
    ensures e.(manWeeks := r.manWeeks, tshirtSize := r.tshirtSize) == r
  {
    var w := ParseManWeeks(pertSheet);
    if TruthyWeeks(w) then r.(manWeeks := w, tshirtSize := Some(TShirtSizeFor(w.value))) else r
  }

  /**
   * The results a job stores in its slot, in order; each store is followed by
   * a broadcast. The last one is what the job returns.
   */
  function JobSteps(name: string, env: JobEnvironment): (steps: seq<EstimationResult>)
    ensures 2 <= |steps| <= 4
  {
    var fetching := NewResult(name, Pending).(status := Fetching, progress := Some(FetchingProgress));
    if env.provider.Failure? then [fetching, MarkFailed(fetching, env.provider.error)]
    else if ConfigRejected(env) then
      [fetching, MarkFailed(fetching, ConfigErrorMessage)]
    else
      var ba := fetching.(status := BaGeneration, progress := Some(BaProgress));
      if env.baGeneration.Failure? then [fetching, ba, MarkFailed(ba, env.baGeneration.error)]
      else if env.baFilesWritten.Failure? then [fetching, ba, MarkFailed(ba, env.baFilesWritten.error)]
      else
        var pert := ba.(baNotesAvailable := true, status := PertGeneration, progress := Some(PertProgress));
        if env.pertGeneration.Failure? then [fetching, ba, pert, MarkFailed(pert, env.pertGeneration.error)]
        else if env.pertFileWritten.Failure? then [fetching, ba, pert, MarkFailed(pert, env.pertFileWritten.error)]
        else
          var done := WithEstimate(pert, env.pertGeneration.value)
                        .(pertAvailable := true, status := Completed, progress := Some(CompletedProgress));
          [fetching, ba, pert, done]
  }

  /** What the job returns: its last stored result. */
  function JobResult(name: string, env: JobEnvironment): EstimationResult
  {
    var steps := JobSteps(name, env);
    steps[|steps| - 1]
  }

  /** Every collaborator succeeds and the Atlassian URL is a full URL. */
  predicate AllSucceed(env: JobEnvironment)
  {
    env.provider.Success? && !ConfigRejected(env)
    && env.baGeneration.Success? && env.baFilesWritten.Success?
    && env.pertGeneration.Success? && env.pertFileWritten.Success?
  }

  /** The text of the first exception the job meets, if any. */
  function FirstError(env: JobEnvironment): (e: Option<string>)
    ensures e.None? <==> AllSucceed(env)
  {
    if env.provider.Failure? then Some(env.provider.error)
    else if ConfigRejected(env) then Some(ConfigErrorMessage)
    else if env.baGeneration.Failure? then Some(env.baGeneration.error)
    else if env.baFilesWritten.Failure? then Some(env.baFilesWritten.error)
    else if env.pertGeneration.Failure? then Some(env.pertGeneration.error)
    else if env.pertFileWritten.Failure? then Some(env.pertFileWritten.error)
    else None
  }

  function Statuses(steps: seq<EstimationResult>): (ss: seq<EstimationStatus>)
    ensures |ss| == |steps| && forall k :: 0 <= k < |steps| ==> ss[k] == steps[k].status
  {
    seq(|steps|, k requires 0 <= k < |steps| => steps[k].status)
  }

  /**
   * On the success path the job stores FETCHING, BA_GENERATION,
   * PERT_GENERATION and COMPLETED, in that order, with both files reported
   * available at the end and no error.
   */
  lemma SuccessPath(name: string, env: JobEnvironment)
    requires AllSucceed(env)
    ensures Statuses(JobSteps(name, env)) == [Fetching, BaGeneration, PertGeneration, Completed]
    ensures var r := JobResult(name, env);
            r.name == name && r.progress == Some(CompletedProgress) && r.error.None?
            && r.baNotesAvailable && r.pertAvailable
  {
    var steps := JobSteps(name, env);
    assert |steps| == 4;
  }

  /**
   * Any exception ends the job FAILED with its text as the error and progress
   * "Failed"; the flags and estimate stay as the previous step left them.
   */
  lemma FailurePath(name: string, env: JobEnvironment)
    requires !AllSucceed(env)
    ensures var steps := JobSteps(name, env);
            var r := steps[|steps| - 1];
            var before := steps[|steps| - 2];
            r == MarkFailed(before, FirstError(env).value)
            && before.status != Completed && !before.pertAvailable && before.manWeeks.None?
            && Statuses(steps[..|steps| - 1]) == [Fetching, BaGeneration, PertGeneration][..|steps| - 1]
  {
    var steps := JobSteps(name, env);
    assert Statuses(steps[..|steps| - 1]) == [Fetching, BaGeneration, PertGeneration][..|steps| - 1];
  }

  /** The job always ends in COMPLETED or FAILED, and COMPLETED exactly when nothing raised. */
  lemma JobEndsTerminal(name: string, env: JobEnvironment)
    ensures JobResult(name, env).status.IsTerminal()
    ensures JobResult(name, env).status == Completed <==> AllSucceed(env)
    ensures JobResult(name, env).name == name
  {
  }

  /**
   * `ba_notes_available` is set only once the BA files are written, and
   * `pert_available` only once the PERT sheet is written, in every stored result.
   */
  lemma FlagsFollowWrites(name: string, env: JobEnvironment)
    ensures forall k :: 0 <= k < |JobSteps(name, env)| && JobSteps(name, env)[k].baNotesAvailable ==>
              env.baGeneration.Success? && env.baFilesWritten.Success? && k >= 2
    ensures forall k :: 0 <= k < |JobSteps(name, env)| && JobSteps(name, env)[k].pertAvailable ==>
              AllSucceed(env) && k == 3 && JobSteps(name, env)[k].status == Completed
  {
  }

  /**
   * The estimate and the size are set together and only from a truthy parse,
   * the size being the classification of the estimate; the size is never
   * set without the estimate.
   */
  lemma EstimateAndSizeTogether(name: string, env: JobEnvironment)
    ensures forall k :: 0 <= k < |JobSteps(name, env)| ==>
              (JobSteps(name, env)[k].manWeeks.Some? <==> JobSteps(name, env)[k].tshirtSize.Some?)
    ensures var r := JobResult(name, env);
            r.manWeeks.Some? ==> AllSucceed(env) && TruthyWeeks(ParseManWeeks(env.pertGeneration.value))
                                 && r.manWeeks == ParseManWeeks(env.pertGeneration.value)
                                 && r.tshirtSize == Some(TShirtSizeFor(r.manWeeks.value))
    ensures AllSucceed(env) ==>
              (JobResult(name, env).manWeeks.Some? <==> TruthyWeeks(ParseManWeeks(env.pertGeneration.value)))
  {
  }

  /** A sheet with no week figure at all still completes, with no estimate and no size. */
  lemma CompletedWithoutEstimate(name: string, env: JobEnvironment)
    requires AllSucceed(env) && env.pertGeneration.value == ""
    ensures JobResult(name, env).status == Completed
    ensures JobResult(name, env).manWeeks.None? && JobResult(name, env).tshirtSize.None?
  {
    EmptySheetHasNoEstimate();
  }

  lemma EmptySheetHasNoEstimate()
    ensures ParseManWeeks("") == None
  {
    ParseManWeeksNone("");
    NoMatchInEmpty(TotalPattern);
    NoMatchInEmpty(ExpectedPattern);
    NoMatchInEmpty(TrailingTotalPattern);
  }

  lemma NoMatchInEmpty(pat: WeeksPattern)
    ensures FindAll(pat, "", 0) == []
  {
    assert MatchAt(pat, "", 0).None?;
    assert FindAll(pat, "", 1) == [];
  }

  /** A slot list with slot `index` replaced by each step in turn, as each store leaves it. */
  function Snapshots(sessionId: string, slots: seq<EstimationResult>, index: nat, steps: seq<EstimationResult>): (ms: seq<WebSocketMessage>)
    requires index < |slots|
    ensures |ms| == |steps|
    ensures forall k :: 0 <= k < |steps| ==> ms[k].sessionId == sessionId && ms[k].results == slots[index := steps[k]]
  {
    seq(|steps|, k requires 0 <= k < |steps| => WebSocketMessage(sessionId, slots[index := steps[k]]))
  }

  /** The seeded session: one PENDING result per request, in request order. */
  function PendingResults(requests: seq<EstimationRequest>): (rs: seq<EstimationResult>)
    ensures |rs| == |requests|
    ensures forall i :: 0 <= i < |requests| ==> rs[i] == NewResult(requests[i].name, Pending)
  {
    seq(|requests|, i requires 0 <= i < |requests| => NewResult(requests[i].name, Pending))
  }

  /** The session once every job of the batch has finished. */
  function FinalResults(requests: seq<EstimationRequest>, envs: seq<JobEnvironment>): (rs: seq<EstimationResult>)
    requires |envs| == |requests|
    ensures |rs| == |requests|
    ensures forall i :: 0 <= i < |requests| ==> rs[i] == JobResult(requests[i].name, envs[i])
  {
    seq(|requests|, i requires 0 <= i < |requests| => JobResult(requests[i].name, envs[i]))
  }

  /** Every job of a finished batch is COMPLETED or FAILED under its own name, in request order. */
  lemma BatchEndsTerminal(requests: seq<EstimationRequest>, envs: seq<JobEnvironment>)
    requires |envs| == |requests|
    ensures forall i :: 0 <= i < |requests| ==>
              FinalResults(requests, envs)[i].status.IsTerminal() && FinalResults(requests, envs)[i].name == requests[i].name
  {
    forall i | 0 <= i < |requests|
      ensures FinalResults(requests, envs)[i].status.IsTerminal() && FinalResults(requests, envs)[i].name == requests[i].name
    {
      JobEndsTerminal(requests[i].name, envs[i]);
    }
  }

  /** The worker's shared state: the sessions table and the broadcasts sent so far. */
  class EstimationWorker {
    var sessions: map<string, seq<EstimationResult>>
    var outbox: seq<WebSocketMessage>

    constructor()
      ensures sessions == map[] && outbox == []
    {
      sessions := map[];
      outbox := [];
    }

    /**
     * The state a job has produced so far: slot `index` of the session it
     * started from holds the last result stored, and one broadcast per store
     * follows the outbox it started from.
     */
    ghost predicate Tracks(base: map<string, seq<EstimationResult>>, baseOutbox: seq<WebSocketMessage>,
                           sessionId: string, index: nat, stored: seq<EstimationResult>)
      reads this
    {
      sessionId in base && index < |base[sessionId]|
      && sessions == (if stored == [] then base else base[sessionId := base[sessionId][index := stored[|stored| - 1]]])
      && outbox == baseOutbox + Snapshots(sessionId, base[sessionId], index, stored)
    }

    /** `sessions[session_id][index] = result`, then broadcast the session's list. */
    method Store(sessionId: string, index: nat, result: EstimationResult,
                 ghost base: map<string, seq<EstimationResult>>, ghost baseOutbox: seq<WebSocketMessage>,
                 ghost stored: seq<EstimationResult>)
      requires Tracks(base, baseOutbox, sessionId, index, stored)
      modifies this
      ensures Tracks(base, baseOutbox, sessionId, index, stored + [result])
    {
      sessions := sessions[sessionId := sessions[sessionId][index := result]];
      outbox := outbox + [WebSocketMessage(sessionId, sessions[sessionId])];
      assert sessions[sessionId] == base[sessionId][index := result];
      assert Snapshots(sessionId, base[sessionId], index, stored + [result])
          == Snapshots(sessionId, base[sessionId], index, stored) + [WebSocketMessage(sessionId, base[sessionId][index := result])];
    }

    /**
     * `process_single_estimation`: walk the job through its states, storing
     * and broadcasting after each, and return the final result. Only slot
     * `index` of the session changes.
     */
    method ProcessSingleEstimation(request: EstimationRequest, env: JobEnvironment, sessionId: string, index: nat)
      returns (result: EstimationResult)
      requires sessionId in sessions && index < |sessions[sessionId]|
      modifies this
      ensures result == JobResult(request.name, env)
      ensures sessions == old(sessions)[sessionId := old(sessions)[sessionId][index := result]]
      ensures outbox == old(outbox) + Snapshots(sessionId, old(sessions)[sessionId], index, JobSteps(request.name, env))
    {
      ghost var base := sessions;
      ghost var baseOutbox := outbox;
      ghost var stored: seq<EstimationResult> := [];
      assert Snapshots(sessionId, base[sessionId], index, stored) == [];
      result := NewResult(request.name, Pending);
      var error: Option<string> := None;

      result := result.(status := Fetching, progress := Some(FetchingProgress));
      Store(sessionId, index, result, base, baseOutbox, stored);
      stored := stored + [result];

      if env.provider.Failure? {
        error := Some(env.provider.error);
        assert JobSteps(request.name, env) == stored + [MarkFailed(result, error.value)];
      } else if ConfigRejected(env) {
        error := Some(ConfigErrorMessage);
        assert JobSteps(request.name, env) == stored + [MarkFailed(result, error.value)];
      } else {
        result := result.(status := BaGeneration, progress := Some(BaProgress));
        Store(sessionId, index, result, base, baseOutbox, stored);
        stored := stored + [result];

        if env.baGeneration.Failure? {
          error := Some(env.baGeneration.error);
          assert JobSteps(request.name, env) == stored + [MarkFailed(result, error.value)];
        } else if env.baFilesWritten.Failure? {
          error := Some(env.baFilesWritten.error);
          assert JobSteps(request.name, env) == stored + [MarkFailed(result, error.value)];
        } else {
          result := result.(baNotesAvailable := true);
          result := result.(status := PertGeneration, progress := Some(PertProgress));
          Store(sessionId, index, result, base, baseOutbox, stored);
          stored := stored + [result];

          if env.pertGeneration.Failure? {
            error := Some(env.pertGeneration.error);
            assert JobSteps(request.name, env) == stored + [MarkFailed(result, error.value)];
          } else if env.pertFileWritten.Failure? {
            error := Some(env.pertFileWritten.error);
            assert JobSteps(request.name, env) == stored + [MarkFailed(result, error.value)];
          } else {
            var manWeeks := ParseManWeeks(env.pertGeneration.value);
            if TruthyWeeks(manWeeks) {
              result := result.(manWeeks := manWeeks);
              result := result.(tshirtSize := Some(TShirtSizeFor(manWeeks.value)));
            }
            result := result.(pertAvailable := true);
            result := result.(status := Completed, progress := Some(CompletedProgress));
            Store(sessionId, index, result, base, baseOutbox, stored);
            stored := stored + [result];
            assert stored == JobSteps(request.name, env);
          }
        }
      }

      if error.Some? {
        result := result.(status := Failed, error := error, progress := Some(FailedProgress));
        Store(sessionId, index, result, base, baseOutbox, stored);
        stored := stored + [result];
        assert stored == JobSteps(request.name, env);
      }
    }

    /** `process_batch` up to the jobs: seed the session with PENDING results and broadcast it. */
    method SeedSession(sessionId: string, requests: seq<EstimationRequest>)
      modifies this
      ensures sessions == old(sessions)[sessionId := PendingResults(requests)]
      ensures outbox == old(outbox) + [WebSocketMessage(sessionId, PendingResults(requests))]
    {
      sessions := sessions[sessionId := PendingResults(requests)];
      outbox := outbox + [WebSocketMessage(sessionId, sessions[sessionId])];
    }

    /**
     * `process_batch`: seed the session, broadcast it, then run every job.
     * The jobs run one after another here; each writes only its own slot, so
     * the final session does not depend on how they interleave.
     */
    method ProcessBatch(sessionId: string, requests: seq<EstimationRequest>, envs: seq<JobEnvironment>)
      requires |envs| == |requests|
      modifies this
      ensures sessions == old(sessions)[sessionId := FinalResults(requests, envs)]
      ensures |outbox| > |old(outbox)| && outbox[..|old(outbox)| + 1] == old(outbox) + [WebSocketMessage(sessionId, PendingResults(requests))]
    {
      SeedSession(sessionId, requests);
      ghost var seeded := outbox;
      var i := 0;
      while i < |requests|
        invariant 0 <= i <= |requests|
        invariant sessionId in sessions && |sessions[sessionId]| == |requests|
        invariant sessions == old(sessions)[sessionId := sessions[sessionId]]
        invariant forall k :: 0 <= k < i ==> sessions[sessionId][k] == JobResult(requests[k].name, envs[k])
        invariant forall k :: i <= k < |requests| ==> sessions[sessionId][k] == NewResult(requests[k].name, Pending)
        invariant |outbox| >= |seeded| && outbox[..|seeded|] == seeded
      {
        ghost var before := outbox;
        var _ := ProcessSingleEstimation(requests[i], envs[i], sessionId, i);
        assert outbox[..|seeded|] == before[..|seeded|];
        i := i + 1;
      }
      assert sessions[sessionId] == FinalResults(requests, envs);
      assert outbox[..|old(outbox)| + 1] == seeded[..|old(outbox)| + 1];
    }
  }
}
