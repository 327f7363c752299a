/** Properties that tie the controller's operations together: what
    `execute` writes is what `getStatus` and `getResults` read back, and
    `getResults` treats as in flight exactly the jobs `getStatus` reports
    as accepted or running. */
module ControllerProperties {
  import opened Optional
  import opened JavaText
  import opened Jobs
  import opened JobState
  import opened ProcessController

  /** The initial state string is the state protocol's encoding of token
      STARTED with progress 0. */
  lemma InitialStateIsEncoded()
    ensures InitialState == Encode(Started, 0)
  {
  }

  /** The initial state string reads back as token STARTED, progress 0. */
  lemma InitialStateDecodes()
    ensures Decode(InitialState) == Some(Reading(Started, 0))
    ensures Token(InitialState) == Some(Started)
  {
    InitialStateIsEncoded();
    DecodeEncode(Started, 0);
    DecodeSpec(InitialState);
  }

  /** Whatever token and progress the Spark side writes into a job's state
      string, `getStatus` reports that progress and the token's status and
      message, and keeps the rest of the stored job. */
  lemma StatusReportsWrittenState(
    store: Store, codec: Codec, process: string, jobId: string,
    token: string, progress: int, stored: Job)
    requires ',' !in token
    requires InIntRange(progress)
    requires StateKey(process, jobId) in store && store[StateKey(process, jobId)] == Encode(token, progress)
    requires JobKey(process, jobId) in store && codec.decode(store[JobKey(process, jobId)]) == ParsedJob(stored)
    ensures GetStatus(store, codec, process, jobId)
            == JobBody(stored.(status := Classify(token).status,
                               message := Classify(token).message,
                               progress := progress))
  {
    DecodeEncode(token, progress);
  }

  /** The cross-cutting invariant of `execute`: with no `response`
      parameter, the state it stores decodes, through `getStatus`, to the
      very job it created (status accepted, message "Process started",
      progress 0, same id, creation time and links), and when the
      submission returns that is the job `execute` answered. This holds
      whenever the created job survives its own serialization. */
  lemma ExecuteThenStatus(
    store: Store, codec: Codec, gdcApiUrl: string, process: string,
    requestJson: string, jobId: string, created: string, submission: Submission)
    requires codec.decode(codec.encode(SubmittedJob(gdcApiUrl, process, jobId, created)))
             == ParsedJob(SubmittedJob(gdcApiUrl, process, jobId, created))
    ensures var out := Execute(store, codec, gdcApiUrl, process, requestJson, None, jobId, created, submission);
            && GetStatus(out.store, codec, process, jobId) == JobBody(SubmittedJob(gdcApiUrl, process, jobId, created))
            && (submission == SubmissionReturned ==> GetStatus(out.store, codec, process, jobId) == out.response)
  {
    var out := Execute(store, codec, gdcApiUrl, process, requestJson, None, jobId, created, submission);
    var job := SubmittedJob(gdcApiUrl, process, jobId, created);
    JobKeysDistinct(process, jobId);
    assert out.store[StateKey(process, jobId)] == InitialState;
    assert codec.decode(out.store[JobKey(process, jobId)]) == ParsedJob(job);
    InitialStateDecodes();
    assert Classify(Started) == Report(Accepted, "Process started");
    assert job.(status := Accepted, message := "Process started", progress := 0) == job;
  }

  /** The status, message and progress `getStatus` reports right after
      `execute` come from the state string alone: whatever job the stored
      record parses to, it is reported as accepted, "Process started",
      progress 0. */
  lemma ExecuteThenStatusReport(
    store: Store, codec: Codec, gdcApiUrl: string, process: string,
    requestJson: string, jobId: string, created: string, submission: Submission)
    requires codec.decode(codec.encode(SubmittedJob(gdcApiUrl, process, jobId, created))).ParsedJob?
    ensures var out := Execute(store, codec, gdcApiUrl, process, requestJson, None, jobId, created, submission);
            var r := GetStatus(out.store, codec, process, jobId);
            && r.JobBody?
            && r.job.status == Accepted && r.job.message == "Process started" && r.job.progress == 0
  {
    var out := Execute(store, codec, gdcApiUrl, process, requestJson, None, jobId, created, submission);
    JobKeysDistinct(process, jobId);
    var job := SubmittedJob(gdcApiUrl, process, jobId, created);
    assert out.store[StateKey(process, jobId)] == InitialState;
    assert out.store[JobKey(process, jobId)] == codec.encode(job);
    InitialStateDecodes();
    var r := GetStatus(out.store, codec, process, jobId);
    assert r.JobBody?;
    assert Report(r.job.status, r.job.message) == Classify(Started) == Report(Accepted, "Process started");
  }

  /** Right after `execute` with no `response` parameter, `getResults`
      says the job is being processed, whatever result file is located and
      however the submission ended. */
  lemma ExecuteThenResults(
    store: Store, codec: Codec, gdcApiUrl: string, process: string, requestJson: string,
    jobId: string, created: string, submission: Submission, located: Option<string>)
    ensures var out := Execute(store, codec, gdcApiUrl, process, requestJson, None, jobId, created, submission);
            GetResults(out.store, process, jobId, located) == Text(200, ProcessingBody(jobId))
  {
    var out := Execute(store, codec, gdcApiUrl, process, requestJson, None, jobId, created, submission);
    JobKeysDistinct(process, jobId);
    assert out.store[StateKey(process, jobId)] == InitialState;
    InitialStateDecodes();
  }

  /** The controller's own writes in `execute` never include a Spark
      application id, so until something else records one, a job it has
      just created cannot be dismissed. */
  lemma ExecuteThenDismiss(
    store: Store, codec: Codec, gdcApiUrl: string, process: string, requestJson: string,
    jobId: string, created: string, submission: Submission, kill: KillOutcome)
    requires SparkAppIdKey(process, jobId) !in store
    ensures var out := Execute(store, codec, gdcApiUrl, process, requestJson, None, jobId, created, submission);
            Dismiss(out.store, codec, process, jobId, kill) == Dismissal(Empty, None)
  {
    JobKeysDistinct(process, jobId);
  }

  /** A successful kill gives the job exactly the status and message that
      `getStatus` reports for any token outside its table, so the two
      handlers agree on what a dismissed job looks like. */
  lemma DismissAgreesWithTable(
    store: Store, codec: Codec, process: string, jobId: string, unknownToken: string)
    requires Dismiss(store, codec, process, jobId, Exited(0)).response.JobBody?
    requires unknownToken !in {Started, Connected, Submitted, RunningToken, Finished, FailedToken}
    ensures var job := Dismiss(store, codec, process, jobId, Exited(0)).response.job;
            Report(job.status, job.message) == Classify(unknownToken)
  {
  }

  /** The tokens `getResults` treats as in flight are exactly those
      `getStatus` reports as accepted or running. */
  lemma InFlightIffActive(token: string)
    ensures IsInFlight(token) <==> Classify(token).status in {Accepted, Running}
  {
  }

  /** Whenever `getStatus` reports a job, `getResults` on the same store
      agrees with it: accepted or running means "being processed",
      successful means a `cube` link or a retrieval error depending on the
      located file, and failed or dismissed means a job error. */
  lemma ResultsAgreeWithStatus(
    store: Store, codec: Codec, process: string, jobId: string, located: Option<string>)
    requires GetStatus(store, codec, process, jobId).JobBody?
    ensures var status := GetStatus(store, codec, process, jobId).job.status;
            var results := GetResults(store, process, jobId, located);
            && (status in {Accepted, Running} <==> results == Text(200, ProcessingBody(jobId)))
            && (status == Successful && located.Some? <==> results.CubeLink?)
            && (status == Successful && located.None? <==> results == Text(500, RetrievalError))
            && (status in {Failed, Dismissed} <==> results == Text(500, JobErrorBody(jobId)))
  {
  }
}
