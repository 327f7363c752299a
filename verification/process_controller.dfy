/** The decision logic of the GDC process controller: what `execute`,
    `getStatus`, `getResults`, `dismiss` and the process-description lookup
    answer, and what `execute` writes to the key-value store. The store is a
    map from keys to strings; TTLs, the Spark/Livy submission, UUIDs, clocks,
    the file system and the `curl` subprocess are left to the caller, which
    passes in the values they would have produced. */
module ProcessController {
  import opened Optional
  import opened JavaText
  import opened Jobs
  import opened JobState

  /** The Redis store as the controller sees it. */
  type Store = map<string, string>

  /** Key of a job's state string. */
  function StateKey(process: string, jobId: string): string {
    process + "_" + jobId + "_state"
  }

  /** Key of a job's serialized record. */
  function JobKey(process: string, jobId: string): string {
    process + "_" + jobId
  }

  /** Key of the Spark application id recorded for a job. */
  function SparkAppIdKey(process: string, jobId: string): string {
    process + "_" + jobId + "_sparkAppId"
  }

  /** Key under which a collection-mode request is parked. */
  function TempKey(jobId: string): string {
    "temp_" + jobId
  }

  /** The state and the record of one job never share a key. */
  lemma JobKeysDistinct(process: string, jobId: string)
    ensures StateKey(process, jobId) != JobKey(process, jobId)
    ensures SparkAppIdKey(process, jobId) != JobKey(process, jobId)
    ensures SparkAppIdKey(process, jobId) != StateKey(process, jobId)
  {
  }

  /** What parsing a stored job record gives: an exception, a null
      reference (fastjson answers null for texts such as `"null"` or `""`),
      or a job. */
  datatype Parsed = ParseError | NullJob | ParsedJob(job: Job)

  /** The JSON serialization of a `Job`, which the model treats as opaque. */
  datatype Codec = Codec(encode: Job -> string, decode: string -> Parsed)

  /** An HTTP answer of the controller. `Uncaught` is an exception that
      leaves the handler (Spring answers it with a 500); `Empty` is a
      handler returning null. */
  datatype Response =
    | Text(code: int, body: string)
    | JobBody(job: Job)
    | Redirect(location: string)
    | CubeLink(href: string, mediaType: string)
    | Empty
    | Uncaught
  {
    function Code(): int {
      match this
      case Text(code, _) => code
      case JobBody(_) => 200
      case Redirect(_) => 302
      case CubeLink(_, _) => 200
      case Empty => 200
      case Uncaught => 500
    }
  }

  /** A response together with the store it leaves behind. */
  datatype Outcome = Outcome(response: Response, store: Store)

  /* ---------------------------------------------------------------------
     execute
     --------------------------------------------------------------------- */

  /** The state string a freshly submitted job starts with. */
  const InitialState := "STARTED,0%"

  const IllegalResponse := "Illegal parameter 'response'!"

  predicate EndsWith(s: string, suffix: string) {
    |suffix| <= |s| && s[|s| - |suffix|..] == suffix
  }

  /** How handing the job to the Spark/Livy submission service ended: it
      returned, or it threw out of the handler. */
  datatype Submission = SubmissionReturned | SubmissionThrew

  /** The job record `execute` creates for a fresh job id. */
  function SubmittedJob(gdcApiUrl: string, process: string, jobId: string, created: string): Job {
    Job(jobId, Accepted, "Process started", 0, created,
        [Link(gdcApiUrl + "/processes/" + process + "/jobs/" + jobId,
              "self", "application/json", process)])
  }

  /** `execute`. `jobId` is the fresh UUID, `created` the formatted current
      time, `gdcApiUrl` the configured API root, `requestJson` the
      serialized request body and `submission` how the hand-off to the
      submission service ended. With no `response` parameter the job's
      state and record are stored first and the job is then answered,
      unless the submission throws, in which case the writes stay and the
      handler fails; with `response=collection` the request is parked under
      `temp_<jobId>` and the client is redirected to that collection; any
      other value is refused and nothing is stored. */
  function Execute(
    store: Store, codec: Codec, gdcApiUrl: string, process: string,
    requestJson: string, response: Option<string>, jobId: string, created: string,
    submission: Submission
  ): (r: Outcome)
    ensures response.None? ==>
      && var job := SubmittedJob(gdcApiUrl, process, jobId, created);
      && job.jobID == jobId && job.created == created
      && job.status == Accepted && job.message == MessageOf(Accepted) && job.progress == 0
      && job.links == [Link(gdcApiUrl + "/processes/" + process + "/jobs/" + jobId,
                            "self", "application/json", process)]
      && r.store == store[StateKey(process, jobId) := InitialState]
                         [JobKey(process, jobId) := codec.encode(job)]
      && (submission == SubmissionReturned ==> r.response == JobBody(job) && r.response.Code() == 200)
      && (submission == SubmissionThrew ==> r.response == Uncaught && r.response.Code() == 500)
    ensures response == Some("collection") ==>
      && r.response.Redirect?
      && r.response.Code() == 302
      && r.response.location == gdcApiUrl + "/collections/temp_" + jobId
      && EndsWith(r.response.location, "/collections/temp_" + jobId)
      && r.store == store[TempKey(jobId) := requestJson]
    ensures response.Some? && response.value != "collection" ==>
      r == Outcome(Text(500, IllegalResponse), store)
  {
    match response
    case None =>
      var job := SubmittedJob(gdcApiUrl, process, jobId, created);
      var stored := store[StateKey(process, jobId) := InitialState]
                         [JobKey(process, jobId) := codec.encode(job)];
      if submission == SubmissionReturned then Outcome(JobBody(job), stored)
      else Outcome(Uncaught, stored)
    case Some(mode) =>
      if mode == "collection" then
        var location := gdcApiUrl + "/collections/" + TempKey(jobId);
        assert location[|location| - |"/collections/temp_" + jobId|..] == "/collections/temp_" + jobId;
        Outcome(Redirect(location), store[TempKey(jobId) := requestJson])
      else
        Outcome(Text(500, IllegalResponse), store)
  }

  /* ---------------------------------------------------------------------
     getStatus
     --------------------------------------------------------------------- */

  /** The body of the answer for a job whose entries have expired (the
      missing space is the source's). */
  function TimeoutBody(jobId: string): string {
    jobId + "has been timeout"
  }

  /** `getStatus`: the stored job with its status, message and progress
      re-derived from the state string; nothing else of the job changes.
      Either entry missing gives the timeout answer; a state string that
      cannot be read, or a job record that fails to parse or parses to null,
      makes the handler throw. */
  function GetStatus(store: Store, codec: Codec, process: string, jobId: string): (r: Response)
    ensures (StateKey(process, jobId) !in store || JobKey(process, jobId) !in store)
            <==> r == Text(500, TimeoutBody(jobId))
    ensures r.Text? || r.JobBody? || r.Uncaught?
    ensures r.Uncaught? <==>
      && StateKey(process, jobId) in store && JobKey(process, jobId) in store
      && (Decode(store[StateKey(process, jobId)]).None? || !codec.decode(store[JobKey(process, jobId)]).ParsedJob?)
    ensures (&& StateKey(process, jobId) in store && JobKey(process, jobId) in store
             && Decode(store[StateKey(process, jobId)]).Some?
             && codec.decode(store[JobKey(process, jobId)]).ParsedJob?)
            ==> r.JobBody?
    ensures r.JobBody? ==>
      && StateKey(process, jobId) in store && JobKey(process, jobId) in store
      && Decode(store[StateKey(process, jobId)]).Some?
      && codec.decode(store[JobKey(process, jobId)]).ParsedJob?
      && var stored := codec.decode(store[JobKey(process, jobId)]).job;
      && var reading := Decode(store[StateKey(process, jobId)]).value;
      && r.job.jobID == stored.jobID
      && r.job.created == stored.created
      && r.job.links == stored.links
      && Report(r.job.status, r.job.message) == Classify(reading.token)
      && r.job.progress == reading.progress
  {
    var stateKey, jobKey := StateKey(process, jobId), JobKey(process, jobId);
    if stateKey !in store || jobKey !in store then
      Text(500, TimeoutBody(jobId))
    else
      match (Decode(store[stateKey]), codec.decode(store[jobKey]))
      case (Some(reading), ParsedJob(job)) =>
        var report := Classify(reading.token);
        JobBody(job.(status := report.status, message := report.message, progress := reading.progress))
      case _ => Uncaught
  }

  /* ---------------------------------------------------------------------
     getResults
     --------------------------------------------------------------------- */

  /** Tokens for which `getResults` answers that the job is still running. */
  predicate IsInFlight(token: string) {
    token == Started || token == Connected || token == Submitted || token == RunningToken
  }

  const ResultHost := "http://oge.whu.edu.cn/api/oge-data/data/gdc_api/"
  const GeoTiff := "application/tiff; application=geotiff"
  const RetentionExceeded := "The maximum retention period has been exceeded."
  const RetrievalError := "An error occurred  retrieving data"

  function ProcessingBody(jobId: string): string {
    jobId + " is being processed"
  }

  function JobErrorBody(jobId: string): string {
    "An error occurred during job " + jobId + " processing"
  }

  /** The answer of `getResults` once the state token is known: an
      in-flight token says the job is being processed; FINISHED gives a
      `cube` link to the located file, or an error when none was found;
      every other token is a job error. */
  function ResultFor(token: string, jobId: string, located: Option<string>): (r: Response)
    ensures IsInFlight(token) <==> r == Text(200, ProcessingBody(jobId))
    ensures token == Finished && located.Some? <==> r.CubeLink?
    ensures token == Finished && located.None? <==> r == Text(500, RetrievalError)
    ensures !IsInFlight(token) && token != Finished <==> r == Text(500, JobErrorBody(jobId))
    ensures r.CubeLink? ==>
      && located.Some?
      && EndsWith(r.href, jobId + "/" + located.value)
      && r.mediaType == GeoTiff
    ensures r.Code() == 200 <==> r == Text(200, ProcessingBody(jobId)) || r.CubeLink?
    ensures r.Text? || r.CubeLink?
    ensures r != Text(500, RetentionExceeded)
  {
    assert |RetrievalError| < |JobErrorBody(jobId)|;
    assert JobErrorBody(jobId)[|JobErrorBody(jobId)| - 1] == 'g';
    assert RetrievalError[|RetrievalError| - 1] == 'a';
    assert RetentionExceeded[|RetentionExceeded| - 1] == '.';
    if IsInFlight(token) then
      Text(200, ProcessingBody(jobId))
    else if token == Finished then
      match located
      case Some(name) =>
        var href := ResultHost + jobId + "/" + name;
        assert href[|href| - |jobId + "/" + name|..] == jobId + "/" + name;
        CubeLink(href, GeoTiff)
      case None => Text(500, RetrievalError)
    else
      Text(500, JobErrorBody(jobId))
  }

  /** `getResults`. `located` is the name of the result file found in the
      job's output directory, if any. A missing state is a retention error;
      a state made of commas only makes the token lookup throw; otherwise
      the token decides the answer as `ResultFor` describes. */
  function GetResults(store: Store, process: string, jobId: string, located: Option<string>): (r: Response)
    ensures StateKey(process, jobId) !in store <==> r == Text(500, RetentionExceeded)
    ensures r.Uncaught? <==> StateKey(process, jobId) in store && OnlyCommas(store[StateKey(process, jobId)])
    ensures StateKey(process, jobId) in store && Token(store[StateKey(process, jobId)]).Some? ==>
      r == ResultFor(Token(store[StateKey(process, jobId)]).value, jobId, located)
  {
    var stateKey := StateKey(process, jobId);
    if stateKey !in store then
      Text(500, RetentionExceeded)
    else
      match Token(store[stateKey])
      case None => Uncaught
      case Some(token) => ResultFor(token, jobId, located)
  }

  /* ---------------------------------------------------------------------
     dismiss
     --------------------------------------------------------------------- */

  /** How the kill subprocess ended: with an exit code, or with an
      IOException or InterruptedException that the handler swallows. */
  datatype KillOutcome = Exited(code: int) | Interrupted

  /** What `dismiss` answers, and the kill command it hands to
      `Runtime.exec`, if any. */
  datatype Dismissal = Dismissal(response: Response, killCommand: Option<string>)

  /** The command that asks the Spark master to kill an application. */
  function KillCommand(sparkAppId: string): string {
    "curl -X POST \"http://125.220.153.26:9090/app/kill/?id=" + sparkAppId + "&terminate=true\""
  }

  /** True when both entries `dismiss` needs are in the store. */
  predicate Dismissable(store: Store, process: string, jobId: string) {
    SparkAppIdKey(process, jobId) in store && JobKey(process, jobId) in store
  }

  /** `dismiss`. Without both the Spark application id and the job record
      it answers null and kills nothing. A record that fails to parse throws
      before the kill. Otherwise the kill command for that application id
      is issued and the stored job is returned: marked dismissed on exit
      code 0, with only its message changed on any other exit code, and
      unchanged when the subprocess call throws. A record that parsed to
      null still gets the kill, after which setting its message throws, or,
      when the subprocess call threw, null is returned. The job is not
      written back, so the store is left as it was. */
  function Dismiss(store: Store, codec: Codec, process: string, jobId: string, kill: KillOutcome): (r: Dismissal)
    ensures !Dismissable(store, process, jobId) ==> r == Dismissal(Empty, None)
    ensures r.killCommand.Some? <==>
      Dismissable(store, process, jobId) && !codec.decode(store[JobKey(process, jobId)]).ParseError?
    ensures r.killCommand.Some? ==>
      r.killCommand.value == KillCommand(store[SparkAppIdKey(process, jobId)])
    ensures r.response.Uncaught? <==>
      && Dismissable(store, process, jobId)
      && var parsed := codec.decode(store[JobKey(process, jobId)]);
      && (parsed.ParseError? || (parsed.NullJob? && kill.Exited?))
    ensures (Dismissable(store, process, jobId) && codec.decode(store[JobKey(process, jobId)]).NullJob?
             && kill == Interrupted) ==> r.response == Empty
    ensures (Dismissable(store, process, jobId) && codec.decode(store[JobKey(process, jobId)]).ParsedJob?)
            ==> r.response.JobBody?
    ensures r.response.JobBody? ==>
      && JobKey(process, jobId) in store
      && codec.decode(store[JobKey(process, jobId)]).ParsedJob?
      && var stored := codec.decode(store[JobKey(process, jobId)]).job;
      && (kill == Exited(0) ==> r.response.job == stored.(status := Dismissed, message := "Process dismissed"))
      && (kill.Exited? && kill.code != 0 ==>
            r.response.job == stored.(message := "Fail to dismiss the process")
            && r.response.job.status == stored.status)
      && (kill == Interrupted ==> r.response.job == stored)
  {
    var appKey, jobKey := SparkAppIdKey(process, jobId), JobKey(process, jobId);
    if appKey in store && jobKey in store then
      var command := KillCommand(store[appKey]);
      match codec.decode(store[jobKey])
      case ParseError => Dismissal(Uncaught, None)
      case NullJob =>
        Dismissal(if kill == Interrupted then Empty else Uncaught, Some(command))
      case ParsedJob(job) =>
        var after :=
          match kill
          case Exited(code) =>
            if code != 0 then job.(message := "Fail to dismiss the process")
            else job.(message := "Process dismissed", status := Dismissed)
          case Interrupted => job;
        Dismissal(JobBody(after), Some(command))
    else
      Dismissal(Empty, None)
  }

  /* ---------------------------------------------------------------------
     getProcessDescription
     --------------------------------------------------------------------- */

  /** What the description lookup answers: the catalog entry, or 404. */
  datatype Described<D> = Found(desc: D) | NotFound

  /** `getProcessDescription` over an already loaded catalog: a name the
      catalog holds gives its entry, any other name gives not-found. */
  function Describe<D>(catalog: map<string, D>, name: string): (r: Described<D>)
    ensures r.Found? <==> name in catalog
    ensures r.Found? ==> r.desc == catalog[name]
  {
    if name in catalog then Found(catalog[name]) else NotFound
  }
}
