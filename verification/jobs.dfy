/** The job record the controller hands out, and the fixed table that turns
    a raw state token, as written by the Spark side, into the status and
    message of an OGC API - Processes job. */
module Jobs {

  /** A hypermedia link of a job (`Link` in the source). */
  datatype Link = Link(href: string, rel: string, mediaType: string, title: string)

  /** A job as the controller returns and stores it (`Job` in the source).
      `progress` is a Java `int`; nothing bounds it to 0..100. */
  datatype Job = Job(
    jobID: string,
    status: string,
    message: string,
    progress: int,
    created: string,
    links: seq<Link>)

  /** The five job statuses the controller reports. */
  const Accepted := "accepted"
  const Running := "running"
  const Successful := "successful"
  const Failed := "failed"
  const Dismissed := "dismissed"

  const Statuses: set<string> := {Accepted, Running, Successful, Failed, Dismissed}

  /** The raw state tokens the Spark side writes. */
  const Started := "STARTED"
  const Connected := "CONNECTED"
  const Submitted := "SUBMITTED"
  const RunningToken := "RUNNING"
  const Finished := "FINISHED"
  const FailedToken := "FAILED"

  /** A status together with the message reported with it. */
  datatype Report = Report(status: string, message: string)

  /** The one message that goes with each status. */
  function MessageOf(status: string): string {
    if status == Accepted then "Process started"
    else if status == Running then "Process is running"
    else if status == Successful then "Process is executed successfully"
    else if status == Failed then "Process failed"
    else "Process dismissed"
  }

  /** The token-to-status table of `getStatus`. It is total: every token,
      the empty one included, gets one of the five statuses, and the message
      is always the one that belongs to that status. */
  function Classify(token: string): (r: Report)
    ensures r.status in Statuses
    ensures r.message == MessageOf(r.status)
    ensures token in {Started, Connected, Submitted} ==> r == Report(Accepted, "Process started")
    ensures token == RunningToken ==> r == Report(Running, "Process is running")
    ensures token == Finished ==> r == Report(Successful, "Process is executed successfully")
    ensures token == FailedToken ==> r == Report(Failed, "Process failed")
    ensures token !in {Started, Connected, Submitted, RunningToken, Finished, FailedToken}
            ==> r == Report(Dismissed, "Process dismissed")
  {
    match token
    case "STARTED" => Report(Accepted, "Process started")
    case "CONNECTED" => Report(Accepted, "Process started")
    case "SUBMITTED" => Report(Accepted, "Process started")
    case "RUNNING" => Report(Running, "Process is running")
    case "FINISHED" => Report(Successful, "Process is executed successfully")
    case "FAILED" => Report(Failed, "Process failed")
    case _ => Report(Dismissed, "Process dismissed")
  }

  /** Exactly one token leads to each of the statuses running, successful
      and failed, and exactly three lead to accepted. */
  lemma ClassifyPreimages(token: string)
    ensures Classify(token).status == Accepted <==> token in {Started, Connected, Submitted}
    ensures Classify(token).status == Running <==> token == RunningToken
    ensures Classify(token).status == Successful <==> token == Finished
    ensures Classify(token).status == Failed <==> token == FailedToken
  {
  }
}
