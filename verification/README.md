# GDC process controller: job-state decision logic

A Dafny model of the decision logic in `GDCProcessController`, the OGC API - Processes
facade of the GeoCube GDC server. The controller sends jobs to a Spark/Livy service and
keeps each job's state in Redis. The model writes its handlers as pure functions:

- `execute` (`ProcessController.Execute`) handles the `response` parameter. With no
  parameter it returns an accepted job and writes the initial state `STARTED,0%`. With
  `response=collection` it parks the request under `temp_<jobId>` and redirects. Any other
  value is an illegal-parameter error.
- `getStatus` (`ProcessController.GetStatus`) reads the `"<TOKEN>,<PROGRESS>%"` state
  string, maps the token through a fixed table (`Jobs.Classify`) and sets the progress.
- `getResults` (`ProcessController.GetResults`) classifies the token as "being processed",
  a `cube` link, or an error.
- `dismiss` (`ProcessController.Dismiss`) decides the returned job from which store entries
  exist and from the kill command's exit code.
- `getProcessDescription` (`ProcessController.Describe`) looks a name up in a catalog.

The Java library calls the parsing depends on are modelled with their JDK semantics in
`JavaText`:

- `String.split(",")` drops trailing empty fields, so `",,,"` has no element 0.
- `String.replace("%", "")`.
- `Integer.valueOf` accepts an optional sign and ASCII digits, within the 32-bit range.

The controller itself never prints a number into a state string. Other writers do, such as
the Spark side that updates a running job. `JavaText.IntToString` and `JobState.Encode` model
such a writer, as `Integer.toString` and the `TOKEN,N%` layout. They are there so that the
model can state what `getStatus` reads back.

The store is a `map<string, string>`. The job's JSON serialization is opaque: it is a
`Codec` parameter, a pair of encode and decode functions. Decoding has three outcomes, as
fastjson's `parseObject` does: it throws (`ParseError`), it returns null (`NullJob`, e.g.
for the text `null` or an empty string), or it returns a job (`ParsedJob`). Every value that comes from the
outside is a parameter:

- the fresh job id,
- the creation timestamp,
- the configured API URL,
- the serialized request body,
- the name of the located result file,
- the outcome of the kill subprocess,
- whether the Livy submission in `execute` returns or throws.

An exception that escapes a handler is the `Uncaught` response. Spring turns it into a 500.

Some facts of the code that the model keeps as they are:

- The FINISHED message is "Process is executed successfully".
- The progress is whatever `int` the state string holds. It is not clamped to 0..100.
- The timeout body is `<jobId>has been timeout`, with no space.
- The retrieval error body has two spaces: "An error occurred  retrieving data".

## Model

| member | source | states |
|---|---|---|
| JavaText.SplitHead | src/main/java/whu/edu/cn/controller/GDCProcessController.java:194 | `split(",")[0]` exists exactly when the state string is not all commas, and it is then the text before the first comma |
| JavaText.SplitSecond | src/main/java/whu/edu/cn/controller/GDCProcessController.java:222 | `split(",")[1]` is the second comma field when that field is non-empty; when the field is empty, element 1 is missing or empty, so parsing it fails |
| JavaText.JoinFields | src/main/java/whu/edu/cn/controller/GDCProcessController.java:194 | splitting into comma fields loses nothing: joining the fields with commas gives back the string |
| JavaText.FieldsJoin | src/main/java/whu/edu/cn/controller/GDCProcessController.java:194 | comma-free fields joined with commas and split again come back unchanged |
| JavaText.Split | src/main/java/whu/edu/cn/controller/GDCProcessController.java:194 | `split(",")` returns a comma-free string whole; otherwise it gives a prefix of the comma fields that does not end in an empty field, and every field it drops is empty |
| JavaText.RemoveAll | src/main/java/whu/edu/cn/controller/GDCProcessController.java:222 | `replace("%", "")` leaves no `%`, never lengthens the string, and leaves a string without `%` unchanged |
| JavaText.RemoveAllMultiset | src/main/java/whu/edu/cn/controller/GDCProcessController.java:222 | `replace("%", "")` keeps every other character as often as it occurred: the same multiset of characters with all `%` removed |
| JavaText.ParseInt | src/main/java/whu/edu/cn/controller/GDCProcessController.java:222 | `Integer.valueOf` only yields values in the 32-bit `int` range, and only for an optional sign followed by digits |
| JavaText.ParseIntDigits | src/main/java/whu/edu/cn/controller/GDCProcessController.java:222 | an unsigned digit string parses to its decimal value exactly when that value fits in an `int` |
| JavaText.ParseIntMinus | src/main/java/whu/edu/cn/controller/GDCProcessController.java:222 | a `-` followed by digits parses to the negated value exactly when it is at least -2147483648 |
| JavaText.ParseIntPlus | src/main/java/whu/edu/cn/controller/GDCProcessController.java:222 | a leading `+` (not followed by another sign) parses as if it were absent |
| JavaText.DigitsValueLeadingZero | src/main/java/whu/edu/cn/controller/GDCProcessController.java:222 | leading zeros do not change a digit string's value |
| JavaText.ParseIntToString | src/main/java/whu/edu/cn/controller/GDCProcessController.java:222 | every `int` printed in decimal parses back to itself |
| Jobs.Classify | src/main/java/whu/edu/cn/controller/GDCProcessController.java:196-219 | the token table is total: STARTED/CONNECTED/SUBMITTED give accepted, RUNNING gives running, FINISHED gives successful, FAILED gives failed, and any other token (even the empty one) gives dismissed; the message always belongs to the status |
| Jobs.ClassifyPreimages | src/main/java/whu/edu/cn/controller/GDCProcessController.java:196-219 | exactly three tokens give accepted, and exactly one token each gives running, successful and failed |
| JobState.Token | src/main/java/whu/edu/cn/controller/GDCProcessController.java:244 | the state token is the comma-free text before the first comma, and it is missing (the lookup throws) exactly for all-comma strings |
| JobState.Decode | src/main/java/whu/edu/cn/controller/GDCProcessController.java:222 | a decoded progress is always a 32-bit `int` |
| JobState.DecodeSpec | src/main/java/whu/edu/cn/controller/GDCProcessController.java:222 | decoding succeeds exactly when the string has a comma and its second field, with `%` removed, is a valid `int`; the progress is then that number, unclamped, and the token is the text before the first comma |
| JobState.DecodeEncode | src/main/java/whu/edu/cn/controller/GDCProcessController.java:222 | any comma-free token and any `int` progress written as `TOKEN,N%` decode to that token and progress |
| ProcessController.JobKeysDistinct | src/main/java/whu/edu/cn/controller/GDCProcessController.java:160-161 | a job's state entry, record entry and Spark-id entry are kept under different keys |
| ProcessController.Execute | src/main/java/whu/edu/cn/controller/GDCProcessController.java:142-172 | with no `response`: the job built is accepted, "Process started", progress 0, with a self link; the store gains exactly its state `STARTED,0%` and its record, before the submission; the answer is that job with 200 when the submission returns, and an uncaught exception (500) when it throws, with the writes kept; with `collection`: a 302 whose Location ends in `/collections/temp_<jobId>`, and the store gains only the request under `temp_<jobId>`; with any other value: a 500 "Illegal parameter 'response'!" and the store is unchanged |
| ProcessController.GetStatus | src/main/java/whu/edu/cn/controller/GDCProcessController.java:184-224 | the 500 timeout answer comes exactly when either entry is missing; an exception comes exactly when the state cannot be decoded or the record does not parse to a job; when both entries exist and both decode, a job always comes back: the stored job with the same id, creation time and links, the token's status and message, and the decoded progress |
| ProcessController.ResultFor | src/main/java/whu/edu/cn/controller/GDCProcessController.java:245-261 | in-flight tokens (and only they) give 200 "being processed"; FINISHED with a file gives a GeoTIFF `cube` href that ends in `<jobId>/<fileName>`; FINISHED without a file gives the 500 retrieval error; every other token gives the 500 job error; the answer is 200 only in the first two cases |
| ProcessController.GetResults | src/main/java/whu/edu/cn/controller/GDCProcessController.java:237-262 | a missing state gives exactly the 500 retention error; an all-comma state makes the token lookup throw; every other state is answered by its token |
| ProcessController.Dismiss | src/main/java/whu/edu/cn/controller/GDCProcessController.java:274-299 | without both the Spark-id and job entries: null and no kill; with both, the kill command for the stored Spark id runs exactly when the record parses (to a job or to null); a record that throws while parsing gives an exception and no kill; a record parsed to null gives an exception once the kill exits (the null job is dereferenced) and null when the subprocess call throws; a parsed job always comes back: dismissed on exit 0, only the message changed on another exit code, unchanged when the subprocess call throws |
| ProcessController.Describe | src/main/java/whu/edu/cn/controller/GDCProcessController.java:120-125 | the catalog entry is found exactly for names the catalog holds, and it is that name's entry |
| ControllerProperties.InitialStateIsEncoded | src/main/java/whu/edu/cn/controller/GDCProcessController.java:160 | the initial state `STARTED,0%` is the state encoding of token STARTED with progress 0 |
| ControllerProperties.InitialStateDecodes | src/main/java/whu/edu/cn/controller/GDCProcessController.java:160 | the initial state reads back as token STARTED and progress 0 |
| ControllerProperties.StatusReportsWrittenState | src/main/java/whu/edu/cn/controller/GDCProcessController.java:194-222 | for any token and progress written into a state string, `getStatus` reports that progress and the token's status and message, and keeps the rest of the stored job |
| ControllerProperties.ExecuteThenStatus | src/main/java/whu/edu/cn/controller/GDCProcessController.java:149-161 | when the job `execute` builds survives its own serialization, `getStatus` right after `execute` gives back exactly that job, which is also the answer of `execute` when the submission returns |
| ControllerProperties.ExecuteThenStatusReport | src/main/java/whu/edu/cn/controller/GDCProcessController.java:149-161 | whatever job the record written by `execute` parses to, `getStatus` right after reports it as accepted, "Process started", progress 0, because those come from the state string |
| ControllerProperties.ExecuteThenResults | src/main/java/whu/edu/cn/controller/GDCProcessController.java:160 | `getResults` right after `execute` says "being processed", whatever result file is located |
| ControllerProperties.ExecuteThenDismiss | src/main/java/whu/edu/cn/controller/GDCProcessController.java:276-279 | the controller's own writes in `execute` never include a Spark id, so with no earlier entry, `dismiss` right after it answers null and kills nothing |
| ControllerProperties.DismissAgreesWithTable | src/main/java/whu/edu/cn/controller/GDCProcessController.java:290-291 | a job dismissed by a successful kill has exactly the status and message `getStatus` gives any token outside its table |
| ControllerProperties.InFlightIffActive | src/main/java/whu/edu/cn/controller/GDCProcessController.java:245 | the in-flight tokens of `getResults` are exactly the tokens `getStatus` reports as accepted or running |
| ControllerProperties.ResultsAgreeWithStatus | src/main/java/whu/edu/cn/controller/GDCProcessController.java:240-261 | whenever `getStatus` reports a job, `getResults` agrees with it: accepted/running is "being processed", successful is a `cube` link or the retrieval error, and failed/dismissed is the job error |

## Left out

- `getProcesses` is left out. It reads a classpath JSON file and parses it with fastjson, which is file I/O and a foreign parser.
- `getProcessDescription` is modelled only as a lookup in an already loaded catalog. Catalog loading is the same file I/O.
- `viewResults` is left out. It is a plain disk read, and its unsanitised path is a security note, not logic.
- Redis TTLs (24 hours) are left out, because expiry happens outside the controller. An expired entry is an absent key.
- The output directory `mkdir` in `execute` is left out. It is a side effect whose result the handler never inspects, and an I/O error there is not modelled.
- The Livy submission in `execute` is modelled only by whether it returns or throws. What the submission service writes to the store itself (such as the `_sparkAppId` entry that `dismiss` needs) is not part of this model, because `SparkApplicationService` is not part of this model.
- Logging is left out.
- The job id (a UUID) and the creation time (`LocalDateTime.now()`) are parameters.
- fastjson serialization of `Job` and of the request body is left out. The job codec is the `Codec` parameter, and the request body arrives already serialized.
- JavaText.ParseInt: accepts only ASCII digits. `Integer.valueOf` also accepts other Unicode decimal digits.
- ProcessController.GetResults: takes the located result file's name directly. `FileUtil.matchResultFile` and `File.getName` are not part of this model.
- ProcessController.Dismiss: the `curl` subprocess is modelled only by its outcome, an exit code or a thrown `IOException`/`InterruptedException`.
- `GcVectorTileFact` and `DomainSet` are left out. They are plain getter/setter records with no logic.
