/**
 * The remote backend (`Server`): objects are saved to and loaded from the
 * repository of a RapidMiner Server through an auxiliary web service, and
 * processes are submitted as jobs that are polled until they end.
 *
 * Every answer of the Server is an input of the model: the status and
 * content of each response, the observed job states, the fresh names
 * handed out for temporary objects and the `to_port` of each `connect`
 * wire of the process.
 */
module Server {
  import opened Wrappers
  import opened Text

  // ---------------------------------------------------------------------
  // The temporary folder (`__init__`)
  // ---------------------------------------------------------------------

  /**
   * The repository folder for temporary objects: the given folder with a
   * `/` appended when it lacks one, else `tmp` in the user's home folder.
   */
  function TempFolder(given: Option<string>, username: string): (r: string)
    ensures EndsWith(r, "/")
    ensures given.None? ==> r == "/home/" + username + "/tmp/"
    ensures given.Some? ==> StartsWith(r, given.value) && |r| <= |given.value| + 1
    ensures given.Some? && EndsWith(given.value, "/") ==> r == given.value
  {
    if given.Some? then
      if EndsWith(given.value, "/") then given.value
      else
        var r := given.value + "/";
        assert r[..|given.value|] == given.value;
        assert r[|r| - 1..] == "/";
        r
    else
      var r := "/home/" + username + "/tmp/";
      assert r[|r| - 1..] == "/";
      r
  }

  /** A folder without a trailing `/` gets exactly one. */
  lemma TempFolderAppendsOne(folder: string, username: string)
    requires !EndsWith(folder, "/")
    ensures TempFolder(Some(folder), username) == folder + "/"
  {
    var r := TempFolder(Some(folder), username);
    assert r != folder;
    assert |r| == |folder| + 1;
    assert r == r[..|folder|] + r[|folder|..];
  }

  /** Normalising a normalised folder changes nothing. */
  lemma TempFolderIdempotent(given: Option<string>, username: string)
    ensures TempFolder(Some(TempFolder(given, username)), username) == TempFolder(given, username)
  {
  }

  // ---------------------------------------------------------------------
  // Requests, responses and the repository
  // ---------------------------------------------------------------------

  /** The error a job reports: its type, title and message. */
  datatype JobError = JobError(typ: string, title: string, message: string)

  /** The context of a submitted job: the locations of its inputs and outputs, and its macros. */
  datatype Context = Context(inputLocations: Option<seq<string>>, outputLocations: Option<seq<string>>,
                             macros: Option<map<string, string>>)

  /** A job submission: the queue, the repository location of the process, and the context. */
  datatype Job = Job(queueName: string, location: string, context: Context)

  /** What the backend asks of the Server, in order, together with the pauses between polls. */
  datatype Event =
    | GetProcess(path: string)
    | Save(path: string, data: string)
    | Load(path: string)
    | Del(path: string)
    | Submit(job: Job)
    | Sleep(seconds: int)
    | GetJob(jobid: string)

  /**
   * The answer to a request of the web service: the status and the content
   * of the response, and the error `check_for_error` raises on it, if any.
   */
  datatype Response = Response(status: int, content: string, checkError: Option<string>)

  /** The paths among the first `m` of `s`. */
  function Elems(s: seq<string>, m: nat): set<string>
    requires m <= |s|
    decreases m
  {
    if m == 0 then {} else Elems(s, m - 1) + {s[m - 1]}
  }

  lemma {:induction false} ElemsMembers(s: seq<string>, m: nat)
    requires m <= |s|
    ensures forall p :: p in Elems(s, m) <==> exists j :: 0 <= j < m && s[j] == p
    decreases m
  {
    if m > 0 {
      ElemsMembers(s, m - 1);
    }
  }

  // ---------------------------------------------------------------------
  // Saving (`write_resource`)
  // ---------------------------------------------------------------------

  const COUNT_MISMATCH := "dataframe and output must contain the same number of values"

  predicate Rejected(resp: Response) {
    resp.status != 200
  }

  /** A save the Server accepted with content that `check_for_error` rejects: the writing stops there. */
  predicate StopsEarly(resp: Response) {
    resp.status == 200 && |resp.content| > 0 && resp.checkError.Some?
  }

  /** The first save that is rejected or stops the writing, or the number of saves when there is none. */
  function FirstSaveStop(responses: seq<Response>): (k: nat)
    ensures k <= |responses|
    ensures k < |responses| ==> Rejected(responses[k]) || StopsEarly(responses[k])
    decreases |responses|
  {
    if responses == [] then 0
    else if Rejected(responses[0]) || StopsEarly(responses[0]) then 0
    else 1 + FirstSaveStop(responses[1..])
  }

  /** The first stop is the least index of a rejected or early-stopping save. */
  lemma {:induction false} FirstSaveStopMeaning(responses: seq<Response>)
    ensures var k := FirstSaveStop(responses);
      && (forall j :: 0 <= j < k ==> !Rejected(responses[j]) && !StopsEarly(responses[j]))
      && (k < |responses| ==> Rejected(responses[k]) || StopsEarly(responses[k]))
    decreases |responses|
  {
    if responses != [] && !Rejected(responses[0]) && !StopsEarly(responses[0]) {
      FirstSaveStopMeaning(responses[1..]);
      var k := FirstSaveStop(responses);
      forall j | 1 <= j < k ensures !Rejected(responses[j]) && !StopsEarly(responses[j]) {
        assert responses[j] == responses[1..][j - 1];
      }
      if k < |responses| {
        assert responses[k] == responses[1..][k - 1];
      }
    }
  }

  /** Stepping over one save that neither is rejected nor stops: the search goes on after it. */
  lemma SaveStopStep(responses: seq<Response>, i: nat)
    requires i < |responses|
    ensures FirstSaveStop(responses[i..]) ==
      if Rejected(responses[i]) || StopsEarly(responses[i]) then 0 else 1 + FirstSaveStop(responses[i + 1..])
  {
    assert responses[i..][0] == responses[i];
    assert responses[i..][1..] == responses[i + 1..];
  }

  /** The number of save requests made. */
  function SavesIssued(responses: seq<Response>): nat {
    var k := FirstSaveStop(responses);
    if k < |responses| then k + 1 else |responses|
  }

  /** The number of objects saved: every request up to the stop, and the stopping one when it was accepted. */
  function SavesStored(responses: seq<Response>): nat {
    var k := FirstSaveStop(responses);
    if k < |responses| && !Rejected(responses[k]) then k + 1 else k
  }

  function WriteResult(responses: seq<Response>): Outcome {
    var k := FirstSaveStop(responses);
    if k < |responses| && Rejected(responses[k]) then
      Fail("Failed to save input no. " + Decimal(k) + ", status: " + IntText(responses[k].status))
    else Pass
  }

  /** The first `m` save requests: object `k` to path `k`. */
  function SaveEvents(frames: seq<string>, outputs: seq<string>, m: nat): (r: seq<Event>)
    requires m <= |frames| && m <= |outputs|
    decreases m
  {
    if m == 0 then [] else SaveEvents(frames, outputs, m - 1) + [Save(outputs[m - 1], frames[m - 1])]
  }

  /**
   * Writing fails exactly when some save is rejected before any save
   * stops the writing early.
   */
  lemma WriteFailsIff(responses: seq<Response>)
    ensures WriteResult(responses).Fail? <==>
      exists k :: 0 <= k < |responses| && Rejected(responses[k]) &&
        forall j :: 0 <= j < k ==> !Rejected(responses[j]) && !StopsEarly(responses[j])
  {
    FirstSaveStopMeaning(responses);
    var k := FirstSaveStop(responses);
    if k < |responses| && Rejected(responses[k]) {
      assert 0 <= k < |responses| && Rejected(responses[k]);
    }
    if exists k' :: 0 <= k' < |responses| && Rejected(responses[k']) &&
        forall j :: 0 <= j < k' ==> !Rejected(responses[j]) && !StopsEarly(responses[j]) {
      var k' :| 0 <= k' < |responses| && Rejected(responses[k']) &&
        forall j :: 0 <= j < k' ==> !Rejected(responses[j]) && !StopsEarly(responses[j]);
      assert k == k';
    }
  }

  /** When the Server accepts every save without complaint, every object is written. */
  lemma WriteAllAccepted(responses: seq<Response>)
    requires forall j :: 0 <= j < |responses| ==> !Rejected(responses[j]) && !StopsEarly(responses[j])
    ensures SavesIssued(responses) == SavesStored(responses) == |responses|
    ensures WriteResult(responses) == Pass
  {
    FirstSaveStopMeaning(responses);
  }

  // ---------------------------------------------------------------------
  // Polling (`__wait_for_job`)
  // ---------------------------------------------------------------------

  const POLL_INTERVAL_SECONDS := 6
  const JOB_STATE_ERROR: seq<string> := ["TIMED_OUT", "STOPPED", "ERROR"]

  /** The success "tuple" is the plain string `FINISHED`, so the success test is a substring test. */
  const JOB_STATE_SUCCESS := "FINISHED"

  /**
   * The error raised when a poll is answered with a status other than 200:
   * the message concatenates the integer status onto a string, which
   * raises a `TypeError` instead.
   */
  const STATUS_CONCAT_ERROR := "can only concatenate str (not \"int\") to str"

  /** One poll of the job: the status of the response and, when it is 200, the job's state and error. */
  datatype Poll = Poll(status: int, state: string, error: Option<JobError>)

  /** How waiting for a job ends, or that it has not ended after the observed polls. */
  datatype JobOutcome = Finished | JobFailed(msg: string) | PollFailed | StillPolling

  /** `__format_job_error`: `Unknown error`, or the error's type, title and message separated by `: `. */
  function FormatJobError(error: Option<JobError>): (r: string)
    ensures r == "Unknown error" <==> error.None?
    ensures error.Some? ==> StartsWith(r, error.value.typ + ": ") && EndsWith(r, ": " + error.value.message)
  {
    match error
    case None => "Unknown error"
    case Some(e) =>
      var r := e.typ + ": " + e.title + ": " + e.message;
      assert r[|e.typ|] == ':';
      assert forall k :: 0 <= k < |"Unknown error"| ==> "Unknown error"[k] != ':';
      assert r[..|e.typ + ": "|] == e.typ + ": ";
      assert r[|r| - |": " + e.message|..] == ": " + e.message;
      r
  }

  /** A poll that ends the waiting. */
  predicate Terminal(p: Poll) {
    p.status != 200 || p.state in JOB_STATE_ERROR || Contains(JOB_STATE_SUCCESS, p.state)
  }

  /** What one poll decides. */
  function Verdict(p: Poll): (v: JobOutcome)
    ensures v == StillPolling <==> !Terminal(p)
  {
    if p.status != 200 then PollFailed
    else if p.state in JOB_STATE_ERROR then
      JobFailed("Job finished with error state: " + p.state + ", " + FormatJobError(p.error))
    else if Contains(JOB_STATE_SUCCESS, p.state) then Finished
    else StillPolling
  }

  /** The first poll that ends the waiting, or the number of polls when none does. */
  function FirstTerminal(polls: seq<Poll>): (k: nat)
    ensures k <= |polls|
    ensures k < |polls| ==> Terminal(polls[k])
    decreases |polls|
  {
    if polls == [] then 0
    else if Terminal(polls[0]) then 0
    else 1 + FirstTerminal(polls[1..])
  }

  /** The first terminal poll is the least index of a terminal poll. */
  lemma {:induction false} FirstTerminalMeaning(polls: seq<Poll>)
    ensures var k := FirstTerminal(polls);
      && (forall j :: 0 <= j < k ==> !Terminal(polls[j]))
      && (k < |polls| ==> Terminal(polls[k]))
    decreases |polls|
  {
    if polls != [] && !Terminal(polls[0]) {
      FirstTerminalMeaning(polls[1..]);
      var k := FirstTerminal(polls);
      forall j | 1 <= j < k ensures !Terminal(polls[j]) {
        assert polls[j] == polls[1..][j - 1];
      }
      if k < |polls| {
        assert polls[k] == polls[1..][k - 1];
      }
    }
  }

  lemma TerminalStep(polls: seq<Poll>, i: nat)
    requires i < |polls|
    ensures FirstTerminal(polls[i..]) == if Terminal(polls[i]) then 0 else 1 + FirstTerminal(polls[i + 1..])
  {
    assert polls[i..][0] == polls[i];
    assert polls[i..][1..] == polls[i + 1..];
  }

  /** How waiting ends after the observed polls: the first terminal poll decides. */
  function JobResult(polls: seq<Poll>): JobOutcome {
    var k := FirstTerminal(polls);
    if k < |polls| then Verdict(polls[k]) else StillPolling
  }

  /** The number of polls made: up to and including the first terminal one. */
  function PollCount(polls: seq<Poll>): nat {
    var k := FirstTerminal(polls);
    if k < |polls| then k + 1 else |polls|
  }

  /** `n` rounds of waiting: each sleeps the poll interval, then asks for the job's state. */
  function PollRounds(jobid: string, n: nat): (r: seq<Event>)
    ensures |r| == 2 * n
    decreases n
  {
    if n == 0 then [] else PollRounds(jobid, n - 1) + [Sleep(POLL_INTERVAL_SECONDS), GetJob(jobid)]
  }

  /**
   * The job finishes exactly when the first terminal poll has status 200, a
   * state that is not an error state, and a state that occurs in `FINISHED`.
   */
  lemma FinishedIff(polls: seq<Poll>)
    ensures JobResult(polls) == Finished <==>
      exists k :: 0 <= k < |polls| && (forall j :: 0 <= j < k ==> !Terminal(polls[j])) &&
        polls[k].status == 200 && polls[k].state !in JOB_STATE_ERROR && Contains(JOB_STATE_SUCCESS, polls[k].state)
  {
    FirstTerminalMeaning(polls);
    var k := FirstTerminal(polls);
    if JobResult(polls) == Finished {
      assert 0 <= k < |polls|;
    }
    if exists k' :: 0 <= k' < |polls| && (forall j :: 0 <= j < k' ==> !Terminal(polls[j])) &&
        polls[k'].status == 200 && polls[k'].state !in JOB_STATE_ERROR && Contains(JOB_STATE_SUCCESS, polls[k'].state) {
      var k' :| 0 <= k' < |polls| && (forall j :: 0 <= j < k' ==> !Terminal(polls[j])) &&
        polls[k'].status == 200 && polls[k'].state !in JOB_STATE_ERROR && Contains(JOB_STATE_SUCCESS, polls[k'].state);
      assert Terminal(polls[k']);
      assert k == k';
    }
  }

  /** Waiting goes on exactly as long as no observed poll is terminal. */
  lemma StillPollingIff(polls: seq<Poll>)
    ensures JobResult(polls) == StillPolling <==> forall j :: 0 <= j < |polls| ==> !Terminal(polls[j])
    ensures JobResult(polls) == StillPolling ==> PollCount(polls) == |polls|
  {
    FirstTerminalMeaning(polls);
    var k := FirstTerminal(polls);
    if k < |polls| {
      assert Terminal(polls[k]);
    }
  }

  /** Polls after the first terminal one are never made and change nothing. */
  lemma {:induction false} LaterPollsIgnored(polls: seq<Poll>, more: seq<Poll>)
    requires FirstTerminal(polls) < |polls|
    ensures FirstTerminal(polls + more) == FirstTerminal(polls)
    ensures JobResult(polls + more) == JobResult(polls)
    ensures PollCount(polls + more) == PollCount(polls)
    decreases |polls|
  {
    var all := polls + more;
    assert all[0] == polls[0];
    if !Terminal(polls[0]) {
      assert all[1..] == polls[1..] + more;
      LaterPollsIgnored(polls[1..], more);
    }
    assert all[FirstTerminal(polls)] == polls[FirstTerminal(polls)];
  }

  /** As the success test is a substring test, a state such as `FINISH` or the empty state counts as success. */
  lemma SubstringStatesFinish()
    ensures Verdict(Poll(200, "FINISH", None)) == Finished
    ensures Verdict(Poll(200, "", None)) == Finished
  {
    assert StartsWith(JOB_STATE_SUCCESS, "FINISH");
    assert StartsWith(JOB_STATE_SUCCESS, "");
  }

  // ---------------------------------------------------------------------
  // Loading (`read_resource`) and deleting (`__delete_resource`)
  // ---------------------------------------------------------------------

  /** A load fails on a status other than 200, or when `check_for_error` raises. */
  predicate LoadFails(resp: Response) {
    resp.status != 200 || resp.checkError.Some?
  }

  function FirstLoadFailure(responses: seq<Response>): (k: nat)
    ensures k <= |responses|
    ensures k < |responses| ==> LoadFails(responses[k])
    decreases |responses|
  {
    if responses == [] then 0
    else if LoadFails(responses[0]) then 0
    else 1 + FirstLoadFailure(responses[1..])
  }

  lemma {:induction false} FirstLoadFailureMeaning(responses: seq<Response>)
    ensures var k := FirstLoadFailure(responses);
      && (forall j :: 0 <= j < k ==> !LoadFails(responses[j]))
      && (k < |responses| ==> LoadFails(responses[k]))
    decreases |responses|
  {
    if responses != [] && !LoadFails(responses[0]) {
      FirstLoadFailureMeaning(responses[1..]);
      var k := FirstLoadFailure(responses);
      forall j | 1 <= j < k ensures !LoadFails(responses[j]) {
        assert responses[j] == responses[1..][j - 1];
      }
      if k < |responses| {
        assert responses[k] == responses[1..][k - 1];
      }
    }
  }

  lemma LoadFailureStep(responses: seq<Response>, i: nat)
    requires i < |responses|
    ensures FirstLoadFailure(responses[i..]) == if LoadFails(responses[i]) then 0 else 1 + FirstLoadFailure(responses[i + 1..])
  {
    assert responses[i..][0] == responses[i];
    assert responses[i..][1..] == responses[i + 1..];
  }

  function LoadsIssued(responses: seq<Response>): nat {
    var k := FirstLoadFailure(responses);
    if k < |responses| then k + 1 else |responses|
  }

  function LoadError(path: string, resp: Response): string
    requires LoadFails(resp)
  {
    if resp.status != 200 then "Failed to read input \"" + path + "\", status: " + IntText(resp.status)
    else resp.checkError.value
  }

  /** The contents of the responses, in order. */
  function Contents(responses: seq<Response>): seq<string>
    decreases |responses|
  {
    if responses == [] then [] else Contents(responses[..|responses| - 1]) + [responses[|responses| - 1].content]
  }

  lemma {:induction false} ContentsAt(responses: seq<Response>)
    ensures |Contents(responses)| == |responses|
    ensures forall j :: 0 <= j < |responses| ==> Contents(responses)[j] == responses[j].content
    decreases |responses|
  {
    if responses != [] {
      var front := responses[..|responses| - 1];
      ContentsAt(front);
      forall j | 0 <= j < |responses| ensures Contents(responses)[j] == responses[j].content {
        if j < |front| {
          assert Contents(responses)[j] == Contents(front)[j];
        }
      }
    }
  }

  /** The datasets loaded from `paths`, or the error of the first failing load. */
  function LoadResult(paths: seq<string>, responses: seq<Response>): Result<seq<string>>
    requires |responses| == |paths|
  {
    var k := FirstLoadFailure(responses);
    if k < |paths| then Err(LoadError(paths[k], responses[k])) else Ok(Contents(responses))
  }

  /** Loading yields one dataset per path, in order, unless some load fails. */
  lemma LoadResultMeaning(paths: seq<string>, responses: seq<Response>)
    requires |responses| == |paths|
    ensures LoadResult(paths, responses).Ok? <==> forall j :: 0 <= j < |responses| ==> !LoadFails(responses[j])
    ensures LoadResult(paths, responses).Ok? ==>
      && |LoadResult(paths, responses).value| == |paths|
      && forall j :: 0 <= j < |paths| ==> LoadResult(paths, responses).value[j] == responses[j].content
  {
    ContentsAt(responses);
    FirstLoadFailureMeaning(responses);
    var k := FirstLoadFailure(responses);
    if k < |paths| {
      assert LoadFails(responses[k]);
    }
  }

  function LoadEvents(paths: seq<string>, m: nat): seq<Event>
    requires m <= |paths|
    decreases m
  {
    if m == 0 then [] else LoadEvents(paths, m - 1) + [Load(paths[m - 1])]
  }

  function FirstDelFailure(statuses: seq<int>): (k: nat)
    ensures k <= |statuses|
    ensures k < |statuses| ==> statuses[k] != 200
    decreases |statuses|
  {
    if statuses == [] then 0
    else if statuses[0] != 200 then 0
    else 1 + FirstDelFailure(statuses[1..])
  }

  /** The first failing delete is the least index of a status other than 200. */
  lemma {:induction false} FirstDelFailureMeaning(statuses: seq<int>)
    ensures var k := FirstDelFailure(statuses);
      && (forall j :: 0 <= j < k ==> statuses[j] == 200)
      && (k < |statuses| ==> statuses[k] != 200)
    decreases |statuses|
  {
    if statuses != [] && statuses[0] == 200 {
      FirstDelFailureMeaning(statuses[1..]);
      var k := FirstDelFailure(statuses);
      forall j | 1 <= j < k ensures statuses[j] == 200 {
        assert statuses[j] == statuses[1..][j - 1];
      }
      if k < |statuses| {
        assert statuses[k] == statuses[1..][k - 1];
      }
    }
  }

  lemma DelFailureStep(statuses: seq<int>, i: nat)
    requires i < |statuses|
    ensures FirstDelFailure(statuses[i..]) == if statuses[i] != 200 then 0 else 1 + FirstDelFailure(statuses[i + 1..])
  {
    assert statuses[i..][0] == statuses[i];
    assert statuses[i..][1..] == statuses[i + 1..];
  }

  function DelsIssued(statuses: seq<int>): nat {
    var k := FirstDelFailure(statuses);
    if k < |statuses| then k + 1 else |statuses|
  }

  function DeleteResult(paths: seq<string>, statuses: seq<int>): Outcome
    requires |statuses| == |paths|
  {
    var k := FirstDelFailure(statuses);
    if k < |paths| then Fail("Failed to delete path \"" + paths[k] + "\", status: " + IntText(statuses[k])) else Pass
  }

  function DelEvents(paths: seq<string>, m: nat): seq<Event>
    requires m <= |paths|
    decreases m
  {
    if m == 0 then [] else DelEvents(paths, m - 1) + [Del(paths[m - 1])]
  }

  // ---------------------------------------------------------------------
  // Running a process (`run_process`)
  // ---------------------------------------------------------------------

  /** What `run_process` is asked for: the process, the inputs, the queue, the macros and the cleanup mode. */
  datatype RunRequest = RunRequest(path: string, inputs: Option<seq<string>>, queue: Option<string>,
                                   macros: Option<map<string, string>>, ignoreCleanupErrors: Option<bool>)

  /** The answer to the submission: its status and the id of the job. */
  datatype Submission = Submission(status: int, jobid: string)

  /** Every answer of the Server during one run, in the order in which they are asked for. */
  datatype Replies = Replies(processStatus: int, saves: seq<Response>, submission: Submission,
                             polls: seq<Poll>, loads: seq<Response>, deletes: seq<int>)

  /** How a run ends: the datasets of the results, an error, or a job that is still being polled. */
  datatype RunResult = Done(datasets: seq<string>) | Raised(msg: string) | Running

  function QueueName(queue: Option<string>): string {
    if queue.Some? then queue.value else "DEFAULT"
  }

  /** Whether cleanup failures are ignored: they are unless the caller says otherwise. */
  function IgnoresCleanupErrors(ignore: Option<bool>): bool {
    if ignore.Some? then ignore.value else true
  }

  /** The number of inputs to stage: none when there are no inputs or the list is empty. */
  function InputCount(inputs: Option<seq<string>>): nat {
    if inputs.Some? then |inputs.value| else 0
  }

  /** The `to_port`s of the wires that feed a result port, in order. */
  function ResultWires(ports: seq<string>): seq<string>
    decreases |ports|
  {
    if ports == [] then []
    else
      var front := ResultWires(ports[..|ports| - 1]);
      if StartsWith(ports[|ports| - 1], "result ") then front + [ports[|ports| - 1]] else front
  }

  lemma {:induction false} ResultWiresMembers(ports: seq<string>)
    ensures |ResultWires(ports)| <= |ports|
    ensures forall p :: p in ResultWires(ports) <==> p in ports && StartsWith(p, "result ")
    decreases |ports|
  {
    if ports != [] {
      var front := ports[..|ports| - 1];
      ResultWiresMembers(front);
      assert ports == front + [ports[|ports| - 1]];
    }
  }

  /** `n` locations in `folder`, named by the fresh names from position `from` on. */
  function Located(folder: string, names: seq<string>, from: nat, n: nat): (r: seq<string>)
    requires from + n <= |names|
  {
    seq(n, k requires 0 <= k < n => folder + names[from + k])
  }

  /** Where the inputs are staged: one location per input, when there are inputs. */
  function InputLocations(folder: string, inputs: Option<seq<string>>, names: seq<string>): seq<string>
    requires InputCount(inputs) <= |names|
  {
    Located(folder, names, 0, InputCount(inputs))
  }

  /** Where the results go: one location per wire into a result port, named after the inputs' names. */
  function OutputLocations(folder: string, inputs: Option<seq<string>>, ports: seq<string>, names: seq<string>): seq<string>
    requires InputCount(inputs) + |ResultWires(ports)| <= |names|
  {
    Located(folder, names, InputCount(inputs), |ResultWires(ports)|)
  }

  /** The context: each list only when non-empty, the macros only when given. */
  function JobContext(ins: seq<string>, outs: seq<string>, macros: Option<map<string, string>>): Context {
    Context(if ins != [] then Some(ins) else None, if outs != [] then Some(outs) else None, macros)
  }

  /** The precondition every run makes of its answers. */
  predicate Answered(req: RunRequest, ports: seq<string>, names: seq<string>, replies: Replies) {
    && InputCount(req.inputs) + |ResultWires(ports)| <= |names|
    && |replies.saves| == InputCount(req.inputs)
    && |replies.loads| == |ResultWires(ports)|
    && |replies.deletes| == InputCount(req.inputs) + |ResultWires(ports)|
  }

  /** Whether writing the inputs raises, so the try block ends before the submission. */
  predicate StagingFails(req: RunRequest, replies: Replies) {
    InputCount(req.inputs) > 0 && WriteResult(replies.saves).Fail?
  }

  /** The temporary resources at the end of the try block: the inputs, then the outputs once they exist. */
  function TempResources(folder: string, req: RunRequest, ports: seq<string>, names: seq<string>, replies: Replies): seq<string>
    requires Answered(req, ports, names, replies)
  {
    InputLocations(folder, req.inputs, names) +
      (if StagingFails(req, replies) then [] else OutputLocations(folder, req.inputs, ports, names))
  }

  /** The job a run submits. */
  function JobOf(folder: string, req: RunRequest, ports: seq<string>, names: seq<string>): Job
    requires InputCount(req.inputs) + |ResultWires(ports)| <= |names|
  {
    Job(QueueName(req.queue), req.path,
        JobContext(InputLocations(folder, req.inputs, names), OutputLocations(folder, req.inputs, ports, names), req.macros))
  }

  /** The line printed once the job is accepted. */
  function SubmittedLine(jobid: string): string {
    "Submitted process with job id: " + jobid
  }

  /** Submitting, waiting, and reading the results from `outs`. */
  function CollectResult(outs: seq<string>, replies: Replies): RunResult
    requires |replies.loads| == |outs|
  {
    if replies.submission.status != 200 then
      Raised("Failed to submit process, status: " + IntText(replies.submission.status))
    else match JobResult(replies.polls)
      case StillPolling => Running
      case PollFailed => Raised(STATUS_CONCAT_ERROR)
      case JobFailed(m) => Raised(m)
      case Finished =>
        var loaded := LoadResult(outs, replies.loads);
        if loaded.Err? then Raised(loaded.msg) else Done(loaded.value)
  }

  /** The requests of submitting, waiting and reading. */
  function CollectEvents(job: Job, outs: seq<string>, replies: Replies): seq<Event>
    requires |replies.loads| == |outs|
  {
    if replies.submission.status != 200 then [Submit(job)]
    else
      var loads := if JobResult(replies.polls) == Finished then LoadEvents(outs, LoadsIssued(replies.loads)) else [];
      [Submit(job)] + PollRounds(replies.submission.jobid, PollCount(replies.polls)) + loads
  }

  /** How the try block ends. */
  function TryResult(folder: string, req: RunRequest, ports: seq<string>, names: seq<string>, replies: Replies): RunResult
    requires Answered(req, ports, names, replies)
  {
    if StagingFails(req, replies) then Raised(WriteResult(replies.saves).msg)
    else CollectResult(OutputLocations(folder, req.inputs, ports, names), replies)
  }

  /** The requests of staging the inputs. */
  function StageEvents(folder: string, req: RunRequest, names: seq<string>, replies: Replies): seq<Event>
    requires InputCount(req.inputs) <= |names| && |replies.saves| == InputCount(req.inputs)
  {
    if InputCount(req.inputs) > 0 then
      SaveEvents(req.inputs.value, InputLocations(folder, req.inputs, names), SavesIssued(replies.saves))
    else []
  }

  /** The requests of the try block. */
  function TryEvents(folder: string, req: RunRequest, ports: seq<string>, names: seq<string>, replies: Replies): seq<Event>
    requires Answered(req, ports, names, replies)
  {
    var staging := StageEvents(folder, req, names, replies);
    if StagingFails(req, replies) then staging
    else staging + CollectEvents(JobOf(folder, req, ports, names), OutputLocations(folder, req.inputs, ports, names), replies)
  }

  /** The lines the try block prints: the job id, once the job is accepted. */
  function TryConsole(req: RunRequest, replies: Replies): seq<string> {
    if StagingFails(req, replies) || replies.submission.status != 200 then []
    else [SubmittedLine(replies.submission.jobid)]
  }

  /** The objects stored while staging the inputs. */
  function StagedStored(folder: string, req: RunRequest, names: seq<string>, replies: Replies): set<string>
    requires InputCount(req.inputs) <= |names| && |replies.saves| == InputCount(req.inputs)
  {
    if InputCount(req.inputs) > 0 then Elems(InputLocations(folder, req.inputs, names), SavesStored(replies.saves)) else {}
  }

  /** What the console shows when a cleanup error is ignored: the error, then every temporary path on its own line. */
  function CleanupReport(temp: seq<string>, msg: string): seq<string> {
    ["Could not delete the following temporary " + (if |temp| == 1 then "file" else "files") + ", error: " + msg,
     JoinLines(temp)]
  }

  /** Python `"\n".join(lines)`. */
  function JoinLines(lines: seq<string>): string
    decreases |lines|
  {
    if lines == [] then ""
    else if |lines| == 1 then lines[0]
    else JoinLines(lines[..|lines| - 1]) + "\n" + lines[|lines| - 1]
  }

  /**
   * The `finally` clause: a failed cleanup is reported and the try block's
   * outcome kept when cleanup errors are ignored; otherwise its error
   * replaces that outcome.
   */
  function Finally(main: RunResult, cleanup: Outcome, ignore: bool): RunResult {
    if cleanup.Fail? && !ignore then Raised(cleanup.msg) else main
  }

  function CleanupConsole(temp: seq<string>, cleanup: Outcome, ignore: bool): seq<string> {
    if cleanup.Fail? && ignore then CleanupReport(temp, cleanup.msg) else []
  }

  /**
   * The temporary resources are the inputs' locations followed by the
   * outputs' locations, all in the temporary folder: one per input and
   * one per wire into a result port.
   */
  lemma TempResourcesLayout(folder: string, req: RunRequest, ports: seq<string>, names: seq<string>, replies: Replies)
    requires Answered(req, ports, names, replies)
    requires !StagingFails(req, replies)
    ensures var temp := TempResources(folder, req, ports, names, replies);
      && |temp| == InputCount(req.inputs) + |ResultWires(ports)|
      && (forall k :: 0 <= k < |temp| ==> temp[k] == folder + names[k])
  {
    var ins := InputLocations(folder, req.inputs, names);
    var outs := OutputLocations(folder, req.inputs, ports, names);
    var temp := TempResources(folder, req, ports, names, replies);
    assert temp == ins + outs;
    forall k | 0 <= k < |temp| ensures temp[k] == folder + names[k] {
      if k >= |ins| {
        assert temp[k] == outs[k - |ins|];
      }
    }
  }

  /** The submitted context lists the staged inputs and the outputs only when there are some. */
  lemma JobContextOmitsEmpty(folder: string, req: RunRequest, ports: seq<string>, names: seq<string>)
    requires InputCount(req.inputs) + |ResultWires(ports)| <= |names|
    ensures var c := JobOf(folder, req, ports, names).context;
      && (c.inputLocations.Some? <==> InputCount(req.inputs) > 0)
      && (c.outputLocations.Some? <==> exists p :: p in ports && StartsWith(p, "result "))
      && (c.macros == req.macros)
  {
    ResultWiresMembers(ports);
    var w := ResultWires(ports);
    if w != [] {
      assert w[0] in w;
    }
  }

  /**
   * A run that completes yields a list with one dataset per wire into a
   * result port, in order, even for one result or none.
   */
  lemma DoneHasOneDatasetPerResult(folder: string, req: RunRequest, ports: seq<string>, names: seq<string>, replies: Replies)
    requires Answered(req, ports, names, replies)
    requires TryResult(folder, req, ports, names, replies).Done?
    ensures var ds := TryResult(folder, req, ports, names, replies).datasets;
      && |ds| == |ResultWires(ports)|
      && forall j :: 0 <= j < |ds| ==> ds[j] == replies.loads[j].content
  {
    var outs := OutputLocations(folder, req.inputs, ports, names);
    assert TryResult(folder, req, ports, names, replies) == CollectResult(outs, replies);
    assert JobResult(replies.polls) == Finished;
    var loaded := LoadResult(outs, replies.loads);
    assert loaded.Ok? && TryResult(folder, req, ports, names, replies).datasets == loaded.value;
    LoadResultMeaning(outs, replies.loads);
  }

  lemma Regroup<T>(a: seq<T>, b: seq<T>, c: seq<T>, d: seq<T>)
    ensures a + (b + c) == a + b + c
    ensures a + (b + c + d) == a + b + c + d
    ensures a + (b + c + []) == a + b + c
  {
  }

  /** A cleanup that succeeds leaves none of the temporary resources in the repository. */
  lemma CleanupLeavesNoTemp(repo: set<string>, ins: seq<string>, stored: nat, temp: seq<string>)
    requires stored <= |ins| <= |temp| && temp[..|ins|] == ins
    ensures (repo + Elems(ins, stored)) - Elems(temp, |temp|) == repo - Elems(temp, |temp|)
  {
    ElemsMembers(ins, stored);
    ElemsMembers(temp, |temp|);
    forall p | p in Elems(ins, stored) ensures p in Elems(temp, |temp|) {
      var j :| 0 <= j < stored && ins[j] == p;
      assert temp[j] == p;
    }
  }

  // ---------------------------------------------------------------------
  // The connector
  // ---------------------------------------------------------------------

  /**
   * A connector to one Server: its user and temporary folder, the paths
   * present in its repository, the requests it has made and the lines it
   * has printed.
   */
  class Server {
    const username: string
    const tempFolder: string
    var repo: set<string>
    var requests: seq<Event>
    var console: seq<string>

    /** `__init__`, without the connection and the web service installation. */
    constructor (username: string, tempfolder: Option<string>, existing: set<string>)
      ensures this.username == username
      ensures tempFolder == TempFolder(tempfolder, username)
      ensures repo == existing && requests == [] && console == []
    {
      this.username := username;
      tempFolder := TempFolder(tempfolder, username);
      repo := existing;
      requests := [];
      console := [];
    }

    /**
     * `write_resource`: the counts must agree before any request is made;
     * then the objects are saved in order until a save is rejected (which
     * raises) or answered with content that `check_for_error` rejects
     * (which returns at once).
     */
    method WriteResource(frames: seq<string>, outputs: seq<string>, responses: seq<Response>) returns (r: Outcome)
      requires |responses| == |outputs|
      modifies this`requests, this`repo
      ensures |frames| != |outputs| ==> r == Fail(COUNT_MISMATCH) && requests == old(requests) && repo == old(repo)
      ensures |frames| == |outputs| ==>
        && requests == old(requests) + SaveEvents(frames, outputs, SavesIssued(responses))
        && repo == old(repo) + Elems(outputs, SavesStored(responses))
        && r == WriteResult(responses)
    {
      if |frames| != |outputs| {
        return Fail(COUNT_MISMATCH);
      }
      ghost var requests0, repo0 := requests, repo;
      var i := 0;
      while i < |frames|
        invariant i <= |frames|
        invariant i + FirstSaveStop(responses[i..]) == FirstSaveStop(responses)
        invariant requests == requests0 + SaveEvents(frames, outputs, i)
        invariant repo == repo0 + Elems(outputs, i)
      {
        SaveStopStep(responses, i);
        Regroup(requests0, SaveEvents(frames, outputs, i), [Save(outputs[i], frames[i])], []);
        requests := requests + [Save(outputs[i], frames[i])];
        var resp := responses[i];
        if resp.status != 200 {
          assert FirstSaveStop(responses) == i;
          return Fail("Failed to save input no. " + Decimal(i) + ", status: " + IntText(resp.status));
        }
        assert repo0 + Elems(outputs, i + 1) == repo0 + Elems(outputs, i) + {outputs[i]};
        repo := repo + {outputs[i]};
        if |resp.content| > 0 && resp.checkError.Some? {
          return Pass;
        }
        i := i + 1;
      }
      r := Pass;
    }

    /**
     * `__wait_for_job`: sleeps, then polls, until a poll is terminal; the
     * model stops when the observed polls run out.
     */
    method WaitForJob(jobid: string, polls: seq<Poll>) returns (r: JobOutcome)
      modifies this`requests
      ensures requests == old(requests) + PollRounds(jobid, PollCount(polls))
      ensures r == JobResult(polls)
    {
      ghost var requests0 := requests;
      var i := 0;
      while i < |polls|
        invariant i <= |polls|
        invariant i + FirstTerminal(polls[i..]) == FirstTerminal(polls)
        invariant requests == requests0 + PollRounds(jobid, i)
      {
        TerminalStep(polls, i);
        Regroup(requests0, PollRounds(jobid, i), [Sleep(POLL_INTERVAL_SECONDS), GetJob(jobid)], []);
        requests := requests + [Sleep(POLL_INTERVAL_SECONDS), GetJob(jobid)];
        var v := Verdict(polls[i]);
        if v != StillPolling {
          return v;
        }
        i := i + 1;
      }
      r := StillPolling;
    }

    /** `read_resource`: loads each path in order; the first failing load raises. */
    method ReadResource(paths: seq<string>, responses: seq<Response>) returns (r: Result<seq<string>>)
      requires |responses| == |paths|
      modifies this`requests
      ensures requests == old(requests) + LoadEvents(paths, LoadsIssued(responses))
      ensures r == LoadResult(paths, responses)
    {
      ghost var requests0 := requests;
      var datasets: seq<string> := [];
      var i := 0;
      while i < |paths|
        invariant i <= |paths|
        invariant i + FirstLoadFailure(responses[i..]) == FirstLoadFailure(responses)
        invariant requests == requests0 + LoadEvents(paths, i)
        invariant datasets == Contents(responses[..i])
      {
        LoadFailureStep(responses, i);
        Regroup(requests0, LoadEvents(paths, i), [Load(paths[i])], []);
        requests := requests + [Load(paths[i])];
        var resp := responses[i];
        if resp.status != 200 {
          assert FirstLoadFailure(responses) == i;
          return Err("Failed to read input \"" + paths[i] + "\", status: " + IntText(resp.status));
        }
        if resp.checkError.Some? {
          assert FirstLoadFailure(responses) == i;
          return Err(resp.checkError.value);
        }
        assert responses[..i + 1][..i] == responses[..i];
        datasets := datasets + [resp.content];
        i := i + 1;
      }
      assert responses[..i] == responses;
      r := Ok(datasets);
    }

    /** `__delete_resource`: deletes each path in order; the first failing delete raises. */
    method DeleteResource(paths: seq<string>, statuses: seq<int>) returns (r: Outcome)
      requires |statuses| == |paths|
      modifies this`requests, this`repo
      ensures requests == old(requests) + DelEvents(paths, DelsIssued(statuses))
      ensures repo == old(repo) - Elems(paths, FirstDelFailure(statuses))
      ensures r == DeleteResult(paths, statuses)
    {
      ghost var requests0, repo0 := requests, repo;
      var i := 0;
      while i < |paths|
        invariant i <= |paths|
        invariant i + FirstDelFailure(statuses[i..]) == FirstDelFailure(statuses)
        invariant requests == requests0 + DelEvents(paths, i)
        invariant repo == repo0 - Elems(paths, i)
      {
        DelFailureStep(statuses, i);
        Regroup(requests0, DelEvents(paths, i), [Del(paths[i])], []);
        requests := requests + [Del(paths[i])];
        if statuses[i] != 200 {
          assert FirstDelFailure(statuses) == i;
          return Fail("Failed to delete path \"" + paths[i] + "\", status: " + IntText(statuses[i]));
        }
        assert repo0 - Elems(paths, i + 1) == repo0 - Elems(paths, i) - {paths[i]};
        repo := repo - {paths[i]};
        i := i + 1;
      }
      r := Pass;
    }

    /** Submitting the job, waiting for it, and reading the results from `outs`. */
    method Collect(job: Job, outs: seq<string>, replies: Replies) returns (r: RunResult)
      requires |replies.loads| == |outs|
      modifies this`requests, this`console
      ensures requests == old(requests) + CollectEvents(job, outs, replies)
      ensures console == old(console) + (if replies.submission.status == 200 then [SubmittedLine(replies.submission.jobid)] else [])
      ensures r == CollectResult(outs, replies)
    {
      ghost var start := requests;
      requests := requests + [Submit(job)];
      if replies.submission.status != 200 {
        return Raised("Failed to submit process, status: " + IntText(replies.submission.status));
      }
      var jobid := replies.submission.jobid;
      console := console + [SubmittedLine(jobid)];
      var waited := WaitForJob(jobid, replies.polls);
      ghost var rounds := PollRounds(jobid, PollCount(replies.polls));
      if waited == Finished {
        var loaded := ReadResource(outs, replies.loads);
        r := if loaded.Err? then Raised(loaded.msg) else Done(loaded.value);
        Regroup(start, [Submit(job)], rounds, LoadEvents(outs, LoadsIssued(replies.loads)));
      } else {
        r := match waited
          case StillPolling => Running
          case PollFailed => Raised(STATUS_CONCAT_ERROR)
          case JobFailed(m) => Raised(m);
        Regroup(start, [Submit(job)], rounds, []);
      }
    }

    /** The staging part of the try block: writing the inputs, when there are any, to their locations. */
    method StageRun(req: RunRequest, names: seq<string>, replies: Replies) returns (staged: Outcome)
      requires InputCount(req.inputs) <= |names| && |replies.saves| == InputCount(req.inputs)
      modifies this`requests, this`repo
      ensures requests == old(requests) + StageEvents(tempFolder, req, names, replies)
      ensures repo == old(repo) + StagedStored(tempFolder, req, names, replies)
      ensures staged.Fail? <==> StagingFails(req, replies)
      ensures staged.Fail? ==> staged == WriteResult(replies.saves)
    {
      if InputCount(req.inputs) == 0 {
        return Pass;
      }
      staged := WriteResource(req.inputs.value, InputLocations(tempFolder, req.inputs, names), replies.saves);
    }

    /** The try block of `run_process`: staging, submitting, waiting and reading. */
    method TryRun(req: RunRequest, ports: seq<string>, names: seq<string>, replies: Replies)
      returns (main: RunResult, temp: seq<string>)
      requires Answered(req, ports, names, replies)
      modifies this`requests, this`repo, this`console
      ensures temp == TempResources(tempFolder, req, ports, names, replies)
      ensures main == TryResult(tempFolder, req, ports, names, replies)
      ensures requests == old(requests) + TryEvents(tempFolder, req, ports, names, replies)
      ensures repo == old(repo) + StagedStored(tempFolder, req, names, replies)
      ensures console == old(console) + TryConsole(req, replies)
    {
      var ins := InputLocations(tempFolder, req.inputs, names);
      var staged := StageRun(req, names, replies);
      if staged.Fail? {
        return Raised(staged.msg), ins;
      }
      var outs := OutputLocations(tempFolder, req.inputs, ports, names);
      temp := ins + outs;
      var job := JobOf(tempFolder, req, ports, names);
      main := Collect(job, outs, replies);
      Regroup(old(requests), StageEvents(tempFolder, req, names, replies), CollectEvents(job, outs, replies), []);
    }

    /** The `finally` clause of `run_process`: deleting the temporary resources. */
    method Cleanup(temp: seq<string>, statuses: seq<int>, ignore: bool, main: RunResult) returns (r: RunResult)
      requires |statuses| == |temp|
      modifies this`requests, this`repo, this`console
      ensures requests == old(requests) + DelEvents(temp, DelsIssued(statuses))
      ensures repo == old(repo) - Elems(temp, FirstDelFailure(statuses))
      ensures console == old(console) + CleanupConsole(temp, DeleteResult(temp, statuses), ignore)
      ensures r == Finally(main, DeleteResult(temp, statuses), ignore)
    {
      var deleted := DeleteResource(temp, statuses);
      if deleted.Fail? && ignore {
        console := console + CleanupReport(temp, deleted.msg);
      }
      r := if deleted.Fail? && !ignore then Raised(deleted.msg) else main;
    }

    /**
     * `run_process`: reads the process, then runs the try block and,
     * once it has ended, the cleanup; a run whose job is still being
     * polled has not reached its cleanup.
     */
    method RunProcess(req: RunRequest, ports: seq<string>, names: seq<string>, replies: Replies) returns (r: RunResult)
      requires Answered(req, ports, names, replies)
      modifies this`requests, this`repo, this`console
      ensures replies.processStatus != 200 ==>
        && r == Raised("Failed to get process \"" + req.path + "\", status: " + IntText(replies.processStatus))
        && requests == old(requests) + [GetProcess(req.path)]
        && repo == old(repo) && console == old(console)
      ensures replies.processStatus == 200 ==>
        var temp := TempResources(tempFolder, req, ports, names, replies);
        var main := TryResult(tempFolder, req, ports, names, replies);
        var statuses := replies.deletes[..|temp|];
        var staged := old(repo) + StagedStored(tempFolder, req, names, replies);
        var tried := old(requests) + [GetProcess(req.path)] + TryEvents(tempFolder, req, ports, names, replies);
        var printed := old(console) + TryConsole(req, replies);
        if main == Running then
          r == Running && requests == tried && repo == staged && console == printed
        else
          && r == Finally(main, DeleteResult(temp, statuses), IgnoresCleanupErrors(req.ignoreCleanupErrors))
          && requests == tried + DelEvents(temp, DelsIssued(statuses))
          && repo == staged - Elems(temp, FirstDelFailure(statuses))
          && console == printed + CleanupConsole(temp, DeleteResult(temp, statuses), IgnoresCleanupErrors(req.ignoreCleanupErrors))
    {
      requests := requests + [GetProcess(req.path)];
      if replies.processStatus != 200 {
        return Raised("Failed to get process \"" + req.path + "\", status: " + IntText(replies.processStatus));
      }
      var main, temp := TryRun(req, ports, names, replies);
      if main == Running {
        return Running;
      }
      r := Cleanup(temp, replies.deletes[..|temp|], IgnoresCleanupErrors(req.ignoreCleanupErrors), main);
    }
  }
}
