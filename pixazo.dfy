/** The generation gateway of lib/ai/pixazo-vton.ts: create a provider task,
    then poll its status up to 60 times, retrying after any error inside an
    attempt, and wrap every error that leaves the gateway with a fixed prefix.
    The network is replaced by the outcome of each request. */
module Pixazo {
  import opened Base
  import opened Text

  const MAX_ATTEMPTS: nat := 60
  const POLL_INTERVAL_MS: nat := 3000
  /** The estimated cost of one generation, in cents (0.05 USD). */
  const COST_PER_GENERATION_CENTS: int := 5

  const TIMEOUT_MESSAGE := "Pixazo task timeout after 3 minutes"
  const TASK_FAILED_MESSAGE := "Pixazo task failed"
  const NO_TASK_ID_MESSAGE := "No task_id returned from Pixazo API"
  const ERROR_PREFIX := "Virtual try-on generation failed: "

  /** What one status request produced: an exception (network or JSON), a
      non-OK HTTP status, or a task report with the first image URL, if any. */
  datatype PollOutcome =
    | PollThrew(message: string)
    | PollHttpError(status: nat)
    | TaskReport(taskStatus: string, firstImageUrl: Option<string>)

  /** What the task-creation request produced. */
  datatype CreateOutcome =
    | CreateThrew(message: string)
    | CreateResponse(status: nat, body: string, taskId: Option<string>)

  /** How one attempt of the poll loop ends: with the image, with an error
      thrown inside the `try`, or by falling through to the next attempt. */
  datatype Step = Done(url: string) | Threw(message: string) | KeepWaiting

  datatype Generated = Generated(imageUrl: string, processingTime: int)

  /** The body of the `try` block for one attempt. */
  function AttemptStep(o: PollOutcome): (s: Step)
    ensures s.Done? ==> o.TaskReport? && o.taskStatus == "succeed" && s.url != ""
  {
    match o
    case PollThrew(m) => Threw(m)
    case PollHttpError(status) => Threw("Poll failed: " + NatToString(status))
    case TaskReport(taskStatus, url) =>
      if taskStatus == "succeed" && url.Some? && url.value != "" then Done(url.value)
      else if taskStatus == "failed" then Threw(TASK_FAILED_MESSAGE)
      else KeepWaiting
  }

  /** The result of the poll loop entered at attempt `attempt`. */
  function PollFrom(outcomes: seq<PollOutcome>, attempt: nat): (r: Result<string, string>)
    requires attempt <= MAX_ATTEMPTS <= |outcomes|
    ensures r.Ok? ==> r.value != "" && exists j :: attempt <= j < MAX_ATTEMPTS && AttemptStep(outcomes[j]) == Done(r.value)
    ensures r.Err? && r.error != TIMEOUT_MESSAGE ==> AttemptStep(outcomes[MAX_ATTEMPTS - 1]) == Threw(r.error)
    decreases MAX_ATTEMPTS - attempt
  {
    if attempt == MAX_ATTEMPTS then Err(TIMEOUT_MESSAGE)
    else match AttemptStep(outcomes[attempt])
      case Done(url) => Ok(url)
      case Threw(m) => if attempt == MAX_ATTEMPTS - 1 then Err(m) else PollFrom(outcomes, attempt + 1)
      case KeepWaiting => PollFrom(outcomes, attempt + 1)
  }

  /** The first attempt at or after `from` that finds the image (independent of the loop). */
  function FirstDone(outcomes: seq<PollOutcome>, from: nat): (r: Option<nat>)
    requires from <= MAX_ATTEMPTS <= |outcomes|
    ensures r.Some? ==> from <= r.value < MAX_ATTEMPTS && AttemptStep(outcomes[r.value]).Done?
    ensures forall j :: from <= j < MAX_ATTEMPTS && (r.None? || j < r.value) ==> !AttemptStep(outcomes[j]).Done?
    decreases MAX_ATTEMPTS - from
  {
    if from == MAX_ATTEMPTS then None
    else if AttemptStep(outcomes[from]).Done? then Some(from)
    else FirstDone(outcomes, from + 1)
  }

  /** The number of status requests the loop makes. */
  function PollsMade(outcomes: seq<PollOutcome>): nat
    requires MAX_ATTEMPTS <= |outcomes|
  {
    match FirstDone(outcomes, 0)
    case Some(i) => i + 1
    case None => MAX_ATTEMPTS
  }

  /** The outcome of the loop in closed form: the first image found wins; if
      none is found, the error of the last attempt is rethrown as it is, and
      only a last attempt that threw nothing gives the timeout error. */
  lemma {:induction false} PollFromCharacterised(outcomes: seq<PollOutcome>, attempt: nat)
    requires attempt <= MAX_ATTEMPTS <= |outcomes|
    ensures FirstDone(outcomes, attempt).Some? ==>
      PollFrom(outcomes, attempt) == Ok(AttemptStep(outcomes[FirstDone(outcomes, attempt).value]).url)
    ensures FirstDone(outcomes, attempt).None? && AttemptStep(outcomes[MAX_ATTEMPTS - 1]).Threw? && attempt < MAX_ATTEMPTS ==>
      PollFrom(outcomes, attempt) == Err(AttemptStep(outcomes[MAX_ATTEMPTS - 1]).message)
    ensures FirstDone(outcomes, attempt).None? && (!AttemptStep(outcomes[MAX_ATTEMPTS - 1]).Threw? || attempt == MAX_ATTEMPTS) ==>
      PollFrom(outcomes, attempt) == Err(TIMEOUT_MESSAGE)
    decreases MAX_ATTEMPTS - attempt
  {
    if attempt < MAX_ATTEMPTS {
      PollFromCharacterised(outcomes, attempt + 1);
    }
  }

  /** `pollTaskResult(taskId)`: `outcomes[i]` is what the i-th status request returns. */
  method PollTaskResult(outcomes: seq<PollOutcome>) returns (r: Result<string, string>, polls: nat)
    requires MAX_ATTEMPTS <= |outcomes|
    ensures r == PollFrom(outcomes, 0)
    ensures polls == PollsMade(outcomes) && polls <= MAX_ATTEMPTS
  {
    var attempt: nat := 0;
    while attempt < MAX_ATTEMPTS
      invariant attempt <= MAX_ATTEMPTS
      invariant PollFrom(outcomes, 0) == PollFrom(outcomes, attempt)
      invariant FirstDone(outcomes, 0) == FirstDone(outcomes, attempt)
    {
      var step := AttemptStep(outcomes[attempt]);
      match step {
        case Done(url) =>
          return Ok(url), attempt + 1;
        case Threw(m) =>
          if attempt == MAX_ATTEMPTS - 1 {
            return Err(m), attempt + 1;
          }
        case KeepWaiting =>
      }
      attempt := attempt + 1;
    }
    r, polls := Err(TIMEOUT_MESSAGE), MAX_ATTEMPTS;
  }

  /** `Math.round((end - start) / 1000)`: whole seconds, halves rounded up. */
  function RoundedSeconds(elapsedMs: int): (s: int)
    ensures s * 1000 - 500 <= elapsedMs < s * 1000 + 500
  {
    (elapsedMs + 500) / 1000
  }

  /** The error that leaves `generateVirtualTryOn` for an inner error message. */
  function Wrapped(m: string): (e: string)
    ensures ERROR_PREFIX <= e
  {
    ERROR_PREFIX + MessageOr(m, "Unknown error")
  }

  /** The creation step: the task id, or the error it throws. */
  function CreateTask(create: CreateOutcome): (r: Result<string, string>)
    ensures r.Ok? ==> create.CreateResponse? && 200 <= create.status < 300 && r.value != ""
  {
    match create
    case CreateThrew(m) => Err(m)
    case CreateResponse(status, body, taskId) =>
      if !(200 <= status < 300) then Err("Pixazo API error: " + NatToString(status) + " - " + body)
      else if !Truthy(taskId) then Err(NO_TASK_ID_MESSAGE)
      else Ok(taskId.value)
  }

  /** The result of `generateVirtualTryOn` started at `start` and returning at `end`. */
  function Generation(create: CreateOutcome, outcomes: seq<PollOutcome>, start: int, end: int): (r: Result<Generated, string>)
    requires MAX_ATTEMPTS <= |outcomes|
    ensures r.Err? ==> ERROR_PREFIX <= r.error
    ensures r.Ok? ==> CreateTask(create).Ok? && PollFrom(outcomes, 0) == Ok(r.value.imageUrl)
    ensures r.Ok? ==> r.value.processingTime == RoundedSeconds(end - start)
    ensures CreateTask(create).Err? ==> r == Err(Wrapped(CreateTask(create).error))
    ensures CreateTask(create).Ok? && PollFrom(outcomes, 0).Err? ==> r == Err(Wrapped(PollFrom(outcomes, 0).error))
    ensures CreateTask(create).Ok? && PollFrom(outcomes, 0).Ok? ==>
      r == Ok(Generated(PollFrom(outcomes, 0).value, RoundedSeconds(end - start)))
  {
    match CreateTask(create)
    case Err(m) => Err(Wrapped(m))
    case Ok(_) =>
      match PollFrom(outcomes, 0)
      case Err(m) => Err(Wrapped(m))
      case Ok(url) => Ok(Generated(url, RoundedSeconds(end - start)))
  }

  /** `generateVirtualTryOn`: no status request is made when creation fails. */
  method GenerateVirtualTryOn(create: CreateOutcome, outcomes: seq<PollOutcome>, start: int, end: int)
    returns (r: Result<Generated, string>, polls: nat)
    requires MAX_ATTEMPTS <= |outcomes|
    ensures r == Generation(create, outcomes, start, end)
    ensures CreateTask(create).Err? ==> polls == 0
    ensures CreateTask(create).Ok? ==> polls == PollsMade(outcomes)
  {
    var task := CreateTask(create);
    if task.Err? {
      return Err(ERROR_PREFIX + MessageOr(task.error, "Unknown error")), 0;
    }
    var url;
    url, polls := PollTaskResult(outcomes);
    if url.Err? {
      return Err(ERROR_PREFIX + MessageOr(url.error, "Unknown error")), polls;
    }
    r := Ok(Generated(url.value, (end - start + 500) / 1000));
  }

  /** If every attempt reports a pending task, the gateway fails with the timeout. */
  lemma {:induction false} AllPendingTimesOut(create: CreateOutcome, outcomes: seq<PollOutcome>, start: int, end: int)
    requires MAX_ATTEMPTS <= |outcomes|
    requires CreateTask(create).Ok?
    requires forall i :: 0 <= i < MAX_ATTEMPTS ==> AttemptStep(outcomes[i]) == KeepWaiting
    ensures Generation(create, outcomes, start, end) == Err(ERROR_PREFIX + TIMEOUT_MESSAGE)
    ensures PollsMade(outcomes) == MAX_ATTEMPTS
  {
    PollFromCharacterised(outcomes, 0);
  }
}
