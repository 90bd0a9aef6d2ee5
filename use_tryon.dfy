/** The client hook of hooks/useTryOn.ts: start a try-on, then poll its
    status once a second, at most 60 times, stopping at the first finished
    job, the first failed request or the 60th poll. Unlike the provider's
    loop there is no retry: any error ends the polling. The requests are
    replaced by what each one returned. */
module UseTryOn {
  import opened Base
  import opened Records

  const MAX_POLLS: nat := 60
  const START_FAILED := "Failed to generate try-on"
  const FETCH_FAILED := "Failed to fetch try-on"
  const GENERATION_FAILED := "Generation failed"
  const GENERATION_TIMEOUT := "Generation timeout"

  /** What `POST /api/tryon` produced: an exception (network or JSON), or a
      response with its OK flag, its `error` field and its `tryOnId`. */
  datatype StartOutcome =
    | StartThrew(message: string)
    | StartResponse(ok: bool, error: Option<string>, tryOnId: string)

  /** What one `GET /api/tryon/:id` produced. */
  datatype PollOutcome =
    | PollThrew(message: string)
    | PollNotOk(error: Option<string>)
    | Observed(job: TryOn)

  /** How one tick of the interval ends. */
  datatype Tick = Resolved(job: TryOn) | Rejected(message: string) | Pending

  function TickOf(o: PollOutcome): (t: Tick)
    ensures t.Resolved? <==> o.Observed? && o.job.status == SUCCESS
    ensures t.Pending? <==> o.Observed? && o.job.status != SUCCESS && o.job.status != FAILED
  {
    match o
    case PollThrew(m) => Rejected(m)
    case PollNotOk(e) => Rejected(OrElse(e, FETCH_FAILED))
    case Observed(job) =>
      if job.status == SUCCESS then Resolved(job)
      else if job.status == FAILED then Rejected(OrElse(job.errorMessage, GENERATION_FAILED))
      else Pending
  }

  /** The promise's outcome once `attempts` ticks have passed without settling it. */
  function PollFrom(polls: seq<PollOutcome>, attempts: nat): (r: Result<TryOn, string>)
    requires attempts < MAX_POLLS <= |polls|
    ensures r.Ok? ==> r.value.status == SUCCESS && exists j :: attempts <= j < MAX_POLLS && polls[j] == Observed(r.value)
    decreases MAX_POLLS - attempts
  {
    match TickOf(polls[attempts])
    case Resolved(job) => Ok(job)
    case Rejected(m) => Err(m)
    case Pending => if attempts + 1 >= MAX_POLLS then Err(GENERATION_TIMEOUT) else PollFrom(polls, attempts + 1)
  }

  /** The first poll at or after `from` that settles the promise (independent of the loop). */
  function FirstSettling(polls: seq<PollOutcome>, from: nat): (r: Option<nat>)
    requires from <= MAX_POLLS <= |polls|
    ensures r.Some? ==> from <= r.value < MAX_POLLS && !TickOf(polls[r.value]).Pending?
    ensures forall j :: from <= j < MAX_POLLS && (r.None? || j < r.value) ==> TickOf(polls[j]).Pending?
    decreases MAX_POLLS - from
  {
    if from == MAX_POLLS then None
    else if !TickOf(polls[from]).Pending? then Some(from)
    else FirstSettling(polls, from + 1)
  }

  /** The number of status requests made. */
  function PollsMade(polls: seq<PollOutcome>): nat
    requires MAX_POLLS <= |polls|
  {
    match FirstSettling(polls, 0)
    case Some(i) => i + 1
    case None => MAX_POLLS
  }

  /** The last job record a poll showed, or `init` if none did. */
  function LastSeen(init: Option<TryOn>, polls: seq<PollOutcome>): Option<TryOn>
  {
    if polls == [] then init
    else match polls[|polls| - 1]
      case Observed(job) => Some(job)
      case _ => LastSeen(init, polls[..|polls| - 1])
  }

  /** One more poll: a job record it shows replaces the last one seen. */
  lemma LastSeenStep(init: Option<TryOn>, polls: seq<PollOutcome>, k: nat)
    requires k < |polls|
    ensures LastSeen(init, polls[..k + 1]) == if polls[k].Observed? then Some(polls[k].job) else LastSeen(init, polls[..k])
  {
    assert polls[..k + 1][..k] == polls[..k];
  }

  /** The outcome in closed form: the first poll that is not a pending job
      decides, whatever it is (a finished job, a failed job, a failed request);
      only 60 pending jobs give the timeout. */
  lemma {:induction false} PollFromCharacterised(polls: seq<PollOutcome>, attempts: nat)
    requires attempts < MAX_POLLS <= |polls|
    ensures FirstSettling(polls, attempts).Some? ==>
      var i := FirstSettling(polls, attempts).value;
      PollFrom(polls, attempts) == (match TickOf(polls[i]) case Resolved(job) => Ok(job) case Rejected(m) => Err(m) case Pending => Err(""))
    ensures FirstSettling(polls, attempts).None? ==> PollFrom(polls, attempts) == Err(GENERATION_TIMEOUT)
    decreases MAX_POLLS - attempts
  {
    if attempts + 1 < MAX_POLLS {
      PollFromCharacterised(polls, attempts + 1);
    }
  }

  /** A failed request is never retried: if the first poll that is not a
      pending job is an exception, that exception is the outcome. */
  lemma NoRetry(polls: seq<PollOutcome>, i: nat, m: string)
    requires i < MAX_POLLS <= |polls| && polls[i] == PollThrew(m)
    requires forall j :: 0 <= j < i ==> TickOf(polls[j]).Pending?
    ensures PollFrom(polls, 0) == Err(m)
    ensures PollsMade(polls) == i + 1
  {
    assert FirstSettling(polls, 0) == Some(i) by {
      var r := FirstSettling(polls, 0);
      assert r.Some?;
    }
    PollFromCharacterised(polls, 0);
  }

  /** The state of the hook: the `useState` cells. */
  class TryOnHook {
    var loading: bool
    var error: Option<string>
    var tryOn: Option<TryOn>

    constructor ()
      ensures !loading && error.None? && tryOn.None?
    {
      loading := false;
      error := None;
      tryOn := None;
    }

    /** `pollTryOnResult(tryOnId)`: `polls[i]` is what the i-th tick's request returns. */
    method PollTryOnResult(polls: seq<PollOutcome>) returns (r: Result<TryOn, string>, made: nat)
      requires MAX_POLLS <= |polls|
      modifies this`tryOn
      ensures r == PollFrom(polls, 0)
      ensures made == PollsMade(polls) && 1 <= made <= MAX_POLLS
      ensures tryOn == LastSeen(old(tryOn), polls[..made])
    {
      var attempts: nat := 0;
      while true
        invariant attempts < MAX_POLLS
        invariant PollFrom(polls, 0) == PollFrom(polls, attempts)
        invariant FirstSettling(polls, 0) == FirstSettling(polls, attempts)
        invariant tryOn == LastSeen(old(tryOn), polls[..attempts])
        decreases MAX_POLLS - attempts
      {
        var outcome := polls[attempts];
        LastSeenStep(old(tryOn), polls, attempts);
        attempts := attempts + 1;
        match outcome {
          case PollThrew(m) =>
            return Err(m), attempts;
          case PollNotOk(e) =>
            return Err(OrElse(e, FETCH_FAILED)), attempts;
          case Observed(job) =>
            tryOn := Some(job);
            if job.status == SUCCESS {
              return Ok(job), attempts;
            } else if job.status == FAILED {
              return Err(OrElse(job.errorMessage, GENERATION_FAILED)), attempts;
            }
        }
        if attempts >= MAX_POLLS {
          return Err(GENERATION_TIMEOUT), attempts;
        }
      }
    }

    /** `generateTryOn(person, cloth)`: the started job's id, or the message it throws. */
    method GenerateTryOn(start: StartOutcome, polls: seq<PollOutcome>) returns (r: Result<string, string>, made: nat)
      requires MAX_POLLS <= |polls|
      modifies this
      ensures r == Generate(start, polls)
      ensures !loading
      ensures r.Ok? ==> error.None?
      ensures r.Err? ==> error == Some(r.error)
      ensures StartId(start).Err? ==> made == 0 && tryOn == old(tryOn)
      ensures StartId(start).Ok? ==> made == PollsMade(polls) && tryOn == LastSeen(old(tryOn), polls[..made])
    {
      loading := true;
      error := None;
      var id := StartId(start);
      if id.Err? {
        error := Some(id.error);
        loading := false;
        return Err(id.error), 0;
      }
      var job;
      job, made := PollTryOnResult(polls);
      if job.Err? {
        error := Some(job.error);
        r := Err(job.error);
      } else {
        r := Ok(id.value);
      }
      loading := false;
    }
  }

  /** The start request: the job id, or the error it throws. */
  function StartId(start: StartOutcome): (r: Result<string, string>)
    ensures r.Ok? <==> start.StartResponse? && start.ok
  {
    match start
    case StartThrew(m) => Err(m)
    case StartResponse(ok, e, id) => if ok then Ok(id) else Err(OrElse(e, START_FAILED))
  }

  /** The outcome of `generateTryOn`: the job id once polling resolves. */
  function Generate(start: StartOutcome, polls: seq<PollOutcome>): (r: Result<string, string>)
    requires MAX_POLLS <= |polls|
    ensures r.Ok? <==> StartId(start).Ok? && PollFrom(polls, 0).Ok?
    ensures r.Ok? ==> r.value == start.tryOnId
  {
    match StartId(start)
    case Err(m) => Err(m)
    case Ok(id) =>
      match PollFrom(polls, 0)
      case Err(m) => Err(m)
      case Ok(_) => Ok(id)
  }

  /** A generation succeeds exactly when some poll among the first 60 shows the
      job finished and every earlier poll showed it still pending. */
  lemma {:induction false} SucceedsIffFinishedFirst(start: StartOutcome, polls: seq<PollOutcome>)
    requires MAX_POLLS <= |polls| && StartId(start).Ok?
    ensures Generate(start, polls).Ok? <==>
      exists i :: 0 <= i < MAX_POLLS && polls[i].Observed? && polls[i].job.status == SUCCESS
        && forall j :: 0 <= j < i ==> TickOf(polls[j]).Pending?
  {
    PollFromCharacterised(polls, 0);
    var f := FirstSettling(polls, 0);
    if f.Some? {
      var i := f.value;
      forall k | 0 <= k < MAX_POLLS && polls[k].Observed? && polls[k].job.status == SUCCESS
        && (forall j :: 0 <= j < k ==> TickOf(polls[j]).Pending?)
        ensures k == i
      {
      }
    } else {
      forall k | 0 <= k < MAX_POLLS ensures !(polls[k].Observed? && polls[k].job.status == SUCCESS) {
        assert TickOf(polls[k]).Pending?;
      }
    }
  }
}
