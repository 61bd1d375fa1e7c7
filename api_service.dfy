/** The client's request layer: the stored token, the default headers, the
    merge with the caller's headers, and the retry policy of `makeRequest`.
    `fetch` is not modelled; a request is given the reply each attempt would
    receive, as a function from the attempt number (0 for the first) to the
    reply, and the waits between attempts are returned rather than slept. */
module ApiService {
  import opened Http
  import opened Text

  const MaxRetries: nat := 3
  const BaseDelay: nat := 1000
  const ContentType: string := "Content-Type"
  const Authorization: string := "Authorization"
  const JsonMediaType: string := "application/json"
  const HttpErrorPrefix: string := "HTTP Error: "

  /** A parsed JSON body: its `message` property, and the rest of it. */
  datatype Json = Json(message: Option<string>, rest: string)

  /** `{}`, the body used when an error response is not JSON. */
  const EmptyJson: Json := Json(None, "")

  /** What one `fetch` produced: a rejection (network failure) or a response
      with its status and body, `None` when the body is not JSON. */
  datatype Reply = NetworkFailure | Response(status: nat, body: Option<Json>)

  datatype ApiResponse = ApiResponse(data: Option<Json>, status: nat)
  datatype ApiError = ApiError(message: string, status: nat, details: Json)

  /** What an attempt throws: an `ApiError` built from an error response, or
      something without a `status` (a rejected fetch, a body that does not parse). */
  datatype Failure = Raised(error: ApiError) | Unclassified

  datatype Attempt = Succeeded(response: ApiResponse) | Threw(failure: Failure)

  predicate IsOk(status: nat) {
    200 <= status <= 299
  }

  /** The outcome of one attempt. */
  function Classify(reply: Reply): (a: Attempt)
    ensures reply.NetworkFailure? ==> a == Threw(Unclassified)
    ensures reply.Response? && IsOk(reply.status) && reply.status == 204 ==> a == Succeeded(ApiResponse(None, 204))
    ensures reply.Response? && IsOk(reply.status) && reply.status != 204 ==>
      a == if reply.body.Some? then Succeeded(ApiResponse(reply.body, reply.status)) else Threw(Unclassified)
    ensures reply.Response? && !IsOk(reply.status) ==>
      var details := if reply.body.Some? then reply.body.value else EmptyJson;
      && a.Threw? && a.failure.Raised?
      && a.failure.error.status == reply.status
      && a.failure.error.details == details
      && a.failure.error.message ==
           if details.message.Some? && details.message.value != "" then details.message.value
           else HttpErrorPrefix + NatToString(reply.status)
    ensures a.Succeeded? ==> reply.Response? && IsOk(reply.status) && a.response.status == reply.status
  {
    match reply
    case NetworkFailure => Threw(Unclassified)
    case Response(status, body) =>
      if IsOk(status) then
        if status == 204 then Succeeded(ApiResponse(None, status))
        else if body.Some? then Succeeded(ApiResponse(body, status))
        else Threw(Unclassified)
      else
        var errorData := IfDefined(body, EmptyJson);
        Threw(Raised(ApiError(OrElse(errorData.message, HttpErrorPrefix + NatToString(status)), status, errorData)))
  }

  /** A 4xx error is thrown at once; every other failure may be retried. */
  predicate IsClientError(f: Failure) {
    f.Raised? && 400 <= f.error.status < 500
  }

  predicate Final(a: Attempt, retries: nat) {
    a.Succeeded? || IsClientError(a.failure) || retries == 0
  }

  /** The wait before retrying with `retries` retries left. */
  function RetryDelay(retries: nat): (d: nat)
    requires 1 <= retries <= MaxRetries
    ensures BaseDelay <= d <= BaseDelay * MaxRetries
    ensures retries == MaxRetries ==> d == BaseDelay
    ensures retries == 1 ==> d == BaseDelay * MaxRetries
  {
    BaseDelay * (MaxRetries - retries + 1)
  }

  /** The attempts made, what the request answers, and the waits between attempts. */
  datatype Trace = Trace(result: Attempt, attempts: nat, delays: seq<nat>)

  /** `makeRequest` as written: attempt `k` with `retries` retries left. */
  function RequestSpec(reply: nat -> Reply, k: nat, retries: nat): (t: Trace)
    requires retries <= MaxRetries
    ensures t.attempts >= 1 && |t.delays| == t.attempts - 1
    ensures t.result.Succeeded? || IsClientError(t.result.failure) || t.attempts == retries + 1
    decreases retries
  {
    var a := Classify(reply(k));
    if Final(a, retries) then Trace(a, 1, [])
    else
      var rest := RequestSpec(reply, k + 1, retries - 1);
      Trace(rest.result, rest.attempts + 1, [RetryDelay(retries)] + rest.delays)
  }

  lemma RetryStep(reply: nat -> Reply, k: nat, retries: nat)
    requires retries <= MaxRetries && !Final(Classify(reply(k)), retries)
    ensures var t, rest := RequestSpec(reply, k, retries), RequestSpec(reply, k + 1, retries - 1);
      t == Trace(rest.result, rest.attempts + 1, [RetryDelay(retries)] + rest.delays)
  {
  }

  /** A trace continued after the waits `delays` already taken. */
  function Resume(delays: seq<nat>, rest: Trace): Trace {
    Trace(rest.result, |delays| + rest.attempts, delays + rest.delays)
  }

  lemma ResumeStep(delays: seq<nat>, d: nat, rest: Trace)
    ensures Resume(delays, Trace(rest.result, rest.attempts + 1, [d] + rest.delays)) == Resume(delays + [d], rest)
  {
    assert delays + ([d] + rest.delays) == (delays + [d]) + rest.delays;
  }

  /** At most one attempt more than there are retries, and one wait between
      each two attempts. */
  lemma {:induction false} AttemptsBounded(reply: nat -> Reply, k: nat, retries: nat)
    requires retries <= MaxRetries
    ensures 1 <= RequestSpec(reply, k, retries).attempts <= retries + 1
    ensures |RequestSpec(reply, k, retries).delays| == RequestSpec(reply, k, retries).attempts - 1
    decreases retries
  {
    if !Final(Classify(reply(k)), retries) {
      AttemptsBounded(reply, k + 1, retries - 1);
    }
  }

  /** From the first attempt, the i-th wait (counting from 0) is 1000·(i+1) ms. */
  lemma {:induction false} DelaySchedule(reply: nat -> Reply, k: nat, retries: nat)
    requires retries <= MaxRetries
    ensures forall i :: 0 <= i < |RequestSpec(reply, k, retries).delays| ==>
      RequestSpec(reply, k, retries).delays[i] == BaseDelay * (MaxRetries - retries + 1 + i)
    decreases retries
  {
    if !Final(Classify(reply(k)), retries) {
      DelaySchedule(reply, k + 1, retries - 1);
    }
  }

  /** The answer is the outcome of the last attempt, and every attempt before
      it failed with something other than a client error. */
  lemma {:induction false} ResultIsLastAttempt(reply: nat -> Reply, k: nat, retries: nat)
    requires retries <= MaxRetries
    ensures var t := RequestSpec(reply, k, retries);
      && t.attempts >= 1
      && t.result == Classify(reply(k + t.attempts - 1))
      && forall j :: k <= j < k + t.attempts - 1 ==> Classify(reply(j)).Threw? && !IsClientError(Classify(reply(j)).failure)
    decreases retries
  {
    if !Final(Classify(reply(k)), retries) {
      ResultIsLastAttempt(reply, k + 1, retries - 1);
    }
  }

  /** A client error on the first attempt is the answer, with no retry. */
  lemma ClientErrorNotRetried(reply: nat -> Reply)
    requires Classify(reply(0)).Threw? && IsClientError(Classify(reply(0)).failure)
    ensures RequestSpec(reply, 0, MaxRetries) == Trace(Classify(reply(0)), 1, [])
  {
  }

  /** When every reply is a server error, the request is tried four times,
      waits 1, 2 and 3 seconds, and answers the last error. */
  lemma PersistentFailure(reply: nat -> Reply)
    requires forall j :: Classify(reply(j)).Threw? && !IsClientError(Classify(reply(j)).failure)
    ensures RequestSpec(reply, 0, MaxRetries) == Trace(Classify(reply(3)), 4, [1000, 2000, 3000])
  {
    assert !Final(Classify(reply(0)), 3);
    assert !Final(Classify(reply(1)), 2);
    assert !Final(Classify(reply(2)), 1);
  }

  /** `{ ...defaults, ...given }`: a header the caller gives replaces the default. */
  function MergeHeaders(defaults: map<string, string>, given: map<string, string>): (r: map<string, string>)
    ensures r.Keys == defaults.Keys + given.Keys
    ensures forall h :: h in given ==> r[h] == given[h]
    ensures forall h :: h in defaults && h !in given ==> r[h] == defaults[h]
  {
    defaults + given
  }

  class ApiClient {
    var token: Option<string>

    constructor ()
      ensures token == None
    {
      token := None;
    }

    /** `setToken`. */
    method SetToken(t: Option<string>)
      modifies this
      ensures token == t
    {
      token := t;
    }

    /** `getHeaders`. */
    function Headers(): (h: map<string, string>)
      reads this
      ensures ContentType in h && h[ContentType] == JsonMediaType
      ensures Authorization in h <==> Truthy(token)
      ensures Authorization in h ==> h[Authorization] == "Bearer " + token.value
      ensures h.Keys <= {ContentType, Authorization}
    {
      var headers := map[ContentType := JsonMediaType];
      if Truthy(token) then headers[Authorization := "Bearer " + token.value] else headers
    }

    /** `makeRequest` with the default number of retries: the headers sent
        with every attempt, and the trace of the attempts. */
    method MakeRequest(given: map<string, string>, reply: nat -> Reply) returns (sent: map<string, string>, t: Trace)
      ensures sent == MergeHeaders(Headers(), given)
      ensures t == RequestSpec(reply, 0, MaxRetries)
    {
      sent := MergeHeaders(Headers(), given);
      var k: nat := 0;
      var retries: nat := MaxRetries;
      var delays: seq<nat> := [];
      var a := Classify(reply(k));
      while !Final(a, retries)
        invariant k + retries == MaxRetries && |delays| == k
        invariant a == Classify(reply(k))
        invariant RequestSpec(reply, 0, MaxRetries) == Resume(delays, RequestSpec(reply, k, retries))
        decreases retries
      {
        RetryStep(reply, k, retries);
        ResumeStep(delays, RetryDelay(retries), RequestSpec(reply, k + 1, retries - 1));
        delays := delays + [RetryDelay(retries)];
        k := k + 1;
        retries := retries - 1;
        a := Classify(reply(k));
      }
      assert delays + [] == delays;
      t := Trace(a, k + 1, delays);
    }
  }
}
