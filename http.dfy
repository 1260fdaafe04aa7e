/** What the service modules (the files under pdfier/src/services) share: the JSON values
    a response body parses to, the requests sent, what one `fetch` can come
    back with, the errors thrown, and the loop that tries candidate URLs in
    order until one answers acceptably. `fetch` itself is a parameter of the
    services (a function from request to outcome), so nothing here talks to a
    network. */
module Http {
  import opened Wrappers

  // ---------------------------------------------------------------------------
  // JSON bodies

  /** A parsed JSON value. Numbers are kept as integers: no service looks at them. */
  datatype Json =
    | JNull
    | JBool(b: bool)
    | JNum(n: int)
    | JStr(s: string)
    | JArr(items: seq<Json>)
    | JObj(fields: map<string, Json>)

  /** `data && Array.isArray(data.data)`: an object whose `data` member is an array.
      (A falsy `data` and an object without `data` both fail the test.) */
  predicate HasDataArray(j: Json) {
    j.JObj? && "data" in j.fields && j.fields["data"].JArr?
  }

  /** The two body shapes the list services accept: a bare array, or `{data: array}`. */
  predicate IsListBody(j: Json) {
    j.JArr? || HasDataArray(j)
  }

  /** The list a list-shaped body carries: the array itself, or its `data` member. */
  function ListItems(j: Json): (items: seq<Json>)
    requires IsListBody(j)
    ensures j.JArr? ==> items == j.items
    ensures !j.JArr? ==> JArr(items) == j.fields["data"]
  {
    if j.JArr? then j.items else j.fields["data"].items
  }

  /** `Array.isArray(x) ? x : []`, the guard of the two list setters in the stores. */
  function ArrayOrEmpty(j: Json): (items: seq<Json>)
    ensures j.JArr? ==> items == j.items
    ensures !j.JArr? ==> items == []
  {
    match j
    case JArr(xs) => xs
    case _ => []
  }

  // ---------------------------------------------------------------------------
  // Requests and their outcomes

  /** `response.ok`: a status in the range 200-299. */
  predicate IsOk(status: int) {
    200 <= status <= 299
  }

  datatype Verb = Get | Post

  /** A request as far as the model sees it: verb, URL and the `Authorization` header, if any. */
  datatype Request = Request(verb: Verb, url: string, authorization: Option<string>)

  /** What one `fetch` comes back with: a response (status, body text, and the JSON
      the body parses to, `None` when `res.json()` would throw), or a thrown error
      (network failure, refused connection, ...). */
  datatype FetchOutcome =
    | Responded(status: int, text: string, json: Option<Json>)
    | Threw(reason: string)

  /** The errors the services throw. */
  datatype Error =
    | ConfigMissing                                        // 'NEXT_PUBLIC_BACKEND_URL is not set'
    | InvalidInput(message: string)                        // a missing argument, before any request
    | RequestFailed(url: string, status: int, text: string) // `Failed ${url}: ${res.status} ${text}`
    | UnexpectedShape(url: string)                         // `Unexpected response shape from ${url}`
    | InvalidJson(url: string)                             // the error `res.json()` throws
    | FetchThrew(reason: string)                           // the error `fetch` throws
    | ConversationsFailed(status: int, text: string)       // `Failed to fetch conversations: ...`
    | Fallback(message: string)                            // the `lastError ?? new Error(...)` default

  /** `!BACKEND_URL` fails for an unset variable and for the empty string. */
  predicate Configured(backendUrl: Option<string>) {
    backendUrl.Some? && backendUrl.value != ""
  }

  /** `BACKEND_URL.replace(/\/$/, '')`: one trailing slash, if there is one, is dropped. */
  function BaseUrl(backendUrl: string): (base: string)
    ensures |backendUrl| > 0 && backendUrl[|backendUrl| - 1] == '/' ==> base + "/" == backendUrl
    ensures !(|backendUrl| > 0 && backendUrl[|backendUrl| - 1] == '/') ==> base == backendUrl
  {
    if |backendUrl| > 0 && backendUrl[|backendUrl| - 1] == '/' then backendUrl[..|backendUrl| - 1]
    else backendUrl
  }

  /** Only one slash is stripped: a base written with two keeps one of them. */
  lemma BaseUrlStripsOneSlash()
    ensures BaseUrl("https://api.example//") == "https://api.example/"
    ensures BaseUrl("https://api.example/") == "https://api.example"
    ensures BaseUrl("https://api.example") == "https://api.example"
  {
    assert "https://api.example//"[..20] == "https://api.example/";
    assert "https://api.example/"[..19] == "https://api.example";
  }

  /** `...(accessToken ? { Authorization: `Bearer ${accessToken}` } : {})`: the header
      is sent only when the access-token cookie holds a non-empty value. */
  function AuthHeader(accessToken: Option<string>): (h: Option<string>)
    ensures h.Some? <==> accessToken.Some? && accessToken.value != ""
    ensures h.Some? ==> h.value == "Bearer " + accessToken.value
  {
    if accessToken.Some? && accessToken.value != "" then Some("Bearer " + accessToken.value) else None
  }

  /** `sent` is exactly one request per URL of `urls`, in that order. */
  predicate SentTo(sent: seq<Request>, verb: Verb, urls: seq<string>, authorization: Option<string>) {
    |sent| == |urls| && forall k :: 0 <= k < |sent| ==> sent[k] == Request(verb, urls[k], authorization)
  }

  // ---------------------------------------------------------------------------
  // Trying candidate URLs in order

  /** What one iteration of a candidate loop does with the outcome for its URL:
      return a value, record an error in `lastError` and go on, or go on
      without touching `lastError`. */
  datatype Step<T> = Accept(value: T) | Reject(error: Error) | MoveOn

  /** The loop `for (const url of candidates) { ... }` followed by
      `throw lastError ?? fallback`: the first accepted value, or else the last
      error recorded, or else `fallback` when no iteration recorded one. */
  function Run<T>(urls: seq<string>, attempt: string -> Step<T>, lastError: Option<Error>, fallback: Error): Result<T, Error>
  {
    if urls == [] then Failure(lastError.GetOr(fallback))
    else match attempt(urls[0])
      case Accept(v) => Success(v)
      case Reject(e) => Run(urls[1..], attempt, Some(e), fallback)
      case MoveOn => Run(urls[1..], attempt, lastError, fallback)
  }

  /** How many candidates the loop sends a request to: up to and including the
      first accepted one, or all of them. */
  function Attempts<T>(urls: seq<string>, attempt: string -> Step<T>): (n: nat)
    ensures n <= |urls|
    ensures urls != [] ==> 1 <= n
  {
    if urls == [] then 0
    else if attempt(urls[0]).Accept? then 1
    else 1 + Attempts(urls[1..], attempt)
  }

  /** The loop returns the value of the first accepting candidate, after
      trying exactly the candidates up to it. */
  lemma {:induction false} RunAcceptsFirst<T>(urls: seq<string>, attempt: string -> Step<T>, lastError: Option<Error>, fallback: Error, i: nat)
    requires i < |urls| && attempt(urls[i]).Accept?
    requires forall j :: 0 <= j < i ==> !attempt(urls[j]).Accept?
    ensures Run(urls, attempt, lastError, fallback) == Success(attempt(urls[i]).value)
    ensures Attempts(urls, attempt) == i + 1
  {
    if i > 0 {
      assert !attempt(urls[0]).Accept?;
      var next := if attempt(urls[0]).Reject? then Some(attempt(urls[0]).error) else lastError;
      assert Run(urls, attempt, lastError, fallback) == Run(urls[1..], attempt, next, fallback);
      forall j | 0 <= j < i - 1 ensures !attempt(urls[1..][j]).Accept? {
        assert urls[1..][j] == urls[j + 1];
      }
      RunAcceptsFirst(urls[1..], attempt, next, fallback, i - 1);
    }
  }

  /** A successful loop got its value from some candidate that accepted, with no
      candidate before it accepting. */
  lemma {:induction false} RunSuccessComesFromFirstAccept<T>(urls: seq<string>, attempt: string -> Step<T>, lastError: Option<Error>, fallback: Error)
    requires Run(urls, attempt, lastError, fallback).Success?
    ensures exists i :: 0 <= i < |urls| && attempt(urls[i]) == Accept(Run(urls, attempt, lastError, fallback).value)
                        && forall j :: 0 <= j < i ==> !attempt(urls[j]).Accept?
  {
    var r := Run(urls, attempt, lastError, fallback);
    if attempt(urls[0]).Accept? {
      assert attempt(urls[0]) == Accept(r.value);
    } else {
      var next := if attempt(urls[0]).Reject? then Some(attempt(urls[0]).error) else lastError;
      assert r == Run(urls[1..], attempt, next, fallback);
      RunSuccessComesFromFirstAccept(urls[1..], attempt, next, fallback);
      var i :| 0 <= i < |urls[1..]| && attempt(urls[1..][i]) == Accept(r.value)
               && forall j :: 0 <= j < i ==> !attempt(urls[1..][j]).Accept?;
      assert attempt(urls[i + 1]) == Accept(r.value);
      forall j | 0 <= j < i + 1 ensures !attempt(urls[j]).Accept? {
        if j > 0 { assert urls[j] == urls[1..][j - 1]; }
      }
    }
  }

  /** When no candidate accepts, every candidate is tried. */
  lemma {:induction false} NoAcceptTriesAll<T>(urls: seq<string>, attempt: string -> Step<T>)
    requires forall j :: 0 <= j < |urls| ==> !attempt(urls[j]).Accept?
    ensures Attempts(urls, attempt) == |urls|
  {
    if urls != [] {
      assert !attempt(urls[0]).Accept?;
      forall j | 0 <= j < |urls[1..]| ensures !attempt(urls[1..][j]).Accept? {
        assert urls[1..][j] == urls[j + 1];
      }
      NoAcceptTriesAll(urls[1..], attempt);
    }
  }

  /** When every candidate moves on without recording, the loop throws the error
      it started with, or the fallback. */
  lemma {:induction false} RunAllMoveOn<T>(urls: seq<string>, attempt: string -> Step<T>, lastError: Option<Error>, fallback: Error)
    requires forall j :: 0 <= j < |urls| ==> attempt(urls[j]).MoveOn?
    ensures Run(urls, attempt, lastError, fallback) == Failure(lastError.GetOr(fallback))
  {
    if urls != [] {
      assert attempt(urls[0]).MoveOn?;
      forall j | 0 <= j < |urls[1..]| ensures attempt(urls[1..][j]).MoveOn? {
        assert urls[1..][j] == urls[j + 1];
      }
      RunAllMoveOn(urls[1..], attempt, lastError, fallback);
    }
  }

  /** When no candidate accepts, the loop throws the error recorded by the last
      candidate that recorded one. */
  lemma {:induction false} RunThrowsLastRejection<T>(urls: seq<string>, attempt: string -> Step<T>, lastError: Option<Error>, fallback: Error, k: nat)
    requires k < |urls| && attempt(urls[k]).Reject?
    requires forall j :: 0 <= j < |urls| ==> !attempt(urls[j]).Accept?
    requires forall j :: k < j < |urls| ==> attempt(urls[j]).MoveOn?
    ensures Run(urls, attempt, lastError, fallback) == Failure(attempt(urls[k]).error)
  {
    assert !attempt(urls[0]).Accept?;
    var next := if attempt(urls[0]).Reject? then Some(attempt(urls[0]).error) else lastError;
    assert Run(urls, attempt, lastError, fallback) == Run(urls[1..], attempt, next, fallback);
    if k == 0 {
      forall j | 0 <= j < |urls[1..]| ensures attempt(urls[1..][j]).MoveOn? {
        assert urls[1..][j] == urls[j + 1];
      }
      RunAllMoveOn(urls[1..], attempt, next, fallback);
    } else {
      forall j | 0 <= j < |urls[1..]|
        ensures !attempt(urls[1..][j]).Accept?
        ensures k - 1 < j ==> attempt(urls[1..][j]).MoveOn?
      {
        assert urls[1..][j] == urls[j + 1];
      }
      RunThrowsLastRejection(urls[1..], attempt, next, fallback, k - 1);
    }
  }

  /** One turn of the loop, as seen from the candidate it has reached. */
  lemma RunAt<T>(urls: seq<string>, attempt: string -> Step<T>, i: nat, lastError: Option<Error>, fallback: Error)
    requires i < |urls|
    ensures Run(urls[i..], attempt, lastError, fallback) ==
      match attempt(urls[i])
      case Accept(v) => Success(v)
      case Reject(e) => Run(urls[i + 1..], attempt, Some(e), fallback)
      case MoveOn => Run(urls[i + 1..], attempt, lastError, fallback)
  {
    assert urls[i..][0] == urls[i];
    assert urls[i..][1..] == urls[i + 1..];
  }

  /** The loop throws only when no candidate accepted. */
  lemma {:induction false} RunFailureMeansNoAccept<T>(urls: seq<string>, attempt: string -> Step<T>, lastError: Option<Error>, fallback: Error)
    requires Run(urls, attempt, lastError, fallback).Failure?
    ensures forall j :: 0 <= j < |urls| ==> !attempt(urls[j]).Accept?
  {
    if urls != [] {
      assert !attempt(urls[0]).Accept?;
      var next := if attempt(urls[0]).Reject? then Some(attempt(urls[0]).error) else lastError;
      assert Run(urls, attempt, lastError, fallback) == Run(urls[1..], attempt, next, fallback);
      RunFailureMeansNoAccept(urls[1..], attempt, next, fallback);
      forall j | 1 <= j < |urls| ensures !attempt(urls[j]).Accept? {
        assert urls[j] == urls[1..][j - 1];
      }
    }
  }

  /** A loop whose every failing iteration records an error never throws its
      fallback: with no candidate accepting, it throws the last candidate's error. */
  lemma RunWithoutMoveOnThrowsLastError<T>(urls: seq<string>, attempt: string -> Step<T>, lastError: Option<Error>, fallback: Error)
    requires urls != []
    requires forall j :: 0 <= j < |urls| ==> attempt(urls[j]).Reject?
    ensures Run(urls, attempt, lastError, fallback) == Failure(attempt(urls[|urls| - 1]).error)
  {
    RunThrowsLastRejection(urls, attempt, lastError, fallback, |urls| - 1);
  }

  // ---------------------------------------------------------------------------
  // The iteration shared by uploadDocument and sendChat

  /** One iteration of the `uploadDocument` and `sendChat` loops: a thrown error
      or a non-OK status is recorded, and an OK response is returned with its
      parsed body, or `{}` when the body is not JSON (`res.json().catch(() => ({}))`). */
  function BodyStep(url: string, outcome: FetchOutcome): (step: Step<Json>)
    ensures !step.MoveOn?
    ensures step.Accept? <==> outcome.Responded? && IsOk(outcome.status)
    ensures step.Accept? ==> step.value == outcome.json.GetOr(JObj(map[]))
    ensures outcome.Threw? ==> step == Reject(FetchThrew(outcome.reason))
    ensures outcome.Responded? && !IsOk(outcome.status) ==> step == Reject(RequestFailed(url, outcome.status, outcome.text))
  {
    match outcome
    case Threw(reason) => Reject(FetchThrew(reason))
    case Responded(status, text, json) =>
      if !IsOk(status) then Reject(RequestFailed(url, status, text))
      else Accept(json.GetOr(JObj(map[])))
  }

  /** `BodyStep` applied to what `fetch` answers for a request to the URL. */
  function BodyAttempt(fetch: Request -> FetchOutcome, verb: Verb, authorization: Option<string>): string -> Step<Json> {
    url => BodyStep(url, fetch(Request(verb, url, authorization)))
  }
}
