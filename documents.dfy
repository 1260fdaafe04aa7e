/** pdfier/src/services/documents.ts: listing the documents of a collection and
    uploading one, each by trying candidate endpoints in order. */
module Documents {
  import opened Wrappers
  import opened Http
  import FileStore

  /** The error thrown when the listing loop ends without any error recorded. */
  const ListFallback := Fallback("Failed to fetch documents: unknown error")

  /** The error thrown when the upload loop ends without any error recorded. */
  const UploadFallback := Fallback("Failed to upload document")

  /** The listing endpoints, versioned one first; `encodedId` is the collection id
      after `encodeURIComponent`. */
  function ListCandidates(base: string, encodedId: string): (urls: seq<string>)
    ensures |urls| == 2
    ensures forall k :: 0 <= k < |urls| ==> base <= urls[k]
    ensures base + "/api/v1/" <= urls[0]
  {
    [ base + "/api/v1/documents?collection_id=" + encodedId,
      base + "/documents?collection_id=" + encodedId ]
  }

  /** The one upload endpoint. */
  function UploadCandidates(base: string, encodedId: string): (urls: seq<string>)
    ensures |urls| == 1 && base + "/api/v1/" <= urls[0]
  {
    [ base + "/api/v1/documents/upload?collection_id=" + encodedId ]
  }

  /** One iteration of the `fetchDocuments` loop. Every way of not returning
      records an error: a thrown `fetch`, a non-OK status, a body that is not JSON
      (the error of `res.json()`, caught by the same `catch`), and an OK body of
      any other shape than a list. */
  function ListStep(url: string, outcome: FetchOutcome): (step: Step<seq<Json>>)
    ensures !step.MoveOn?
    ensures step.Accept? <==> outcome.Responded? && IsOk(outcome.status) && outcome.json.Some? && IsListBody(outcome.json.value)
    ensures step.Accept? ==> step.value == ListItems(outcome.json.value)
    ensures outcome.Responded? && IsOk(outcome.status) && outcome.json.Some? && !IsListBody(outcome.json.value)
            ==> step == Reject(UnexpectedShape(url))
  {
    match outcome
    case Threw(reason) => Reject(FetchThrew(reason))
    case Responded(status, text, json) =>
      if !IsOk(status) then Reject(RequestFailed(url, status, text))
      else if json.None? then Reject(InvalidJson(url))
      else if json.value.JArr? then Accept(json.value.items)
      else if HasDataArray(json.value) then Accept(json.value.fields["data"].items)
      else Reject(UnexpectedShape(url))
  }

  /** `ListStep` applied to what `fetch` answers for a GET of the URL. */
  function ListAttempt(fetch: Request -> FetchOutcome, authorization: Option<string>): string -> Step<seq<Json>> {
    url => ListStep(url, fetch(Request(Get, url, authorization)))
  }

  /** `fetchDocuments(collectionId)`: nothing is sent without a backend URL;
      otherwise the candidates are tried in order and the result is that of `Run`. */
  method FetchDocuments(backendUrl: Option<string>, collectionId: string, accessToken: Option<string>,
                        encode: string -> string, fetch: Request -> FetchOutcome)
    returns (r: Result<seq<Json>, Error>, sent: seq<Request>)
    ensures !Configured(backendUrl) ==> r == Failure(ConfigMissing) && sent == []
    ensures Configured(backendUrl) ==>
      var urls := ListCandidates(BaseUrl(backendUrl.value), encode(collectionId));
      var attempt := ListAttempt(fetch, AuthHeader(accessToken));
      && r == Run(urls, attempt, None, ListFallback)
      && SentTo(sent, Get, urls[..Attempts(urls, attempt)], AuthHeader(accessToken))
  {
    if !Configured(backendUrl) {
      return Failure(ConfigMissing), [];
    }
    var authorization := AuthHeader(accessToken);
    var base := BaseUrl(backendUrl.value);
    var candidates := ListCandidates(base, encode(collectionId));
    ghost var attempt := ListAttempt(fetch, authorization);
    var lastError: Option<Error> := None;
    sent := [];
    var i := 0;
    while i < |candidates|
      invariant 0 <= i <= |candidates|
      invariant Run(candidates, attempt, None, ListFallback) == Run(candidates[i..], attempt, lastError, ListFallback)
      invariant forall j :: 0 <= j < i ==> !attempt(candidates[j]).Accept?
      invariant SentTo(sent, Get, candidates[..i], authorization)
    {
      var url := candidates[i];
      var request := Request(Get, url, authorization);
      sent := sent + [request];
      var outcome := fetch(request);
      RunAt(candidates, attempt, i, lastError, ListFallback);
      assert attempt(url) == ListStep(url, outcome);
      match outcome {
        case Threw(reason) =>
          lastError := Some(FetchThrew(reason));
        case Responded(status, text, json) =>
          if !IsOk(status) {
            lastError := Some(RequestFailed(url, status, text));
          } else if json.None? {
            lastError := Some(InvalidJson(url));
          } else if json.value.JArr? {
            RunAcceptsFirst(candidates, attempt, None, ListFallback, i);
            return Success(json.value.items), sent;
          } else if HasDataArray(json.value) {
            RunAcceptsFirst(candidates, attempt, None, ListFallback, i);
            return Success(json.value.fields["data"].items), sent;
          } else {
            lastError := Some(UnexpectedShape(url));
          }
      }
      i := i + 1;
    }
    NoAcceptTriesAll(candidates, attempt);
    assert candidates[..i] == candidates[..Attempts(candidates, attempt)];
    r := Failure(lastError.GetOr(ListFallback));
  }

  /** `fetchDocuments` never throws its fallback error: when both endpoints fail,
      the error thrown is the one recorded for the second. */
  lemma ListingFailsWithSecondCandidateError(base: string, encodedId: string, fetch: Request -> FetchOutcome, authorization: Option<string>)
    ensures var urls := ListCandidates(base, encodedId);
            var attempt := ListAttempt(fetch, authorization);
            Run(urls, attempt, None, ListFallback).Failure? ==>
              && attempt(urls[1]).Reject?
              && Run(urls, attempt, None, ListFallback) == Failure(attempt(urls[1]).error)
              && Run(urls, attempt, None, ListFallback).error != ListFallback
  {
    var urls := ListCandidates(base, encodedId);
    var attempt := ListAttempt(fetch, authorization);
    if Run(urls, attempt, None, ListFallback).Failure? {
      RunFailureMeansNoAccept(urls, attempt, None, ListFallback);
      assert forall j :: 0 <= j < |urls| ==> attempt(urls[j]) == ListStep(urls[j], fetch(Request(Get, urls[j], authorization)));
      RunWithoutMoveOnThrowsLastError(urls, attempt, None, ListFallback);
    }
  }

  /** The versioned endpoint wins: when it answers OK with a list, that list is
      returned and the other endpoint is never asked. */
  lemma ListingPrefersVersionedEndpoint(base: string, encodedId: string, fetch: Request -> FetchOutcome, authorization: Option<string>)
    requires var o := fetch(Request(Get, ListCandidates(base, encodedId)[0], authorization));
             o.Responded? && IsOk(o.status) && o.json.Some? && IsListBody(o.json.value)
    ensures var urls := ListCandidates(base, encodedId);
            var attempt := ListAttempt(fetch, authorization);
            && Run(urls, attempt, None, ListFallback) == Success(ListItems(fetch(Request(Get, urls[0], authorization)).json.value))
            && Attempts(urls, attempt) == 1
  {
    var urls := ListCandidates(base, encodedId);
    RunAcceptsFirst(urls, ListAttempt(fetch, authorization), None, ListFallback, 0);
  }

  /** `uploadDocument(file, collectionId)`: nothing is sent without a backend URL
      or without a file; otherwise the one candidate is tried and the result is
      that of `Run` over `BodyStep`. */
  method UploadDocument(backendUrl: Option<string>, file: Option<FileStore.File>, collectionId: string,
                        accessToken: Option<string>, encode: string -> string, fetch: Request -> FetchOutcome)
    returns (r: Result<Json, Error>, sent: seq<Request>)
    ensures !Configured(backendUrl) ==> r == Failure(ConfigMissing) && sent == []
    ensures Configured(backendUrl) && file.None? ==> r == Failure(InvalidInput("No file provided")) && sent == []
    ensures Configured(backendUrl) && file.Some? ==>
      var urls := UploadCandidates(BaseUrl(backendUrl.value), encode(collectionId));
      var attempt := BodyAttempt(fetch, Post, AuthHeader(accessToken));
      && r == Run(urls, attempt, None, UploadFallback)
      && SentTo(sent, Post, urls[..Attempts(urls, attempt)], AuthHeader(accessToken))
  {
    if !Configured(backendUrl) {
      return Failure(ConfigMissing), [];
    }
    if file.None? {
      return Failure(InvalidInput("No file provided")), [];
    }
    var authorization := AuthHeader(accessToken);
    var base := BaseUrl(backendUrl.value);
    var candidates := UploadCandidates(base, encode(collectionId));
    ghost var attempt := BodyAttempt(fetch, Post, authorization);
    var lastError: Option<Error> := None;
    sent := [];
    var i := 0;
    while i < |candidates|
      invariant 0 <= i <= |candidates|
      invariant Run(candidates, attempt, None, UploadFallback) == Run(candidates[i..], attempt, lastError, UploadFallback)
      invariant forall j :: 0 <= j < i ==> !attempt(candidates[j]).Accept?
      invariant SentTo(sent, Post, candidates[..i], authorization)
    {
      var url := candidates[i];
      var request := Request(Post, url, authorization);
      sent := sent + [request];
      var outcome := fetch(request);
      RunAt(candidates, attempt, i, lastError, UploadFallback);
      assert attempt(url) == BodyStep(url, outcome);
      match outcome {
        case Threw(reason) =>
          lastError := Some(FetchThrew(reason));
        case Responded(status, text, json) =>
          if !IsOk(status) {
            lastError := Some(RequestFailed(url, status, text));
          } else {
            RunAcceptsFirst(candidates, attempt, None, UploadFallback, i);
            return Success(json.GetOr(JObj(map[]))), sent;
          }
      }
      i := i + 1;
    }
    NoAcceptTriesAll(candidates, attempt);
    assert candidates[..i] == candidates[..Attempts(candidates, attempt)];
    r := Failure(lastError.GetOr(UploadFallback));
  }

  /** The upload either returns the body of its one response or throws the error
      that one request recorded; it never throws its fallback. */
  lemma UploadOutcome(base: string, encodedId: string, fetch: Request -> FetchOutcome, authorization: Option<string>)
    ensures var urls := UploadCandidates(base, encodedId);
            var o := fetch(Request(Post, urls[0], authorization));
            var r := Run(urls, BodyAttempt(fetch, Post, authorization), None, UploadFallback);
            && (o.Responded? && IsOk(o.status) ==> r == Success(o.json.GetOr(JObj(map[]))))
            && (o.Responded? && !IsOk(o.status) ==> r == Failure(RequestFailed(urls[0], o.status, o.text)))
            && (o.Threw? ==> r == Failure(FetchThrew(o.reason)))
  {
    var urls := UploadCandidates(base, encodedId);
    RunAt(urls, BodyAttempt(fetch, Post, authorization), 0, None, UploadFallback);
    assert urls[1..] == [];
  }
}
