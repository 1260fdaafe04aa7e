/** pdfier/src/services/messages.ts: sending a chat query and listing the
    messages of a conversation, each by trying candidate endpoints in order. */
module Messages {
  import opened Wrappers
  import opened Http

  /** The error thrown when the chat loop ends without any error recorded. */
  const ChatFallback := Fallback("Failed to send chat message")

  /** The error thrown when the messages loop ends without any error recorded. */
  const MessagesFallback := Fallback("Failed to fetch messages")

  /** The chat payload; a field that is `undefined` (or the whole payload that is
      `null`) is `None`. */
  datatype ChatPayload = ChatPayload(query: Option<string>, collectionId: Option<string>, conversationId: Option<string>)

  /** JavaScript truthiness of an optional string: present and not empty. */
  predicate Truthy(s: Option<string>) {
    s.Some? && s.value != ""
  }

  /** The chat endpoints in the order tried, versioned one first. */
  function ChatCandidates(base: string): (urls: seq<string>)
    ensures |urls| == 2
    ensures forall k :: 0 <= k < |urls| ==> base <= urls[k]
    ensures base + "/api/v1/" <= urls[0]
  {
    [ base + "/api/v1/chat", base + "/chat" ]
  }

  /** The message-listing endpoints in the order tried; `encodedId` is the
      conversation id after `encodeURIComponent`. */
  function MessageCandidates(base: string, encodedId: string): (urls: seq<string>)
    ensures |urls| == 3
    ensures forall k :: 0 <= k < |urls| ==> base <= urls[k]
    ensures base + "/api/v1/" <= urls[0]
  {
    [ base + "/api/v1/messages?conversation_id=" + encodedId,
      base + "/messages?conversation_id=" + encodedId,
      base + "/?conversation_id=" + encodedId ]
  }

  /** `sendChat(payload)`: nothing is sent without a backend URL or without both
      a query and a collection id; otherwise the candidates are POSTed to in order
      and the result is that of `Run` over `BodyStep`. */
  method SendChat(backendUrl: Option<string>, payload: ChatPayload, accessToken: Option<string>, fetch: Request -> FetchOutcome)
    returns (r: Result<Json, Error>, sent: seq<Request>)
    ensures !Configured(backendUrl) ==> r == Failure(ConfigMissing) && sent == []
    ensures Configured(backendUrl) && !(Truthy(payload.query) && Truthy(payload.collectionId)) ==>
      r == Failure(InvalidInput("Missing query or collection_id")) && sent == []
    ensures Configured(backendUrl) && Truthy(payload.query) && Truthy(payload.collectionId) ==>
      var urls := ChatCandidates(BaseUrl(backendUrl.value));
      var attempt := BodyAttempt(fetch, Post, AuthHeader(accessToken));
      && r == Run(urls, attempt, None, ChatFallback)
      && SentTo(sent, Post, urls[..Attempts(urls, attempt)], AuthHeader(accessToken))
  {
    if !Configured(backendUrl) {
      return Failure(ConfigMissing), [];
    }
    if !Truthy(payload.query) || !Truthy(payload.collectionId) {
      return Failure(InvalidInput("Missing query or collection_id")), [];
    }
    var authorization := AuthHeader(accessToken);
    var base := BaseUrl(backendUrl.value);
    var candidates := ChatCandidates(base);
    ghost var attempt := BodyAttempt(fetch, Post, authorization);
    var lastError: Option<Error> := None;
    sent := [];
    var i := 0;
    while i < |candidates|
      invariant 0 <= i <= |candidates|
      invariant Run(candidates, attempt, None, ChatFallback) == Run(candidates[i..], attempt, lastError, ChatFallback)
      invariant forall j :: 0 <= j < i ==> !attempt(candidates[j]).Accept?
      invariant SentTo(sent, Post, candidates[..i], authorization)
    {
      var url := candidates[i];
      var request := Request(Post, url, authorization);
      sent := sent + [request];
      var outcome := fetch(request);
      RunAt(candidates, attempt, i, lastError, ChatFallback);
      assert attempt(url) == BodyStep(url, outcome);
      match outcome {
        case Threw(reason) =>
          lastError := Some(FetchThrew(reason));
        case Responded(status, text, json) =>
          if !IsOk(status) {
            lastError := Some(RequestFailed(url, status, text));
          } else {
            RunAcceptsFirst(candidates, attempt, None, ChatFallback, i);
            return Success(json.GetOr(JObj(map[]))), sent;
          }
      }
      i := i + 1;
    }
    NoAcceptTriesAll(candidates, attempt);
    assert candidates[..i] == candidates[..Attempts(candidates, attempt)];
    r := Failure(lastError.GetOr(ChatFallback));
  }

  /** `sendChat` never throws its fallback: every failing request records an error,
      so when both endpoints fail the error is the one recorded for the second. */
  lemma ChatFailsWithSecondCandidateError(base: string, fetch: Request -> FetchOutcome, authorization: Option<string>)
    ensures var urls := ChatCandidates(base);
            var attempt := BodyAttempt(fetch, Post, authorization);
            Run(urls, attempt, None, ChatFallback).Failure? ==>
              && attempt(urls[1]).Reject?
              && Run(urls, attempt, None, ChatFallback) == Failure(attempt(urls[1]).error)
              && Run(urls, attempt, None, ChatFallback).error != ChatFallback
  {
    var urls := ChatCandidates(base);
    var attempt := BodyAttempt(fetch, Post, authorization);
    if Run(urls, attempt, None, ChatFallback).Failure? {
      RunFailureMeansNoAccept(urls, attempt, None, ChatFallback);
      assert forall j :: 0 <= j < |urls| ==> attempt(urls[j]) == BodyStep(urls[j], fetch(Request(Post, urls[j], authorization)));
      RunWithoutMoveOnThrowsLastError(urls, attempt, None, ChatFallback);
    }
  }

  /** One iteration of the `fetchMessages` loop. A thrown `fetch`, a non-OK status
      and a body that is not JSON record an error; an OK JSON body that is not a
      list moves on WITHOUT recording anything. */
  function MessagesStep(url: string, outcome: FetchOutcome): (step: Step<seq<Json>>)
    ensures step.Accept? <==> outcome.Responded? && IsOk(outcome.status) && outcome.json.Some? && IsListBody(outcome.json.value)
    ensures step.Accept? ==> step.value == ListItems(outcome.json.value)
    ensures step.MoveOn? <==> outcome.Responded? && IsOk(outcome.status) && outcome.json.Some? && !IsListBody(outcome.json.value)
  {
    match outcome
    case Threw(reason) => Reject(FetchThrew(reason))
    case Responded(status, text, json) =>
      if !IsOk(status) then Reject(RequestFailed(url, status, text))
      else if json.None? then Reject(InvalidJson(url))
      else if json.value.JArr? then Accept(json.value.items)
      else if HasDataArray(json.value) then Accept(json.value.fields["data"].items)
      else MoveOn
  }

  /** `MessagesStep` applied to what `fetch` answers for a GET of the URL. */
  function MessagesAttempt(fetch: Request -> FetchOutcome, authorization: Option<string>): string -> Step<seq<Json>> {
    url => MessagesStep(url, fetch(Request(Get, url, authorization)))
  }

  /** `fetchMessages(conversationId)`: nothing is sent without a backend URL;
      otherwise the three candidates are tried in order and the result is that of `Run`. */
  method FetchMessages(backendUrl: Option<string>, conversationId: string, accessToken: Option<string>,
                       encode: string -> string, fetch: Request -> FetchOutcome)
    returns (r: Result<seq<Json>, Error>, sent: seq<Request>)
    ensures !Configured(backendUrl) ==> r == Failure(ConfigMissing) && sent == []
    ensures Configured(backendUrl) ==>
      var urls := MessageCandidates(BaseUrl(backendUrl.value), encode(conversationId));
      var attempt := MessagesAttempt(fetch, AuthHeader(accessToken));
      && r == Run(urls, attempt, None, MessagesFallback)
      && SentTo(sent, Get, urls[..Attempts(urls, attempt)], AuthHeader(accessToken))
  {
    if !Configured(backendUrl) {
      return Failure(ConfigMissing), [];
    }
    var authorization := AuthHeader(accessToken);
    var base := BaseUrl(backendUrl.value);
    var candidates := MessageCandidates(base, encode(conversationId));
    ghost var attempt := MessagesAttempt(fetch, authorization);
    var lastError: Option<Error> := None;
    sent := [];
    var i := 0;
    while i < |candidates|
      invariant 0 <= i <= |candidates|
      invariant Run(candidates, attempt, None, MessagesFallback) == Run(candidates[i..], attempt, lastError, MessagesFallback)
      invariant forall j :: 0 <= j < i ==> !attempt(candidates[j]).Accept?
      invariant SentTo(sent, Get, candidates[..i], authorization)
    {
      var url := candidates[i];
      var request := Request(Get, url, authorization);
      sent := sent + [request];
      var outcome := fetch(request);
      RunAt(candidates, attempt, i, lastError, MessagesFallback);
      assert attempt(url) == MessagesStep(url, outcome);
      match outcome {
        case Threw(reason) =>
          lastError := Some(FetchThrew(reason));
        case Responded(status, text, json) =>
          if !IsOk(status) {
            lastError := Some(RequestFailed(url, status, text));
          } else if json.None? {
            lastError := Some(InvalidJson(url));
          } else if json.value.JArr? {
            RunAcceptsFirst(candidates, attempt, None, MessagesFallback, i);
            return Success(json.value.items), sent;
          } else if HasDataArray(json.value) {
            RunAcceptsFirst(candidates, attempt, None, MessagesFallback, i);
            return Success(json.value.fields["data"].items), sent;
          }
      }
      i := i + 1;
    }
    NoAcceptTriesAll(candidates, attempt);
    assert candidates[..i] == candidates[..Attempts(candidates, attempt)];
    r := Failure(lastError.GetOr(MessagesFallback));
  }

  /** When every endpoint answers OK with a body that is not a list, nothing was
      recorded and the default error is thrown, after all three were asked. */
  lemma AllWrongShapesGiveDefaultError(base: string, encodedId: string, fetch: Request -> FetchOutcome, authorization: Option<string>)
    requires forall u :: u in MessageCandidates(base, encodedId) ==>
      var o := fetch(Request(Get, u, authorization));
      o.Responded? && IsOk(o.status) && o.json.Some? && !IsListBody(o.json.value)
    ensures var urls := MessageCandidates(base, encodedId);
            var attempt := MessagesAttempt(fetch, authorization);
            Run(urls, attempt, None, MessagesFallback) == Failure(MessagesFallback) && Attempts(urls, attempt) == 3
  {
    var urls := MessageCandidates(base, encodedId);
    var attempt := MessagesAttempt(fetch, authorization);
    forall j | 0 <= j < |urls| ensures attempt(urls[j]).MoveOn? {
      assert urls[j] in urls;
    }
    RunAllMoveOn(urls, attempt, None, MessagesFallback);
    NoAcceptTriesAll(urls, attempt);
  }

  /** A wrongly shaped OK body does not overwrite an earlier failure: when the first
      endpoint records an error and the other two answer OK with non-list bodies,
      the first endpoint's error is thrown. */
  lemma WrongShapeKeepsEarlierError(base: string, encodedId: string, fetch: Request -> FetchOutcome, authorization: Option<string>)
    requires var urls := MessageCandidates(base, encodedId);
             MessagesAttempt(fetch, authorization)(urls[0]).Reject?
             && forall k :: 1 <= k < 3 ==>
                  var o := fetch(Request(Get, urls[k], authorization));
                  o.Responded? && IsOk(o.status) && o.json.Some? && !IsListBody(o.json.value)
    ensures var urls := MessageCandidates(base, encodedId);
            var attempt := MessagesAttempt(fetch, authorization);
            Run(urls, attempt, None, MessagesFallback) == Failure(attempt(urls[0]).error)
  {
    var urls := MessageCandidates(base, encodedId);
    var attempt := MessagesAttempt(fetch, authorization);
    assert forall k :: 1 <= k < 3 ==> attempt(urls[k]).MoveOn?;
    RunThrowsLastRejection(urls, attempt, None, MessagesFallback, 0);
  }
}
