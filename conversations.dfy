/** pdfier/src/services/conversations.ts: one request for the conversations of a
    collection, no fallback endpoint, and a body normalised to a list. */
module Conversations {
  import opened Wrappers
  import opened Http

  /** What a call did: its result and the requests it sent. */
  datatype Reply<T> = Reply(result: Result<T, Error>, sent: seq<Request>)

  /** The one endpoint. Unlike the other services this one does not strip a
      trailing slash from the backend URL. */
  function ConversationsUrl(backendUrl: string, encodedId: string): (url: string)
    ensures backendUrl <= url
    ensures url[|backendUrl|..] == "/api/v1/conversations?collection_id=" + encodedId
  {
    backendUrl + "/api/v1/conversations?collection_id=" + encodedId
  }

  /** The normalisation of an OK JSON body: the list it carries when it is a bare
      array or `{data: array}`, and the empty list for any other shape. */
  function NormalizeList(j: Json): (items: seq<Json>)
    ensures IsListBody(j) ==> items == ListItems(j)
    ensures !IsListBody(j) ==> items == []
  {
    if j.JArr? then j.items
    else if HasDataArray(j) then j.fields["data"].items
    else []
  }

  /** `fetchConversations(collectionId)`. */
  function FetchConversations(backendUrl: Option<string>, collectionId: string, accessToken: Option<string>,
                              encode: string -> string, fetch: Request -> FetchOutcome): (reply: Reply<seq<Json>>)
    ensures !Configured(backendUrl) ==> reply == Reply(Failure(ConfigMissing), [])
    ensures Configured(backendUrl) ==>
      reply.sent == [Request(Get, ConversationsUrl(backendUrl.value, encode(collectionId)), AuthHeader(accessToken))]
    ensures Configured(backendUrl) ==>
      var o := fetch(reply.sent[0]);
      && (o.Threw? ==> reply.result == Failure(FetchThrew(o.reason)))
      && (o.Responded? && !IsOk(o.status) ==> reply.result == Failure(ConversationsFailed(o.status, o.text)))
      && (o.Responded? && IsOk(o.status) && o.json.None? ==> reply.result == Failure(InvalidJson(reply.sent[0].url)))
      && (o.Responded? && IsOk(o.status) && o.json.Some? ==> reply.result == Success(NormalizeList(o.json.value)))
  {
    if !Configured(backendUrl) then Reply(Failure(ConfigMissing), [])
    else
      var url := ConversationsUrl(backendUrl.value, encode(collectionId));
      var request := Request(Get, url, AuthHeader(accessToken));
      var result :=
        match fetch(request)
        case Threw(reason) => Failure(FetchThrew(reason))
        case Responded(status, text, json) =>
          if !IsOk(status) then Failure(ConversationsFailed(status, text))
          else if json.None? then Failure(InvalidJson(url))
          else Success(NormalizeList(json.value));
      Reply(result, [request])
  }

  /** An OK response whose body is JSON never makes the call throw, whatever its
      shape; a shape other than a list gives the empty list. */
  lemma OkJsonNeverThrows(backendUrl: Option<string>, collectionId: string, accessToken: Option<string>,
                          encode: string -> string, fetch: Request -> FetchOutcome, j: Json)
    requires Configured(backendUrl)
    requires fetch(Request(Get, ConversationsUrl(backendUrl.value, encode(collectionId)), AuthHeader(accessToken)))
             .Responded?
    requires var o := fetch(Request(Get, ConversationsUrl(backendUrl.value, encode(collectionId)), AuthHeader(accessToken)));
             IsOk(o.status) && o.json == Some(j)
    ensures FetchConversations(backendUrl, collectionId, accessToken, encode, fetch).result.Success?
    ensures !IsListBody(j) ==> FetchConversations(backendUrl, collectionId, accessToken, encode, fetch).result == Success([])
  {
  }

  /** Normalising is idempotent: the list it yields, sent back as a bare array,
      normalises to itself. */
  lemma NormalizeListIdempotent(j: Json)
    ensures NormalizeList(JArr(NormalizeList(j))) == NormalizeList(j)
  {
  }
}
