/** pdfier/src/store/DocumentStore.ts: the documents of the current collection
    and the one selected. List entries are the JSON values the service returned:
    the `DocumentItem` type is only a cast, never checked. */
module DocumentStore {
  import opened Wrappers
  import opened Http

  class Store {
    var documents: seq<Json>
    var selectedDocument: Option<Json>

    /** An empty list and no selection. */
    constructor ()
      ensures documents == [] && selectedDocument == None
    {
      documents := [];
      selectedDocument := None;
    }

    /** `setDocuments`: the list becomes the value given when it is an array, and
        empty otherwise; the selection is left alone. */
    method SetDocuments(docs: Json)
      modifies this
      ensures documents == ArrayOrEmpty(docs)
      ensures selectedDocument == old(selectedDocument)
    {
      documents := if docs.JArr? then docs.items else [];
    }

    /** `setSelectedDocument`: only the selection changes. */
    method SetSelectedDocument(doc: Option<Json>)
      modifies this
      ensures selectedDocument == doc
      ensures documents == old(documents)
    {
      selectedDocument := doc;
    }
  }
}
