/** The selected-files list of pdfier/src/store/FileStore.ts: the files a tool
    page has picked for upload, each wrapped with an id and a copy of its name,
    size and type. */
module FileStore {

  /** A browser `File`, as far as the store looks at it. */
  datatype File = File(name: string, size: int, mimeType: string)

  /** `FileWithPreview`: the file and the fields copied from it, under an id. */
  datatype FileWithPreview = FileWithPreview(file: File, id: string, name: string, size: int, fileType: string)

  /** The entries `addFiles` builds, `newFiles.map(...)`: the k-th file under
      `idFor(k)`, the id the source draws from `Math.random`. */
  function Previews(newFiles: seq<File>, idFor: nat -> string): (entries: seq<FileWithPreview>)
    ensures |entries| == |newFiles|
    ensures forall k :: 0 <= k < |entries| ==> entries[k].file == newFiles[k] && entries[k].id == idFor(k)
    ensures forall k :: 0 <= k < |entries| ==>
      entries[k].name == newFiles[k].name && entries[k].size == newFiles[k].size && entries[k].fileType == newFiles[k].mimeType
  {
    seq(|newFiles|, k requires 0 <= k < |newFiles| =>
      FileWithPreview(newFiles[k], idFor(k), newFiles[k].name, newFiles[k].size, newFiles[k].mimeType))
  }

  /** `files.filter((file) => file.id !== id)`. */
  function WithoutId(files: seq<FileWithPreview>, id: string): (kept: seq<FileWithPreview>)
    ensures |kept| <= |files|
    ensures forall k :: 0 <= k < |kept| ==> kept[k].id != id && kept[k] in files
  {
    if files == [] then []
    else (if files[0].id != id then [files[0]] else []) + WithoutId(files[1..], id)
  }

  /** After removal no entry carries the id, and an entry is kept exactly when it
      was there before under another id. */
  lemma {:induction false} WithoutIdMembers(files: seq<FileWithPreview>, id: string)
    ensures forall e :: e in WithoutId(files, id) <==> e in files && e.id != id
  {
    if files != [] {
      WithoutIdMembers(files[1..], id);
      assert files == [files[0]] + files[1..];
    }
  }

  /** Filtering goes entry by entry, so the kept entries stay in their order:
      removal from a concatenation is the concatenation of the removals. */
  lemma {:induction false} WithoutIdAppend(a: seq<FileWithPreview>, b: seq<FileWithPreview>, id: string)
    ensures WithoutId(a + b, id) == WithoutId(a, id) + WithoutId(b, id)
  {
    if a == [] {
      assert a + b == b;
    } else {
      assert (a + b)[0] == a[0];
      assert (a + b)[1..] == a[1..] + b;
      WithoutIdAppend(a[1..], b, id);
    }
  }

  /** Removing an id no entry carries leaves the list as it was. */
  lemma {:induction false} WithoutUnknownId(files: seq<FileWithPreview>, id: string)
    requires forall k :: 0 <= k < |files| ==> files[k].id != id
    ensures WithoutId(files, id) == files
  {
    if files != [] {
      WithoutUnknownId(files[1..], id);
    }
  }

  /** Removing the same id twice is removing it once. */
  lemma WithoutIdIdempotent(files: seq<FileWithPreview>, id: string)
    ensures WithoutId(WithoutId(files, id), id) == WithoutId(files, id)
  {
    WithoutIdMembers(files, id);
    var once := WithoutId(files, id);
    assert forall k :: 0 <= k < |once| ==> once[k] in once;
    WithoutUnknownId(once, id);
  }

  /** The zustand store: one field, replaced by each action. */
  class Store {
    var files: seq<FileWithPreview>

    /** `files: []`. */
    constructor ()
      ensures files == []
    {
      files := [];
    }

    /** `addFiles`: the new entries go after the existing ones, in the order given. */
    method AddFiles(newFiles: seq<File>, idFor: nat -> string)
      modifies this
      ensures files == old(files) + Previews(newFiles, idFor)
      ensures |files| == |old(files)| + |newFiles|
      ensures files[..|old(files)|] == old(files)
    {
      files := files + Previews(newFiles, idFor);
    }

    /** `removeFile`: every entry with the id goes, the others stay in order. */
    method RemoveFile(id: string)
      modifies this
      ensures files == WithoutId(old(files), id)
      ensures forall e :: e in files <==> e in old(files) && e.id != id
    {
      WithoutIdMembers(files, id);
      files := WithoutId(files, id);
    }

    /** `clearFiles`: the list is empty, whatever it held. */
    method ClearFiles()
      modifies this
      ensures files == []
    {
      files := [];
    }

    /** `setFiles`: the list becomes exactly the one given. */
    method SetFiles(fs: seq<FileWithPreview>)
      modifies this
      ensures files == fs
    {
      files := fs;
    }
  }
}
