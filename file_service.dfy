/** `processUploadedFiles`: the attachments as the text model is told about them. Oversized files
    are dropped; plain-text and Markdown files are read, every other kind is passed on by name and
    type only. A failed read is not an error: the file stays listed with no content. */
module FileService {
  import opened Wrappers
  import opened Seqs
  import opened Types

  /** The two MIME types whose content is read. */
  predicate IsReadType(mimeType: string)
  {
    mimeType == "text/plain" || mimeType == "text/markdown"
  }

  /** Within the size limit; a file of exactly the limit is still accepted. */
  predicate WithinLimit(f: UploadFile)
  {
    f.size <= MaxFileSizeBytes
  }

  /** The record pushed for one accepted file. */
  function ToProcessed(f: UploadFile): (r: ProcessedFile)
    ensures r.name == f.name && r.mimeType == f.mimeType && r.size == f.size
    ensures r.content.Some? ==> IsReadType(f.mimeType)
    ensures IsReadType(f.mimeType) ==> r.content == f.read
  {
    ProcessedFile(f.name, f.mimeType, if IsReadType(f.mimeType) then f.read else None, f.size)
  }

  /** The files that survive the size check, in their order. */
  function Kept(files: seq<UploadFile>): (r: seq<UploadFile>)
    ensures |r| <= |files|
    ensures forall i :: 0 <= i < |r| ==> WithinLimit(r[i])
  {
    Filter(files, WithinLimit)
  }

  /** What `processUploadedFiles` resolves to. */
  function Processed(files: seq<UploadFile>): (r: seq<ProcessedFile>)
    ensures |r| == |Kept(files)|
    ensures forall i :: 0 <= i < |r| ==> r[i] == ToProcessed(Kept(files)[i])
  {
    var kept := Kept(files);
    seq(|kept|, i requires 0 <= i < |kept| => ToProcessed(kept[i]))
  }

  /** The loop of `processUploadedFiles`: `continue` past an oversized file, otherwise push its record. */
  method ProcessUploadedFiles(files: seq<UploadFile>) returns (processedFiles: seq<ProcessedFile>)
    ensures processedFiles == Processed(files)
  {
    processedFiles := [];
    for i := 0 to |files|
      invariant processedFiles == Processed(files[..i])
    {
      var file := files[i];
      ProcessedAppend(files[..i], file);
      assert files[..i + 1] == files[..i] + [file];
      if file.size > MaxFileSizeBytes {
        continue;
      }
      var content: Option<string> := None;
      if file.mimeType == "text/plain" || file.mimeType == "text/markdown" {
        content := file.read;
      }
      processedFiles := processedFiles + [ProcessedFile(file.name, file.mimeType, content, file.size)];
    }
    assert files[..|files|] == files;
  }

  /** Processing one more file appends its record exactly when it is within the limit. */
  lemma ProcessedAppend(files: seq<UploadFile>, f: UploadFile)
    ensures Processed(files + [f]) ==
              Processed(files) + (if WithinLimit(f) then [ToProcessed(f)] else [])
  {
    FilterConcat(files, [f], WithinLimit);
    assert Filter([f], WithinLimit) == if WithinLimit(f) then [f] else [];
  }

  /** Processing works file by file: the records of `a + b` are those of `a` followed by those of `b`.
      With `ProcessedSingle` this pins the output down: each accepted file once, in input order. */
  lemma ProcessedConcat(a: seq<UploadFile>, b: seq<UploadFile>)
    ensures Processed(a + b) == Processed(a) + Processed(b)
  {
    FilterConcat(a, b, WithinLimit);
  }

  /** One file gives its record when it is within the limit (a file of exactly 50 MiB included)
      and nothing otherwise. */
  lemma ProcessedSingle(f: UploadFile)
    ensures f.size <= MaxFileSizeBytes ==> Processed([f]) == [ToProcessed(f)]
    ensures f.size > MaxFileSizeBytes ==> Processed([f]) == []
  {
    assert Filter([f], WithinLimit) == if WithinLimit(f) then [f] else [];
  }

  /** A file whose read fails is still listed, with no content, and nothing is raised. */
  lemma ReadFailureKeepsFile(f: UploadFile)
    requires f.size <= MaxFileSizeBytes && f.read.None?
    ensures Processed([f]) == [ProcessedFile(f.name, f.mimeType, None, f.size)]
  {
    ProcessedSingle(f);
  }

  /** Only plain-text and Markdown records can carry content, and each record copies its
      file's name, type and size. */
  lemma ProcessedFields(files: seq<UploadFile>, i: nat)
    requires i < |Processed(files)|
    ensures Processed(files)[i].content.Some? ==> IsReadType(Processed(files)[i].mimeType)
    ensures exists j :: 0 <= j < |files| && files[j].size <= MaxFileSizeBytes
              && Processed(files)[i].name == files[j].name && Processed(files)[i].mimeType == files[j].mimeType
              && Processed(files)[i].size == files[j].size
  {
    var f := Kept(files)[i];
    assert f in files;
    var j :| 0 <= j < |files| && files[j] == f;
  }

  /** The output has one record per file within the limit: as many as the input when none is
      too large. */
  lemma {:induction false} ProcessedCount(files: seq<UploadFile>)
    ensures |Processed(files)| == CountWithin(files)
    ensures (forall i :: 0 <= i < |files| ==> files[i].size <= MaxFileSizeBytes) ==> |Processed(files)| == |files|
  {
    if files != [] {
      assert files == [files[0]] + files[1..];
      ProcessedConcat([files[0]], files[1..]);
      ProcessedSingle(files[0]);
      ProcessedCount(files[1..]);
    }
  }

  /** How many files are within the size limit. */
  function CountWithin(files: seq<UploadFile>): (n: nat)
    ensures n <= |files|
  {
    if files == [] then 0 else (if WithinLimit(files[0]) then 1 else 0) + CountWithin(files[1..])
  }
}
