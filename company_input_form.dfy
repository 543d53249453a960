/** The state of the company form: the four text fields, the attached files and the file error.
    Each handler of the component is a method that updates that state. */
module CompanyInputForm {
  import opened Wrappers
  import opened Text
  import opened Seqs
  import opened Types

  /** The error for a batch that would exceed the file count: "at most 5 files". */
  function TooManyFiles(): (r: string)
    ensures r == "Możesz załączyć maksymalnie 5 plików."
  {
    "Możesz załączyć maksymalnie " + Decimal(MaxFiles) + " plików."
  }

  /** The error for an oversized file, naming it and the limit in MiB. */
  function FileTooLarge(name: string): (r: string)
    ensures r == "Plik \"" + name + "\" jest za duży. Maksymalny rozmiar to 50MB."
  {
    assert MaxFileSizeBytes / (1024 * 1024) == 50;
    assert Decimal(50) == Decimal(5) + [Digit(0)];
    "Plik \"" + name + "\" jest za duży. Maksymalny rozmiar to " + Decimal(MaxFileSizeBytes / (1024 * 1024)) + "MB."
  }

  /** The first file of a batch over the size limit, if any. */
  function FirstOversized(batch: seq<UploadFile>): (r: Option<nat>)
    ensures r.None? <==> forall i :: 0 <= i < |batch| ==> batch[i].size <= MaxFileSizeBytes
    ensures r.Some? ==> r.value < |batch| && batch[r.value].size > MaxFileSizeBytes
                        && forall i :: 0 <= i < r.value ==> batch[i].size <= MaxFileSizeBytes
  {
    if batch == [] then None
    else if batch[0].size > MaxFileSizeBytes then Some(0)
    else match FirstOversized(batch[1..])
      case None => None
      case Some(k) => Some(k + 1)
  }

  /** The files and the file error after a change event. `selected` is `event.target.files`,
      absent when the input reports none. */
  datatype FileState = FileState(files: seq<UploadFile>, fileError: Option<string>)

  function AfterFileChange(files: seq<UploadFile>, selected: Option<seq<UploadFile>>): (r: FileState)
    // a batch that would go over the count, or holds an oversized file, is refused whole
    ensures selected.Some? && |files| + |selected.value| > MaxFiles ==>
              r == FileState(files, Some(TooManyFiles()))
    ensures selected.Some? && |files| + |selected.value| <= MaxFiles && FirstOversized(selected.value).Some? ==>
              r == FileState(files, Some(FileTooLarge(selected.value[FirstOversized(selected.value).value].name)))
    // an accepted batch is appended in order; no event leaves the error set
    ensures selected.Some? && |files| + |selected.value| <= MaxFiles && FirstOversized(selected.value).None? ==>
              r == FileState(files + selected.value, None)
    ensures selected.None? ==> r == FileState(files, None)
  {
    match selected
    case None => FileState(files, None)
    case Some(batch) =>
      if |files| + |batch| > MaxFiles then FileState(files, Some(TooManyFiles()))
      else match FirstOversized(batch)
        case Some(k) => FileState(files, Some(FileTooLarge(batch[k].name)))
        case None =>
          var all := files + batch;
          FileState(all[..if |all| < MaxFiles then |all| else MaxFiles], None)
  }

  /** The file list never holds more than five files, whatever the event. */
  lemma FileChangeKeepsLimit(files: seq<UploadFile>, selected: Option<seq<UploadFile>>)
    requires |files| <= MaxFiles
    ensures |AfterFileChange(files, selected).files| <= MaxFiles
    ensures AfterFileChange(files, selected).files == files || AfterFileChange(files, selected).fileError.None?
  {
  }

  /** What a valid submission hands on: the fields as typed (not trimmed) and the files. */
  datatype Submission = Submission(
    companyName: string,
    companyDescription: string,
    companyURL: string,
    marketingGoals: string,
    files: seq<UploadFile>)

  /** Submitting is allowed when the three required fields are not blank; the URL may be. */
  function SubmitOutcome(companyName: string, companyDescription: string, companyURL: string, marketingGoals: string,
                         files: seq<UploadFile>): (r: Option<Submission>)
    ensures r.None? <==> Trim(companyName) == "" || Trim(companyDescription) == "" || Trim(marketingGoals) == ""
    ensures r.Some? ==> r.value == Submission(companyName, companyDescription, companyURL, marketingGoals, files)
  {
    if Trim(companyName) == "" || Trim(companyDescription) == "" || Trim(marketingGoals) == "" then None
    else Some(Submission(companyName, companyDescription, companyURL, marketingGoals, files))
  }

  /** A field of white space only blocks the submission; a required field with any other
      character lets it through, untrimmed, even with an empty URL. */
  lemma SubmitBlanks(companyName: string, companyDescription: string, marketingGoals: string, files: seq<UploadFile>)
    ensures Blank(companyName) ==> SubmitOutcome(companyName, companyDescription, "", marketingGoals, files).None?
    ensures !Blank(companyName) && !Blank(companyDescription) && !Blank(marketingGoals) ==>
              SubmitOutcome(companyName, companyDescription, "", marketingGoals, files)
                == Some(Submission(companyName, companyDescription, "", marketingGoals, files))
  {
    TrimEmptyIffBlank(companyName);
    TrimEmptyIffBlank(companyDescription);
    TrimEmptyIffBlank(marketingGoals);
  }

  /** `trim()` gives the empty string exactly for a string of white space only. */
  lemma TrimEmptyIffBlank(s: string)
    ensures Trim(s) == "" <==> Blank(s)
  {
    if Blank(s) {
      TrimOfBlank(s);
    }
    if Trim(s) == "" {
      EmptyTrimIsBlank(s);
    }
  }

  /** Nothing is left after trimming only when everything was white space. */
  lemma EmptyTrimIsBlank(s: string)
    requires Trim(s) == ""
    ensures Blank(s)
  {
    var a :| InfixAt(Trim(s), s, a) && Blank(s[..a]) && Blank(s[a + |Trim(s)|..]);
    forall i | 0 <= i < |s|
      ensures IsSpace(s[i])
    {
      if i < a {
        assert s[..a][i] == s[i];
      } else {
        assert s[a..][i - a] == s[i];
      }
    }
  }

  class InputForm {
    var companyName: string
    var companyDescription: string
    var companyURL: string
    var marketingGoals: string
    var files: seq<UploadFile>
    var fileError: Option<string>

    /** At most five files are attached. */
    ghost predicate Valid()
      reads this
    {
      |files| <= MaxFiles
    }

    /** An empty form. */
    constructor ()
      ensures Valid()
      ensures companyName == "" && companyDescription == "" && companyURL == "" && marketingGoals == ""
      ensures files == [] && fileError == None
    {
      companyName, companyDescription, companyURL, marketingGoals := "", "", "", "";
      files, fileError := [], None;
    }

    method SetCompanyName(value: string)
      modifies this`companyName
      ensures companyName == value
    {
      companyName := value;
    }

    method SetCompanyDescription(value: string)
      modifies this`companyDescription
      ensures companyDescription == value
    {
      companyDescription := value;
    }

    method SetCompanyURL(value: string)
      modifies this`companyURL
      ensures companyURL == value
    {
      companyURL := value;
    }

    method SetMarketingGoals(value: string)
      modifies this`marketingGoals
      ensures marketingGoals == value
    {
      marketingGoals := value;
    }

    /** `handleFileChange`: clear the error, refuse a batch over the count, refuse a batch with an
        oversized file (naming the first one), else append the batch capped at five files. */
    method HandleFileChange(selected: Option<seq<UploadFile>>)
      requires Valid()
      modifies this`files, this`fileError
      ensures Valid()
      ensures FileState(files, fileError) == AfterFileChange(old(files), selected)
    {
      fileError := None;
      if selected.Some? {
        var newFiles := selected.value;
        if |files| + |newFiles| > MaxFiles {
          fileError := Some(TooManyFiles());
          return;
        }
        for i := 0 to |newFiles|
          invariant forall j :: 0 <= j < i ==> newFiles[j].size <= MaxFileSizeBytes
        {
          if newFiles[i].size > MaxFileSizeBytes {
            fileError := Some(FileTooLarge(newFiles[i].name));
            return;
          }
        }
        var all := files + newFiles;
        files := all[..if |all| < MaxFiles then |all| else MaxFiles];
      }
    }

    /** `removeFile`: drop every file with that name, keep the others in order, clear the error. */
    method RemoveFile(fileName: string)
      requires Valid()
      modifies this`files, this`fileError
      ensures Valid()
      ensures files == Filter(old(files), (f: UploadFile) => f.name != fileName)
      ensures fileError == None
    {
      files := Filter(files, (f: UploadFile) => f.name != fileName);
      fileError := None;
    }

    /** `handleSubmit`: the submission handed to the page, or nothing when a required field is
        blank (the user is alerted). The form itself does not change. */
    method HandleSubmit() returns (submitted: Option<Submission>)
      ensures submitted == SubmitOutcome(companyName, companyDescription, companyURL, marketingGoals, files)
    {
      if Trim(companyName) == "" || Trim(companyDescription) == "" || Trim(marketingGoals) == "" {
        return None;
      }
      submitted := Some(Submission(companyName, companyDescription, companyURL, marketingGoals, files));
    }
  }

  /** After removing a name, no file with that name is left and every other file is kept. */
  lemma RemovedNameIsGone(files: seq<UploadFile>, fileName: string)
    ensures var r := Filter(files, (f: UploadFile) => f.name != fileName);
            && (forall i :: 0 <= i < |r| ==> r[i].name != fileName)
            && (forall i :: 0 <= i < |files| && files[i].name != fileName ==> files[i] in r)
  {
  }
}
