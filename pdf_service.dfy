/** `downloadPersonaAsPDF`: the guard on the card element, the name of the saved file and the
    errors the export reports. Rasterising the card and laying it out on an A4 page are not
    modelled; whether they succeed is a parameter. */
module PdfService {
  import opened Wrappers
  import opened JsValue

  const ElementMissing := "Nie można wygenerować PDF: element źródłowy nie istnieje."
  const ExportFailed := "Wystąpił problem podczas tworzenia pliku PDF."

  predicate IsAsciiLower(c: char) { 'a' <= c <= 'z' }
  predicate IsAsciiUpper(c: char) { 'A' <= c <= 'Z' }
  predicate IsAsciiDigit(c: char) { '0' <= c <= '9' }

  /** A character allowed in a saved file name: `[a-z0-9_]`. */
  predicate IsSafeChar(c: char)
  {
    IsAsciiLower(c) || IsAsciiDigit(c) || c == '_'
  }

  /** `replace(/[^a-z0-9]/gi, '_')`: each character outside `[A-Za-z0-9]` becomes `_`. With the
      `i` flag but no `u` flag, no non-ASCII character matches `[a-z]`, so only ASCII letters
      and digits are kept. */
  function ReplaceUnsafe(s: string): (r: string)
    ensures |r| == |s|
    ensures forall i :: 0 <= i < |s| ==>
              r[i] == if IsAsciiLower(s[i]) || IsAsciiUpper(s[i]) || IsAsciiDigit(s[i]) then s[i] else '_'
  {
    if s == [] then []
    else [if IsAsciiLower(s[0]) || IsAsciiUpper(s[0]) || IsAsciiDigit(s[0]) then s[0] else '_'] + ReplaceUnsafe(s[1..])
  }

  /** `toLowerCase` on text that holds only ASCII letters, digits and `_`: the upper-case letters
      are lowered and everything else stays. */
  function LowerAscii(s: string): (r: string)
    ensures |r| == |s|
    ensures forall i :: 0 <= i < |s| ==> r[i] == if IsAsciiUpper(s[i]) then s[i] - 'A' + 'a' else s[i]
  {
    if s == [] then []
    else [if IsAsciiUpper(s[0]) then s[0] - 'A' + 'a' else s[0]] + LowerAscii(s[1..])
  }

  /** The persona name as it appears in the file name. */
  function Sanitise(name: string): (r: string)
    ensures |r| == |name|
  {
    LowerAscii(ReplaceUnsafe(name))
  }

  /** Sanitising works position by position: lower-case letters and digits stay, upper-case
      letters are lowered, everything else becomes `_`; so every output character is safe. */
  lemma SanitiseAt(name: string, i: nat)
    requires i < |name|
    ensures IsAsciiLower(name[i]) || IsAsciiDigit(name[i]) ==> Sanitise(name)[i] == name[i]
    ensures IsAsciiUpper(name[i]) ==> Sanitise(name)[i] == name[i] - 'A' + 'a'
    ensures !(IsAsciiLower(name[i]) || IsAsciiUpper(name[i]) || IsAsciiDigit(name[i])) ==> Sanitise(name)[i] == '_'
    ensures IsSafeChar(Sanitise(name)[i])
  {
  }

  /** Every character of a sanitised name is in `[a-z0-9_]`. */
  lemma SanitisedIsSafe(name: string)
    ensures forall i :: 0 <= i < |Sanitise(name)| ==> IsSafeChar(Sanitise(name)[i])
  {
    forall i | 0 <= i < |Sanitise(name)|
      ensures IsSafeChar(Sanitise(name)[i])
    {
      SanitiseAt(name, i);
    }
  }

  /** Safe text is left as it is; in particular sanitising twice is sanitising once. */
  lemma SanitiseKeepsSafe(s: string)
    requires forall i :: 0 <= i < |s| ==> IsSafeChar(s[i])
    ensures Sanitise(s) == s
  {
    forall i | 0 <= i < |s|
      ensures Sanitise(s)[i] == s[i]
    {
      SanitiseAt(s, i);
    }
  }

  lemma SanitiseIdempotent(name: string)
    ensures Sanitise(Sanitise(name)) == Sanitise(name)
  {
    SanitisedIsSafe(name);
    SanitiseKeepsSafe(Sanitise(name));
  }

  const FilePrefix := "persona_"
  const FileSuffix := ".pdf"

  /** The name the PDF is saved under. */
  function FileName(personaName: string): (r: string)
    ensures |r| == |personaName| + |FilePrefix| + |FileSuffix|
  {
    FilePrefix + Sanitise(personaName) + FileSuffix
  }

  /** Reads the sanitised persona name back out of a saved file name. */
  function FileStem(fileName: string): (stem: Option<string>)
    ensures stem.Some? ==> FilePrefix + stem.value + FileSuffix == fileName
  {
    if |fileName| >= |FilePrefix| + |FileSuffix| && FilePrefix <= fileName
       && fileName[|fileName| - |FileSuffix|..] == FileSuffix
    then
      var stem := fileName[|FilePrefix|..|fileName| - |FileSuffix|];
      assert fileName == fileName[..|FilePrefix|] + stem + fileName[|fileName| - |FileSuffix|..];
      Some(stem)
    else None
  }

  /** The file name carries exactly the sanitised persona name between its fixed prefix and
      extension. */
  lemma FileNameRoundTrip(personaName: string)
    ensures FileStem(FileName(personaName)) == Some(Sanitise(personaName))
  {
    var f := FileName(personaName);
    assert f[..|FilePrefix|] == FilePrefix;
    assert f[|f| - |FileSuffix|..] == FileSuffix;
    assert f[|FilePrefix|..|f| - |FileSuffix|] == Sanitise(personaName);
  }

  /** The outcome of one export: the saved file's name, or the error thrown.
      `dom` holds the ids of the elements on the page; `rendered` says whether rasterising the
      card and assembling the PDF page succeed. The persona name is whatever JSON value the text
      model sent: only a string has `replace`, any other value throws inside the `try`. */
  function DownloadPersonaAsPDF(elementId: string, personaName: Json, dom: set<string>, rendered: bool)
    : (r: Result<string, string>)
    ensures elementId !in dom ==> r == Failure(ElementMissing)
    ensures elementId in dom && !(rendered && personaName.JStr?) ==> r == Failure(ExportFailed)
    ensures r.Success? <==> elementId in dom && rendered && personaName.JStr?
    ensures r.Success? ==> r.value == FileName(personaName.s)
  {
    if elementId !in dom then Failure(ElementMissing)
    else if !rendered then Failure(ExportFailed)
    else
      match personaName
      case JStr(name) => Success(FileName(name))
      case _ => Failure(ExportFailed)
  }

  /** Every saved file name starts with `persona_`, ends with `.pdf`, and has only `[a-z0-9_]`
      in between. */
  lemma SavedNameIsSafe(elementId: string, personaName: Json, dom: set<string>, rendered: bool)
    requires DownloadPersonaAsPDF(elementId, personaName, dom, rendered).Success?
    ensures var f := DownloadPersonaAsPDF(elementId, personaName, dom, rendered).value;
            && FileStem(f).Some?
            && forall i :: 0 <= i < |FileStem(f).value| ==> IsSafeChar(FileStem(f).value[i])
  {
    FileNameRoundTrip(personaName.s);
    SanitisedIsSafe(personaName.s);
  }
}
