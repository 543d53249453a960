/** The two entry points of the Gemini service: `generateInitialPersonaData`, which builds the
    attachment context, asks the text model and normalises its reply, and `generatePersonaImages`,
    which turns each image prompt into a picture URL. The models themselves are parameters. */
module GeminiService {
  import opened Wrappers
  import opened Text
  import opened JsValue
  import opened Types
  import opened ResponseNormaliser

  // ---------------------------------------------------------------------------------------
  // The API key guard
  // ---------------------------------------------------------------------------------------

  /** The value shipped in the example configuration, which counts as no key at all. */
  const PlaceholderKey := "YOUR_API_KEY_PLACEHOLDER"

  const KeyMissing := "Klucz API Gemini (API_KEY) nie jest ustawiony w zmiennych środowiskowych."
  const KeyInvalid := "Klucz API Gemini jest nieprawidłowy. Sprawdź konfigurację."
  const NoContent := "AI nie zwróciło żadnej treści."
  /** The marker the SDK puts in the message of an error about a rejected key. */
  const InvalidKeyMarker := "API_KEY_INVALID"

  /** `API_KEY` is set, not empty (an empty string is falsy) and not the placeholder. */
  predicate KeyConfigured(key: Option<string>)
  {
    key.Some? && key.value != "" && key.value != PlaceholderKey
  }

  /** What a `throw` can carry: an `Error` with its message, or any other value. */
  datatype Thrown = ErrorWith(message: string) | NonError

  /** What the text model's call gives: the reply's `text` (absent when the reply has none), or
      the value the SDK threw. */
  datatype TextReply = Replied(text: Option<string>) | Threw(thrown: Thrown)

  /** The keys the guard turns away. */
  lemma RejectedKeys()
    ensures !KeyConfigured(None) && !KeyConfigured(Some("")) && !KeyConfigured(Some(PlaceholderKey))
    ensures forall k: string :: k != "" && k != PlaceholderKey ==> KeyConfigured(Some(k))
  {
  }

  // ---------------------------------------------------------------------------------------
  // The attachment context (the `fileContext +=` loop)
  // ---------------------------------------------------------------------------------------

  /** The heading placed before the list of attachments. */
  const ContextHeader := "\n\nDodatkowe informacje z załączonych plików:\n"
  /** How many characters of a text attachment are quoted. */
  const ExcerptLength: nat := 200

  /** The quoted start of an attachment: present only for a plain-text or Markdown file whose
      content is a non-empty string, and never longer than 200 characters. */
  function Excerpt(f: ProcessedFile): (r: Option<string>)
    ensures r.Some? <==> f.content.Some? && f.content.value != [] && (f.mimeType == "text/plain" || f.mimeType == "text/markdown")
    ensures r.Some? ==> |r.value| <= ExcerptLength && r.value <= f.content.value
    ensures r.Some? && |f.content.value| <= ExcerptLength ==> r.value == f.content.value
  {
    if f.content.Some? && f.content.value != [] && (f.mimeType == "text/plain" || f.mimeType == "text/markdown")
    then Some(Prefix(f.content.value, ExcerptLength))
    else None
  }

  /** The line that names an attachment; `kbText` is `(size / 1024).toFixed(2)`. */
  function ListingLine(f: ProcessedFile, kbText: nat -> string): (r: string)
    ensures "- Nazwa pliku: " + f.name <= r
    ensures exists a :: InfixAt(f.mimeType, r, a)
    ensures r[|r| - 1] == '\n'
  {
    var r := "- Nazwa pliku: " + f.name + " (Typ: " + f.mimeType + ", Rozmiar: " + kbText(f.size) + " KB)\n";
    assert InfixAt(f.mimeType, r, |"- Nazwa pliku: " + f.name + " (Typ: "|);
    r
  }

  /** The line under the listing: the excerpt, a note that other content was attached, or a note
      that there is nothing to show. */
  function NoteLine(f: ProcessedFile): (r: string)
    // non-empty text content is quoted, at most 200 characters of it
    ensures f.content.Some? && f.content.value != [] && (f.mimeType == "text/plain" || f.mimeType == "text/markdown") ==>
              r == "  Treść (fragment): " + Prefix(f.content.value, ExcerptLength) + "...\n"
    // non-empty content of any other type is only announced
    ensures f.content.Some? && f.content.value != [] && !(f.mimeType == "text/plain" || f.mimeType == "text/markdown") ==>
              r == "  Plik \"" + f.name + "\" został załączony. Przeanalizuj go w kontekście firmy.\n"
    // absent or empty content (a falsy string) gets the no-content note
    ensures f.content.None? || f.content.value == [] ==>
              r == "  Plik \"" + f.name + "\" został załączony (brak bezpośredniej treści tekstowej do wyświetlenia).\n"
  {
    if Excerpt(f).Some? then "  Treść (fragment): " + Excerpt(f).value + "...\n"
    else if f.content.Some? && f.content.value != [] then
      "  Plik \"" + f.name + "\" został załączony. Przeanalizuj go w kontekście firmy.\n"
    else
      "  Plik \"" + f.name + "\" został załączony (brak bezpośredniej treści tekstowej do wyświetlenia).\n"
  }

  /** What one attachment adds to the context. */
  function FileEntry(f: ProcessedFile, kbText: nat -> string): (r: string)
    ensures ListingLine(f, kbText) <= r
  {
    ListingLine(f, kbText) + NoteLine(f)
  }

  /** The entries of all attachments, in order. */
  function Entries(files: seq<ProcessedFile>, kbText: nat -> string): string
  {
    if files == [] then "" else Entries(files[..|files| - 1], kbText) + FileEntry(files[|files| - 1], kbText)
  }

  /** The context appended to the prompt: empty without attachments, else the heading and one
      entry per file. */
  function FileContext(files: seq<ProcessedFile>, kbText: nat -> string): (r: string)
    ensures files == [] <==> r == ""
    ensures files != [] ==> ContextHeader <= r
  {
    if files == [] then "" else ContextHeader + Entries(files, kbText)
  }

  /** The loop that builds the context, one `+=` per attachment. */
  method BuildFileContext(files: seq<ProcessedFile>, kbText: nat -> string) returns (fileContext: string)
    ensures fileContext == FileContext(files, kbText)
  {
    fileContext := "";
    if |files| > 0 {
      fileContext := ContextHeader;
      for i := 0 to |files|
        invariant fileContext == ContextHeader + Entries(files[..i], kbText)
      {
        EntriesStep(files, i, kbText);
        fileContext := fileContext + ListingLine(files[i], kbText);
        var content := files[i].content;
        if content.Some? && content.value != [] && (files[i].mimeType == "text/plain" || files[i].mimeType == "text/markdown") {
          fileContext := fileContext + ("  Treść (fragment): " + Prefix(content.value, ExcerptLength) + "...\n");
        } else if content.Some? && content.value != [] {
          fileContext := fileContext + ("  Plik \"" + files[i].name + "\" został załączony. Przeanalizuj go w kontekście firmy.\n");
        } else {
          fileContext := fileContext + ("  Plik \"" + files[i].name + "\" został załączony (brak bezpośredniej treści tekstowej do wyświetlenia).\n");
        }
      }
      assert files[..|files|] == files;
    }
  }

  /** One more attachment adds its listing line and then its note to the entries. */
  lemma EntriesStep(files: seq<ProcessedFile>, i: nat, kbText: nat -> string)
    requires i < |files|
    ensures ContextHeader + Entries(files[..i + 1], kbText)
         == ContextHeader + Entries(files[..i], kbText) + ListingLine(files[i], kbText) + NoteLine(files[i])
  {
    assert files[..i + 1][..i] == files[..i];
    var entries, listing, note := Entries(files[..i], kbText), ListingLine(files[i], kbText), NoteLine(files[i]);
    assert Entries(files[..i + 1], kbText) == entries + (listing + note);
    assert ContextHeader + (entries + (listing + note)) == ContextHeader + entries + listing + note;
  }

  /** Adding an attachment adds its entry at the end of the context. */
  lemma FileContextAppend(files: seq<ProcessedFile>, f: ProcessedFile, kbText: nat -> string)
    requires files != []
    ensures FileContext(files + [f], kbText) == FileContext(files, kbText) + FileEntry(f, kbText)
  {
    assert (files + [f])[..|files|] == files;
    assert ContextHeader + (Entries(files, kbText) + FileEntry(f, kbText))
        == (ContextHeader + Entries(files, kbText)) + FileEntry(f, kbText);
  }

  /** The context of a single attachment: the heading, its listing line and its note. */
  lemma FileContextSingle(f: ProcessedFile, kbText: nat -> string)
    ensures FileContext([f], kbText) == ContextHeader + ListingLine(f, kbText) + NoteLine(f)
  {
    assert [f][..0] == [];
    assert Entries([f], kbText) == ListingLine(f, kbText) + NoteLine(f);
  }

  /** For a record made by the upload step, the "other content" note never appears: content is
      only ever read for plain text and Markdown, so a non-empty content is always quoted. */
  lemma ProcessedFileNote(f: ProcessedFile)
    requires f.content.Some? ==> (f.mimeType == "text/plain" || f.mimeType == "text/markdown")
    ensures NoteLine(f) == (if Excerpt(f).Some? then "  Treść (fragment): " + Excerpt(f).value + "...\n"
      else "  Plik \"" + f.name + "\" został załączony (brak bezpośredniej treści tekstowej do wyświetlenia).\n")
  {
  }

  // ---------------------------------------------------------------------------------------
  // generateInitialPersonaData
  // ---------------------------------------------------------------------------------------

  /** What the prompt is built from: the form's fields, the URL or `Nie podano` when it is
      empty, and the attachment context. The fixed wording around them is not modelled. */
  datatype PromptInput = PromptInput(
    companyName: string,
    companyDescription: string,
    companyURL: string,
    marketingGoals: string,
    fileContext: string)

  /** The text the URL line of the prompt shows. */
  function UrlOrDefault(companyURL: string): (r: string)
    ensures r != ""
    ensures companyURL != "" ==> r == companyURL
    ensures companyURL == "" ==> r == "Nie podano"
  {
    if companyURL != "" then companyURL else "Nie podano"
  }

  /** The prompt a submission is turned into. */
  function PromptFor(companyName: string, companyDescription: string, companyURL: string, marketingGoals: string,
                     files: seq<ProcessedFile>, kbText: nat -> string): (r: PromptInput)
    ensures r.companyName == companyName && r.companyDescription == companyDescription
    ensures r.marketingGoals == marketingGoals
    ensures r.companyURL != "" && (companyURL != "" ==> r.companyURL == companyURL)
    ensures r.fileContext == "" <==> files == []
    ensures files != [] ==> ContextHeader <= r.fileContext
  {
    PromptInput(companyName, companyDescription, UrlOrDefault(companyURL), marketingGoals, FileContext(files, kbText))
  }

  /** The `catch` around the call: an `Error` whose message names an invalid key is replaced by
      the friendlier message; anything else is thrown on unchanged. */
  function Rethrown(e: Thrown): (r: Thrown)
    ensures e.ErrorWith? && Contains(e.message, InvalidKeyMarker) ==> r == ErrorWith(KeyInvalid)
    ensures !(e.ErrorWith? && Contains(e.message, InvalidKeyMarker)) ==> r == e
  {
    if e.ErrorWith? && Contains(e.message, InvalidKeyMarker) then ErrorWith(KeyInvalid) else e
  }

  /** Neither of the errors thrown inside the `try` names an invalid key, so the `catch` passes
      both on unchanged. */
  lemma OwnErrorsPassCatch()
    ensures !Contains(NoContent, InvalidKeyMarker) && !Contains(MalformedResponse, InvalidKeyMarker)
  {
    assert InvalidKeyMarker[3] == '_';
    assert forall j :: 0 <= j < |NoContent| ==> NoContent[j] != '_' by {
      assert forall j :: 0 <= j < |"AI nie zwróciło żadnej treści."| ==> "AI nie zwróciło żadnej treści."[j] != '_';
    }
    assert forall j :: 0 <= j < |MalformedResponse| ==> MalformedResponse[j] != '_' by {
      assert forall j :: 0 <= j < |"Nie udało się przetworzyć "| ==> "Nie udało się przetworzyć "[j] != '_';
      assert forall j :: 0 <= j < |"odpowiedzi od AI. "| ==> "odpowiedzi od AI. "[j] != '_';
      assert forall j :: 0 <= j < |"Format JSON był nieprawidłowy."| ==> "Format JSON był nieprawidłowy."[j] != '_';
    }
    MissingCharNotContained(NoContent, InvalidKeyMarker, 3);
    MissingCharNotContained(MalformedResponse, InvalidKeyMarker, 3);
  }

  /** Everything after the request inside the `try`: an absent or empty text is an error, any
      other text is normalised; a failure on either path passes through the `catch`. */
  function Interpret(reply: TextReply, parseJson: string -> Option<Json>, clock: nat -> nat, numberText: real -> string)
    : (r: Result<seq<PersonaScaffold>, Thrown>)
    ensures reply.Threw? ==> r == Failure(Rethrown(reply.thrown))
    ensures reply.Replied? && (reply.text.None? || reply.text.value == "") ==> r == Failure(ErrorWith(NoContent))
    ensures reply.Replied? && reply.text.Some? && reply.text.value != "" ==>
              match ParsePersonasFromResponse(reply.text.value, parseJson, clock, numberText)
              case Success(scaffolds) => r == Success(scaffolds)
              case Failure(_) => r == Failure(ErrorWith(MalformedResponse))
  {
    OwnErrorsPassCatch();
    match reply
    case Threw(e) => Failure(Rethrown(e))
    case Replied(text) =>
      if text.None? || text.value == "" then Failure(Rethrown(ErrorWith(NoContent)))
      else
        match ParsePersonasFromResponse(text.value, parseJson, clock, numberText)
        case Success(scaffolds) => Success(scaffolds)
        case Failure(message) => Failure(Rethrown(ErrorWith(message)))
  }

  /** What `generateInitialPersonaData` settles to. Without a usable key it fails before the
      model is asked; otherwise the model is asked once, with the prompt built from the inputs. */
  function InitialPersonaData(key: Option<string>, companyName: string, companyDescription: string, companyURL: string,
                              marketingGoals: string, files: seq<ProcessedFile>,
                              textModel: PromptInput -> TextReply, parseJson: string -> Option<Json>,
                              clock: nat -> nat, numberText: real -> string, kbText: nat -> string)
    : (r: Result<seq<PersonaScaffold>, Thrown>)
    ensures !KeyConfigured(key) ==> r == Failure(ErrorWith(KeyMissing))
    ensures KeyConfigured(key) ==>
              r == Interpret(textModel(PromptFor(companyName, companyDescription, companyURL, marketingGoals, files, kbText)),
                             parseJson, clock, numberText)
    ensures r.Success? ==> KeyConfigured(key) && forall i :: 0 <= i < |r.value| ==> WellFormedScaffold(r.value[i])
  {
    if !KeyConfigured(key) then Failure(ErrorWith(KeyMissing))
    else
      var prompt := PromptFor(companyName, companyDescription, companyURL, marketingGoals, files, kbText);
      Interpret(textModel(prompt), parseJson, clock, numberText)
  }

  /** `generateInitialPersonaData` step by step: the guard, the context loop, the prompt, the call. */
  method GenerateInitialPersonaData(key: Option<string>, companyName: string, companyDescription: string,
                                    companyURL: string, marketingGoals: string, files: seq<ProcessedFile>,
                                    textModel: PromptInput -> TextReply, parseJson: string -> Option<Json>,
                                    clock: nat -> nat, numberText: real -> string, kbText: nat -> string)
    returns (r: Result<seq<PersonaScaffold>, Thrown>)
    ensures r == InitialPersonaData(key, companyName, companyDescription, companyURL, marketingGoals, files,
                                    textModel, parseJson, clock, numberText, kbText)
  {
    if key.None? || key.value == "" || key.value == PlaceholderKey {
      return Failure(ErrorWith(KeyMissing));
    }
    var fileContext := BuildFileContext(files, kbText);
    var url := if companyURL != "" then companyURL else "Nie podano";
    var reply := textModel(PromptInput(companyName, companyDescription, url, marketingGoals, fileContext));
    r := Interpret(reply, parseJson, clock, numberText);
  }

  /** Without a usable key the outcome is the same whatever the model would answer: the guard
      fails before any request. */
  lemma KeyGuardPrecedesRequest(key: Option<string>, companyName: string, companyDescription: string, companyURL: string,
                                marketingGoals: string, files: seq<ProcessedFile>,
                                modelA: PromptInput -> TextReply, modelB: PromptInput -> TextReply,
                                parseJson: string -> Option<Json>, clock: nat -> nat, numberText: real -> string,
                                kbText: nat -> string)
    requires !KeyConfigured(key)
    ensures InitialPersonaData(key, companyName, companyDescription, companyURL, marketingGoals, files, modelA,
                               parseJson, clock, numberText, kbText)
         == InitialPersonaData(key, companyName, companyDescription, companyURL, marketingGoals, files, modelB,
                               parseJson, clock, numberText, kbText)
         == Failure(ErrorWith(KeyMissing))
  {
  }

  // ---------------------------------------------------------------------------------------
  // generateSingleImage and generatePersonaImages
  // ---------------------------------------------------------------------------------------

  /** The URL scheme and type of a generated JPEG. */
  const JpegDataPrefix := "data:image/jpeg;base64,"
  /** The picture shown when a generation fails. */
  const PlaceholderImage := "https://" + "picsum.photos/500/500?grayscale&blur=2"

  /** `generateSingleImage`: the image bytes the model returned, as a data URL, when there are
      any; on any failure (a thrown call, no image, empty bytes) the placeholder. `bytes` is what
      the call yields for the first generated image. It never fails. */
  function SingleImage(bytes: Option<string>): (url: string)
    ensures url == PlaceholderImage || JpegDataPrefix <= url
  {
    if bytes.Some? && bytes.value != "" then JpegDataPrefix + bytes.value else PlaceholderImage
  }

  /** Reads the image bytes back out of a URL made by `SingleImage`. */
  function ImageBytes(url: string): (bytes: Option<string>)
    ensures bytes.Some? ==> JpegDataPrefix + bytes.value == url
  {
    if JpegDataPrefix <= url then Some(url[|JpegDataPrefix|..]) else None
  }

  /** The placeholder is never mistaken for a picture, and the bytes of a picture are recovered
      exactly: a URL is the placeholder exactly when the generation failed. */
  lemma SingleImageRoundTrip(bytes: Option<string>)
    ensures ImageBytes(SingleImage(bytes)) == if bytes.Some? && bytes.value != "" then bytes else None
    ensures SingleImage(bytes) == PlaceholderImage <==> !(bytes.Some? && bytes.value != "")
  {
    if bytes.Some? && bytes.value != "" {
      assert (JpegDataPrefix + bytes.value)[|JpegDataPrefix|..] == bytes.value;
      assert SingleImage(bytes)[4] == ':';
    } else {
      assert PlaceholderImage[0] != JpegDataPrefix[0];
    }
  }

  /** The pictures of one persona. */
  datatype PersonaImages = PersonaImages(storyboardImages: seq<string>, socialMediaAdImage: string)

  /** `generatePersonaImages`: the key guard, then one picture per storyboard prompt, in prompt
      order, and one for the social-media prompt. `imageModel` gives the bytes generated for a
      prompt. Only the guard can fail. */
  function GeneratePersonaImages(key: Option<string>, prompts: ImagePrompts, imageModel: Json -> Option<string>)
    : (r: Result<PersonaImages, Thrown>)
    ensures r.Failure? <==> !KeyConfigured(key)
    ensures r.Failure? ==> r.error == ErrorWith(KeyMissing)
    ensures r.Success? ==> |r.value.storyboardImages| == |prompts.storyboard|
    ensures r.Success? ==> forall i :: 0 <= i < |prompts.storyboard| ==>
              r.value.storyboardImages[i] == SingleImage(imageModel(prompts.storyboard[i]))
    ensures r.Success? ==> r.value.socialMediaAdImage == SingleImage(imageModel(prompts.socialMediaAd))
  {
    if !KeyConfigured(key) then Failure(ErrorWith(KeyMissing))
    else
      var storyboardImages := seq(|prompts.storyboard|, i requires 0 <= i < |prompts.storyboard| =>
                                  SingleImage(imageModel(prompts.storyboard[i])));
      Success(PersonaImages(storyboardImages, SingleImage(imageModel(prompts.socialMediaAd))))
  }

  /** Every picture is either a JPEG data URL or the placeholder, and a normalised scaffold always
      gets three storyboard pictures. */
  lemma PersonaImagesShape(key: Option<string>, prompts: ImagePrompts, imageModel: Json -> Option<string>)
    requires KeyConfigured(key) && |prompts.storyboard| == 3
    ensures var r := GeneratePersonaImages(key, prompts, imageModel);
            && r.Success? && |r.value.storyboardImages| == 3
            && (forall i :: 0 <= i < 3 ==>
                  r.value.storyboardImages[i] == PlaceholderImage || JpegDataPrefix <= r.value.storyboardImages[i])
            && (r.value.socialMediaAdImage == PlaceholderImage || JpegDataPrefix <= r.value.socialMediaAdImage)
  {
  }

  /** Both guards, the one before the text request and the one before the pictures, accept
      the same keys: neither an absent key, an empty one, nor the placeholder. */
  lemma KeyGuardsAgree(key: Option<string>, companyName: string, companyDescription: string, companyURL: string,
                       marketingGoals: string, files: seq<ProcessedFile>, textModel: PromptInput -> TextReply,
                       parseJson: string -> Option<Json>, clock: nat -> nat, numberText: real -> string,
                       kbText: nat -> string, prompts: ImagePrompts, imageModel: Json -> Option<string>)
    ensures GeneratePersonaImages(key, prompts, imageModel).Failure? ==>
              InitialPersonaData(key, companyName, companyDescription, companyURL, marketingGoals, files, textModel,
                                 parseJson, clock, numberText, kbText) == Failure(ErrorWith(KeyMissing))
    ensures InitialPersonaData(key, companyName, companyDescription, companyURL, marketingGoals, files, textModel,
                               parseJson, clock, numberText, kbText).Success? ==>
              GeneratePersonaImages(key, prompts, imageModel).Success?
  {
  }
}
