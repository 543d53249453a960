/** The page component: its state (`generatedPersonas`, `isLoading`, `error`) and the two
    handlers that change it, generating personas from a submitted form and exporting one
    persona card as a PDF. */
module AppState {
  import opened Wrappers
  import opened JsValue
  import opened Types
  import opened FileService
  import opened ResponseNormaliser
  import opened GeminiService
  import opened PdfService

  const NoPersonas := "Nie udało się wygenerować person. Spróbuj ponownie z innymi danymi."
  const GenerationFailedPrefix := "Nie udało się wygenerować person. "
  const UnknownError := "Wystąpił nieznany błąd."
  const PdfDownloadFailed := "Nie udało się wygenerować pliku PDF."

  /** Everything outside the program that a submission depends on: the configured key, the two
      models, the JSON parser, the clock, and the number formatting used in text. */
  datatype Services = Services(
    key: Option<string>,
    textModel: PromptInput -> TextReply,
    imageModel: Json -> Option<string>,
    parseJson: string -> Option<Json>,
    clock: nat -> nat,
    numberText: real -> string,
    kbText: nat -> string)

  /** The id of a persona's card element, as the card renders it and the export looks it up. */
  function CardId(id: Json, numberText: real -> string): (r: string)
    ensures |r| >= 13 && r[..13] == "persona-card-"
  {
    "persona-card-" + Show(id, numberText)
  }

  /** Personas with different string ids have different cards, so the export finds the card of
      the persona it was asked for. */
  lemma CardIdsDistinct(a: string, b: string, numberText: real -> string)
    requires a != b
    ensures CardId(JStr(a), numberText) != CardId(JStr(b), numberText)
  {
  }

  /** The message shown for a thrown value: an `Error`'s own message, anything else unknown. */
  function ErrorMessage(e: Thrown): (m: string)
    ensures e.ErrorWith? ==> m == e.message
    ensures e.NonError? ==> m == UnknownError
  {
    match e
    case ErrorWith(message) => message
    case NonError => UnknownError
  }

  /** The persona pushed for a scaffold: the scaffold spread whole, its storyboard pictures, and
      the social advertisement made of its picture and the scaffold's text. */
  function WithImages(scaffold: PersonaScaffold, images: PersonaImages): (p: Persona)
    ensures p.scaffold == scaffold && p.socialMediaAd.text == scaffold.socialMediaAdText
    ensures p.storyboardImages == images.storyboardImages && p.socialMediaAd.image == images.socialMediaAdImage
  {
    Persona(scaffold, images.storyboardImages, SocialAd(images.socialMediaAdImage, scaffold.socialMediaAdText))
  }

  /** One persona per scaffold, in order, each with the pictures generated from its own prompts.
      The key has already passed the guard of the first request, so the image guard passes. */
  function Assemble(key: Option<string>, scaffolds: seq<PersonaScaffold>, imageModel: Json -> Option<string>)
    : (r: seq<Persona>)
    requires KeyConfigured(key)
    ensures |r| == |scaffolds|
    ensures forall i :: 0 <= i < |r| ==>
              r[i] == WithImages(scaffolds[i], GeneratePersonaImages(key, scaffolds[i].imagePrompts, imageModel).value)
  {
    seq(|scaffolds|, i requires 0 <= i < |scaffolds| =>
      WithImages(scaffolds[i], GeneratePersonaImages(key, scaffolds[i].imagePrompts, imageModel).value))
  }

  /** The state a submission settles in, apart from `isLoading`, which is always false then. */
  datatype Outcome = Outcome(generatedPersonas: seq<Persona>, error: Option<string>)

  /** What `handleGeneratePersonas` leaves behind. */
  function SubmissionOutcome(companyName: string, companyDescription: string, companyURL: string, marketingGoals: string,
                             files: seq<UploadFile>, services: Services): (r: Outcome)
    ensures r.error.Some? ==> r.generatedPersonas == []
    ensures r.error.None? ==> r.generatedPersonas != []
  {
    var result := InitialPersonaData(services.key, companyName, companyDescription, companyURL, marketingGoals,
                                     Processed(files), services.textModel, services.parseJson, services.clock,
                                     services.numberText, services.kbText);
    match result
    case Failure(e) => Outcome([], Some(GenerationFailedPrefix + ErrorMessage(e)))
    case Success(scaffolds) =>
      if scaffolds == [] then Outcome([], Some(NoPersonas))
      else Outcome(Assemble(services.key, scaffolds, services.imageModel), None)
  }

  class App {
    var generatedPersonas: seq<Persona>
    var isLoading: bool
    var error: Option<string>

    /** The page as first shown: no personas, not loading, no error. */
    constructor ()
      ensures generatedPersonas == [] && !isLoading && error.None?
    {
      generatedPersonas, isLoading, error := [], false, None;
    }

    /** The first three updates of a submission. */
    method StartSubmission()
      modifies this
      ensures isLoading && error.None? && generatedPersonas == []
    {
      isLoading := true;
      error := None;
      generatedPersonas := [];
    }

    /** `handleGeneratePersonas`: reset the state, process the files, ask for the scaffolds, then
        generate each persona's pictures in turn. Whatever path it takes, loading ends. */
    method HandleGeneratePersonas(companyName: string, companyDescription: string, companyURL: string,
                                  marketingGoals: string, files: seq<UploadFile>, services: Services)
      modifies this
      ensures !isLoading
      ensures Outcome(generatedPersonas, error)
           == SubmissionOutcome(companyName, companyDescription, companyURL, marketingGoals, files, services)
    {
      StartSubmission();
      var processedFiles := ProcessUploadedFiles(files);
      var result := GenerateInitialPersonaData(services.key, companyName, companyDescription, companyURL,
                                               marketingGoals, processedFiles, services.textModel, services.parseJson,
                                               services.clock, services.numberText, services.kbText);
      if result.Failure? {
        error := Some(GenerationFailedPrefix + ErrorMessage(result.error));
        isLoading := false;
        return;
      }
      var personaScaffolds := result.value;
      if |personaScaffolds| == 0 {
        error := Some(NoPersonas);
        isLoading := false;
        return;
      }
      var personasWithImages := PersonasWithImages(services.key, personaScaffolds, services.imageModel);
      generatedPersonas := personasWithImages;
      isLoading := false;
    }

    /** The loop of `handleGeneratePersonas` that pushes one persona per scaffold, after
        awaiting that scaffold's pictures. */
    method PersonasWithImages(key: Option<string>, personaScaffolds: seq<PersonaScaffold>,
                              imageModel: Json -> Option<string>) returns (personasWithImages: seq<Persona>)
      requires KeyConfigured(key)
      ensures personasWithImages == Assemble(key, personaScaffolds, imageModel)
    {
      personasWithImages := [];
      for i := 0 to |personaScaffolds|
        invariant personasWithImages == Assemble(key, personaScaffolds[..i], imageModel)
      {
        var images := GeneratePersonaImages(key, personaScaffolds[i].imagePrompts, imageModel);
        personasWithImages := personasWithImages + [WithImages(personaScaffolds[i], images.value)];
      }
      assert personaScaffolds[..|personaScaffolds|] == personaScaffolds;
    }

    /** `handleDownloadPDF`: export the card of the persona with this id and name. A failure
        sets the error and changes nothing else; the name of the saved file is returned. */
    method HandleDownloadPDF(personaId: Json, personaName: Json, dom: set<string>, rendered: bool,
                             numberText: real -> string) returns (saved: Option<string>)
      modifies this`error
      ensures var r := DownloadPersonaAsPDF(CardId(personaId, numberText), personaName, dom, rendered);
              && (r.Success? ==> saved == Some(r.value) && error == old(error))
              && (r.Failure? ==> saved.None? && error == Some(PdfDownloadFailed))
    {
      var elementId := CardId(personaId, numberText);
      var r := DownloadPersonaAsPDF(elementId, personaName, dom, rendered);
      if r.Failure? {
        error := Some(PdfDownloadFailed);
        return None;
      }
      saved := Some(r.value);
    }
  }

  /** On success there is one persona per scaffold, in scaffold order: each keeps its scaffold,
      carries the scaffold's social text, and has three storyboard pictures made from its own
      prompts. */
  lemma SuccessfulSubmission(companyName: string, companyDescription: string, companyURL: string, marketingGoals: string,
                             files: seq<UploadFile>, services: Services)
    requires SubmissionOutcome(companyName, companyDescription, companyURL, marketingGoals, files, services).error.None?
    ensures var scaffolds := InitialPersonaData(services.key, companyName, companyDescription, companyURL, marketingGoals,
                                                Processed(files), services.textModel, services.parseJson,
                                                services.clock, services.numberText, services.kbText);
            var personas := SubmissionOutcome(companyName, companyDescription, companyURL, marketingGoals, files,
                                              services).generatedPersonas;
            && scaffolds.Success? && |personas| == |scaffolds.value| > 0
            && forall i :: 0 <= i < |personas| ==>
                 && personas[i].scaffold == scaffolds.value[i]
                 && personas[i].socialMediaAd.text == scaffolds.value[i].socialMediaAdText
                 && |personas[i].storyboardImages| == 3
                 && (forall k :: 0 <= k < 3 ==>
                       personas[i].storyboardImages[k]
                         == SingleImage(services.imageModel(scaffolds.value[i].imagePrompts.storyboard[k])))
                 && personas[i].socialMediaAd.image
                       == SingleImage(services.imageModel(scaffolds.value[i].imagePrompts.socialMediaAd))
  {
    var scaffolds := InitialPersonaData(services.key, companyName, companyDescription, companyURL, marketingGoals,
                                        Processed(files), services.textModel, services.parseJson,
                                        services.clock, services.numberText, services.kbText);
    assert scaffolds.Success?;
    forall i | 0 <= i < |scaffolds.value|
      ensures |scaffolds.value[i].imagePrompts.storyboard| == 3
    {
      assert WellFormedScaffold(scaffolds.value[i]);
    }
  }

  /** A failed request leaves no personas and shows the fixed prefix and the error's message;
      with no usable key this is the missing-key message. */
  lemma FailedSubmission(companyName: string, companyDescription: string, companyURL: string, marketingGoals: string,
                         files: seq<UploadFile>, services: Services)
    ensures var scaffolds := InitialPersonaData(services.key, companyName, companyDescription, companyURL, marketingGoals,
                                                Processed(files), services.textModel, services.parseJson,
                                                services.clock, services.numberText, services.kbText);
            scaffolds.Failure? ==>
              SubmissionOutcome(companyName, companyDescription, companyURL, marketingGoals, files, services)
                == Outcome([], Some(GenerationFailedPrefix + ErrorMessage(scaffolds.error)))
    ensures !KeyConfigured(services.key) ==>
              SubmissionOutcome(companyName, companyDescription, companyURL, marketingGoals, files, services)
                == Outcome([], Some(GenerationFailedPrefix + KeyMissing))
  {
  }

  /** An empty list of scaffolds ends with the "no personas" error, and no picture is asked for:
      the outcome is the same whatever the image model would answer. */
  lemma NoScaffolds(companyName: string, companyDescription: string, companyURL: string, marketingGoals: string,
                    files: seq<UploadFile>, services: Services, otherImageModel: Json -> Option<string>)
    requires InitialPersonaData(services.key, companyName, companyDescription, companyURL, marketingGoals,
                                Processed(files), services.textModel, services.parseJson,
                                services.clock, services.numberText, services.kbText) == Success([])
    ensures SubmissionOutcome(companyName, companyDescription, companyURL, marketingGoals, files, services)
         == SubmissionOutcome(companyName, companyDescription, companyURL, marketingGoals, files,
                              services.(imageModel := otherImageModel))
         == Outcome([], Some(NoPersonas))
  {
  }

  /** A persona whose card is on the page, with a string name, is exported under its sanitised
      name when rendering succeeds; its card id is never missing. */
  lemma DownloadGeneratedPersona(persona: Persona, dom: set<string>, numberText: real -> string)
    requires CardId(persona.scaffold.id, numberText) in dom && persona.scaffold.name.JStr?
    ensures DownloadPersonaAsPDF(CardId(persona.scaffold.id, numberText), persona.scaffold.name, dom, true)
         == Success(FileName(persona.scaffold.name.s))
    ensures DownloadPersonaAsPDF(CardId(persona.scaffold.id, numberText), persona.scaffold.name, dom, false)
         == Failure(ExportFailed)
  {
  }
}
