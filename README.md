# Personaria: a verified model of the persona generator's core

Personaria is a single-page React application that turns a description of a company into marketing
personas. The user fills in a form: company name, description, URL and marketing goals, plus at
most five attached files of at most 50 MiB each. The page then does four things:

- processes the attachments, reading plain-text and Markdown files;
- asks the Gemini text model for a JSON list of personas;
- normalises that JSON into persona scaffolds, putting fixed defaults into missing fields;
- asks the Imagen model for three storyboard pictures and one social-media picture per persona.

Each persona card can then be exported as a PDF, saved under a file name made safe from the
persona's name.

This Dafny project models that core:

- `wrappers.dfy`: `Option` and `Result`.
- `text.dfy`: the string operations the code relies on. It defines `trim`, the `\w`/`\s` classes,
  `substring`, `includes` and integer rendering.
- `seqs.dfy`: `Array.prototype.filter` and its laws.
- `js_value.dfy`: parsed JSON values. It covers JavaScript truthiness, `||` defaults, property
  reads, template-literal stringification and a `map` whose callback may throw.
- `model_types.dfy`: the records of `types.ts` and the limits of `constants.ts`.
- `response_normaliser.dfy`: `cleanJsonString` and `parsePersonasFromResponse`.
- `file_service.dfy`: `processUploadedFiles`, as a loop method proved against a specification
  function.
- `gemini_service.dfy`:
  - the API-key guard;
  - the attachment-context loop;
  - the error handling of `generateInitialPersonaData`;
  - `generateSingleImage` and `generatePersonaImages`.
- `pdf_service.dfy`: the guards, the file-name sanitiser and the error reporting of
  `downloadPersonaAsPDF`.
- `company_input_form.dfy`: the form component, as a class whose methods are its handlers.
- `app.dfy`: the page component. It is a class over `generatedPersonas`, `isLoading` and `error`,
  with `handleGeneratePersonas` and `handleDownloadPDF` as methods.

The model has these parameters:

- the two models;
- `JSON.parse`;
- `Date.now`;
- the engine's number formatting (`numberText`, and `kbText` for `toFixed(2)`);
- the browser's file reader, as the `read` field of an upload;
- the page's elements, as a set of ids;
- whether rasterising a card succeeds (`rendered`).

A field that `types.ts` declares as a `string` holds, at run time, whatever truthy JSON value the
model sent. Such fields are therefore `Json` values in the model.

## Model

| member | source | states |
|---|---|---|
| Text.Trim | services/geminiService.ts:16 | `trim()` leaves no white space at either end and returns a contiguous piece of its input, with only white space cut on each side |
| Text.TrimAround | services/geminiService.ts:21 | trimming a non-empty trimmed body wrapped in white space gives the body back |
| Text.TrimOfTrimmed | services/geminiService.ts:16 | trimming text with no white space at either end leaves it unchanged |
| Text.WordPrefixLength | services/geminiService.ts:18 | the greedy `\w*` consumes the longest run of word characters at the start |
| Text.Prefix | services/geminiService.ts:85 | `substring(0, n)` is a prefix of at most `n` characters, and is the whole text when that is short enough |
| Text.Contains | services/geminiService.ts:170 | `includes(part)`, written as a check at each starting index |
| Text.ContainsIffInfix | services/geminiService.ts:170 | `includes(part)` holds exactly when `part` occurs at some index of the text |
| Text.MissingCharNotContained | services/geminiService.ts:170 | `includes(part)` is false when the text lacks one of `part`'s characters |
| Text.Decimal | components/CompanyInputForm.tsx:34 | an integer in a template literal is rendered as the decimal digits that denote it, with no leading zero except in `0` |
| Text.DecimalInjective | services/geminiService.ts:34 | different integers are rendered differently |
| Seqs.Filter | components/CompanyInputForm.tsx:48 | `filter` keeps exactly the elements that pass the test, none other, in order |
| Seqs.FilterConcat | components/CompanyInputForm.tsx:48 | filtering works piecewise over a concatenation, so the survivors keep their input order |
| Seqs.FilterIdempotent | components/CompanyInputForm.tsx:48 | filtering twice by the same test is filtering once |
| JsValue.Or | services/geminiService.ts:34-35 | `x \|\| d` keeps a truthy value and otherwise takes the default |
| JsValue.Truthy | services/geminiService.ts:34-58 | JavaScript's `ToBoolean` on a parsed value: `null`, `false`, `0` and `""` are falsy, every array and object is truthy |
| JsValue.FalsyValues | services/geminiService.ts:34-58 | the falsy JSON values are exactly `null`, `false`, `0` and `""` |
| JsValue.OrIsTruthy | services/geminiService.ts:34-58 | `x \|\| d` with a truthy default is truthy whatever `x` is |
| JsValue.Member | services/geminiService.ts:34-51 | a property read finds the value of an own key of an object, and `undefined` for anything else |
| JsValue.Show | services/geminiService.ts:54-58 | `String(v)` in a template literal: a string is itself, `null`, `true` and `false` are their names, an object is `[object Object]`, an empty array is empty |
| JsValue.ShowSingletonArray | services/geminiService.ts:54-58 | an array of one non-null element is shown as that element |
| JsValue.MapOrThrow | services/geminiService.ts:33 | `map` with a throwing callback: it succeeds exactly when no element throws, giving one result per element, in order |
| ResponseNormaliser.FenceBody | services/geminiService.ts:18-20 | the fence pattern matches exactly when the trimmed text has at least six characters and starts and ends with three backticks; its group is trimmed and lies inside the text |
| ResponseNormaliser.CleanJsonString | services/geminiService.ts:15-24 | the result is the trimmed text, or the fence body when that is non-empty; it never has white space at either end and is always a piece of the input |
| ResponseNormaliser.FenceBodyOfTaggedFence | services/geminiService.ts:18 | a fence with any word tag, a newline, a trimmed body and a newline has that body as its group |
| ResponseNormaliser.FenceRoundTrip | services/geminiService.ts:15-24 | cleaning a Markdown-fenced, trimmed, non-empty JSON text gives the text back |
| ResponseNormaliser.WordOnlyFenceIsKept | services/geminiService.ts:18-20 | the edge case where `\w*` swallows a body with no newline before it: the group is empty and the text stays as it was |
| ResponseNormaliser.ToGoogleAd | services/geminiService.ts:44-50 | an ad callback throws exactly on `null`; otherwise `headline1`, `headline2` and `description1` are the model's truthy value or their fixed default text, and the optional ones are copied as they are |
| ResponseNormaliser.ArrayOrEmpty | services/geminiService.ts:39-42 | a list field is kept only when it is an array, else it is `[]` |
| ResponseNormaliser.NormaliseAds | services/geminiService.ts:44-50 | `googleAds` gives one well-formed ad per element, in order, and throws exactly when some element is `null` |
| ResponseNormaliser.Subject | services/geminiService.ts:54-58 | the persona is named by its truthy `name` shown as text, else as `persona` |
| ResponseNormaliser.FallbackStoryboard | services/geminiService.ts:53-57 | the fallback storyboard holds three non-empty string prompts, each naming the persona |
| ResponseNormaliser.FallbackSocialPrompt | services/geminiService.ts:58 | the fallback social prompt is non-empty and names the persona |
| ResponseNormaliser.DefaultId | services/geminiService.ts:34 | a default id starts with `persona-` |
| ResponseNormaliser.DefaultIdsDistinct | services/geminiService.ts:34 | within one clock reading, elements at different indices get different default ids |
| ResponseNormaliser.BuildScaffold | services/geminiService.ts:33-60 | each field is the model's truthy value or its fixed default; `age` is kept only when it is a number; list fields only when they are arrays; `id` defaults to `persona-<clock>-<index>` |
| ResponseNormaliser.NormalisePrompts | services/geminiService.ts:52-59 | the storyboard is the model's own exactly when it is an array of three, otherwise three fallback prompts; there are always three prompts and a truthy social prompt |
| ResponseNormaliser.ToScaffold | services/geminiService.ts:33-60 | the element callback throws exactly on a `null` element or a `null` ad; otherwise it builds a well-formed scaffold |
| ResponseNormaliser.BuiltScaffoldIsWellFormed | services/geminiService.ts:34-58 | every `\|\|`-defaulted field of a built scaffold is truthy and its storyboard has three prompts |
| ResponseNormaliser.RawPersonas | services/geminiService.ts:31 | an array is used as is; an object with truthy `personas` uses it, and throws when that is not an array; any other non-null value becomes a one-element list; `null` throws |
| ResponseNormaliser.ParsePersonasFromResponse | services/geminiService.ts:26-65 | every failure, whether a syntax error or a throw while mapping, becomes the one malformed-response error; success is all-or-nothing, and every scaffold is well-formed |
| ResponseNormaliser.MappedScaffoldsWellFormed | services/geminiService.ts:33-60 | every scaffold produced by the `map` is well-formed |
| ResponseNormaliser.SyntaxErrorIsMalformed | services/geminiService.ts:29-64 | text that does not parse gives the malformed-response error |
| ResponseNormaliser.ArrayResponse | services/geminiService.ts:31-33 | a top-level array of N elements gives N scaffolds in order, the i-th built from the i-th element, unless one element throws |
| ResponseNormaliser.NullElementIsMalformed | services/geminiService.ts:33-64 | a `null` element turns the whole answer into the error |
| ResponseNormaliser.PersonasArrayResponse | services/geminiService.ts:31 | `{personas: [...]}` stands for that array; `personas: []` gives an empty list and no error |
| ResponseNormaliser.PersonasNotArrayIsMalformed | services/geminiService.ts:31-33 | a truthy non-array `personas` has no `map`, so the answer is the error |
| ResponseNormaliser.SingleValueResponse | services/geminiService.ts:31 | any other non-null value is one persona: the answer is a one-element list or the error |
| ResponseNormaliser.NullResponseIsMalformed | services/geminiService.ts:31 | the JSON text `null` gives the error |
| ResponseNormaliser.AdRoundTrip | services/geminiService.ts:44-50 | a well-formed ad survives encoding and normalising unchanged |
| ResponseNormaliser.ScaffoldRoundTrip | services/geminiService.ts:33-60 | a well-formed scaffold survives encoding and normalising unchanged, so the normaliser's outputs are exactly the well-formed scaffolds |
| ResponseNormaliser.EncodedAdsRoundTrip | services/geminiService.ts:44-50 | the encoded ads of a well-formed scaffold normalise back to its ads |
| ResponseNormaliser.EncodedPromptsRoundTrip | services/geminiService.ts:52-59 | a three-prompt storyboard and a truthy social prompt are kept as they are |
| ResponseNormaliser.ResponseRoundTrip | services/geminiService.ts:26-65 | a response holding the encodings of well-formed scaffolds parses back to exactly those scaffolds |
| FileService.ToProcessed | services/fileService.ts:24-48 | a record copies the file's name, type and size, and carries content only for plain text and Markdown |
| FileService.Kept | services/fileService.ts:19-22 | only files within the size limit survive |
| FileService.Processed | services/fileService.ts:15-51 | one record per kept file, in order |
| FileService.ProcessUploadedFiles | services/fileService.ts:15-51 | the loop's output equals the specification: skip oversized files, read text types, push a record for each remaining file |
| FileService.ProcessedAppend | services/fileService.ts:18-48 | one more file appends its record exactly when it is within the limit |
| FileService.ProcessedConcat | services/fileService.ts:18-49 | processing works file by file over a concatenation |
| FileService.ProcessedSingle | services/fileService.ts:19-22 | a file of exactly 50 MiB is kept; a larger one is dropped |
| FileService.ReadFailureKeepsFile | services/fileService.ts:29-34 | a failed read leaves the file listed with no content and raises nothing |
| FileService.ProcessedFields | services/fileService.ts:24-48 | only text types carry content, and every record matches an input file within the limit |
| FileService.ProcessedCount | services/fileService.ts:18-49 | there are as many records as files within the limit, and so as many as inputs when none is too large |
| GeminiService.KeyConfigured | services/geminiService.ts:75 | a key is usable when it is set, not empty and not the placeholder |
| GeminiService.RejectedKeys | services/geminiService.ts:75 | an absent key, an empty key and the placeholder are refused; every other key is accepted |
| GeminiService.KeyGuardsAgree | services/geminiService.ts:75-183 | the guard of the pictures refuses a key only when the guard of the text request does, so a successful text request is never followed by a refused picture request |
| GeminiService.ListingLine | services/geminiService.ts:83 | the listing line starts with the file's name, shows its type and ends the line |
| GeminiService.NoteLine | services/geminiService.ts:84-90 | non-empty text content is quoted (at most 200 characters); non-empty content of another type is announced; absent or empty content gets the no-content note |
| GeminiService.Excerpt | services/geminiService.ts:84-85 | an excerpt exists exactly for non-empty text-type content; it is a prefix of at most 200 characters |
| GeminiService.FileEntry | services/geminiService.ts:83-90 | each attachment's entry starts with its listing line |
| GeminiService.FileContext | services/geminiService.ts:79-92 | the context is empty exactly when there are no attachments; otherwise it starts with the heading |
| GeminiService.BuildFileContext | services/geminiService.ts:79-92 | the `+=` loop builds exactly the specified context |
| GeminiService.EntriesStep | services/geminiService.ts:83-90 | each iteration appends the file's listing line and then its note |
| GeminiService.FileContextAppend | services/geminiService.ts:82-91 | an extra attachment adds its entry at the end of the context |
| GeminiService.FileContextSingle | services/geminiService.ts:80-91 | the context of one attachment is the heading, its listing line and its note |
| GeminiService.ProcessedFileNote | services/geminiService.ts:84-90 | for records made by the upload step, the "other content" branch never fires |
| GeminiService.UrlOrDefault | services/geminiService.ts:101 | an empty URL shows as `Nie podano`; any other URL shows as given |
| GeminiService.PromptFor | services/geminiService.ts:99-103 | the prompt carries the name, description and goals as given, the URL or its default, and a file context that is empty exactly when there are no attachments |
| GeminiService.Rethrown | services/geminiService.ts:168-174 | an `Error` whose message includes `API_KEY_INVALID` becomes the invalid-key error; anything else is rethrown unchanged |
| GeminiService.OwnErrorsPassCatch | services/geminiService.ts:163-174 | neither the no-content error nor the malformed-response error is rewritten by the `catch` |
| GeminiService.Interpret | services/geminiService.ts:153-174 | a thrown call is rethrown through the `catch`; an absent or empty text gives the no-content error; otherwise the parsed scaffolds or the malformed-response error |
| GeminiService.InitialPersonaData | services/geminiService.ts:68-175 | without a usable key the request fails with the missing-key error; otherwise the model is asked once with the built prompt; a success implies a usable key and well-formed scaffolds |
| GeminiService.GenerateInitialPersonaData | services/geminiService.ts:68-175 | the step-by-step function equals its specification |
| GeminiService.KeyGuardPrecedesRequest | services/geminiService.ts:75-77 | without a usable key the outcome does not depend on the model's answer |
| GeminiService.SingleImage | services/geminiService.ts:185-212 | a picture is a JPEG data URL or the placeholder; it never fails |
| GeminiService.ImageBytes | services/geminiService.ts:203 | reading the bytes back from a data URL inverts the prefixing |
| GeminiService.SingleImageRoundTrip | services/geminiService.ts:195-210 | a URL is the placeholder exactly when generation failed, and otherwise the bytes are recovered exactly |
| GeminiService.GeneratePersonaImages | services/geminiService.ts:178-221 | fails exactly without a usable key; otherwise one picture per storyboard prompt, in order, plus the social picture |
| GeminiService.PersonaImagesShape | services/geminiService.ts:214-220 | a normalised scaffold gets three storyboard pictures, each a data URL or the placeholder |
| PdfService.ReplaceUnsafe | services/pdfService.ts:68 | every character outside `[A-Za-z0-9]` becomes `_`, position by position |
| PdfService.LowerAscii | services/pdfService.ts:68 | upper-case ASCII letters are lowered and nothing else changes |
| PdfService.Sanitise | services/pdfService.ts:68 | sanitising keeps the length of the name |
| PdfService.SanitiseAt | services/pdfService.ts:68 | lower-case letters and digits stay, upper-case letters are lowered, everything else becomes `_` |
| PdfService.SanitisedIsSafe | services/pdfService.ts:68 | a sanitised name holds only `[a-z0-9_]` |
| PdfService.SanitiseKeepsSafe | services/pdfService.ts:68 | already-safe text is left unchanged |
| PdfService.SanitiseIdempotent | services/pdfService.ts:68 | sanitising twice is sanitising once |
| PdfService.FileName | services/pdfService.ts:69 | the saved name has the prefix, the sanitised name and the extension |
| PdfService.FileStem | services/pdfService.ts:69 | the stem read back from a file name sits between `persona_` and `.pdf` |
| PdfService.FileNameRoundTrip | services/pdfService.ts:69 | the file name carries exactly the sanitised persona name |
| PdfService.DownloadPersonaAsPDF | services/pdfService.ts:5-75 | a missing element gives its own error; a failed render or a non-string name gives the generic export error; otherwise the file is saved under the sanitised name |
| PdfService.SavedNameIsSafe | services/pdfService.ts:68-69 | every saved name is `persona_` plus `[a-z0-9_]*` plus `.pdf` |
| CompanyInputForm.TooManyFiles | components/CompanyInputForm.tsx:34 | the count error reads "at most 5 files" with the limit written out |
| CompanyInputForm.FileTooLarge | components/CompanyInputForm.tsx:39 | the size error names the file and gives the limit as 50MB |
| CompanyInputForm.FirstOversized | components/CompanyInputForm.tsx:37-42 | finds the first file over the limit, or reports that all files are within it |
| CompanyInputForm.AfterFileChange | components/CompanyInputForm.tsx:29-45 | a batch that would exceed five files, or that holds an oversized file, is refused whole with its error; an accepted batch is appended in order; no event leaves an old error |
| CompanyInputForm.FileChangeKeepsLimit | components/CompanyInputForm.tsx:33-43 | the file list never holds more than five files, and a refused batch leaves it as it was |
| CompanyInputForm.SubmitOutcome | components/CompanyInputForm.tsx:52-59 | submission is refused exactly when a required field trims to empty; otherwise the untrimmed fields and the files are handed on |
| CompanyInputForm.SubmitBlanks | components/CompanyInputForm.tsx:54-58 | a white-space-only field blocks the submission; an empty URL does not |
| CompanyInputForm.TrimEmptyIffBlank | components/CompanyInputForm.tsx:54 | `trim()` is empty exactly for white-space-only text |
| CompanyInputForm.InputForm.constructor | components/CompanyInputForm.tsx:22-27 | the form starts empty, with no files and no error |
| CompanyInputForm.InputForm.SetCompanyName | components/CompanyInputForm.tsx:22 | the setter changes only its own field |
| CompanyInputForm.InputForm.SetCompanyDescription | components/CompanyInputForm.tsx:23 | the setter changes only its own field |
| CompanyInputForm.InputForm.SetCompanyURL | components/CompanyInputForm.tsx:24 | the setter changes only its own field |
| CompanyInputForm.InputForm.SetMarketingGoals | components/CompanyInputForm.tsx:25 | the setter changes only its own field |
| CompanyInputForm.InputForm.HandleFileChange | components/CompanyInputForm.tsx:29-45 | the handler leaves files and error as specified and keeps the five-file limit |
| CompanyInputForm.InputForm.RemoveFile | components/CompanyInputForm.tsx:47-50 | every file with that name is dropped, the others are kept in order, the error is cleared, and the limit is kept |
| CompanyInputForm.InputForm.HandleSubmit | components/CompanyInputForm.tsx:52-59 | the handler hands on exactly the specified submission and changes nothing |
| CompanyInputForm.RemovedNameIsGone | components/CompanyInputForm.tsx:48 | after removal no file has that name, and every other file is still there |
| AppState.CardId | components/PersonaCard.tsx:32 | a card id starts with `persona-card-` |
| AppState.CardIdsDistinct | App.tsx:71 | personas with different string ids have different card ids |
| AppState.ErrorMessage | App.tsx:63 | an `Error` shows its own message; anything else shows the unknown-error text |
| AppState.WithImages | App.tsx:50-57 | the persona keeps its scaffold, gets its pictures, and its social caption is the scaffold's text |
| AppState.Assemble | App.tsx:47-58 | one persona per scaffold, in order, each with the pictures generated from its own prompts |
| AppState.SubmissionOutcome | App.tsx:19-68 | an error always comes with no personas, and a success always has at least one persona |
| AppState.App.constructor | App.tsx:15-17 | the page starts with no personas, not loading and no error |
| AppState.App.StartSubmission | App.tsx:26-28 | a submission first sets loading and clears the error and the personas |
| AppState.App.HandleGeneratePersonas | App.tsx:19-68 | whatever path it takes, loading ends, and personas and error are as specified |
| AppState.App.PersonasWithImages | App.tsx:47-58 | the loop pushes exactly the specified personas |
| AppState.App.HandleDownloadPDF | App.tsx:70-78 | a failed export sets the PDF error and returns no file; a success leaves the error untouched |
| AppState.SuccessfulSubmission | App.tsx:33-60 | a successful submission has one persona per scaffold, in order, each with its scaffold, its caption and pictures made from its own prompts |
| AppState.FailedSubmission | App.tsx:61-64 | a failed request shows the fixed prefix and the error's message with no personas; with no key this is the missing-key message |
| AppState.NoScaffolds | App.tsx:41-45 | an empty list shows the no-personas error, and no picture is asked for |
| AppState.DownloadGeneratedPersona | App.tsx:70-73 | a rendered persona card with a string name is saved under its sanitised name; a failed render reports the generic error |

## Left out

- The Gemini and Imagen SDK calls are not modelled. The text model is a function from the
  prompt's inputs to a reply, and the image model is a function from a prompt to the bytes of
  the first image. A model that answers differently to the same prompt is not captured.
- The fixed prose of the prompt (services/geminiService.ts:94-151) is left out. Only the values
  inserted into it are modelled.
- The parse step relies on `JSON.parse`, which is a parameter. Its grammar is not modelled.
- `Date.now()` is a parameter, `clock`.
- The engine's number formatting is a parameter: `numberText` for numbers shown in text, and
  `kbText` for `(size / 1024).toFixed(2)`.
- `FileReader` is left out. Its outcome is the `read` field of an upload, with `None` for a read
  that fails.
- The `ACCEPTED_TEXT_FILE_TYPES` branch of `processUploadedFiles` only logs, so it is left out.
- html2canvas, jsPDF and the page geometry (services/pdfService.ts:17-66, 69) are left out.
  Whether rasterising and saving succeed is the `rendered` flag, and the saved file is
  represented by its name.
- `Promise.all` and the `await`s are modelled as sequential evaluation. The concurrent image
  requests give the same result in the same order.
- A second submission made while the first is still loading is not modelled.
- JSX, styling, `console` output and `alert` are left out. `HandleSubmit` returns `None` where
  the form alerts.
- JavaScript strings are UTF-16 code units, but the model uses `char`. This affects
  `substring(0, 200)` and the sanitiser's per-unit replacement for characters outside the
  Basic Multilingual Plane.
- `JsValue.Show`: an object whose own `toString` or `valueOf` key makes `String()` throw is
  shown as `[object Object]`.
- `PdfService.LowerAscii` covers only ASCII letters. After the replacement only ASCII letters,
  digits and `_` remain, so that is all `toLowerCase` ever sees there.
- `AppState.App.PersonasWithImages`: the key guard of `generatePersonaImages` is not repeated
  inside the loop. The same key has just passed the identical guard of the text request, so
  that guard cannot fail there.
- `CompanyInputForm.InputForm.HandleFileChange`: the `slice(0, MAX_FILES)` at
  components/CompanyInputForm.tsx:43 is kept. The count check before it means it never cuts
  anything, which `AfterFileChange` states.
- The module-level warning when `API_KEY` is unset (services/geminiService.ts:6-12) is left out.
  Only the guards that throw are modelled.
