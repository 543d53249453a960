/** The records the application passes between its parts, and its fixed limits. A field the
    TypeScript types declare as `string` holds, at run time, whatever truthy JSON value the
    text model sent, so such fields are `Json` here. */
module Types {
  import opened Wrappers
  import opened JsValue

  /** At most this many attached files. */
  const MaxFiles: nat := 5
  /** 50 MiB: the largest attachment accepted (inclusive). */
  const MaxFileSizeBytes: nat := 50 * 1024 * 1024

  /** A file chosen in the browser. `read` is what reading it as text would give: `None`
      when the browser's reader fails. */
  datatype UploadFile = UploadFile(name: string, mimeType: string, size: nat, read: Option<string>)

  /** A file as the text model is told about it; `content` is `null` unless it was read. */
  datatype ProcessedFile = ProcessedFile(name: string, mimeType: string, content: Option<string>, size: nat)

  /** One Google Ads text; `headline3` and `description2` may be absent. */
  datatype GoogleAd = GoogleAd(
    headline1: Json,
    headline2: Json,
    headline3: Option<Json>,
    description1: Json,
    description2: Option<Json>)

  /** The prompts for the three storyboard pictures and the square social-media picture. */
  datatype ImagePrompts = ImagePrompts(storyboard: seq<Json>, socialMediaAd: Json)

  /** A persona as the text model described it, before any picture exists. */
  datatype PersonaScaffold = PersonaScaffold(
    id: Json,
    name: Json,
    age: real,
    occupation: Json,
    demographics: Json,
    goals: seq<Json>,
    challenges: seq<Json>,
    motivations: seq<Json>,
    communicationChannels: seq<Json>,
    detailedDescription: Json,
    googleAds: seq<GoogleAd>,
    socialMediaAdText: Json,
    imagePrompts: ImagePrompts)

  /** The social-media advertisement of a finished persona: its picture and its caption. */
  datatype SocialAd = SocialAd(image: string, text: Json)

  /** A finished persona. The object spread `...scaffold` copies every scaffold field,
      so the scaffold is kept whole beside the pictures. */
  datatype Persona = Persona(scaffold: PersonaScaffold, storyboardImages: seq<string>, socialMediaAd: SocialAd)
}
