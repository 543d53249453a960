/** The response normaliser of services/geminiService.ts: `cleanJsonString` strips an optional
    Markdown code fence, and `parsePersonasFromResponse` coerces the parsed JSON into persona
    scaffolds, putting a fixed default in every missing or falsy field. */
module ResponseNormaliser {
  import opened Wrappers
  import opened Text
  import opened JsValue
  import opened Types

  const Fence: string := "```"

  /** The single error the normaliser throws, whatever went wrong inside it. */
  const MalformedResponse: string :=
    "Nie udało się przetworzyć " + "odpowiedzi od AI. " + "Format JSON był nieprawidłowy."

  const DefaultName: string := "Nieznana Persona"
  const DefaultOccupation: string := "Nieznany zawód"
  const DefaultDemographics: string := "Brak danych demograficznych."
  const DefaultDescription: string := "Brak szczegółowego opisu."
  const DefaultSocialMediaAdText: string := "Przykładowy tekst reklamy social media."
  const DefaultHeadline1: string := "Przykładowy Nagłówek 1"
  const DefaultHeadline2: string := "Przykładowy Nagłówek 2"
  const DefaultDescription1: string := "Przykładowy opis reklamy Google."

  // ---------------------------------------------------------------------------------------
  // cleanJsonString
  // ---------------------------------------------------------------------------------------

  /** Capture group 2 of `/^```(\w*)?\s*\n?(.*?)\n?\s*```$/s` on `t`, or `None` when it does not match.
      The anchors pin the two fences to the first and last three characters, so a match needs six
      characters at least. Between them, the greedy `\w*` takes the longest run of word characters,
      the greedy `\s*` all white space after it, and the lazy group stops where only white space is
      left before the closing fence. That first choice always leads to a match, so no backtracking
      happens, and the group is the rest after the word run with white space trimmed on both sides. */
  function FenceBody(t: string): (body: Option<string>)
    ensures body.Some? <==> |t| >= 6 && t[..3] == Fence && t[|t| - 3..] == Fence
    ensures body.Some? ==> Trimmed(body.value)
    ensures body.Some? ==> exists a :: InfixAt(body.value, t, a)
  {
    if |t| >= 6 && t[..3] == Fence && t[|t| - 3..] == Fence then
      var middle := t[3..|t| - 3];
      var rest := middle[WordPrefixLength(middle)..];
      var b := Trim(rest);
      InfixOfSuffix(b, rest, t);
      Some(b)
    else
      None
  }

  /** What `FenceBody` returns lies inside the text it came from. */
  lemma InfixOfSuffix(b: string, rest: string, t: string)
    requires |t| >= 6 && rest == t[3..|t| - 3][WordPrefixLength(t[3..|t| - 3])..]
    requires b == Trim(rest)
    ensures exists a :: InfixAt(b, t, a)
  {
    var a :| InfixAt(b, rest, a);
    var k := 3 + WordPrefixLength(t[3..|t| - 3]);
    assert InfixAt(rest, t, k) by {
      assert k + |rest| == |t| - 3;
      assert t[k..|t| - 3] == t[3..|t| - 3][k - 3..];
    }
    InfixOfInfix(b, rest, t, a, k);
  }

  /** `cleanJsonString`: the trimmed text, or the trimmed body of its code fence when the fence
      pattern matches and the body is not empty. It only ever removes text: the result is a
      piece of the input with no white space at either end. */
  function CleanJsonString(s: string): (r: string)
    ensures Trimmed(r)
    ensures exists a :: InfixAt(r, s, a)
    ensures (FenceBody(Trim(s)).None? || FenceBody(Trim(s)).value == "") ==> r == Trim(s)
    ensures FenceBody(Trim(s)).Some? && FenceBody(Trim(s)).value != "" ==> r == FenceBody(Trim(s)).value
  {
    var t := Trim(s);
    var i :| InfixAt(t, s, i);
    match FenceBody(t)
    case Some(b) =>
      if b != "" then
        var a :| InfixAt(b, t, a);
        InfixOfInfix(b, t, s, a, i);
        b
      else t
    case None => t
  }

  /** The body of a fence `tag` + newline + `body` + newline is `body`. */
  lemma FenceBodyOfTaggedFence(tag: string, body: string)
    requires IsWord(tag)
    requires body != [] && Trimmed(body)
    ensures FenceBody(Fence + tag + "\n" + body + "\n" + Fence) == Some(body)
  {
    var s := Fence + tag + "\n" + body + "\n" + Fence;
    assert s[..3] == Fence && s[|s| - 3..] == Fence;
    var middle := s[3..|s| - 3];
    assert middle == tag + ("\n" + body + "\n");
    var k := WordPrefixLength(middle);
    assert middle[|tag|] == '\n';
    assert k == |tag|;
    assert middle[k..] == "\n" + body + "\n";
    TrimAround("\n", body, "\n");
  }

  /** Fencing a trimmed, non-empty JSON text as Markdown does, with any language tag made of word
      characters, and cleaning the result gives the text back. */
  lemma FenceRoundTrip(tag: string, body: string)
    requires IsWord(tag)
    requires body != [] && Trimmed(body)
    ensures CleanJsonString(Fence + tag + "\n" + body + "\n" + Fence) == body
  {
    FencedIsTrimmed(tag, body);
    FenceBodyOfTaggedFence(tag, body);
    CleanOfFence(Fence + tag + "\n" + body + "\n" + Fence, body);
  }

  /** A fenced text starts and ends with a backtick, so trimming keeps all of it. */
  lemma FencedIsTrimmed(tag: string, body: string)
    ensures Trim(Fence + tag + "\n" + body + "\n" + Fence) == Fence + tag + "\n" + body + "\n" + Fence
  {
    var s := Fence + tag + "\n" + body + "\n" + Fence;
    assert s[0] == '`' && s[|s| - 1] == '`';
    TrimOfTrimmed(s);
  }

  /** Cleaning a trimmed text whose fence body is not empty gives that body. */
  lemma CleanOfFence(s: string, body: string)
    requires Trim(s) == s && FenceBody(s) == Some(body) && body != []
    ensures CleanJsonString(s) == body
  {
  }

  /** The unfenced edge case: a word right after the opening fence is swallowed by `\w*`,
      the body is then empty, and the text stays as it was. */
  lemma WordOnlyFenceIsKept()
    ensures CleanJsonString("```abc```") == "```abc```"
  {
    var s := "```abc```";
    assert s[0] == '`' && s[|s| - 1] == '`';
    TrimOfTrimmed(s);
    var middle := s[3..|s| - 3];
    assert middle == "abc";
    assert WordPrefixLength("abc") == 3;
    TrimOfBlank([]);
  }

  // ---------------------------------------------------------------------------------------
  // parsePersonasFromResponse
  // ---------------------------------------------------------------------------------------

  /** A string-like field after `x || default`: it is never falsy. */
  predicate WellFormedAd(ad: GoogleAd)
  {
    Truthy(ad.headline1) && Truthy(ad.headline2) && Truthy(ad.description1)
  }

  /** What the normaliser guarantees of every scaffold: each `||`-defaulted field is truthy,
      there are exactly three storyboard prompts, and every ad has its required texts. */
  predicate WellFormedScaffold(s: PersonaScaffold)
  {
    && Truthy(s.id) && Truthy(s.name) && Truthy(s.occupation) && Truthy(s.demographics)
    && Truthy(s.detailedDescription) && Truthy(s.socialMediaAdText)
    && |s.imagePrompts.storyboard| == 3 && Truthy(s.imagePrompts.socialMediaAd)
    && forall i :: 0 <= i < |s.googleAds| ==> WellFormedAd(s.googleAds[i])
  }

  /** The element callback for `p.googleAds.map(...)`: reading a field of `null` throws. */
  function ToGoogleAd(ad: Json): (r: Option<GoogleAd>)
    ensures r.Some? <==> !ad.JNull?
    ensures r.Some? ==> WellFormedAd(r.value)
    ensures r.Some? ==> r.value.headline1 == Or(Member(ad, "headline1"), JStr(DefaultHeadline1))
    ensures r.Some? ==> r.value.headline2 == Or(Member(ad, "headline2"), JStr(DefaultHeadline2))
    ensures r.Some? ==> r.value.description1 == Or(Member(ad, "description1"), JStr(DefaultDescription1))
    ensures r.Some? ==> r.value.headline3 == Member(ad, "headline3") && r.value.description2 == Member(ad, "description2")
  {
    if ad.JNull? then None
    else Some(GoogleAd(
      headline1 := Or(Member(ad, "headline1"), JStr(DefaultHeadline1)),
      headline2 := Or(Member(ad, "headline2"), JStr(DefaultHeadline2)),
      headline3 := Member(ad, "headline3"),
      description1 := Or(Member(ad, "description1"), JStr(DefaultDescription1)),
      description2 := Member(ad, "description2")))
  }

  /** An array field, or `[]` when the value is not an array (`Array.isArray(x) ? x : []`). */
  function ArrayOrEmpty(v: Option<Json>): (r: seq<Json>)
    ensures IsArray(v) ==> r == v.value.elems
    ensures !IsArray(v) ==> r == []
  {
    if IsArray(v) then v.value.elems else []
  }

  /** `Array.isArray(p.googleAds) ? p.googleAds.map(...) : []`: `None` when an ad is `null`;
      otherwise one well-formed ad per element, in order. */
  function NormaliseAds(v: Option<Json>): (r: Option<seq<GoogleAd>>)
    ensures r.Some? <==> forall i :: 0 <= i < |ArrayOrEmpty(v)| ==> !ArrayOrEmpty(v)[i].JNull?
    ensures r.Some? ==> |r.value| == |ArrayOrEmpty(v)|
    ensures r.Some? ==> forall i :: 0 <= i < |r.value| ==> ToGoogleAd(ArrayOrEmpty(v)[i]) == Some(r.value[i])
    ensures r.Some? ==> forall i :: 0 <= i < |r.value| ==> WellFormedAd(r.value[i])
  {
    MapOrThrow(ArrayOrEmpty(v), (ad, _) => ToGoogleAd(ad))
  }

  /** How the persona is named inside the fallback prompts: `${p.name || 'persona'}`. */
  function Subject(p: Json, numberText: real -> string): (r: string)
    ensures IsTruthy(Member(p, "name")) ==> r == Show(Member(p, "name").value, numberText)
    ensures !IsTruthy(Member(p, "name")) ==> r == "persona"
  {
    if IsTruthy(Member(p, "name")) then Show(Member(p, "name").value, numberText) else "persona"
  }

  /** The three storyboard prompts used when the model did not send exactly three. */
  function FallbackStoryboard(subject: string): (r: seq<Json>)
    ensures |r| == 3 && forall i :: 0 <= i < 3 ==> Truthy(r[i])
    ensures forall i :: 0 <= i < 3 ==> r[i].JStr? && exists a :: InfixAt(subject, r[i].s, a)
  {
    var first := "Dynamic scene of " + subject + " interacting with a product.";
    var second := subject + " achieving a goal related to their challenges.";
    var third := "Close-up of " + subject + " looking satisfied or thoughtful.";
    assert InfixAt(subject, first, |"Dynamic scene of "|);
    assert InfixAt(subject, second, 0);
    assert InfixAt(subject, third, |"Close-up of "|);
    [JStr(first), JStr(second), JStr(third)]
  }

  /** The social-media picture prompt used when the model sent none. */
  function FallbackSocialPrompt(subject: string): (r: string)
    ensures r != []
    ensures exists a :: InfixAt(subject, r, a)
  {
    var r := "Visually appealing square graphic for " + subject + " related to their interests.";
    assert InfixAt(subject, r, |"Visually appealing square graphic for "|);
    r
  }

  /** The default id of the element at `index`, from the clock reading taken for it. */
  function DefaultId(stamp: nat, index: nat): (r: string)
    ensures |r| > 8 && r[..8] == "persona-"
  {
    "persona-" + Decimal(stamp) + "-" + Decimal(index)
  }

  /** Within one clock reading, elements at different indices get different default ids. */
  lemma DefaultIdsDistinct(stamp: nat, i: nat, j: nat)
    requires i != j
    ensures DefaultId(stamp, i) != DefaultId(stamp, j)
  {
    var head := "persona-" + Decimal(stamp) + "-";
    assert DefaultId(stamp, i) == head + Decimal(i) && DefaultId(stamp, j) == head + Decimal(j);
    assert DefaultId(stamp, i)[|head|..] == Decimal(i);
    assert DefaultId(stamp, j)[|head|..] == Decimal(j);
    DecimalInjective(i, j);
  }

  /** The map callback of `parsePersonasFromResponse` for element `p` at `index`; `None` when it
      throws: `p` is `null`, or `p.googleAds` is an array holding a `null`. */
  function ToScaffold(p: Json, index: nat, clock: nat -> nat, numberText: real -> string): (r: Option<PersonaScaffold>)
    ensures r.Some? <==> !p.JNull? && NormaliseAds(Member(p, "googleAds")).Some?
    ensures r.Some? ==> WellFormedScaffold(r.value)
    ensures r.Some? ==> r.value == BuildScaffold(p, index, clock, numberText, NormaliseAds(Member(p, "googleAds")).value)
  {
    if p.JNull? then None
    else
      match NormaliseAds(Member(p, "googleAds"))
      case None => None
      case Some(ads) =>
        BuiltScaffoldIsWellFormed(p, index, clock, numberText, ads);
        Some(BuildScaffold(p, index, clock, numberText, ads))
  }

  /** With well-formed ads, every scaffold the callback builds is well-formed. */
  lemma BuiltScaffoldIsWellFormed(p: Json, index: nat, clock: nat -> nat, numberText: real -> string, ads: seq<GoogleAd>)
    requires forall i :: 0 <= i < |ads| ==> WellFormedAd(ads[i])
    ensures WellFormedScaffold(BuildScaffold(p, index, clock, numberText, ads))
  {
  }

  /** The object literal the callback returns for a non-null element `p` whose ads normalised to `ads`. */
  function BuildScaffold(p: Json, index: nat, clock: nat -> nat, numberText: real -> string, ads: seq<GoogleAd>)
    : (r: PersonaScaffold)
    // fields read with `||` keep a truthy value and otherwise take their fixed default
    ensures r.id == Or(Member(p, "id"), JStr(DefaultId(clock(index), index)))
    ensures r.name == Or(Member(p, "name"), JStr(DefaultName))
    ensures r.occupation == Or(Member(p, "occupation"), JStr(DefaultOccupation))
    ensures r.demographics == Or(Member(p, "demographics"), JStr(DefaultDemographics))
    ensures r.detailedDescription == Or(Member(p, "detailedDescription"), JStr(DefaultDescription))
    ensures r.socialMediaAdText == Or(Member(p, "socialMediaAdText"), JStr(DefaultSocialMediaAdText))
    // age is kept only when it is a number
    ensures if Member(p, "age").Some? && Member(p, "age").value.JNum?
            then r.age == Member(p, "age").value.n else r.age == 0.0
    // list fields are kept only when they are arrays
    ensures r.goals == ArrayOrEmpty(Member(p, "goals"))
    ensures r.challenges == ArrayOrEmpty(Member(p, "challenges"))
    ensures r.motivations == ArrayOrEmpty(Member(p, "motivations"))
    ensures r.communicationChannels == ArrayOrEmpty(Member(p, "communicationChannels"))
    ensures r.googleAds == ads
    ensures r.imagePrompts == NormalisePrompts(p, numberText)
  {
    PersonaScaffold(
      id := Or(Member(p, "id"), JStr(DefaultId(clock(index), index))),
      name := Or(Member(p, "name"), JStr(DefaultName)),
      age := if Member(p, "age").Some? && Member(p, "age").value.JNum? then Member(p, "age").value.n else 0.0,
      occupation := Or(Member(p, "occupation"), JStr(DefaultOccupation)),
      demographics := Or(Member(p, "demographics"), JStr(DefaultDemographics)),
      goals := ArrayOrEmpty(Member(p, "goals")),
      challenges := ArrayOrEmpty(Member(p, "challenges")),
      motivations := ArrayOrEmpty(Member(p, "motivations")),
      communicationChannels := ArrayOrEmpty(Member(p, "communicationChannels")),
      detailedDescription := Or(Member(p, "detailedDescription"), JStr(DefaultDescription)),
      googleAds := ads,
      socialMediaAdText := Or(Member(p, "socialMediaAdText"), JStr(DefaultSocialMediaAdText)),
      imagePrompts := NormalisePrompts(p, numberText))
  }

  /** The `imagePrompts` object of the callback. The storyboard is the model's own exactly when it
      sent an array of three prompts; otherwise it is three fallback prompts naming the persona. */
  function NormalisePrompts(p: Json, numberText: real -> string): (r: ImagePrompts)
    ensures |r.storyboard| == 3 && Truthy(r.socialMediaAd)
    ensures var sb := OptionalMember(Member(p, "imagePrompts"), "storyboard");
            r.storyboard ==
              if IsArray(sb) && |sb.value.elems| == 3 then sb.value.elems else FallbackStoryboard(Subject(p, numberText))
    ensures r.socialMediaAd ==
              Or(OptionalMember(Member(p, "imagePrompts"), "socialMediaAd"), JStr(FallbackSocialPrompt(Subject(p, numberText))))
  {
    var subject := Subject(p, numberText);
    var prompts := Member(p, "imagePrompts");
    var storyboard := OptionalMember(prompts, "storyboard");
    ImagePrompts(
      storyboard := if IsArray(storyboard) && |storyboard.value.elems| == 3
                    then storyboard.value.elems else FallbackStoryboard(subject),
      socialMediaAd := Or(OptionalMember(prompts, "socialMediaAd"), JStr(FallbackSocialPrompt(subject))))
  }

  /** `Array.isArray(parsed) ? parsed : (parsed.personas || [parsed])`, then the check that `.map`
      exists: `None` when that throws (`parsed` is `null`, or `personas` is truthy but not an array). */
  function RawPersonas(parsed: Json): (r: Option<seq<Json>>)
    ensures parsed.JArr? ==> r == Some(parsed.elems)
    ensures parsed.JNull? ==> r.None?
    ensures !parsed.JArr? && !parsed.JNull? && IsTruthy(Member(parsed, "personas")) ==>
              r == (if IsArray(Member(parsed, "personas")) then Some(Member(parsed, "personas").value.elems) else None)
    ensures !parsed.JArr? && !parsed.JNull? && !IsTruthy(Member(parsed, "personas")) ==> r == Some([parsed])
  {
    if parsed.JArr? then Some(parsed.elems)
    else if parsed.JNull? then None
    else
      var personas := Member(parsed, "personas");
      if IsTruthy(personas) then
        (if personas.value.JArr? then Some(personas.value.elems) else None)
      else Some([parsed])
  }

  /** `parsePersonasFromResponse`. `parseJson` stands for `JSON.parse` (`None`: a syntax error),
      `clock` for the `Date.now()` reading taken for each element, and `numberText` for the engine's
      number formatting. Every failure inside the `try` becomes the one `MalformedResponse` error,
      and no partial list is ever returned. */
  function ParsePersonasFromResponse(responseText: string, parseJson: string -> Option<Json>,
                                     clock: nat -> nat, numberText: real -> string)
    : (r: Result<seq<PersonaScaffold>, string>)
    ensures r.Failure? ==> r.error == MalformedResponse
    ensures parseJson(CleanJsonString(responseText)).None? ==> r.Failure?
    ensures r.Success? ==> forall i :: 0 <= i < |r.value| ==> WellFormedScaffold(r.value[i])
    ensures r.Success? <==>
      && parseJson(CleanJsonString(responseText)).Some?
      && RawPersonas(parseJson(CleanJsonString(responseText)).value).Some?
      && MapOrThrow(RawPersonas(parseJson(CleanJsonString(responseText)).value).value, ScaffoldAt(clock, numberText)).Some?
  {
    match parseJson(CleanJsonString(responseText))
    case None => Failure(MalformedResponse)
    case Some(parsed) =>
      match RawPersonas(parsed)
      case None => Failure(MalformedResponse)
      case Some(raw) =>
        match MapOrThrow(raw, ScaffoldAt(clock, numberText))
        case None => Failure(MalformedResponse)
        case Some(scaffolds) =>
          MappedScaffoldsWellFormed(raw, clock, numberText);
          Success(scaffolds)
  }

  /** The callback given to `.map`: element and index to scaffold, `None` where it throws. */
  function ScaffoldAt(clock: nat -> nat, numberText: real -> string): (Json, nat) -> Option<PersonaScaffold>
  {
    (p: Json, i: nat) => ToScaffold(p, i, clock, numberText)
  }

  /** Every scaffold the `.map` produces is well-formed. */
  lemma MappedScaffoldsWellFormed(raw: seq<Json>, clock: nat -> nat, numberText: real -> string)
    requires MapOrThrow(raw, ScaffoldAt(clock, numberText)).Some?
    ensures var scaffolds := MapOrThrow(raw, ScaffoldAt(clock, numberText)).value;
            forall i :: 0 <= i < |scaffolds| ==> WellFormedScaffold(scaffolds[i])
  {
    var scaffolds := MapOrThrow(raw, ScaffoldAt(clock, numberText)).value;
    forall i | 0 <= i < |scaffolds|
      ensures WellFormedScaffold(scaffolds[i])
    {
      assert ScaffoldAt(clock, numberText)(raw[i], i) == Some(scaffolds[i]);
    }
  }

  // ---------------------------------------------------------------------------------------
  // The shapes the parsed response can take
  // ---------------------------------------------------------------------------------------

  /** Text that is not JSON at all gives the error and never a list. */
  lemma SyntaxErrorIsMalformed(text: string, parseJson: string -> Option<Json>, clock: nat -> nat, numberText: real -> string)
    requires parseJson(CleanJsonString(text)).None?
    ensures ParsePersonasFromResponse(text, parseJson, clock, numberText) == Failure(MalformedResponse)
  {
  }

  /** A top-level array of N elements gives exactly N scaffolds, in order, the i-th built from
      the i-th element; a single element that throws turns the whole answer into the error. */
  lemma ArrayResponse(text: string, parseJson: string -> Option<Json>, clock: nat -> nat, numberText: real -> string,
                      elems: seq<Json>)
    requires parseJson(CleanJsonString(text)) == Some(JArr(elems))
    ensures var r := ParsePersonasFromResponse(text, parseJson, clock, numberText);
            && (r.Success? <==> forall i :: 0 <= i < |elems| ==> ToScaffold(elems[i], i, clock, numberText).Some?)
            && (r.Success? ==> |r.value| == |elems|)
            && (r.Success? ==> forall i :: 0 <= i < |elems| ==> ToScaffold(elems[i], i, clock, numberText) == Some(r.value[i]))
  {
  }

  /** A `null` element makes the callback throw, so the answer is the error. */
  lemma NullElementIsMalformed(text: string, parseJson: string -> Option<Json>, clock: nat -> nat, numberText: real -> string,
                               elems: seq<Json>, k: nat)
    requires parseJson(CleanJsonString(text)) == Some(JArr(elems))
    requires k < |elems| && elems[k] == JNull
    ensures ParsePersonasFromResponse(text, parseJson, clock, numberText) == Failure(MalformedResponse)
  {
    assert ToScaffold(elems[k], k, clock, numberText).None?;
  }

  /** An object with a truthy `personas` array stands for that array, element for element;
      in particular `personas: []` gives no scaffold and no error. */
  lemma PersonasArrayResponse(text: string, parseJson: string -> Option<Json>, clock: nat -> nat, numberText: real -> string,
                              props: map<string, Json>, elems: seq<Json>)
    requires parseJson(CleanJsonString(text)) == Some(JObj(props))
    requires "personas" in props && props["personas"] == JArr(elems)
    ensures var r := ParsePersonasFromResponse(text, parseJson, clock, numberText);
            && (r.Success? <==> forall i :: 0 <= i < |elems| ==> ToScaffold(elems[i], i, clock, numberText).Some?)
            && (r.Success? ==> |r.value| == |elems|)
            && (r.Success? ==> forall i :: 0 <= i < |elems| ==> ToScaffold(elems[i], i, clock, numberText) == Some(r.value[i]))
            && (elems == [] ==> r == Success([]))
  {
    assert RawPersonas(JObj(props)) == Some(elems);
  }

  /** A truthy `personas` that is not an array has no `map`, so the answer is the error. */
  lemma PersonasNotArrayIsMalformed(text: string, parseJson: string -> Option<Json>, clock: nat -> nat, numberText: real -> string,
                                    props: map<string, Json>)
    requires parseJson(CleanJsonString(text)) == Some(JObj(props))
    requires "personas" in props && Truthy(props["personas"]) && !props["personas"].JArr?
    ensures ParsePersonasFromResponse(text, parseJson, clock, numberText) == Failure(MalformedResponse)
  {
  }

  /** Any other value that is neither `null` nor an array, and has no truthy `personas`, is one
      persona: the answer is a one-element list or the error. A bare number or string thus
      gives one scaffold made of defaults only. */
  lemma SingleValueResponse(text: string, parseJson: string -> Option<Json>, clock: nat -> nat, numberText: real -> string,
                            parsed: Json)
    requires parseJson(CleanJsonString(text)) == Some(parsed)
    requires !parsed.JNull? && !parsed.JArr? && !IsTruthy(Member(parsed, "personas"))
    ensures var r := ParsePersonasFromResponse(text, parseJson, clock, numberText);
            && (r.Success? <==> ToScaffold(parsed, 0, clock, numberText).Some?)
            && (r.Success? ==> r.value == [ToScaffold(parsed, 0, clock, numberText).value])
  {
    MapOrThrowSingle(parsed, ScaffoldAt(clock, numberText));
  }

  /** The JSON text `null` makes `parsed.personas` throw. */
  lemma NullResponseIsMalformed(text: string, parseJson: string -> Option<Json>, clock: nat -> nat, numberText: real -> string)
    requires parseJson(CleanJsonString(text)) == Some(JNull)
    ensures ParsePersonasFromResponse(text, parseJson, clock, numberText) == Failure(MalformedResponse)
  {
  }

  // ---------------------------------------------------------------------------------------
  // Round trip: the well-formed scaffolds are exactly what the normaliser passes through
  // ---------------------------------------------------------------------------------------

  /** The JSON object the text model is asked to send for one ad; absent optionals are absent keys. */
  function EncodeAd(ad: GoogleAd): Json
  {
    var base := map["headline1" := ad.headline1, "headline2" := ad.headline2, "description1" := ad.description1];
    var withHeadline3 := if ad.headline3.Some? then base["headline3" := ad.headline3.value] else base;
    JObj(if ad.description2.Some? then withHeadline3["description2" := ad.description2.value] else withHeadline3)
  }

  /** The JSON object the text model is asked to send for one persona. */
  function EncodeScaffold(s: PersonaScaffold): Json
  {
    JObj(map[
      "id" := s.id,
      "name" := s.name,
      "age" := JNum(s.age),
      "occupation" := s.occupation,
      "demographics" := s.demographics,
      "goals" := JArr(s.goals),
      "challenges" := JArr(s.challenges),
      "motivations" := JArr(s.motivations),
      "communicationChannels" := JArr(s.communicationChannels),
      "detailedDescription" := s.detailedDescription,
      "googleAds" := JArr(seq(|s.googleAds|, i requires 0 <= i < |s.googleAds| => EncodeAd(s.googleAds[i]))),
      "socialMediaAdText" := s.socialMediaAdText,
      "imagePrompts" := JObj(map[
        "storyboard" := JArr(s.imagePrompts.storyboard),
        "socialMediaAd" := s.imagePrompts.socialMediaAd])])
  }

  /** A well-formed ad survives encoding and normalising unchanged. */
  lemma AdRoundTrip(ad: GoogleAd)
    requires WellFormedAd(ad)
    ensures ToGoogleAd(EncodeAd(ad)) == Some(ad)
  {
  }

  /** A well-formed scaffold survives encoding and normalising unchanged: together with
      `ToScaffold`'s guarantee that every result is well-formed, the normaliser's outputs are
      exactly the well-formed scaffolds. */
  lemma ScaffoldRoundTrip(s: PersonaScaffold, index: nat, clock: nat -> nat, numberText: real -> string)
    requires WellFormedScaffold(s)
    ensures ToScaffold(EncodeScaffold(s), index, clock, numberText) == Some(s)
  {
    var p := EncodeScaffold(s);
    EncodedPersonFields(s);
    EncodedListFields(s);
    EncodedAdsRoundTrip(s);
    EncodedPromptsRoundTrip(s, numberText);
    var b := BuildScaffold(p, index, clock, numberText, s.googleAds);
    assert b == s;
  }

  /** The encoded ads of a well-formed scaffold normalise back to its ads. */
  lemma EncodedAdsRoundTrip(s: PersonaScaffold)
    requires forall i :: 0 <= i < |s.googleAds| ==> WellFormedAd(s.googleAds[i])
    ensures NormaliseAds(Member(EncodeScaffold(s), "googleAds")) == Some(s.googleAds)
  {
    EncodedAdFields(s);
    var encodedAds := ArrayOrEmpty(Member(EncodeScaffold(s), "googleAds"));
    forall i | 0 <= i < |encodedAds|
      ensures ToGoogleAd(encodedAds[i]) == Some(s.googleAds[i])
    {
      AdRoundTrip(s.googleAds[i]);
    }
    var ads := NormaliseAds(Member(EncodeScaffold(s), "googleAds"));
    assert ads.Some?;
    assert ads.value == s.googleAds;
  }

  /** The encoded image prompts of a well-formed scaffold are kept as they are. */
  lemma EncodedPromptsRoundTrip(s: PersonaScaffold, numberText: real -> string)
    requires |s.imagePrompts.storyboard| == 3 && Truthy(s.imagePrompts.socialMediaAd)
    ensures NormalisePrompts(EncodeScaffold(s), numberText) == s.imagePrompts
  {
    EncodedAdFields(s);
  }

  /** Reading the person fields back from an encoded scaffold finds what was stored. */
  lemma EncodedPersonFields(s: PersonaScaffold)
    ensures var p := EncodeScaffold(s);
      && Member(p, "id") == Some(s.id)
      && Member(p, "name") == Some(s.name)
      && Member(p, "age") == Some(JNum(s.age))
      && Member(p, "occupation") == Some(s.occupation)
      && Member(p, "demographics") == Some(s.demographics)
  {
  }

  /** Reading the list fields and the description back from an encoded scaffold finds what was stored. */
  lemma EncodedListFields(s: PersonaScaffold)
    ensures var p := EncodeScaffold(s);
      && Member(p, "goals") == Some(JArr(s.goals))
      && Member(p, "challenges") == Some(JArr(s.challenges))
      && Member(p, "motivations") == Some(JArr(s.motivations))
      && Member(p, "communicationChannels") == Some(JArr(s.communicationChannels))
      && Member(p, "detailedDescription") == Some(s.detailedDescription)
  {
  }

  /** Reading the advertising fields back from an encoded scaffold finds what was stored. */
  lemma EncodedAdFields(s: PersonaScaffold)
    ensures var p := EncodeScaffold(s);
      && ArrayOrEmpty(Member(p, "googleAds")) == seq(|s.googleAds|, i requires 0 <= i < |s.googleAds| => EncodeAd(s.googleAds[i]))
      && Member(p, "socialMediaAdText") == Some(s.socialMediaAdText)
      && OptionalMember(Member(p, "imagePrompts"), "storyboard") == Some(JArr(s.imagePrompts.storyboard))
      && OptionalMember(Member(p, "imagePrompts"), "socialMediaAd") == Some(s.imagePrompts.socialMediaAd)
  {
  }

  /** A response holding the encodings of well-formed scaffolds normalises back to them. */
  lemma ResponseRoundTrip(text: string, parseJson: string -> Option<Json>, clock: nat -> nat, numberText: real -> string,
                          scaffolds: seq<PersonaScaffold>)
    requires forall i :: 0 <= i < |scaffolds| ==> WellFormedScaffold(scaffolds[i])
    requires parseJson(CleanJsonString(text)) ==
               Some(JArr(seq(|scaffolds|, i requires 0 <= i < |scaffolds| => EncodeScaffold(scaffolds[i]))))
    ensures ParsePersonasFromResponse(text, parseJson, clock, numberText) == Success(scaffolds)
  {
    var elems := seq(|scaffolds|, i requires 0 <= i < |scaffolds| => EncodeScaffold(scaffolds[i]));
    forall i | 0 <= i < |elems|
      ensures ToScaffold(elems[i], i, clock, numberText) == Some(scaffolds[i])
    {
      ScaffoldRoundTrip(scaffolds[i], i, clock, numberText);
    }
    ArrayResponse(text, parseJson, clock, numberText, elems);
    var r := ParsePersonasFromResponse(text, parseJson, clock, numberText);
    assert r.Success?;
    assert r.value == scaffolds;
  }
}
