/** The system-prompt builders of lib/ai/prompts.ts: pure string composition that branches
    on the chat model, the interface language and the artifact kind. */
module Prompts {
  import opened Wrappers
  import Text

  /** The base persona, verbatim. */
  const RegularPrompt: string := "You are an expert kind assistant"

  /** The single language instruction used for every language other than "en", verbatim
      (it opens and closes with a line feed and has a space before the closing one). */
  const LanguagePrompt: string := "\nYou have to use Italian \n"

  /** The artifacts guide. Only the first sentence of its opening line is kept; no property
      below depends on its wording. */
  const ArtifactsPrompt: string := "\nArtifacts is a special user interface mode that helps users with writing, editing, and other content creation tasks.\n"

  /** The prompt-engineering feedback guide (opening line only). */
  const FeedbackPrompt: string := "\nYou're a senior prompt engineer and your task is to give feedback about their prompt based on their level.\n"

  /** The model id that gets neither the artifacts guide nor the language instruction. */
  const ReasoningModel: string := "chat-model-reasoning"

  /** The language that gets no language instruction. */
  const English: string := "en"

  /** Geolocation hints of the request; each field may be undefined. */
  datatype RequestHints = RequestHints(
    latitude: Option<string>,
    longitude: Option<string>,
    city: Option<string>,
    country: Option<string>)

  /** How a template literal renders `string | undefined`. */
  function Interpolate(v: Option<string>): string {
    match v
    case Some(s) => s
    case None => "undefined"
  }

  const HintsHeader: string := "About the origin of user's request:"

  /** `getRequestPromptFromHints`: a header line and one labelled line per hint, each line
      ended by a line feed. */
  function RequestPromptFromHints(hints: RequestHints): (r: string)
    ensures HintsHeader + "\n" <= r
    ensures r[|r| - 1] == '\n'
  {
    HintsHeader + "\n" + (
    "- lat: " + Interpolate(hints.latitude) + "\n" + (
    "- lon: " + Interpolate(hints.longitude) + "\n" + (
    "- city: " + Interpolate(hints.city) + "\n" + (
    "- country: " + Interpolate(hints.country) + "\n" + ""))))
  }

  /** True when no hint value would break a line. */
  predicate SingleLineHints(hints: RequestHints) {
    && '\n' !in Interpolate(hints.latitude)
    && '\n' !in Interpolate(hints.longitude)
    && '\n' !in Interpolate(hints.city)
    && '\n' !in Interpolate(hints.country)
  }

  /** Read line by line, the hints prompt is the header, then lat, lon, city and country in
      that order, one labelled line each, then the empty tail after the last line feed. */
  lemma HintsPromptLines(hints: RequestHints)
    requires SingleLineHints(hints)
    ensures Text.Lines(RequestPromptFromHints(hints)) == [
      HintsHeader,
      "- lat: " + Interpolate(hints.latitude),
      "- lon: " + Interpolate(hints.longitude),
      "- city: " + Interpolate(hints.city),
      "- country: " + Interpolate(hints.country),
      ""]
  {
    var l1 := "- lat: " + Interpolate(hints.latitude);
    var l2 := "- lon: " + Interpolate(hints.longitude);
    var l3 := "- city: " + Interpolate(hints.city);
    var l4 := "- country: " + Interpolate(hints.country);
    NoBreakAfterLabel("- lat: ", Interpolate(hints.latitude));
    NoBreakAfterLabel("- lon: ", Interpolate(hints.longitude));
    NoBreakAfterLabel("- city: ", Interpolate(hints.city));
    NoBreakAfterLabel("- country: ", Interpolate(hints.country));
    var t4 := l4 + "\n" + "";
    var t3 := l3 + "\n" + t4;
    var t2 := l2 + "\n" + t3;
    var t1 := l1 + "\n" + t2;
    assert RequestPromptFromHints(hints) == HintsHeader + "\n" + t1;
    Text.LinesOfOneLine("");
    Text.LinesAfterLine(l4, "");
    Text.LinesAfterLine(l3, t4);
    Text.LinesAfterLine(l2, t3);
    Text.LinesAfterLine(l1, t2);
    Text.LinesAfterLine(HintsHeader, t1);
  }

  /** A prefix without a line feed followed by a value without one has none. */
  lemma NoBreakAfterLabel(prefix: string, v: string)
    requires '\n' !in prefix && '\n' !in v
    ensures '\n' !in prefix + v
  {
  }

  /** `systemPrompt`. */
  function SystemPrompt(selectedChatModel: string, hints: RequestHints, language: string): (r: string)
    ensures selectedChatModel != ReasoningModel && language != English ==> LanguagePrompt + "\n\n" <= r
    ensures selectedChatModel == ReasoningModel || language == English ==> RegularPrompt + "\n\n" <= r
  {
    var requestPrompt := RequestPromptFromHints(hints);
    if selectedChatModel == ReasoningModel then
      RegularPrompt + "\n\n" + requestPrompt
    else if language == English then
      RegularPrompt + "\n\n" + requestPrompt + "\n\n" + ArtifactsPrompt
    else
      LanguagePrompt + "\n\n" + RegularPrompt + "\n\n" + requestPrompt + "\n\n" + ArtifactsPrompt
  }

  /** The reasoning model gets the persona and the hints only, whatever the language. */
  lemma ReasoningPromptIgnoresLanguage(hints: RequestHints, language: string)
    ensures SystemPrompt(ReasoningModel, hints, language)
         == RegularPrompt + "\n\n" + RequestPromptFromHints(hints)
  {
  }

  /** For any other model, the English prompt is the reasoning prompt followed by the
      artifacts guide; so the reasoning prompt is exactly the English one without it. */
  lemma EnglishPromptExtendsReasoningPrompt(model: string, hints: RequestHints, language: string)
    requires model != ReasoningModel
    ensures SystemPrompt(model, hints, English)
         == SystemPrompt(ReasoningModel, hints, language) + "\n\n" + ArtifactsPrompt
  {
  }

  /** For any other model and a language other than "en", the prompt is the language
      instruction in front of the English prompt. */
  lemma OtherLanguagePrefixesEnglishPrompt(model: string, hints: RequestHints, language: string)
    requires model != ReasoningModel && language != English
    ensures SystemPrompt(model, hints, language)
         == LanguagePrompt + "\n\n" + SystemPrompt(model, hints, English)
  {
  }

  /** There is one language instruction: all languages other than "en" get the same prompt. */
  lemma OtherLanguagesAgree(model: string, hints: RequestHints, language1: string, language2: string)
    requires language1 != English && language2 != English
    ensures SystemPrompt(model, hints, language1) == SystemPrompt(model, hints, language2)
    ensures SystemPromptForFeedback(language1) == SystemPromptForFeedback(language2)
  {
  }

  /** `systemPromptForFeedback`: the feedback guide, always at the end, and preceded by the
      language instruction exactly when the language is not "en". */
  function SystemPromptForFeedback(language: string): (r: string)
    ensures |FeedbackPrompt| <= |r| && r[|r| - |FeedbackPrompt|..] == FeedbackPrompt
    ensures r == FeedbackPrompt <==> language == English
    ensures language != English ==> r[..|r| - |FeedbackPrompt|] == LanguagePrompt + "\n\n"
  {
    if language == English then FeedbackPrompt
    else LanguagePrompt + "\n\n" + FeedbackPrompt
  }

  /** The header `updateDocumentPrompt` uses for an artifact kind, if it has one. */
  function DocumentHeader(kind: string): (r: Option<string>)
    ensures r.Some? <==> kind in {"text", "code", "sheet"}
  {
    if kind == "text" then Some("Improve the following contents of the document based on the given prompt.")
    else if kind == "code" then Some("Improve the following code snippet based on the given prompt.")
    else if kind == "sheet" then Some("Improve the following spreadsheet based on the given prompt.")
    else None
  }

  /** How a template literal renders `string | null`. */
  function InterpolateNullable(v: Option<string>): string {
    match v
    case Some(s) => s
    case None => "null"
  }

  /** `updateDocumentPrompt`: for text, code and sheet artifacts a kind-specific header, a
      blank line, the current content and a closing line feed; for any other kind the empty
      string. */
  function UpdateDocumentPrompt(currentContent: Option<string>, kind: string): (r: string)
    ensures r == "" <==> kind !in {"text", "code", "sheet"}
    ensures r != "" ==> r == DocumentHeader(kind).value + "\n\n" + InterpolateNullable(currentContent) + "\n"
  {
    match DocumentHeader(kind)
    case Some(header) => header + "\n\n" + InterpolateNullable(currentContent) + "\n"
    case None => ""
  }

  /** The three kinds get three different prompts for the same content, each ending in that
      content. */
  lemma DocumentPromptsDiffer(currentContent: Option<string>, kind1: string, kind2: string)
    requires kind1 in {"text", "code", "sheet"} && kind2 in {"text", "code", "sheet"}
    requires kind1 != kind2
    ensures UpdateDocumentPrompt(currentContent, kind1) != UpdateDocumentPrompt(currentContent, kind2)
  {
  }
}
