/**
 * The response templates: one per kind of resolved content, each in a
 * Hindi and an English form, each closing with the same benediction.
 */
module Formatter {
  import opened Text
  import opened Knowledge
  import opened Resolver
  import opened Detection

  /** The line every response ends with. */
  const Closing: string := "\n\n🙏 Jai Shri Ram!"

  /** The line that repeats the question. */
  function QuestionLine(question: string): string
  {
    "📖 **" + question + "**\n\n"
  }

  // ---------------------------------------------------------------------
  // `_format_specific_answer`
  // ---------------------------------------------------------------------

  function SpecificHeader(language: Language): string
  {
    if language == Hindi then "🕉️ रामचरितमानस से उत्तर:\n\n" else "🕉️ From The Ramayana:\n\n"
  }

  /** The label of the source line: Hindi in the Hindi template. */
  function SpecificSourceTag(language: Language): string
  {
    if language == Hindi then "\n\n📚 **स्रोत:** " else "\n\n📚 **Source:** "
  }

  /** The story-fact template.  A fact without answer text makes the source
      fail (it appends `None` to a string); that is the `None` result. */
  function FormatSpecific(language: Language, answer: Option<string>, source: string, question: string): Option<string>
  {
    match answer
    case None => None
    case Some(text) =>
      Some(SpecificHeader(language) + QuestionLine(question) + text + SpecificSourceTag(language) + source + Closing)
  }

  // ---------------------------------------------------------------------
  // `_format_text_search_answer`
  // ---------------------------------------------------------------------

  function TextSearchHeader(language: Language): string
  {
    if language == Hindi then "🕉️ रामचरितमानस से खोज परिणाम:\n\n" else "🕉️ Search Results from Ramayana:\n\n"
  }

  /** The terms searched and the passages found. */
  function TextSearchBody(language: Language, keyTerms: seq<string>, passages: string): string
  {
    if language == Hindi then
      "🔍 **खोजे गए शब्द:** " + Join(keyTerms, ", ") + "\n\n"
      + "📜 **संबंधित अंश:**\n" + passages + "\n\n"
    else
      "🔍 **Search terms:** " + Join(keyTerms, ", ") + "\n\n"
      + "📜 **Relevant passages:**\n" + passages + "\n\n"
  }

  function TextSearchSourceTag(language: Language): string
  {
    if language == Hindi then "📚 **स्रोत:** " else "📚 **Source:** "
  }

  /** The full-text search template. */
  function FormatTextSearch(language: Language, passages: string, source: string, keyTerms: seq<string>,
                            question: string): string
  {
    TextSearchHeader(language) + QuestionLine(question) + TextSearchBody(language, keyTerms, passages)
    + TextSearchSourceTag(language) + source + Closing
  }

  // ---------------------------------------------------------------------
  // `_format_character_answer`
  // ---------------------------------------------------------------------

  /** One bullet line. */
  function Bullet(item: string): string
  {
    "  • " + item + "\n"
  }

  /** The bullet lines of a list, in order. */
  function Bullets(items: seq<string>): string
    decreases |items|
  {
    if items == [] then "" else Bullets(items[..|items| - 1]) + Bullet(items[|items| - 1])
  }

  /** The opening of the character template: header and name. */
  function CharacterHeading(language: Language, character: string): string
  {
    if language == Hindi then "🕉️ रामचरितमानस से चरित्र विश्लेषण:\n\n" + "👑 **" + character + "**\n\n"
    else "🕉️ Character Analysis from Ramayana:\n\n" + "👑 **" + character + "**\n\n"
  }

  function QualitiesHeading(language: Language): string
  {
    if language == Hindi then "🌟 **मुख्य गुण:**\n" else "🌟 **Key Qualities:**\n"
  }

  const KeyTeachingsHeading: string := "\n📿 **मुख्य शिक्षाएं:**\n"

  function DescriptionLine(description: string): string
  {
    "📝 **Description:** " + description + "\n\n"
  }

  /** The profile block: in Hindi the qualities and the key teachings, in
      English the description and the qualities, each only when present. */
  function CharacterProfile(language: Language, data: Character): string
  {
    if language == Hindi then
      (if data.qualities.Some? then QualitiesHeading(language) + Bullets(data.qualities.value) else "")
      + (if data.keyTeachings.Some? then KeyTeachingsHeading + Bullets(data.keyTeachings.value) else "")
    else
      (if data.description.Some? then DescriptionLine(data.description.value) else "")
      + (if data.qualities.Some? then QualitiesHeading(language) + Bullets(data.qualities.value) else "")
  }

  /** The label of the source line, in English for every language. */
  const EnglishSourceTag: string := "\n\n📚 **Source:** "

  /** The character template.  It has no question parameter: the source
      never puts the question into a character answer. */
  function FormatCharacter(language: Language, character: string, data: Character, source: string): string
  {
    CharacterHeading(language, character) + CharacterProfile(language, data) + EnglishSourceTag + source + Closing
  }

  // ---------------------------------------------------------------------
  // `_format_teachings_answer`
  // ---------------------------------------------------------------------

  /** One teaching: its name and, when present, its definition. */
  function TeachingEntry(name: string, teaching: Teaching): string
  {
    "🌟 **" + name + ":**\n"
    + (if teaching.definition.Some? then "   " + teaching.definition.value + "\n\n" else "")
  }

  /** Every teaching, in mapping order. */
  function TeachingEntries(teachings: seq<(string, Teaching)>): string
    decreases |teachings|
  {
    if teachings == [] then ""
    else
      var last := teachings[|teachings| - 1];
      TeachingEntries(teachings[..|teachings| - 1]) + TeachingEntry(last.0, last.1)
  }

  function TeachingsHeader(language: Language): string
  {
    if language == Hindi then "🕉️ रामचरितमानस की शिक्षाएं:\n\n" else "🕉️ Teachings from Ramayana:\n\n"
  }

  /** The fixed summary the English template gives instead of the list. */
  const TeachingsSummary: string :=
    "The Ramayana teaches us about dharma (righteousness), devotion, ideal relationships, and spiritual growth.\n\n"

  /** In Hindi every teaching is listed; in English the fixed summary
      stands in for them. */
  function TeachingsBody(language: Language, teachings: seq<(string, Teaching)>): string
  {
    if language == Hindi then TeachingEntries(teachings) else TeachingsSummary
  }

  /** The label of the source line, without the blank line before it. */
  const PlainSourceTag: string := "📚 **Source:** "

  /** The teachings template. */
  function FormatTeachings(language: Language, teachings: seq<(string, Teaching)>, source: string,
                           question: string): string
  {
    TeachingsHeader(language) + QuestionLine(question) + TeachingsBody(language, teachings) + PlainSourceTag
    + source + Closing
  }

  // ---------------------------------------------------------------------
  // `_format_contextual_answer`
  // ---------------------------------------------------------------------

  function ContextualHeader(language: Language): string
  {
    if language == Hindi then "🕉️ रामचरितमानस से संदर्भित उत्तर:\n\n" else "🕉️ Contextual Answer from Ramayana:\n\n"
  }

  /** A fixed explanation, the available context and a fixed piece of advice. */
  function ContextualBody(language: Language, context: string): string
  {
    if language == Hindi then
      "यह प्रश्न रामायण की व्यापक शिक्षाओं से संबंधित है। रामचरितमानस में इस विषय पर विस्तृत जानकारी उपलब्ध है।\n\n"
      + "📚 **उपलब्ध संदर्भ:**\n" + context + "\n\n"
      + "अधिक विस्तृत जानकारी के लिए कृपया अधिक स्पष्ट प्रश्न पूछें।"
    else
      "This question relates to the broader teachings of Ramayana. The epic contains extensive information on this topic.\n\n"
      + "📚 **Available context:**\n" + context + "\n\n"
      + "For more detailed information, please ask a more specific question."
  }

  /** The fallback template. */
  function FormatContextual(language: Language, context: string, source: string, question: string): string
  {
    ContextualHeader(language) + QuestionLine(question) + ContextualBody(language, context) + EnglishSourceTag
    + source + Closing
  }

  // ---------------------------------------------------------------------
  // Dispatch (`generate_response`)
  // ---------------------------------------------------------------------

  /** The template for a content's kind; `None` when the source fails. */
  function FormatResponse(content: Content, question: string): Option<string>
  {
    match content
    case SpecificFact(language, answer, source) => FormatSpecific(language, answer, source, question)
    case TextSearch(language, passages, source, keyTerms) =>
      Some(FormatTextSearch(language, passages, source, keyTerms, question))
    case CharacterInfo(language, character, data, source) =>
      Some(FormatCharacter(language, character, data, source))
    case Teachings(language, teachings, source) => Some(FormatTeachings(language, teachings, source, question))
    case ContextualResponse(language, _, context, source) =>
      Some(FormatContextual(language, context, source, question))
  }

  /** The whole pipeline: detect the language, resolve, format. */
  function Respond(store: Store, question: string): Option<string>
  {
    FormatResponse(Resolve(store, question, DetectLanguage(question)), question)
  }

  // ---------------------------------------------------------------------
  // What every response promises
  // ---------------------------------------------------------------------

  /** `needle` occurs in `x`, and `x` is extended on the right. */
  lemma ContainsAppend(x: string, y: string, needle: string)
    requires Contains(x, needle)
    ensures Contains(x + y, needle)
  {
    ContainsWithin("", x, y, needle);
    assert "" + x + y == x + y;
  }

  /** The question line contains the question. */
  lemma QuestionLineContains(prefix: string, question: string)
    ensures Contains(prefix + QuestionLine(question), question)
  {
    ContainsInfix("📖 **", question, "**\n\n");
    ContainsWithin(prefix, QuestionLine(question), "", question);
    assert prefix + QuestionLine(question) + "" == prefix + QuestionLine(question);
  }

  /** A string ending in `source + Closing` contains the source and ends
      with the closing line. */
  lemma SourceAndClosing(prefix: string, source: string)
    ensures Contains(prefix + source + Closing, source)
    ensures EndsWith(prefix + source + Closing, Closing)
  {
    ContainsInfix(prefix, source, Closing);
    EndsWithAppend(prefix + source, Closing);
  }

  /** The shape shared by every template that repeats the question: it
      ends with the closing line and contains the question and the source. */
  lemma TemplateSpec(header: string, question: string, body: string, tag: string, source: string)
    ensures var r := header + QuestionLine(question) + body + tag + source + Closing;
            EndsWith(r, Closing) && Contains(r, source) && Contains(r, question)
  {
    QuestionLineContains(header, question);
    ContainsAppend(header + QuestionLine(question), body, question);
    ContainsAppend(header + QuestionLine(question) + body, tag, question);
    ContainsAppend(header + QuestionLine(question) + body + tag, source, question);
    ContainsAppend(header + QuestionLine(question) + body + tag + source, Closing, question);
    SourceAndClosing(header + QuestionLine(question) + body + tag, source);
  }

  /** Every formatted response ends with the closing line and names the
      content's source; every kind but a character profile repeats the
      question; formatting fails only for a story fact without answer text. */
  lemma FormatResponseSpec(content: Content, question: string)
    ensures FormatResponse(content, question).None? <==> content.SpecificFact? && content.answer.None?
    ensures match FormatResponse(content, question)
            case None => true
            case Some(r) =>
              EndsWith(r, Closing) && Contains(r, content.source) &&
              (!content.CharacterInfo? ==> Contains(r, question))
  {
    match content
    case SpecificFact(language, answer, source) =>
      if answer.Some? {
        TemplateSpec(SpecificHeader(language), question, answer.value, SpecificSourceTag(language), source);
      }
    case TextSearch(language, passages, source, keyTerms) =>
      TemplateSpec(TextSearchHeader(language), question, TextSearchBody(language, keyTerms, passages),
                   TextSearchSourceTag(language), source);
    case CharacterInfo(language, character, data, source) =>
      SourceAndClosing(CharacterHeading(language, character) + CharacterProfile(language, data) + EnglishSourceTag, source);
    case Teachings(language, teachings, source) =>
      TemplateSpec(TeachingsHeader(language), question, TeachingsBody(language, teachings), PlainSourceTag, source);
    case ContextualResponse(language, _, context, source) =>
      TemplateSpec(ContextualHeader(language), question, ContextualBody(language, context), EnglishSourceTag, source);
  }

  /** A character answer is the same whatever the question was. */
  lemma CharacterAnswerIgnoresQuestion(content: Content, question: string, other: string)
    requires content.CharacterInfo?
    ensures FormatResponse(content, question) == FormatResponse(content, other)
  {
  }

  /** The end-to-end promise: every answer ends with the closing line and
      names its source, and the pipeline fails only on a triggered story
      fact without answer text. */
  lemma RespondSpec(store: Store, question: string)
    ensures var content := Resolve(store, question, DetectLanguage(question));
            Respond(store, question).None? <==> content.SpecificFact? && content.answer.None?
    ensures var content := Resolve(store, question, DetectLanguage(question));
            match Respond(store, question)
            case None => true
            case Some(r) =>
              EndsWith(r, Closing) && Contains(r, content.source) &&
              (!content.CharacterInfo? ==> Contains(r, question))
  {
    FormatResponseSpec(Resolve(store, question, DetectLanguage(question)), question);
  }
}
