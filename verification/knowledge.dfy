/**
 * The knowledge store the chatbot answers from, and the tagged content
 * the resolver hands to the formatters.
 *
 * Each language's training data is a JSON object; the resolver only reads
 * three of its entries (the story facts, the characters and the teachings),
 * so a language's data is modelled as those three mappings.  A JSON object
 * is a sequence of (key, value) pairs in insertion order, which is the order
 * Python iterates a dict in; an entry missing from the file, or a file that
 * is missing altogether, is the empty sequence.
 */
module Knowledge {

  datatype Option<+T> = None | Some(value: T)

  /** The two languages `detect_language` can answer. */
  datatype Language = Hindi | English

  /** A story fact: its trigger keywords (`question_keywords`, else
      `keywords`; a missing list is empty) and its answer text (`answer`,
      else `content`; either may be missing). */
  datatype Fact = Fact(
    questionKeywords: seq<string>,
    keywords: seq<string>,
    answer: Option<string>,
    content: Option<string>)

  /** A character profile; each entry may be absent from the JSON object. */
  datatype Character = Character(
    description: Option<string>,
    qualities: Option<seq<string>>,
    keyTeachings: Option<seq<string>>)

  /** A teaching; its `definition` may be absent. */
  datatype Teaching = Teaching(definition: Option<string>)

  /** One language's training data: `story_facts` / `english_story_facts`,
      `characters` / `characters_english`, and `teachings`. */
  datatype KnowledgeBase = KnowledgeBase(
    storyFacts: seq<(string, Fact)>,
    characters: seq<(string, Character)>,
    teachings: seq<(string, Teaching)>)

  /** What a missing training-data file loads as. */
  const EmptyKnowledgeBase: KnowledgeBase := KnowledgeBase([], [], [])

  /** Everything the chatbot loads at start-up; a missing corpus is "". */
  datatype Store = Store(
    hindiData: KnowledgeBase,
    englishData: KnowledgeBase,
    hindiFullText: string,
    englishFullText: string)
  {
    /** The training data a question in `language` is answered from. */
    function DataFor(language: Language): KnowledgeBase
    {
      if language == Hindi then hindiData else englishData
    }

    /** The corpus a question in `language` is searched in. */
    function CorpusFor(language: Language): string
    {
      if language == Hindi then hindiFullText else englishFullText
    }
  }

  // Source labels carried by each kind of resolved content.
  const KnowledgeBaseLabel: string := "Structured Knowledge Base"
  const HindiCorpusLabel: string := "Ramcharitmanas Full Text"
  const EnglishCorpusLabel: string := "Valmiki Ramayana Full Text"
  const CharacterLabel: string := "Character Database"
  const TeachingsLabel: string := "Spiritual Teachings"
  const ContextLabel: string := "AI Generated with Context"

  /** The resolver's answer, one variant per `type` tag.  A specific fact's
      answer is `None` when the fact has neither an `answer` nor a `content`
      text (Python's `None`). */
  datatype Content =
    | SpecificFact(language: Language, answer: Option<string>, source: string)
    | TextSearch(language: Language, passages: string, source: string, keyTerms: seq<string>)
    | CharacterInfo(language: Language, character: string, data: Character, source: string)
    | Teachings(language: Language, teachings: seq<(string, Teaching)>, source: string)
    | ContextualResponse(language: Language, question: string, context: string, source: string)
}
