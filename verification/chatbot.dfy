/**
 * The chatbot object: the knowledge store it loads once, and the methods
 * that scan it step by step.  Every method is proved to compute what the
 * corresponding function of the Resolver or Formatter module specifies.
 */
module Chatbot {
  import opened Text
  import opened Knowledge
  import opened Resolver
  import opened Formatter
  import opened Detection

  class EnhancedRamayanChatbot {
    // Loaded once at construction and never changed afterwards.
    const hindiData: KnowledgeBase
    const englishData: KnowledgeBase
    const hindiFullText: string
    const englishFullText: string

    /** Takes what the loaders produced; a missing file is passed as
        `EmptyKnowledgeBase` or "". */
    constructor (hindiData: KnowledgeBase, englishData: KnowledgeBase, hindiFullText: string, englishFullText: string)
      ensures this.hindiData == hindiData && this.englishData == englishData
      ensures this.hindiFullText == hindiFullText && this.englishFullText == englishFullText
    {
      this.hindiData := hindiData;
      this.englishData := englishData;
      this.hindiFullText := hindiFullText;
      this.englishFullText := englishFullText;
    }

    /** The loaded store as a value. */
    function Loaded(): Store
    {
      Store(hindiData, englishData, hindiFullText, englishFullText)
    }

    /** `_get_specific_answer`: scan the story facts, and each fact's
        keywords, until a keyword occurs in the question. */
    method GetSpecificAnswer(question: string, language: Language) returns (r: Option<Content>)
      ensures r == SpecificAnswer(Loaded().DataFor(language).storyFacts, question, language)
    {
      var questionLower := Lower(question);
      var dataSource := if language == Hindi then hindiData else englishData;
      var facts := dataSource.storyFacts;
      var i := 0;
      while i < |facts|
        invariant 0 <= i <= |facts|
        invariant forall j :: 0 <= j < i ==> !FactMatches(facts[j].1, questionLower)
      {
        var keywords := StoryKeywords(facts[i].1);
        var k := 0;
        while k < |keywords|
          invariant 0 <= k <= |keywords|
          invariant forall m :: 0 <= m < k ==> !KeywordHit(questionLower, keywords[m])
        {
          if Contains(questionLower, Lower(keywords[k])) {
            assert KeywordHit(questionLower, keywords[k]);
            FirstIndexAt(facts, FactTest(questionLower), i);
            return Some(SpecificFact(language, FactAnswer(facts[i].1), KnowledgeBaseLabel));
          }
          k := k + 1;
        }
        i := i + 1;
      }
      assert FirstIndex(facts, FactTest(questionLower)).None?;
      return None;
    }

    /** `_extract_key_terms`: collect the vocabulary terms the question
        contains; failing that, take its first three long words. */
    method ExtractKeyTerms(question: string, language: Language) returns (keyTerms: seq<string>)
      ensures keyTerms == KeyTerms(question, language)
    {
      var questionLower := Lower(question);
      var allTerms := FixedTerms(language);
      keyTerms := [];
      var i := 0;
      while i < |allTerms|
        invariant 0 <= i <= |allTerms|
        invariant keyTerms == TermsIn(allTerms[..i], questionLower)
      {
        assert allTerms[..i + 1][..i] == allTerms[..i];
        if Contains(questionLower, allTerms[i]) {
          keyTerms := keyTerms + [allTerms[i]];
        }
        i := i + 1;
      }
      assert allTerms[..i] == allTerms;
      if keyTerms == [] {
        var words := Words(questionLower);
        keyTerms := Take(LongWords(words), 3);
      }
    }

    /** `_find_passages_with_term`: the window around every line that
        contains the term, of which the first five are kept. */
    method FindPassagesWithTerm(text: string, term: string) returns (passages: seq<string>)
      ensures passages == PassagesWithTerm(text, term)
    {
      passages := [];
      var lines := Split(text, '\n');
      var i := 0;
      while i < |lines|
        invariant 0 <= i <= |lines|
        invariant passages == AllPassages(lines, term, i)
      {
        AllPassagesStep(lines, term, i);
        if Contains(Lower(lines[i]), Lower(term)) {
          var start := Max(0, i - 2);
          var end := Min(|lines|, i + 3);
          var passage := Join(lines[start..end], "\n");
          passages := passages + [passage];
        }
        i := i + 1;
      }
      passages := Take(passages, 5);
    }

    /** `_search_full_text`: search the language's corpus, if it has one,
        for every key term, and keep the start of the first three passages. */
    method SearchFullText(question: string, language: Language) returns (r: Option<Content>)
      ensures r == Resolver.SearchFullText(Loaded(), question, language)
    {
      var textContent: string;
      var source: string;
      if language == Hindi && hindiFullText != "" {
        textContent := hindiFullText;
        source := HindiCorpusLabel;
      } else if language == English && englishFullText != "" {
        textContent := englishFullText;
        source := EnglishCorpusLabel;
      } else {
        return None;
      }
      var keyTerms := ExtractKeyTerms(question, language);
      var relevantPassages: seq<string> := [];
      var i := 0;
      while i < |keyTerms|
        invariant 0 <= i <= |keyTerms|
        invariant relevantPassages == PassagesForTerms(textContent, keyTerms[..i])
      {
        assert keyTerms[..i + 1][..i] == keyTerms[..i];
        var passages := FindPassagesWithTerm(textContent, keyTerms[i]);
        relevantPassages := relevantPassages + passages;
        i := i + 1;
      }
      assert keyTerms[..i] == keyTerms;
      if relevantPassages != [] {
        var combinedText := Join(Take(relevantPassages, 3), "\n");
        return Some(TextSearch(language, Take(combinedText, PassageLimit), source, keyTerms));
      }
      return None;
    }

    /** `_search_characters_themes`: the first character named in the
        question; else the teachings, when asked for and available. */
    method SearchCharactersThemes(question: string, language: Language) returns (r: Option<Content>)
      ensures r == Resolver.SearchCharactersThemes(Loaded().DataFor(language), question, language)
    {
      var questionLower := Lower(question);
      var dataSource := if language == Hindi then hindiData else englishData;
      var characters := dataSource.characters;
      var i := 0;
      while i < |characters|
        invariant 0 <= i <= |characters|
        invariant forall j :: 0 <= j < i ==> !NamedIn(characters[j].0, questionLower)
      {
        var (charName, charData) := characters[i];
        if Contains(questionLower, Lower(charName)) {
          FirstIndexAt(characters, CharacterTest(questionLower), i);
          return Some(CharacterInfo(language, charName, charData, CharacterLabel));
        }
        i := i + 1;
      }
      assert FirstIndex(characters, CharacterTest(questionLower)).None?;
      if Contains(questionLower, "teaching") || Contains(questionLower, "lesson") || Contains(questionLower, "dharma") {
        var teachings := dataSource.teachings;
        if teachings != [] {
          return Some(Teachings(language, teachings, TeachingsLabel));
        }
      }
      return None;
    }

    /** `search_content`: the stages in priority order; the first answer
        wins and the contextual fallback always answers. */
    method SearchContent(question: string, language: Language) returns (c: Content)
      ensures c == Resolve(Loaded(), question, language)
    {
      var specificAnswer := GetSpecificAnswer(question, language);
      if specificAnswer.Some? {
        return specificAnswer.value;
      }
      var textSearchResult := SearchFullText(question, language);
      if textSearchResult.Some? {
        return textSearchResult.value;
      }
      var characterResult := SearchCharactersThemes(question, language);
      if characterResult.Some? {
        return characterResult.value;
      }
      return ContextualFallback(Loaded().DataFor(language), question, language);
    }

    /** One `for` loop of `_format_character_answer`: a bullet per item. */
    method AppendBullets(prefix: string, items: seq<string>) returns (text: string)
      ensures text == prefix + Bullets(items)
    {
      text := prefix;
      var i := 0;
      while i < |items|
        invariant 0 <= i <= |items|
        invariant text == prefix + Bullets(items[..i])
      {
        assert items[..i + 1][..i] == items[..i];
        text := text + Bullet(items[i]);
        i := i + 1;
      }
      assert items[..i] == items;
    }

    /** `_format_character_answer`: heading, then the profile lists bullet
        by bullet, then the source and the closing line.  The question is
        accepted and not used. */
    method FormatCharacterAnswer(language: Language, character: string, data: Character, source: string,
                                 question: string) returns (response: string)
      ensures response == FormatCharacter(language, character, data, source)
    {
      var first := "";
      var second := "";
      if language == Hindi {
        if data.qualities.Some? {
          first := AppendBullets(QualitiesHeading(language), data.qualities.value);
        }
        if data.keyTeachings.Some? {
          second := AppendBullets(KeyTeachingsHeading, data.keyTeachings.value);
        }
      } else {
        if data.description.Some? {
          first := DescriptionLine(data.description.value);
        }
        if data.qualities.Some? {
          second := AppendBullets(QualitiesHeading(language), data.qualities.value);
        }
      }
      response := CharacterHeading(language, character) + (first + second);
      response := response + EnglishSourceTag + source;
      response := response + Closing;
    }

    /** `_format_teachings_answer`: heading and question, then (in Hindi)
        every teaching entry by entry, then the source and closing line. */
    method FormatTeachingsAnswer(language: Language, teachings: seq<(string, Teaching)>, source: string,
                                 question: string) returns (response: string)
      ensures response == FormatTeachings(language, teachings, source, question)
    {
      var heading := TeachingsHeader(language) + QuestionLine(question);
      var body := "";
      if language == Hindi {
        var i := 0;
        while i < |teachings|
          invariant 0 <= i <= |teachings|
          invariant body == TeachingEntries(teachings[..i])
        {
          assert teachings[..i + 1][..i] == teachings[..i];
          var (teachingKey, teachingData) := teachings[i];
          body := body + TeachingEntry(teachingKey, teachingData);
          i := i + 1;
        }
        assert teachings[..i] == teachings;
      } else {
        body := TeachingsSummary;
      }
      response := heading + body;
      response := response + PlainSourceTag + source;
      response := response + Closing;
    }

    /** `generate_response`: detect the language, resolve the question and
        format the content by its kind; `None` where the source raises. */
    method GenerateResponse(question: string) returns (response: Option<string>)
      ensures response == Respond(Loaded(), question)
    {
      var language := DetectLanguage(question);
      var content := SearchContent(question, language);
      match content
      case SpecificFact(l, answer, source) =>
        response := FormatSpecific(l, answer, source, question);
      case TextSearch(l, passages, source, keyTerms) =>
        response := Some(FormatTextSearch(l, passages, source, keyTerms, question));
      case CharacterInfo(l, character, data, source) =>
        var text := FormatCharacterAnswer(l, character, data, source, question);
        response := Some(text);
      case Teachings(l, teachings, source) =>
        var text := FormatTeachingsAnswer(l, teachings, source, question);
        response := Some(text);
      case ContextualResponse(l, _, context, source) =>
        response := Some(FormatContextual(l, context, source, question));
    }
  }
}
