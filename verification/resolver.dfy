/**
 * What each stage of the content resolver computes, as functions of the
 * store and the question, and the resolver cascade itself.  The class in
 * chatbot.dfy implements the looping stages as methods and proves them
 * equal to these functions.
 */
module Resolver {
  import opened Text
  import opened Knowledge

  // ---------------------------------------------------------------------
  // First match in mapping order
  // ---------------------------------------------------------------------

  /** The index of the first element satisfying `p`, if any. */
  function FirstIndex<T>(xs: seq<T>, p: T -> bool): (r: Option<nat>)
    ensures r.Some? ==> r.value < |xs| && p(xs[r.value])
    ensures r.Some? ==> forall j :: 0 <= j < r.value ==> !p(xs[j])
    ensures r.None? <==> forall j :: 0 <= j < |xs| ==> !p(xs[j])
    decreases |xs|
  {
    if xs == [] then None
    else if p(xs[0]) then Some(0)
    else
      match FirstIndex(xs[1..], p)
      case None => None
      case Some(i) => Some(i + 1)
  }

  /** The conditions in FirstIndex's contract determine its result. */
  lemma FirstIndexAt<T>(xs: seq<T>, p: T -> bool, i: nat)
    requires i < |xs| && p(xs[i])
    requires forall j :: 0 <= j < i ==> !p(xs[j])
    ensures FirstIndex(xs, p) == Some(i)
  {
    var r := FirstIndex(xs, p);
    assert r.Some?;
    assert r.value <= i;
    assert r.value >= i;
  }

  /** `xs` is a subsequence of `ys`: `xs` is `ys` with some elements left out. */
  predicate IsSubsequence<T(==)>(xs: seq<T>, ys: seq<T>)
    decreases |ys|
  {
    xs == [] ||
    (ys != [] &&
      ((xs[|xs| - 1] == ys[|ys| - 1] && IsSubsequence(xs[..|xs| - 1], ys[..|ys| - 1]))
       || IsSubsequence(xs, ys[..|ys| - 1])))
  }

  // ---------------------------------------------------------------------
  // Stage 1: story facts (`_get_specific_answer`)
  // ---------------------------------------------------------------------

  /** The keywords a fact is triggered by: `question_keywords`, or
      `keywords` when that list is empty or missing. */
  function StoryKeywords(f: Fact): (ks: seq<string>)
    ensures f.questionKeywords != [] ==> ks == f.questionKeywords
    ensures f.questionKeywords == [] ==> ks == f.keywords
  {
    if f.questionKeywords != [] then f.questionKeywords else f.keywords
  }

  /** The answer a fact gives: `answer` when it is a non-empty string,
      otherwise `content` (which may itself be missing). */
  function FactAnswer(f: Fact): (a: Option<string>)
    ensures f.answer.Some? && f.answer.value != "" ==> a == f.answer
    ensures !(f.answer.Some? && f.answer.value != "") ==> a == f.content
  {
    if f.answer.Some? && f.answer.value != "" then f.answer else f.content
  }

  /** `keyword.lower() in question_lower`. */
  predicate KeywordHit(questionLower: string, keyword: string)
  {
    Contains(questionLower, Lower(keyword))
  }

  /** Some trigger keyword of the fact occurs in the lower-cased question. */
  predicate FactMatches(f: Fact, questionLower: string)
  {
    var ks := StoryKeywords(f);
    exists k :: 0 <= k < |ks| && KeywordHit(questionLower, ks[k])
  }

  /** The test the story-fact scan applies to each (key, fact) entry. */
  function FactTest(questionLower: string): ((string, Fact)) -> bool
  {
    (e: (string, Fact)) => FactMatches(e.1, questionLower)
  }

  /** The story-fact stage: the first fact in mapping order triggered by
      the question, or nothing. */
  function SpecificAnswer(facts: seq<(string, Fact)>, question: string, language: Language): Option<Content>
  {
    match FirstIndex(facts, FactTest(Lower(question)))
    case None => None
    case Some(i) => Some(SpecificFact(language, FactAnswer(facts[i].1), KnowledgeBaseLabel))
  }

  /** First match wins: the stage answers with the first triggered fact,
      and answers nothing exactly when no fact is triggered. */
  lemma SpecificAnswerSpec(facts: seq<(string, Fact)>, question: string, language: Language)
    ensures SpecificAnswer(facts, question, language).None? <==>
            forall j :: 0 <= j < |facts| ==> !FactMatches(facts[j].1, Lower(question))
    ensures forall i :: (0 <= i < |facts| && FactMatches(facts[i].1, Lower(question)) &&
                         (forall j :: 0 <= j < i ==> !FactMatches(facts[j].1, Lower(question)))) ==>
              SpecificAnswer(facts, question, language) ==
              Some(SpecificFact(language, FactAnswer(facts[i].1), KnowledgeBaseLabel))
  {
    var p := FactTest(Lower(question));
    forall i | 0 <= i < |facts| && FactMatches(facts[i].1, Lower(question)) &&
               (forall j :: 0 <= j < i ==> !FactMatches(facts[j].1, Lower(question)))
      ensures FirstIndex(facts, p) == Some(i)
    {
      FirstIndexAt(facts, p, i);
    }
  }

  // ---------------------------------------------------------------------
  // Key terms (`_extract_key_terms`)
  // ---------------------------------------------------------------------

  const HindiNames: seq<string> := ["राम", "सीता", "हनुमान", "रावण", "लक्ष्मण", "भरत", "दशरथ", "कैकेयी", "कौशल्या"]
  const HindiPlaces: seq<string> := ["अयोध्या", "लंका", "चित्रकूट", "पंचवटी", "किष्किंधा"]
  const HindiEvents: seq<string> := ["जन्म", "विवाह", "वनवास", "युद्ध", "वध", "मिलाप"]
  const EnglishNames: seq<string> := ["rama", "sita", "hanuman", "ravana", "lakshmana", "bharata", "dasharatha"]
  const EnglishPlaces: seq<string> := ["ayodhya", "lanka", "chitrakuta", "panchavati", "kishkindha"]
  const EnglishEvents: seq<string> := ["birth", "marriage", "exile", "war", "death", "meeting"]

  /** The fixed search vocabulary: names, then places, then events. */
  function FixedTerms(language: Language): seq<string>
  {
    if language == Hindi then HindiNames + HindiPlaces + HindiEvents
    else EnglishNames + EnglishPlaces + EnglishEvents
  }

  /** The terms of `terms` that occur in `questionLower`, in list order. */
  function TermsIn(terms: seq<string>, questionLower: string): (r: seq<string>)
    ensures IsSubsequence(r, terms)
    ensures forall t :: t in r <==> t in terms && Contains(questionLower, t)
    decreases |terms|
  {
    if terms == [] then []
    else
      var last := terms[|terms| - 1];
      var front := TermsIn(terms[..|terms| - 1], questionLower);
      assert terms == terms[..|terms| - 1] + [last];
      if Contains(questionLower, last) then front + [last] else front
  }

  /** The words longer than three characters, in order of appearance. */
  function LongWords(ws: seq<string>): (r: seq<string>)
    ensures IsSubsequence(r, ws)
    ensures forall w :: w in r <==> w in ws && |w| > 3
    ensures forall w :: multiset(r)[w] == if |w| > 3 then multiset(ws)[w] else 0
    decreases |ws|
  {
    if ws == [] then []
    else
      var last := ws[|ws| - 1];
      var front := LongWords(ws[..|ws| - 1]);
      assert ws == ws[..|ws| - 1] + [last];
      assert multiset(ws) == multiset(ws[..|ws| - 1]) + multiset{last};
      if |last| > 3 then front + [last] else front
  }

  /** Key terms drawn from a lower-cased question: the vocabulary terms it
      contains or, failing those, its first three long words. */
  function KeyTermsIn(vocabulary: seq<string>, questionLower: string): seq<string>
  {
    var fixed := TermsIn(vocabulary, questionLower);
    if fixed != [] then fixed else Take(LongWords(Words(questionLower)), 3)
  }

  /** The key terms searched for in a question. */
  function KeyTerms(question: string, language: Language): seq<string>
  {
    KeyTermsIn(FixedTerms(language), Lower(question))
  }

  /** A subsequence taken up to a prefix stays a subsequence. */
  lemma {:induction false} SubsequenceOfPrefix<T>(xs: seq<T>, ys: seq<T>, n: nat)
    requires IsSubsequence(xs, ys) && n <= |xs|
    ensures IsSubsequence(xs[..n], ys)
    decreases |ys|, |xs| - n
  {
    if n == |xs| {
      assert xs[..n] == xs;
    } else if n == 0 {
    } else if xs[|xs| - 1] == ys[|ys| - 1] && IsSubsequence(xs[..|xs| - 1], ys[..|ys| - 1]) {
      SubsequenceOfPrefix(xs[..|xs| - 1], ys[..|ys| - 1], n);
      assert xs[..|xs| - 1][..n] == xs[..n];
      SubsequenceDropLast(xs[..n], ys);
    } else {
      SubsequenceOfPrefix(xs, ys[..|ys| - 1], n);
    }
  }

  /** A subsequence of `ys` minus its last element is a subsequence of `ys`. */
  lemma SubsequenceDropLast<T>(xs: seq<T>, ys: seq<T>)
    requires ys != [] && IsSubsequence(xs, ys[..|ys| - 1])
    ensures IsSubsequence(xs, ys)
  {
  }

  /** First case of key-term extraction: when the question contains a
      vocabulary term, the key terms are exactly the vocabulary terms it
      contains, in vocabulary order (names, then places, then events). */
  lemma KeyTermsFromVocabulary(vocabulary: seq<string>, questionLower: string)
    requires exists t :: t in vocabulary && Contains(questionLower, t)
    ensures IsSubsequence(KeyTermsIn(vocabulary, questionLower), vocabulary)
    ensures forall t :: t in KeyTermsIn(vocabulary, questionLower) <==> t in vocabulary && Contains(questionLower, t)
  {
    var t :| t in vocabulary && Contains(questionLower, t);
    assert t in TermsIn(vocabulary, questionLower);
  }

  /** Second case: otherwise the key terms are the first three words of
      the question longer than three characters (fewer when it has fewer),
      in order of appearance. */
  lemma KeyTermsFromWords(vocabulary: seq<string>, questionLower: string)
    requires forall t :: t in vocabulary ==> !Contains(questionLower, t)
    ensures var long := LongWords(Words(questionLower));
            KeyTermsIn(vocabulary, questionLower) == long[..Min(3, |long|)]
    ensures var r := KeyTermsIn(vocabulary, questionLower);
            |r| <= 3 && IsSubsequence(r, Words(questionLower)) &&
            (forall k :: 0 <= k < |r| ==> |r[k]| > 3) &&
            (|r| < 3 ==> forall w :: w in Words(questionLower) && |w| > 3 ==> w in r)
  {
    var fixed := TermsIn(vocabulary, questionLower);
    assert forall k :: 0 <= k < |fixed| ==> fixed[k] in fixed;
    assert fixed == [];
    FirstLongWords(Words(questionLower));
  }

  /** The first three long words of a word list. */
  lemma FirstLongWords(ws: seq<string>)
    ensures var long := LongWords(ws);
            var r := Take(long, 3);
            r == long[..Min(3, |long|)] && |r| <= 3 && IsSubsequence(r, ws) &&
            (forall k :: 0 <= k < |r| ==> |r[k]| > 3) &&
            (|r| < 3 ==> forall w :: w in ws && |w| > 3 ==> w in r)
  {
    var long := LongWords(ws);
    if 3 <= |long| {
      SubsequenceOfPrefix(long, ws, 3);
      assert forall k :: 0 <= k < 3 ==> long[..3][k] in long;
    } else {
      assert forall k :: 0 <= k < |long| ==> long[k] in long;
    }
  }

  // ---------------------------------------------------------------------
  // Passages (`_find_passages_with_term`)
  // ---------------------------------------------------------------------

  /** The corpus as the array of its lines (`text.split('\n')`). */
  function Lines(text: string): (ls: seq<string>)
    ensures |ls| >= 1
  {
    Split(text, '\n')
  }

  /** `term.lower() in line.lower()`. */
  predicate LineMatches(line: string, term: string)
  {
    Contains(Lower(line), Lower(term))
  }

  function Max(a: int, b: int): int { if a < b then b else a }
  function Min(a: int, b: int): int { if a < b then a else b }

  /** The lines two before to two after line `i`, clipped to the array. */
  function Window(lines: seq<string>, i: nat): seq<string>
    requires i < |lines|
  {
    lines[Max(0, i - 2)..Min(|lines|, i + 3)]
  }

  /** The passage around line `i`: its window joined by newlines. */
  function Passage(lines: seq<string>, i: nat): string
    requires i < |lines|
  {
    Join(Window(lines, i), "\n")
  }

  /** A window spans at most five lines, holds line `i`, and is the slice
      around it; so its passage contains the matching line. */
  lemma WindowSpec(lines: seq<string>, i: nat)
    requires i < |lines|
    ensures 1 <= |Window(lines, i)| <= 5
    ensures Window(lines, i)[i - Max(0, i - 2)] == lines[i]
    ensures Contains(Passage(lines, i), lines[i])
  {
    JoinContainsPart(Window(lines, i), "\n", i - Max(0, i - 2));
  }

  /** The indexes, in increasing order, of the lines before `upto` that
      contain `term`. */
  function MatchingLines(lines: seq<string>, term: string, upto: nat): (ix: seq<nat>)
    requires upto <= |lines|
    ensures forall k :: 0 <= k < |ix| ==> ix[k] < upto && LineMatches(lines[ix[k]], term)
    ensures forall k, m :: 0 <= k < m < |ix| ==> ix[k] < ix[m]
    ensures forall i :: 0 <= i < upto && LineMatches(lines[i], term) ==> i in ix
    decreases upto
  {
    if upto == 0 then []
    else
      var front := MatchingLines(lines, term, upto - 1);
      if LineMatches(lines[upto - 1], term) then front + [upto - 1] else front
  }

  /** The passage around every line before `upto` that contains `term`. */
  function AllPassages(lines: seq<string>, term: string, upto: nat): (ps: seq<string>)
    requires upto <= |lines|
  {
    var ix := MatchingLines(lines, term, upto);
    seq(|ix|, k requires 0 <= k < |ix| => Passage(lines, ix[k]))
  }

  /** One more line adds its passage exactly when it contains the term. */
  lemma AllPassagesStep(lines: seq<string>, term: string, i: nat)
    requires i < |lines|
    ensures AllPassages(lines, term, i + 1) ==
            AllPassages(lines, term, i) + (if LineMatches(lines[i], term) then [Passage(lines, i)] else [])
  {
    var before := MatchingLines(lines, term, i);
    var after := MatchingLines(lines, term, i + 1);
    if LineMatches(lines[i], term) {
      assert after == before + [i];
      assert AllPassages(lines, term, i + 1)[..|before|] == AllPassages(lines, term, i);
    } else {
      assert after == before;
    }
  }

  /** The passages `_find_passages_with_term` returns: the first five. */
  function PassagesWithTerm(text: string, term: string): seq<string>
  {
    var lines := Lines(text);
    Take(AllPassages(lines, term, |lines|), 5)
  }

  /** At most five passages; the k-th is the window around the k-th
      matching line, lines taken in increasing order; none exactly when no
      line contains the term. */
  lemma PassagesWithTermSpec(text: string, term: string)
    ensures var lines := Lines(text);
            var ix := MatchingLines(lines, term, |lines|);
            var r := PassagesWithTerm(text, term);
            |r| <= 5 && |r| == Min(5, |ix|) &&
            (forall k :: 0 <= k < |r| ==> r[k] == Passage(lines, ix[k])) &&
            (r == [] <==> forall i :: 0 <= i < |lines| ==> !LineMatches(lines[i], term))
  {
    var lines := Lines(text);
    var ix := MatchingLines(lines, term, |lines|);
    if ix != [] {
      assert LineMatches(lines[ix[0]], term);
    }
  }

  // ---------------------------------------------------------------------
  // Stage 2: full-text search (`_search_full_text`)
  // ---------------------------------------------------------------------

  function CorpusLabel(language: Language): string
  {
    if language == Hindi then HindiCorpusLabel else EnglishCorpusLabel
  }

  /** The passages of every term, term by term. */
  function PassagesForTerms(text: string, terms: seq<string>): seq<string>
    decreases |terms|
  {
    if terms == [] then []
    else PassagesForTerms(text, terms[..|terms| - 1]) + PassagesWithTerm(text, terms[|terms| - 1])
  }

  /** Some line of the text contains the term. */
  predicate TermInText(text: string, term: string)
  {
    var lines := Lines(text);
    exists i :: 0 <= i < |lines| && LineMatches(lines[i], term)
  }

  /** Some term occurs in some line of the text. */
  predicate AnyTermInText(text: string, terms: seq<string>)
  {
    exists k :: 0 <= k < |terms| && TermInText(text, terms[k])
  }

  /** A term yields no passage exactly when no line contains it. */
  lemma PassagesWithTermEmpty(text: string, term: string)
    ensures PassagesWithTerm(text, term) == [] <==> !TermInText(text, term)
  {
    PassagesWithTermSpec(text, term);
  }

  lemma AnyTermSplit(text: string, terms: seq<string>)
    requires terms != []
    ensures AnyTermInText(text, terms) <==>
            AnyTermInText(text, terms[..|terms| - 1]) || TermInText(text, terms[|terms| - 1])
  {
    var front := terms[..|terms| - 1];
    if AnyTermInText(text, terms) {
      var k :| 0 <= k < |terms| && TermInText(text, terms[k]);
      if k < |front| {
        assert terms[k] == front[k];
      }
    }
    if AnyTermInText(text, front) {
      var k :| 0 <= k < |front| && TermInText(text, front[k]);
      assert terms[k] == front[k];
    }
  }

  /** No passage at all exactly when no term occurs in any line. */
  lemma {:induction false} PassagesForTermsEmpty(text: string, terms: seq<string>)
    ensures PassagesForTerms(text, terms) == [] <==> !AnyTermInText(text, terms)
    decreases |terms|
  {
    if terms != [] {
      var front := terms[..|terms| - 1];
      var last := terms[|terms| - 1];
      PassagesForTermsEmpty(text, front);
      PassagesWithTermEmpty(text, last);
      assert PassagesForTerms(text, terms) == PassagesForTerms(text, front) + PassagesWithTerm(text, last);
      AnyTermSplit(text, terms);
    }
  }

  /** The most characters of passage text a search result carries. */
  const PassageLimit: nat := 1000

  /** The full-text stage. */
  function SearchFullText(store: Store, question: string, language: Language): Option<Content>
  {
    var text := store.CorpusFor(language);
    if text == "" then None
    else
      var terms := KeyTerms(question, language);
      var found := PassagesForTerms(text, terms);
      if found == [] then None
      else
        var combined := Join(Take(found, 3), "\n");
        Some(TextSearch(language, Take(combined, PassageLimit), CorpusLabel(language), terms))
  }

  /** The full-text stage answers nothing when the language's corpus is
      empty or no key term occurs in any of its lines; otherwise it answers
      with at most 1000 characters that begin the newline-join of the first
      three passages found, and with the key terms it searched for. */
  lemma SearchFullTextSpec(store: Store, question: string, language: Language)
    ensures store.CorpusFor(language) == "" ==> SearchFullText(store, question, language).None?
    ensures store.CorpusFor(language) != "" ==>
              (SearchFullText(store, question, language).None? <==>
               !AnyTermInText(store.CorpusFor(language), KeyTerms(question, language)))
    ensures match SearchFullText(store, question, language)
            case None => true
            case Some(c) =>
              var found := PassagesForTerms(store.CorpusFor(language), KeyTerms(question, language));
              var combined := Join(Take(found, 3), "\n");
              c.TextSearch? && c.language == language && c.source == CorpusLabel(language) &&
              c.keyTerms == KeyTerms(question, language) &&
              |c.passages| == Min(PassageLimit, |combined|) && c.passages <= combined
  {
    PassagesForTermsEmpty(store.CorpusFor(language), KeyTerms(question, language));
  }

  // ---------------------------------------------------------------------
  // Stage 3: characters and teachings (`_search_characters_themes`)
  // ---------------------------------------------------------------------

  /** `char_name.lower() in question_lower`. */
  predicate NamedIn(name: string, questionLower: string)
  {
    Contains(questionLower, Lower(name))
  }

  function CharacterTest(questionLower: string): ((string, Character)) -> bool
  {
    (e: (string, Character)) => NamedIn(e.0, questionLower)
  }

  /** The question asks about teachings. */
  predicate AsksForTeachings(questionLower: string)
  {
    Contains(questionLower, "teaching") || Contains(questionLower, "lesson") || Contains(questionLower, "dharma")
  }

  /** The character-and-theme stage. */
  function SearchCharactersThemes(kb: KnowledgeBase, question: string, language: Language): Option<Content>
  {
    var questionLower := Lower(question);
    match FirstIndex(kb.characters, CharacterTest(questionLower))
    case Some(i) =>
      Some(CharacterInfo(language, kb.characters[i].0, kb.characters[i].1, CharacterLabel))
    case None =>
      if AsksForTeachings(questionLower) && kb.teachings != [] then
        Some(Teachings(language, kb.teachings, TeachingsLabel))
      else None
  }

  /** A character named in the question wins, the first in mapping order;
      teachings come only when no character is named, the question asks
      for teachings and there are some; otherwise nothing. */
  lemma SearchCharactersThemesSpec(kb: KnowledgeBase, question: string, language: Language)
    ensures var ql := Lower(question);
            forall i :: (0 <= i < |kb.characters| && NamedIn(kb.characters[i].0, ql) &&
                         (forall j :: 0 <= j < i ==> !NamedIn(kb.characters[j].0, ql))) ==>
              SearchCharactersThemes(kb, question, language) ==
              Some(CharacterInfo(language, kb.characters[i].0, kb.characters[i].1, CharacterLabel))
    ensures var ql := Lower(question);
            (forall j :: 0 <= j < |kb.characters| ==> !NamedIn(kb.characters[j].0, ql)) ==>
              SearchCharactersThemes(kb, question, language) ==
              if AsksForTeachings(ql) && kb.teachings != [] then
                Some(Teachings(language, kb.teachings, TeachingsLabel))
              else None
  {
    var ql := Lower(question);
    forall i | 0 <= i < |kb.characters| && NamedIn(kb.characters[i].0, ql) &&
               (forall j :: 0 <= j < i ==> !NamedIn(kb.characters[j].0, ql))
      ensures FirstIndex(kb.characters, CharacterTest(ql)) == Some(i)
    {
      FirstIndexAt(kb.characters, CharacterTest(ql), i);
    }
  }

  // ---------------------------------------------------------------------
  // Stage 4: contextual fallback (`_generate_contextual_response`)
  // ---------------------------------------------------------------------

  function Keys<V>(entries: seq<(string, V)>): (ks: seq<string>)
    ensures |ks| == |entries| && forall k :: 0 <= k < |ks| ==> ks[k] == entries[k].0
  {
    seq(|entries|, k requires 0 <= k < |entries| => entries[k].0)
  }

  /** The first line of the context. */
  function ContextHeader(language: Language): string
  {
    if language == Hindi then "रामचरितमानस से संदर्भ:" else "From Valmiki Ramayana:"
  }

  /** What the list of story-fact keys is introduced with. */
  function StoriesLabel(language: Language): string
  {
    if language == Hindi then "मुख्य कथाएं: " else "Main stories: "
  }

  /** What the list of character names is introduced with. */
  function CharactersLabel(language: Language): string
  {
    if language == Hindi then "मुख्य पात्र: " else "Main characters: "
  }

  /** The context text: a header line, then the story-fact keys and the
      character names, each list on its own line when non-empty. */
  function Context(kb: KnowledgeBase, language: Language): string
  {
    var header := ContextHeader(language);
    var stories := StoriesLabel(language);
    var people := CharactersLabel(language);
    var parts := [header]
      + (if kb.storyFacts != [] then [stories + Join(Keys(kb.storyFacts), ", ")] else [])
      + (if kb.characters != [] then [people + Join(Keys(kb.characters), ", ")] else []);
    Join(parts, "\n")
  }

  /** The fallback content; it always exists. */
  function ContextualFallback(kb: KnowledgeBase, question: string, language: Language): Content
  {
    ContextualResponse(language, question, Context(kb, language), ContextLabel)
  }

  /** The fallback context names every story fact and every character of
      the language's training data, and begins with the header. */
  lemma ContextSpec(kb: KnowledgeBase, language: Language)
    ensures ContextHeader(language) <= Context(kb, language)
    ensures forall k :: 0 <= k < |kb.storyFacts| ==> Contains(Context(kb, language), kb.storyFacts[k].0)
    ensures forall k :: 0 <= k < |kb.characters| ==> Contains(Context(kb, language), kb.characters[k].0)
  {
    var header := ContextHeader(language);
    var stories := StoriesLabel(language);
    var people := CharactersLabel(language);
    var storyPart := if kb.storyFacts != [] then [stories + Join(Keys(kb.storyFacts), ", ")] else [];
    var peoplePart := if kb.characters != [] then [people + Join(Keys(kb.characters), ", ")] else [];
    var parts := [header] + storyPart + peoplePart;
    assert Context(kb, language) == Join(parts, "\n");
    if |parts| == 1 {
    } else {
      assert Join(parts, "\n") == header + "\n" + Join(parts[1..], "\n");
    }
    forall k | 0 <= k < |kb.storyFacts|
      ensures Contains(Context(kb, language), kb.storyFacts[k].0)
    {
      JoinContainsPart(Keys(kb.storyFacts), ", ", k);
      ContainsWithin(stories, Join(Keys(kb.storyFacts), ", "), "", kb.storyFacts[k].0);
      assert stories + Join(Keys(kb.storyFacts), ", ") + "" == parts[1];
      JoinContainsPart(parts, "\n", 1);
      ContainsTransitive(Context(kb, language), parts[1], kb.storyFacts[k].0);
    }
    forall k | 0 <= k < |kb.characters|
      ensures Contains(Context(kb, language), kb.characters[k].0)
    {
      var at := |parts| - 1;
      assert parts[at] == people + Join(Keys(kb.characters), ", ");
      JoinContainsPart(Keys(kb.characters), ", ", k);
      ContainsWithin(people, Join(Keys(kb.characters), ", "), "", kb.characters[k].0);
      assert people + Join(Keys(kb.characters), ", ") + "" == parts[at];
      JoinContainsPart(parts, "\n", at);
      ContainsTransitive(Context(kb, language), parts[at], kb.characters[k].0);
    }
  }

  /** Containment is transitive. */
  lemma ContainsTransitive(a: string, b: string, c: string)
    requires Contains(a, b) && Contains(b, c)
    ensures Contains(a, c)
  {
    var i := ContainsOccurs(a, b);
    var j := ContainsOccurs(b, c);
    assert a[i..i + |b|] == b;
    ContainsWithin(a[..i], b, a[i + |b|..], c);
    assert a[..i] + b + a[i + |b|..] == a;
  }

  // ---------------------------------------------------------------------
  // The cascade (`search_content`)
  // ---------------------------------------------------------------------

  /** Resolve a question: the first stage that answers, in priority order;
      the fallback always answers. */
  function Resolve(store: Store, question: string, language: Language): Content
  {
    var kb := store.DataFor(language);
    match SpecificAnswer(kb.storyFacts, question, language)
    case Some(c) => c
    case None =>
      match SearchFullText(store, question, language)
      case Some(c) => c
      case None =>
        match SearchCharactersThemes(kb, question, language)
        case Some(c) => c
        case None => ContextualFallback(kb, question, language)
  }

  /** Some story fact of the language is triggered by the question. */
  predicate FactTriggered(store: Store, question: string, language: Language)
  {
    var facts := store.DataFor(language).storyFacts;
    exists j :: 0 <= j < |facts| && FactMatches(facts[j].1, Lower(question))
  }

  /** The corpus of the language is non-empty and holds a key term. */
  predicate TextFound(store: Store, question: string, language: Language)
  {
    store.CorpusFor(language) != "" && AnyTermInText(store.CorpusFor(language), KeyTerms(question, language))
  }

  /** Some character of the language is named in the question. */
  predicate CharacterNamed(store: Store, question: string, language: Language)
  {
    var cs := store.DataFor(language).characters;
    exists j :: 0 <= j < |cs| && NamedIn(cs[j].0, Lower(question))
  }

  /** Which kind of content the resolver produces, in terms of the question
      and the store alone: each kind exactly when every earlier stage finds
      nothing and its own stage finds something. */
  lemma ResolveKind(store: Store, question: string, language: Language)
    ensures var c := Resolve(store, question, language);
            var kb := store.DataFor(language);
            var fact := FactTriggered(store, question, language);
            var text := TextFound(store, question, language);
            var named := CharacterNamed(store, question, language);
            var teach := AsksForTeachings(Lower(question)) && kb.teachings != [];
            c.language == language &&
            (c.SpecificFact? <==> fact) &&
            (c.TextSearch? <==> !fact && text) &&
            (c.CharacterInfo? <==> !fact && !text && named) &&
            (c.Teachings? <==> !fact && !text && !named && teach) &&
            (c.ContextualResponse? <==> !fact && !text && !named && !teach)
  {
    var kb := store.DataFor(language);
    SpecificAnswerSpec(kb.storyFacts, question, language);
    SearchFullTextSpec(store, question, language);
    SearchCharactersThemesSpec(kb, question, language);
    var ql := Lower(question);
    var f := FirstIndex(kb.characters, CharacterTest(ql));
    if f.Some? {
      assert NamedIn(kb.characters[f.value].0, ql);
    }
  }

  /** A triggered story fact decides the answer whatever the later stages
      would find: the first triggered fact's answer is returned. */
  lemma FactTakesPrecedence(store: Store, question: string, language: Language, i: nat)
    requires var facts := store.DataFor(language).storyFacts;
             i < |facts| && FactMatches(facts[i].1, Lower(question)) &&
             forall j :: 0 <= j < i ==> !FactMatches(facts[j].1, Lower(question))
    ensures Resolve(store, question, language) ==
            SpecificFact(language, FactAnswer(store.DataFor(language).storyFacts[i].1), KnowledgeBaseLabel)
  {
    SpecificAnswerSpec(store.DataFor(language).storyFacts, question, language);
  }
}
