# RamayanGPT question resolution, modelled in Dafny

This project models how `EnhancedRamayanChatbot` (enhanced_ramayan_chatbot.py)
turns a question into an answer, once its knowledge store is in memory:

- **Language detection.** A question is Hindi when it uses more distinct
  letters of a fixed Devanagari alphabet than distinct Latin letters.
  Otherwise it is English, and that includes a tie.
- **The resolver cascade.** Four stages are tried in priority order, and
  the first that answers wins:
  1. a story fact whose keyword occurs in the question;
  2. a search of the language's full-text corpus for the question's key
     terms;
  3. a character named in the question, then the teachings;
  4. a contextual fallback that always answers.
- **The response templates.** There is one template per kind of resolved
  content, in a Hindi and an English form. Every template ends with the
  same benediction.

The modules:

- `Text` holds the string primitives the source borrows from Python:
  - lower-casing;
  - substring test;
  - `split` and `join`;
  - slicing;
  - the `\w+` word tokenizer.
- `Knowledge` holds the store and the tagged content:
  - Each JSON object is an ordered sequence of (key, value) pairs, which
    keeps Python's insertion-order iteration.
  - An entry or file that is missing is the empty sequence or "".
  - The five content tags are the five variants of `Content`.
- `Detection` holds the language detector.
- `Resolver` holds the stages and the cascade as functions, with their
  properties proved as lemmas.
- `Formatter` holds the templates and the tag dispatch.
- `Chatbot` holds the class `EnhancedRamayanChatbot`:
  - Its four fields are set once by the constructor and never changed.
  - Its methods scan the store with loops, as the source does.
  - Each method is proved to compute what the corresponding `Resolver` or
    `Formatter` function specifies.

`_format_specific_answer` appends the fact's answer to a string. A fact
with neither an `answer` nor a `content` text therefore makes Python raise
a `TypeError`. The model keeps that error path: the answer is `None`, and
the formatter and `GenerateResponse` return `None`.

## Model

| member | source | states |
|---|---|---|
| Text.LowerSpec | enhanced_ramayan_chatbot.py:97 | lower-casing keeps the length, leaves no upper-case letter, and changes nothing but A-Z (each shifted by 32) |
| Text.LowerIdempotent | enhanced_ramayan_chatbot.py:155 | lower-casing an already lower-cased question changes nothing |
| Text.ContainsAt | enhanced_ramayan_chatbot.py:110 | the substring test `needle in hay` holds exactly when the needle occurs at some index of the haystack |
| Text.ContainsInfix | enhanced_ramayan_chatbot.py:294 | a string that is placed between two others is contained in the result |
| Text.Split | enhanced_ramayan_chatbot.py:190 | `split('\n')` yields at least one piece, and no piece contains the separator |
| Text.JoinSplit | enhanced_ramayan_chatbot.py:190-197 | joining the pieces of a split with the same separator gives back the original text |
| Text.JoinContainsPart | enhanced_ramayan_chatbot.py:247-249 | every part of a `join` is contained in the joined string |
| Text.WordRun | enhanced_ramayan_chatbot.py:182 | the leading word of a string is the longest prefix made of word characters |
| Text.WordStarts | enhanced_ramayan_chatbot.py:182 | the word starts (a word character not preceded by one) are listed in strictly increasing order, and every word start is listed |
| Text.WordAt | enhanced_ramayan_chatbot.py:182 | at a word character, the word taken is the whole run: non-empty, made of word characters, followed by the end of the text or a non-word character |
| Text.Words | enhanced_ramayan_chatbot.py:182 | one word per word start, left to right: the k-th word is the whole run of word characters that begins at the k-th word start |
| Detection.DetectLanguage | enhanced_ramayan_chatbot.py:59-72 | Hindi exactly when the distinct Devanagari letters outnumber the distinct Latin letters; English exactly when they do not, a tie included |
| Detection.AlphabetsDisjoint | enhanced_ramayan_chatbot.py:61-62 | no character is in both fixed alphabets |
| Detection.EmptyIsEnglish | enhanced_ramayan_chatbot.py:66-72 | the empty question is English |
| Detection.HindiOnlyIsHindi | enhanced_ramayan_chatbot.py:61-70 | a non-empty question made only of alphabet letters is Hindi |
| Detection.LatinOnlyIsEnglish | enhanced_ramayan_chatbot.py:62-72 | a question made only of Latin letters is English |
| Detection.OtherCharactersIgnored | enhanced_ramayan_chatbot.py:64-67 | appending characters outside both alphabets (digits, vowel signs, punctuation) never changes the detected language |
| Resolver.FirstIndex | enhanced_ramayan_chatbot.py:107-116 | the scan returns the first index whose entry passes the test, and nothing exactly when no entry passes |
| Resolver.FirstIndexAt | enhanced_ramayan_chatbot.py:214-222 | an entry that passes, with no passing entry before it, is the one the scan returns |
| Resolver.StoryKeywords | enhanced_ramayan_chatbot.py:108 | a fact's triggers are its `question_keywords`, or its `keywords` when that list is empty or missing |
| Resolver.FactAnswer | enhanced_ramayan_chatbot.py:114 | the answer is `answer` when present and non-empty, otherwise `content` (possibly missing) |
| Resolver.SpecificAnswerSpec | enhanced_ramayan_chatbot.py:95-118 | nothing exactly when no keyword of any fact occurs in the lower-cased question; otherwise a specific fact of the first triggered fact, in mapping order, labelled "Structured Knowledge Base" |
| Resolver.TermsIn | enhanced_ramayan_chatbot.py:164-178 | the collected terms are a subsequence of the term list, and a term is collected exactly when the question contains it |
| Resolver.LongWords | enhanced_ramayan_chatbot.py:183 | the kept words are a subsequence of the words, and each word longer than 3 characters is kept as many times as it occurs, every shorter word never |
| Resolver.SubsequenceOfPrefix | enhanced_ramayan_chatbot.py:183 | a prefix of a subsequence is a subsequence, so taking the first three keeps appearance order |
| Resolver.KeyTermsFromVocabulary | enhanced_ramayan_chatbot.py:157-178 | when some fixed term occurs, the key terms are exactly the fixed terms that occur, in list order (names, then places, then events) |
| Resolver.KeyTermsFromWords | enhanced_ramayan_chatbot.py:180-185 | when no fixed term occurs, the key terms are exactly the first three (or fewer, if there are fewer) words of the question longer than 3 characters, in order of appearance |
| Resolver.FirstLongWords | enhanced_ramayan_chatbot.py:183 | `[...][:3]` of the long words keeps at most three words, the first ones, each longer than 3 characters, in order; fewer only when there are no more |
| Resolver.Lines | enhanced_ramayan_chatbot.py:190 | a text always has at least one line |
| Resolver.WindowSpec | enhanced_ramayan_chatbot.py:195-197 | the window around line i spans 1 to 5 lines, clamped to the text, holds line i at its place, and the passage contains line i |
| Resolver.MatchingLines | enhanced_ramayan_chatbot.py:192-193 | the matching line numbers are in strictly increasing order, each line contains the term case-insensitively, and every such line is listed |
| Resolver.AllPassagesStep | enhanced_ramayan_chatbot.py:192-198 | scanning one more line adds that line's window passage exactly when the line contains the term, and nothing otherwise |
| Resolver.PassagesWithTermSpec | enhanced_ramayan_chatbot.py:187-200 | at most 5 passages; the k-th is the window around the k-th matching line, joined by newlines; none exactly when no line matches |
| Resolver.PassagesWithTermEmpty | enhanced_ramayan_chatbot.py:192-200 | a term finds no passage exactly when no line of the text contains it |
| Resolver.AnyTermSplit | enhanced_ramayan_chatbot.py:136-138 | some term of a list occurs in the text exactly when one of the earlier terms does or the last term does |
| Resolver.PassagesForTermsEmpty | enhanced_ramayan_chatbot.py:135-140 | the collected passages are empty exactly when no key term occurs in any line |
| Resolver.SearchFullTextSpec | enhanced_ramayan_chatbot.py:120-151 | nothing for an empty corpus, or when no key term occurs; otherwise text-search content in the question's language, labelled with the corpus. Its key terms are the extracted ones, and its passages are the first min(1000, n) characters of the newline-join of the first three passages found |
| Resolver.SearchCharactersThemesSpec | enhanced_ramayan_chatbot.py:202-235 | the first character named in the question, in mapping order, wins. Failing that, the teachings are returned when the question says "teaching", "lesson" or "dharma" and there are some. Otherwise nothing |
| Resolver.Keys | enhanced_ramayan_chatbot.py:247 | the keys of a mapping, one per entry, in order |
| Resolver.ContextSpec | enhanced_ramayan_chatbot.py:237-258 | the fallback context starts with the language's header and names every story fact and every character of the language |
| Resolver.ContainsTransitive | enhanced_ramayan_chatbot.py:247-258 | containment is transitive |
| Resolver.ResolveKind | enhanced_ramayan_chatbot.py:74-93 | the cascade always answers, in the question's language. Each kind of content comes exactly when every earlier stage finds nothing and its own stage finds something |
| Resolver.FactTakesPrecedence | enhanced_ramayan_chatbot.py:77-80 | a triggered story fact is the answer, whatever the corpus, the characters and the teachings hold |
| Formatter.TemplateSpec | enhanced_ramayan_chatbot.py:290-322 | a template that repeats the question ends with the closing line and contains the question and the source |
| Formatter.FormatResponseSpec | enhanced_ramayan_chatbot.py:279-396 | formatting fails only for a story fact without answer text. Every response ends with "\n\n🙏 Jai Shri Ram!" and contains the content's source label. Every kind but a character profile contains the question verbatim |
| Formatter.CharacterAnswerIgnoresQuestion | enhanced_ramayan_chatbot.py:324-355 | a character answer is the same whatever the question was |
| Formatter.RespondSpec | enhanced_ramayan_chatbot.py:268-288 | end to end, the response fails only on a triggered story fact without answer text; otherwise it ends with the closing line and names its source |
| Chatbot.EnhancedRamayanChatbot.constructor | enhanced_ramayan_chatbot.py:19-26 | the four fields hold the loaded data and corpora |
| Chatbot.EnhancedRamayanChatbot.GetSpecificAnswer | enhanced_ramayan_chatbot.py:95-118 | the nested keyword scan with early return computes the story-fact stage |
| Chatbot.EnhancedRamayanChatbot.ExtractKeyTerms | enhanced_ramayan_chatbot.py:153-185 | the term-collecting loop, then the long-word fallback, computes the key terms |
| Chatbot.EnhancedRamayanChatbot.FindPassagesWithTerm | enhanced_ramayan_chatbot.py:187-200 | the line loop that appends windows, cut to five, computes the passages of a term |
| Chatbot.EnhancedRamayanChatbot.SearchFullText | enhanced_ramayan_chatbot.py:120-151 | the corpus choice and the loop that extends the passages term by term compute the full-text stage |
| Chatbot.EnhancedRamayanChatbot.SearchCharactersThemes | enhanced_ramayan_chatbot.py:202-235 | the character scan with early return, then the teachings test, computes the third stage |
| Chatbot.EnhancedRamayanChatbot.SearchContent | enhanced_ramayan_chatbot.py:74-93 | the early-return chain computes the cascade |
| Chatbot.EnhancedRamayanChatbot.AppendBullets | enhanced_ramayan_chatbot.py:333-335 | the `for` loop that adds one bullet per item appends the bullet lines in order |
| Chatbot.EnhancedRamayanChatbot.FormatCharacterAnswer | enhanced_ramayan_chatbot.py:324-355 | building the response block by block gives the character template |
| Chatbot.EnhancedRamayanChatbot.FormatTeachingsAnswer | enhanced_ramayan_chatbot.py:357-376 | the loop that appends each teaching entry gives the teachings template |
| Chatbot.EnhancedRamayanChatbot.GenerateResponse | enhanced_ramayan_chatbot.py:268-288 | detection, then the cascade, then dispatch on the content tag, give the end-to-end response |

## Left out

- Loading the store (enhanced_ramayan_chatbot.py:41-57) is file I/O and JSON parsing. The constructor takes the loaded values instead. A missing file is `EmptyKnowledgeBase` or "".
- The Gemini client and the environment lookup (enhanced_ramayan_chatbot.py:29-39) are foreign library calls. The resolver never uses their result.
- The `print` of the detected language in `generate_response` (enhanced_ramayan_chatbot.py:273) and its `async` are left out, as is the test driver `test_enhanced_chatbot` with its prints and `asyncio.sleep`. Only the synchronous dispatch is modelled.
- bilingual_ramayan_server.py (the HTTP routes) is not part of this model. Neither is start_ramayan_gpt.py (the process launcher).
- Text.Lower: `str.lower()` is modelled as ASCII folding, which is the identity on Devanagari. Full Unicode case folding of other scripts is not modelled.
- Text.Words: in the tokenizer `re.findall(r'\b\w+\b', …)`, Python's `\w` matches every Unicode letter and digit (what `str.isalnum` accepts) and `_`. The model's word characters are the ASCII letters, digits and `_` and the Devanagari letters and digits, so letters and digits of other scripts count as separators here. Devanagari vowel signs and the virama are not alphanumeric and are separators in both.
- JSON values of an unexpected type, such as a keyword list that is not a list, are not modelled. Each entry has the type its use in the source needs, or is absent.
- Answering the same question twice gives the same response. The model states this by being made of functions of the store and the question. No separate lemma is needed.
