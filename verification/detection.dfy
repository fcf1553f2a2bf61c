/**
 * Language detection: a question is Hindi when it uses more distinct
 * letters of the fixed Devanagari alphabet than distinct Latin letters.
 */
module Detection {
  import opened Knowledge

  /** The Devanagari letters the detector recognises (vowels and consonants). */
  const HindiAlphabet: string := "अआइईउऊएऐओऔकखगघङचछजझञटठडढणतथदधनपफबभमयरलवशषसह"

  /** The Latin letters the detector recognises: a-z and A-Z. */
  predicate IsLatinLetter(c: char)
  {
    'a' <= c <= 'z' || 'A' <= c <= 'Z'
  }

  predicate IsHindiLetter(c: char)
  {
    c in HindiAlphabet
  }

  /** Number of distinct characters of `q` in the Devanagari alphabet. */
  function HindiCount(q: string): nat
  {
    |set c | c in q && IsHindiLetter(c)|
  }

  /** Number of distinct characters of `q` that are Latin letters. */
  function LatinCount(q: string): nat
  {
    |set c | c in q && IsLatinLetter(c)|
  }

  /** `detect_language`: Hindi exactly when the Hindi count strictly
      exceeds the Latin count; a tie (including the empty question) is
      English. */
  function DetectLanguage(q: string): (l: Language)
    ensures l == Hindi <==> HindiCount(q) > LatinCount(q)
    ensures l == English <==> HindiCount(q) <= LatinCount(q)
  {
    if HindiCount(q) > LatinCount(q) then Hindi else English
  }

  /** No character is in both alphabets. */
  lemma AlphabetsDisjoint(c: char)
    ensures IsHindiLetter(c) ==> !IsLatinLetter(c)
  {
  }

  /** The empty question is English. */
  lemma EmptyIsEnglish()
    ensures DetectLanguage("") == English
  {
    assert (set c | c in "" && IsHindiLetter(c)) == {};
  }

  /** A non-empty question written only in the Devanagari alphabet is Hindi. */
  lemma HindiOnlyIsHindi(q: string)
    requires q != []
    requires forall i :: 0 <= i < |q| ==> IsHindiLetter(q[i])
    ensures DetectLanguage(q) == Hindi
  {
    var hs := set c | c in q && IsHindiLetter(c);
    var ls := set c | c in q && IsLatinLetter(c);
    assert q[0] in hs;
    forall c | c in q
      ensures !IsLatinLetter(c)
    {
      AlphabetsDisjoint(c);
    }
    assert ls == {};
  }

  /** A question written only in Latin letters is English. */
  lemma LatinOnlyIsEnglish(q: string)
    requires forall i :: 0 <= i < |q| ==> IsLatinLetter(q[i])
    ensures DetectLanguage(q) == English
  {
    var hs := set c | c in q && IsHindiLetter(c);
    forall c | c in q
      ensures !IsHindiLetter(c)
    {
      AlphabetsDisjoint(c);
    }
    assert hs == {};
  }

  /** Characters outside both alphabets (digits, punctuation, vowel signs,
      emoji) never change the verdict. */
  lemma OtherCharactersIgnored(q: string, extra: string)
    requires forall i :: 0 <= i < |extra| ==> !IsHindiLetter(extra[i]) && !IsLatinLetter(extra[i])
    ensures DetectLanguage(q + extra) == DetectLanguage(q)
  {
    assert (set c | c in q + extra && IsHindiLetter(c)) == (set c | c in q && IsHindiLetter(c));
    assert (set c | c in q + extra && IsLatinLetter(c)) == (set c | c in q && IsLatinLetter(c));
  }
}
