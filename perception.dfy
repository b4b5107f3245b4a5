// Perception: turns a raw message into a classified stimulus. The text is
// normalized, scored against a fixed keyword taxonomy (first strict maximum
// wins), given a clamped intensity, and described by surface features.

module Perception {
  import opened Util
  import opened Types

  // ---------------------------------------------------------------- taxonomy

  datatype Category = Category(stype: StimulusType, affectedTanks: seq<Tank>, valence: Valence, keywords: seq<string>)

  /** The stimulus taxonomy, in declaration order. */
  const Taxonomy: seq<Category> := [
    Category(Attack, [Integridad, Afiliacion], NegativeValence,
      ["tonto", "imbécil", "estúpido", "weon", "idiota", "inútil", "basura", "mierda", "cállate", "muere"]),
    Category(Affection, [Afiliacion, Integridad], PositiveValence,
      ["gracias", "genial", "crack", "capo", "te quiero", "eres el mejor", "bacán", "la raja", "wena"]),
    Category(Rejection, [Afiliacion, Competencia], NegativeValence,
      ["chao", "no me interesa", "aburrido", "fome", "penca", "no sirves", "me voy"]),
    Category(Ambiguity, [Certeza], NegativeValence,
      ["qué?", "no entiendo", "confuso", "random", "???", "wat", "eh"]),
    Category(Challenge, [Competencia, Certeza], NeutralValence,
      ["a ver", "prueba", "demuestra", "no puedes", "apuesto"]),
    Category(Neutral, [Afiliacion], NeutralValence,
      ["hola", "qué onda", "cómo estás", "oye", "wena"]),
    Category(Inquiry, [Competencia], NeutralValence,
      ["por qué", "cómo", "qué es", "explica", "cuéntame"])
  ]

  /** The taxonomy entry of a stimulus type. */
  function EntryOf(t: StimulusType): (c: Category)
    ensures c in Taxonomy && c.stype == t
  {
    match t
    case Attack => Taxonomy[0]
    case Affection => Taxonomy[1]
    case Rejection => Taxonomy[2]
    case Ambiguity => Taxonomy[3]
    case Challenge => Taxonomy[4]
    case Neutral => Taxonomy[5]
    case Inquiry => Taxonomy[6]
  }

  // ---------------------------------------------------------------- normalization

  /** Combining diacritical marks, removed after canonical decomposition. */
  predicate IsCombining(c: char)
  {
    '\U{300}' <= c <= '\U{36F}'
  }

  /** Latin-1 letters that canonical decomposition splits into a base letter and a mark. */
  predicate IsAccented(c: char)
  {
    || ('\U{C0}' <= c <= '\U{C5}') || c == '\U{C7}' || ('\U{C8}' <= c <= '\U{CF}')
    || ('\U{D1}' <= c <= '\U{D6}') || ('\U{D9}' <= c <= '\U{DD}')
    || ('\U{E0}' <= c <= '\U{E5}') || c == '\U{E7}' || ('\U{E8}' <= c <= '\U{EF}')
    || ('\U{F1}' <= c <= '\U{F6}') || ('\U{F9}' <= c <= '\U{FD}') || c == '\U{FF}'
  }

  /** The lower-case base letter left of an accented letter once its mark is stripped. */
  function BaseLetter(c: char): char
  {
    if ('\U{C0}' <= c <= '\U{C5}') || ('\U{E0}' <= c <= '\U{E5}') then 'a'
    else if c == '\U{C7}' || c == '\U{E7}' then 'c'
    else if ('\U{C8}' <= c <= '\U{CB}') || ('\U{E8}' <= c <= '\U{EB}') then 'e'
    else if ('\U{CC}' <= c <= '\U{CF}') || ('\U{EC}' <= c <= '\U{EF}') then 'i'
    else if c == '\U{D1}' || c == '\U{F1}' then 'n'
    else if ('\U{D2}' <= c <= '\U{D6}') || ('\U{F2}' <= c <= '\U{F6}') then 'o'
    else if ('\U{D9}' <= c <= '\U{DC}') || ('\U{F9}' <= c <= '\U{FC}') then 'u'
    else 'y'
  }

  function FoldChar(c: char): (r: char)
    ensures !IsCombining(c) ==> !IsCombining(r)
    ensures !('A' <= r <= 'Z')
    ensures !IsAccented(r)
  {
    if IsAccented(c) then BaseLetter(c) else LowerChar(c)
  }

  /** Lower-case, decompose and drop the combining marks, character by character. */
  function FoldAll(s: string): (r: string)
    ensures forall c :: c in r ==> !IsAccented(c) && !IsCombining(c) && !('A' <= c <= 'Z')
  {
    if s == [] then []
    else (if IsCombining(s[0]) then [] else [FoldChar(s[0])]) + FoldAll(s[1..])
  }

  /** `_normalize`: lower-case, strip diacritics, trim. */
  function Normalize(input: string): (r: string)
    ensures forall c :: c in r ==> !IsAccented(c) && !IsCombining(c) && !('A' <= c <= 'Z')
  {
    var f := FoldAll(input);
    var t := TrimStart(f);
    assert forall c :: c in t ==> c in f;
    var r := TrimEnd(t);
    assert forall c :: c in r ==> c in t;
    r
  }

  // ---------------------------------------------------------------- classification

  /** Number of keywords of `ks` that occur in `input`. */
  function Score(input: string, ks: seq<string>): (n: nat)
    ensures n <= |ks|
  {
    if ks == [] then 0
    else Score(input, ks[..|ks| - 1]) + (if Contains(input, Lower(ks[|ks| - 1])) then 1 else 0)
  }

  datatype Match = Match(stype: StimulusType, score: nat, valence: Valence, affectedTanks: seq<Tank>)

  const DefaultMatch: Match := Match(Neutral, 0, NeutralValence, [Afiliacion])

  /** The best match over the categories `cats`, replaced only by a strictly higher score. */
  function BestOf(input: string, cats: seq<Category>): Match
  {
    if cats == [] then DefaultMatch
    else
      var best := BestOf(input, cats[..|cats| - 1]);
      var c := cats[|cats| - 1];
      var s := Score(input, c.keywords);
      if s > best.score then Match(c.stype, s, c.valence, c.affectedTanks) else best
  }

  function Classification(input: string): Match
  {
    BestOf(input, Taxonomy)
  }

  /**
   * `m` is the first category with the highest positive score, or the neutral
   * default when no keyword occurs at all.
   */
  ghost predicate IsBestMatch(input: string, cats: seq<Category>, m: Match)
  {
    && (forall j :: 0 <= j < |cats| ==> Score(input, cats[j].keywords) <= m.score)
    && (m.score == 0 ==> m == DefaultMatch)
    && (m.score > 0 ==>
          exists k :: 0 <= k < |cats|
            && m == Match(cats[k].stype, Score(input, cats[k].keywords), cats[k].valence, cats[k].affectedTanks)
            && forall j :: 0 <= j < k ==> Score(input, cats[j].keywords) < m.score)
  }

  lemma {:induction false} BestOfIsBest(input: string, cats: seq<Category>)
    ensures IsBestMatch(input, cats, BestOf(input, cats))
    decreases |cats|
  {
    if cats != [] {
      var pre := cats[..|cats| - 1];
      BestOfIsBest(input, pre);
      var best := BestOf(input, pre);
      var c := cats[|cats| - 1];
      var s := Score(input, c.keywords);
      assert forall j :: 0 <= j < |pre| ==> cats[j] == pre[j];
      if s > best.score {
        var m := Match(c.stype, s, c.valence, c.affectedTanks);
        assert forall j :: 0 <= j < |cats| - 1 ==> Score(input, cats[j].keywords) <= best.score;
        assert m == Match(cats[|cats| - 1].stype, Score(input, cats[|cats| - 1].keywords),
                          cats[|cats| - 1].valence, cats[|cats| - 1].affectedTanks);
      } else if best.score > 0 {
        var k :| 0 <= k < |pre|
          && best == Match(pre[k].stype, Score(input, pre[k].keywords), pre[k].valence, pre[k].affectedTanks)
          && forall j :: 0 <= j < k ==> Score(input, pre[j].keywords) < best.score;
        assert best == Match(cats[k].stype, Score(input, cats[k].keywords), cats[k].valence, cats[k].affectedTanks);
      }
    }
  }

  /** `_classifyStimulus`: the keyword-score loop over the taxonomy. */
  method ClassifyStimulus(input: string) returns (m: Match)
    ensures m == Classification(input)
    ensures IsBestMatch(input, Taxonomy, m)
  {
    m := DefaultMatch;
    var i := 0;
    while i < |Taxonomy|
      invariant 0 <= i <= |Taxonomy|
      invariant m == BestOf(input, Taxonomy[..i])
    {
      var c := Taxonomy[i];
      var score := 0;
      var j := 0;
      while j < |c.keywords|
        invariant 0 <= j <= |c.keywords|
        invariant score == Score(input, c.keywords[..j])
      {
        assert c.keywords[..j + 1][..j] == c.keywords[..j];
        if Contains(input, Lower(c.keywords[j])) {
          score := score + 1;
        }
        j := j + 1;
      }
      assert c.keywords[..j] == c.keywords;
      assert Taxonomy[..i + 1][..i] == Taxonomy[..i];
      if score > m.score {
        m := Match(c.stype, score, c.valence, c.affectedTanks);
      }
      i := i + 1;
    }
    assert Taxonomy[..i] == Taxonomy;
    BestOfIsBest(input, Taxonomy);
  }

  /** The classification always carries the valence and tanks of its own taxonomy entry. */
  lemma {:induction false} ClassificationMatchesEntry(input: string, cats: seq<Category>)
    requires forall k :: 0 <= k < |cats| ==> cats[k] == EntryOf(cats[k].stype)
    ensures BestOf(input, cats).valence == EntryOf(BestOf(input, cats).stype).valence
    ensures BestOf(input, cats).affectedTanks == EntryOf(BestOf(input, cats).stype).affectedTanks
    decreases |cats|
  {
    if cats != [] {
      ClassificationMatchesEntry(input, cats[..|cats| - 1]);
    }
  }

  /** The classification of any text carries the valence and tanks of its type's taxonomy entry. */
  lemma ClassificationIsEntry(input: string)
    ensures Classification(input).valence == EntryOf(Classification(input).stype).valence
    ensures Classification(input).affectedTanks == EntryOf(Classification(input).stype).affectedTanks
  {
    forall k | 0 <= k < |Taxonomy|
      ensures Taxonomy[k] == EntryOf(Taxonomy[k].stype)
    {
      assert Taxonomy[k].stype == [Attack, Affection, Rejection, Ambiguity, Challenge, Neutral, Inquiry][k];
    }
    ClassificationMatchesEntry(input, Taxonomy);
  }

  /** A keyword spelled with an accent can never occur in normalized text. */
  lemma AccentedKeywordNeverMatches(input: string, k: string, c: char)
    requires c in k && IsAccented(c)
    ensures !Contains(Normalize(input), Lower(k))
  {
    var i :| 0 <= i < |k| && k[i] == c;
    var d := Lower(k)[i];
    assert d == LowerChar(c) && IsAccented(d);
    ContainsNeedsChar(Normalize(input), Lower(k), d);
  }

  // ---------------------------------------------------------------- intensity

  function CountWhere(s: string, p: char -> bool): (n: nat)
    ensures n <= |s|
  {
    if s == [] then 0 else (if p(s[0]) then 1 else 0) + CountWhere(s[1..], p)
  }

  lemma {:induction false} CountWhereNone(s: string, p: char -> bool)
    requires forall c :: c in s ==> !p(c)
    ensures CountWhere(s, p) == 0
    decreases |s|
  {
    if s != [] {
      assert s[0] in s;
      assert forall c :: c in s[1..] ==> c in s;
      CountWhereNone(s[1..], p);
    }
  }

  predicate IsUpperAscii(c: char)
  {
    'A' <= c <= 'Z'
  }

  predicate IsBang(c: char)
  {
    c == '!'
  }

  /** Characters that `.` in a regular expression does not match. */
  predicate IsLineTerminator(c: char)
  {
    c == '\n' || c == '\r' || c == '\U{2028}' || c == '\U{2029}'
  }

  /** `/(.)\1{2,}/`: some character, not a line terminator, three times in a row. */
  predicate HasTripleRun(s: string)
  {
    exists i :: 0 <= i < |s| - 2 && s[i] == s[i + 1] && s[i + 1] == s[i + 2] && !IsLineTerminator(s[i])
  }

  /** `_calculateIntensity` before the final clamp. */
  function RawIntensity(input: string, score: nat): real
    requires |input| > 0
  {
    0.5
    + score as real * 0.15
    + (CountWhere(input, IsUpperAscii) as real / |input| as real) * 0.3
    + CountWhere(input, IsBang) as real * 0.1
    + (if HasTripleRun(input) then 0.15 else 0.0)
  }

  function Intensity(input: string, score: nat): (r: real)
    requires |input| > 0
    ensures 0.5 <= r <= 1.0
    ensures r == Min(1.0, RawIntensity(input, score))
  {
    var raw := RawIntensity(input, score);
    assert CountWhere(input, IsUpperAscii) as real / |input| as real >= 0.0;
    Min(1.0, Max(0.0, raw))
  }

  /** Normalized text is lower case, so the uppercase term of the intensity is always 0. */
  lemma NormalizedIntensity(input: string, score: nat)
    requires |Normalize(input)| > 0
    ensures var n := Normalize(input);
            Intensity(n, score) ==
              Min(1.0, 0.5 + score as real * 0.15 + CountWhere(n, IsBang) as real * 0.1
                       + (if HasTripleRun(n) then 0.15 else 0.0))
  {
    var n := Normalize(input);
    CountWhereNone(n, IsUpperAscii);
    WithoutUpperIntensity(n, score);
  }

  lemma WithoutUpperIntensity(s: string, score: nat)
    requires |s| > 0 && CountWhere(s, IsUpperAscii) == 0
    ensures Intensity(s, score) ==
              Min(1.0, 0.5 + score as real * 0.15 + CountWhere(s, IsBang) as real * 0.1
                       + (if HasTripleRun(s) then 0.15 else 0.0))
  {
    assert CountWhere(s, IsUpperAscii) as real / |s| as real == 0.0;
  }

  // ---------------------------------------------------------------- features

  predicate IsEmoji(c: char)
  {
    '\U{1F600}' <= c <= '\U{1F64F}'
  }

  /** `_extractFeatures`; the `i` flag of the patterns is a lower-casing of the text. */
  function ExtractFeatures(input: string, isReply: bool): (f: Features)
    ensures f.length == |input|
    ensures f.isShort <==> |input| < 10
    ensures f.isLong <==> |input| > 100
    ensures f.isQuestion <==> '?' in input
    ensures f.hasEmoji <==> exists i :: 0 <= i < |input| && IsEmoji(input[i])
    ensures f.isReply == isReply
  {
    var low := Lower(input);
    Features(
      |input|,
      |input| < 10,
      |input| > 100,
      '?' in input,
      StartsWith(low, "haz") || StartsWith(low, "dime") || StartsWith(low, "explica") || StartsWith(low, "cuenta"),
      ContainsAny(low, ["hola", "wena", "que onda", "ola"]),
      ContainsAny(low, ["chao", "adios", "bye", "nos vemos"]),
      exists i :: 0 <= i < |input| && IsEmoji(input[i]),
      ContainsAny(low, ["pelao", "bot", "robot"]),
      isReply)
  }

  // ---------------------------------------------------------------- process

  /** `process`: normalize, classify, weigh and describe one message. */
  function Process(input: string, isReply: bool, userId: Option<string>): (s: Stimulus)
    requires |Normalize(input)| > 0
    ensures s.raw == input && s.normalized == Normalize(input)
    ensures s.stype == Classification(s.normalized).stype
    ensures s.valence == EntryOf(s.stype).valence
    ensures s.affectedTanks == EntryOf(s.stype).affectedTanks
    ensures 0.5 <= s.intensity <= 1.0
    ensures s.userId == if userId.None? || userId.value == "" then "unknown" else userId.value
  {
    var n := Normalize(input);
    var m := Classification(n);
    ClassificationIsEntry(n);
    Stimulus(input, n, m.stype, m.valence, Intensity(n, m.score), m.affectedTanks,
             ExtractFeatures(n, isReply),
             if userId.None? || userId.value == "" then "unknown" else userId.value)
  }
}
