// The hippocampus: somatic markers (a concept remembered with the bodily
// valence it came with, reinforced by repetition and weakened by time) and a
// bounded log of episodes whose keywords feed new markers.
//
// The source keeps the markers in a JavaScript `Map`, which iterates in
// insertion order and overwrites a key in place. The model keeps them as a
// sequence of markers whose concepts are pairwise distinct (`UniqueKeys`):
// updating a marker replaces it at its position, a new key is appended, and a
// deletion removes it.

module Memory {
  import opened Util
  import opened Types
  import opened Evaluation

  const MaxEpisodes: nat := 100
  const MarkerDecayRate: real := 0.1
  const DayInMs: int := 86400000
  const NewMarkerStrength: real := 0.5
  const ReinforceStep: real := 0.2
  /** `scanForMarkers` reports only markers stronger than this. */
  const ScanThreshold: real := 0.3
  /** `applyDecay` deletes markers weaker than this. */
  const PruneThreshold: real := 0.1
  const MaxKeywords: nat := 5

  /**
   * A somatic marker. Markers registered from experience carry a context and the
   * change that produced them; preloaded markers carry a reaction and a topic
   * instead (the absent fields are empty here).
   */
  datatype Marker = Marker(
    concept: string,
    valence: real,
    strength: real,
    createdAt: int,
    lastUpdated: int,
    occurrences: nat,
    context: string,
    reaction: string,
    topic: string,
    originalChange: Option<Levels>)

  /** The map key of a concept: lower-cased and trimmed. */
  function Key(concept: string): string
  {
    Trim(Lower(concept))
  }

  // ---------------------------------------------------------------------------
  // The marker map as an insertion-ordered list
  // ---------------------------------------------------------------------------

  function Concepts(ms: seq<Marker>): (r: seq<string>)
    ensures |r| == |ms|
    ensures forall i :: 0 <= i < |ms| ==> r[i] == ms[i].concept
  {
    seq(|ms|, i requires 0 <= i < |ms| => ms[i].concept)
  }

  /** No two markers share a key, as in a `Map`. */
  predicate UniqueKeys(ms: seq<Marker>)
  {
    Distinct(Concepts(ms))
  }

  /** The position of the first occurrence of `key`. */
  function IndexOf(keys: seq<string>, key: string): (r: Option<nat>)
    ensures r.None? <==> key !in keys
    ensures r.Some? ==> r.value < |keys| && keys[r.value] == key
    ensures r.Some? ==> forall k :: 0 <= k < r.value ==> keys[k] != key
    decreases |keys|
  {
    if keys == [] then None
    else if keys[0] == key then Some(0)
    else
      match IndexOf(keys[1..], key)
      case None => None
      case Some(j) => Some(j + 1)
  }

  /** `Map.get`: the marker stored under `key`, if any. */
  function Get(ms: seq<Marker>, key: string): (r: Option<Marker>)
    ensures r.None? <==> forall i :: 0 <= i < |ms| ==> ms[i].concept != key
    ensures r.Some? ==> r.value in ms && r.value.concept == key
  {
    match IndexOf(Concepts(ms), key)
    case None =>
      assert forall i :: 0 <= i < |ms| ==> Concepts(ms)[i] != key;
      None
    case Some(i) => Some(ms[i])
  }

  /** In a map with unique keys, every stored marker is what its key looks up. */
  lemma GetUnique(ms: seq<Marker>, m: Marker)
    requires UniqueKeys(ms)
    requires m in ms
    ensures Get(ms, m.concept) == Some(m)
  {
    var i :| 0 <= i < |ms| && ms[i] == m;
    var j := IndexOf(Concepts(ms), m.concept).value;
    assert Concepts(ms)[i] == Concepts(ms)[j];
  }

  /** With unique keys, a lookup finds exactly the marker bearing that concept. */
  lemma GetIff(ms: seq<Marker>, key: string, m: Marker)
    requires UniqueKeys(ms)
    ensures Get(ms, key) == Some(m) <==> m in ms && m.concept == key
  {
    if m in ms && m.concept == key {
      GetUnique(ms, m);
    }
  }

  // ---------------------------------------------------------------------------
  // Registration
  // ---------------------------------------------------------------------------

  /**
   * `_calculateValence`: a large loss of integrity is very bad, a gain in
   * affiliation is good, a large loss of energy is bad; otherwise the summed
   * change over fifty, clamped to [-1, 1].
   */
  function ValenceOf(change: Levels): (v: real)
    ensures -1.0 <= v <= 1.0
    ensures change.integridad < -10.0 ==> v == -0.8
    ensures change.integridad >= -10.0 && change.afiliacion > 5.0 ==> v == 0.6
    ensures change.integridad >= -10.0 && change.afiliacion <= 5.0 && change.energia < -15.0 ==> v == -0.5
    ensures change.integridad >= -10.0 && change.afiliacion <= 5.0 && change.energia >= -15.0 ==>
      v == Clamp(TotalChange(change) / 50.0, -1.0, 1.0)
  {
    if change.integridad < -10.0 then -0.8
    else if change.afiliacion > 5.0 then 0.6
    else if change.energia < -15.0 then -0.5
    else Clamp(TotalChange(change) / 50.0, -1.0, 1.0)
  }

  function TotalChange(c: Levels): real
  {
    c.energia + c.integridad + c.afiliacion + c.certeza + c.competencia
  }

  /**
   * A marker seen again: its valence moves halfway to the new one, it gains
   * 0.2 strength up to 1, and it counts one more occurrence.
   */
  function Reinforced(m: Marker, v: real, now: int): (r: Marker)
    ensures r.concept == m.concept && r.occurrences == m.occurrences + 1 && r.lastUpdated == now
    ensures Min(m.valence, v) <= r.valence <= Max(m.valence, v)
    ensures r.strength == Min(1.0, m.strength + ReinforceStep)
    ensures m.strength <= 1.0 ==> m.strength <= r.strength <= 1.0
    ensures r.createdAt == m.createdAt && r.context == m.context && r.originalChange == m.originalChange
  {
    m.(valence := (m.valence + v) / 2.0,
       strength := Min(1.0, m.strength + ReinforceStep),
       lastUpdated := now,
       occurrences := m.occurrences + 1)
  }

  function NewMarker(key: string, v: real, context: string, change: Levels, now: int): Marker
  {
    Marker(key, v, NewMarkerStrength, now, now, 1, context, "", "", Some(change))
  }

  /** `Map.set`: the entry under `key` is overwritten in place, or appended when new. */
  function Stored(ms: seq<Marker>, key: string, m: Marker): seq<Marker>
  {
    match IndexOf(Concepts(ms), key)
    case Some(i) => ms[i := m]
    case None => ms + [m]
  }

  /**
   * Storing a marker under its own key keeps the keys unique and in order,
   * makes the key look up that marker, and leaves every other key alone.
   */
  lemma StoreEffect(ms: seq<Marker>, key: string, m: Marker)
    requires UniqueKeys(ms)
    requires m.concept == key
    ensures var r := Stored(ms, key, m);
      && UniqueKeys(r)
      && Get(r, key) == Some(m)
      && (forall k :: k != key ==> Get(r, k) == Get(ms, k))
      && Concepts(r)[..|ms|] == Concepts(ms)
      && |r| == |ms| + (if Get(ms, key).Some? then 0 else 1)
  {
    var r := Stored(ms, key, m);
    StoredShape(ms, key, m);
    GetUnique(r, m);
    forall k | k != key
      ensures Get(r, k) == Get(ms, k)
    {
      if Get(r, k).Some? {
        GetUnique(ms, Get(r, k).value);
      } else if Get(ms, k).Some? {
        GetUnique(r, Get(ms, k).value);
      }
    }
  }

  /** What storing does to the list: the marker is in, the other keys' markers stay, the keys stay unique. */
  lemma StoredShape(ms: seq<Marker>, key: string, m: Marker)
    requires UniqueKeys(ms)
    requires m.concept == key
    ensures var r := Stored(ms, key, m);
      && UniqueKeys(r)
      && m in r
      && (forall x :: x in r ==> x == m || x in ms)
      && (forall y :: y in ms && y.concept != key ==> y in r)
      && Concepts(r)[..|ms|] == Concepts(ms)
      && |r| == |ms| + (if Get(ms, key).Some? then 0 else 1)
  {
    var r := Stored(ms, key, m);
    match IndexOf(Concepts(ms), key)
    case Some(i) =>
      assert Concepts(r) == Concepts(ms);
      forall y | y in ms && y.concept != key
        ensures y in r
      {
        var j :| 0 <= j < |ms| && ms[j] == y;
        assert r[j] == y;
      }
    case None =>
      assert Concepts(r) == Concepts(ms) + [key];
      assert Concepts(r)[..|ms|] == Concepts(ms);
  }

  /** The marker `registerSomaticMarker` leaves under the key. */
  function RegisteredMarker(ms: seq<Marker>, key: string, change: Levels, context: string, now: int): Marker
  {
    match Get(ms, key)
    case Some(m) => Reinforced(m, ValenceOf(change), now)
    case None => NewMarker(key, ValenceOf(change), context, change, now)
  }

  /** The marker list after `registerSomaticMarker(concept, change, context)`. */
  function Registered(ms: seq<Marker>, concept: string, change: Levels, context: string, now: int): seq<Marker>
  {
    Stored(ms, Key(concept), RegisteredMarker(ms, Key(concept), change, context, now))
  }

  /**
   * Registration reinforces the marker under the concept's key, or creates it
   * with strength 0.5 and one occurrence; every other key keeps its marker,
   * keys stay unique and the existing keys keep their order.
   */
  lemma RegisterEffect(ms: seq<Marker>, concept: string, change: Levels, context: string, now: int)
    requires UniqueKeys(ms)
    ensures var r := Registered(ms, concept, change, context, now);
      var key := Key(concept);
      && UniqueKeys(r)
      && (Get(ms, key).Some? ==> Get(r, key) == Some(Reinforced(Get(ms, key).value, ValenceOf(change), now)))
      && (Get(ms, key).None? ==> Get(r, key) == Some(NewMarker(key, ValenceOf(change), context, change, now)))
      && (forall k :: k != key ==> Get(r, k) == Get(ms, k))
      && Concepts(r)[..|ms|] == Concepts(ms)
      && |r| == |ms| + (if Get(ms, key).Some? then 0 else 1)
  {
    StoreEffect(ms, Key(concept), RegisteredMarker(ms, Key(concept), change, context, now));
  }

  /** What a configured marker sets: its valence, strength, reaction and topic. */
  datatype PreloadData = PreloadData(valence: real, strength: real, reaction: string, topic: string)

  function PreloadedMarker(key: string, data: PreloadData, now: int): Marker
  {
    Marker(key, data.valence, OrDefault(data.strength, NewMarkerStrength), now, now, 1,
           "preloaded", data.reaction, data.topic, None)
  }

  /** `preloadMarker`: a zero strength falls back to 0.5; the key is overwritten in place. */
  function Preloaded(ms: seq<Marker>, concept: string, data: PreloadData, now: int): seq<Marker>
  {
    Stored(ms, Key(concept), PreloadedMarker(Key(concept), data, now))
  }

  /** Preloading stores the configured marker under the key and leaves every other key alone. */
  lemma PreloadEffect(ms: seq<Marker>, concept: string, data: PreloadData, now: int)
    requires UniqueKeys(ms)
    ensures var r := Preloaded(ms, concept, data, now);
      var key := Key(concept);
      && UniqueKeys(r)
      && Get(r, key).Some?
      && Get(r, key).value.valence == data.valence
      && Get(r, key).value.strength == (if data.strength == 0.0 then NewMarkerStrength else data.strength)
      && Get(r, key).value.occurrences == 1
      && (forall k :: k != key ==> Get(r, k) == Get(ms, k))
  {
    StoreEffect(ms, Key(concept), PreloadedMarker(Key(concept), data, now));
  }

  // ---------------------------------------------------------------------------
  // Scanning a text
  // ---------------------------------------------------------------------------

  /** The marker a word contributes to a scan: its own, when stronger than 0.3. */
  function Hits(ms: seq<Marker>, w: string): seq<Marker>
  {
    match Get(ms, w)
    case Some(m) => if m.strength > ScanThreshold then [m] else []
    case None => []
  }

  function HitsFn(ms: seq<Marker>): string -> seq<Marker>
  {
    (w: string) => Hits(ms, w)
  }

  function AbsValence(m: Marker): real
  {
    Abs(m.valence)
  }

  /** The words of a text: lower-cased and split at whitespace runs. */
  function Words(text: string): seq<string>
  {
    SplitWs(Lower(text))
  }

  /** `scanForMarkers`: one hit per word, most intense valence first. */
  function ScanOf(ms: seq<Marker>, text: string): seq<Marker>
  {
    SortDesc(FlatMap(Words(text), HitsFn(ms)), AbsValence)
  }

  /**
   * A scan reports exactly the stored markers stronger than 0.3 whose key is a
   * word of the text, once per occurrence of the word, ordered by
   * non-increasing absolute valence.
   */
  lemma ScanFinds(ms: seq<Marker>, text: string, m: Marker)
    requires UniqueKeys(ms)
    ensures m in ScanOf(ms, text) <==> m in ms && m.strength > ScanThreshold && m.concept in Words(text)
    ensures multiset(ScanOf(ms, text))[m] ==
              if m in ms && m.strength > ScanThreshold then multiset(Words(text))[m.concept] else 0
    ensures SortedDesc(ScanOf(ms, text), AbsValence)
  {
    var hits := FlatMap(Words(text), HitsFn(ms));
    assert m in ScanOf(ms, text) <==> m in hits by {
      assert multiset(ScanOf(ms, text)) == multiset(hits);
      assert m in ScanOf(ms, text) <==> m in multiset(ScanOf(ms, text));
    }
    HitsExactly(ms, Words(text), m);
    HitsCount(ms, Words(text), m);
  }

  /** Each occurrence of a stored marker's key among the words contributes that marker once. */
  lemma {:induction false} HitsCount(ms: seq<Marker>, words: seq<string>, m: Marker)
    requires UniqueKeys(ms)
    ensures multiset(FlatMap(words, HitsFn(ms)))[m] ==
              if m in ms && m.strength > ScanThreshold then multiset(words)[m.concept] else 0
    decreases |words|
  {
    if words != [] {
      var init, w := words[..|words| - 1], words[|words| - 1];
      assert words == init + [w];
      HitsCount(ms, init, m);
      GetIff(ms, w, m);
      assert FlatMap(words, HitsFn(ms)) == FlatMap(init, HitsFn(ms)) + Hits(ms, w);
      assert multiset(Hits(ms, w))[m] ==
               if m in ms && m.strength > ScanThreshold && m.concept == w then 1 else 0;
    }
  }

  /** The hits of a list of words are the stored markers stronger than 0.3 keyed by one of the words. */
  lemma HitsExactly(ms: seq<Marker>, words: seq<string>, m: Marker)
    requires UniqueKeys(ms)
    ensures m in FlatMap(words, HitsFn(ms)) <==> m in ms && m.strength > ScanThreshold && m.concept in words
  {
    FlatMapMember(words, HitsFn(ms), m);
    GetIff(ms, m.concept, m);
    if m in ms && m.strength > ScanThreshold && m.concept in words {
      var k :| 0 <= k < |words| && words[k] == m.concept;
      assert m in HitsFn(ms)(words[k]);
    }
    if m in FlatMap(words, HitsFn(ms)) {
      var k :| 0 <= k < |words| && m in HitsFn(ms)(words[k]);
      GetIff(ms, words[k], m);
    }
  }

  // ---------------------------------------------------------------------------
  // Keywords and episodes
  // ---------------------------------------------------------------------------

  const Stopwords: seq<string> := ["el", "la", "los", "las", "un", "una", "de", "que", "y", "a", "en", "es", "por"]

  /** `w.length > 3 && !stopwords.includes(w)`, the length in UTF-16 code units. */
  predicate IsKeyword(w: string)
  {
    Utf16Length(w) > 3 && w !in Stopwords
  }

  predicate IsLong(w: string)
  {
    Utf16Length(w) > 3
  }

  /**
   * `_extractKeywords`: the first five non-stopwords longer than three
   * UTF-16 code units.
   */
  function Keywords(text: string): (r: seq<string>)
    ensures |r| <= MaxKeywords
    ensures forall i :: 0 <= i < |r| ==> Utf16Length(r[i]) > 3 && r[i] !in Stopwords
  {
    Take(Filter(Words(text), IsKeyword), MaxKeywords)
  }

  /** Every stopword is ASCII and at most three characters long, so at most three UTF-16 code units. */
  lemma StopwordsAreShort()
    ensures forall j :: 0 <= j < |Stopwords| ==> Utf16Length(Stopwords[j]) <= 3
  {
    forall j | 0 <= j < |Stopwords|
      ensures Utf16Length(Stopwords[j]) <= 3
    {
      var w := Stopwords[j];
      assert |w| <= 3 && forall i :: 0 <= i < |w| ==> w[i] as int < 0x1_0000;
      Utf16LengthBmp(w);
    }
  }

  /**
   * Every stopword has at most three characters, so the stopword test never
   * removes a word the length test keeps: the keywords are just the first five
   * words longer than three characters, in input order.
   */
  lemma KeywordsAreLongWords(text: string)
    ensures Keywords(text) == Take(Filter(Words(text), IsLong), MaxKeywords)
  {
    var words := Words(text);
    forall i | 0 <= i < |words|
      ensures IsKeyword(words[i]) == IsLong(words[i])
    {
      if IsLong(words[i]) {
        StopwordsAreShort();
      }
    }
    FilterCongruent(words, IsKeyword, IsLong);
  }

  /** Two emoji make a keyword: each is two UTF-16 code units, four in all. */
  lemma EmojiPairIsKeyword()
    ensures IsKeyword("\U{1F602}\U{1F602}")
  {
    Utf16LengthAstral('\U{1F602}', "\U{1F602}");
    Utf16LengthAstral('\U{1F602}', "");
    assert "\U{1F602}\U{1F602}" == ['\U{1F602}'] + "\U{1F602}";
  }

  /** The markers after registering each keyword in turn. */
  function RegisterAll(ms: seq<Marker>, kws: seq<string>, change: Levels, context: string, now: int): seq<Marker>
    decreases |kws|
  {
    if kws == [] then ms
    else Registered(RegisterAll(ms, kws[..|kws| - 1], change, context, now), kws[|kws| - 1], change, context, now)
  }

  lemma RegisterAllStep(ms: seq<Marker>, kws: seq<string>, i: nat, change: Levels, context: string, now: int)
    requires i < |kws|
    ensures RegisterAll(ms, kws[..i + 1], change, context, now)
         == Registered(RegisterAll(ms, kws[..i], change, context, now), kws[i], change, context, now)
  {
    assert kws[..i + 1][..i] == kws[..i];
  }

  /** The keys the concepts are stored under, in order. */
  function KeysOf(concepts: seq<string>): seq<string>
    decreases |concepts|
  {
    if concepts == [] then [] else KeysOf(concepts[..|concepts| - 1]) + [Key(concepts[|concepts| - 1])]
  }

  /**
   * Registering a list of keywords keeps the keys unique, stores a marker under
   * every keyword's key, and leaves every other key untouched.
   */
  lemma {:induction false} RegisterAllEffect(ms: seq<Marker>, kws: seq<string>, change: Levels, context: string, now: int)
    requires UniqueKeys(ms)
    ensures var r := RegisterAll(ms, kws, change, context, now);
      && UniqueKeys(r)
      && (forall k :: k in KeysOf(kws) ==> Get(r, k).Some?)
      && (forall k :: k !in KeysOf(kws) ==> Get(r, k) == Get(ms, k))
    decreases |kws|
  {
    if kws != [] {
      var init := kws[..|kws| - 1];
      var last := kws[|kws| - 1];
      var before := RegisterAll(ms, init, change, context, now);
      RegisterAllEffect(ms, init, change, context, now);
      RegisterEffect(before, last, change, context, now);
      assert KeysOf(kws) == KeysOf(init) + [Key(last)];
    }
  }

  /** An interaction as the orchestrator records it. */
  datatype Episode = Episode(
    input: string,
    stype: StimulusType,
    valence: Valence,
    emotion: EmotionName,
    feeling: real,
    mode: Mode,
    defenseUsed: Option<DefenseKind>,
    somaChange: Option<Levels>,
    timestamp: int)

  /** The markers after `recordEpisode`: its keywords are registered only when it has text and a change. */
  function EpisodeMarkers(ms: seq<Marker>, ep: Episode, now: int): seq<Marker>
  {
    if ep.input != "" && ep.somaChange.Some? then
      RegisterAll(ms, Keywords(ep.input), ep.somaChange.value, ep.input, now)
    else ms
  }

  /** `findRelatedEpisodes`: the episodes whose text contains the concept, ignoring case. */
  function RelatedEpisodes(eps: seq<Episode>, concept: string): (r: seq<Episode>)
    ensures forall e :: e in r <==> e in eps && Contains(Lower(e.input), Lower(concept))
  {
    var related := (e: Episode) => Contains(Lower(e.input), Lower(concept));
    forall e ensures e in Filter(eps, related) <==> e in eps && related(e) {
      FilterIff(eps, related, e);
    }
    Filter(eps, related)
  }

  // ---------------------------------------------------------------------------
  // Decay
  // ---------------------------------------------------------------------------

  /** The strength after `applyDecay`: 0.1 is lost per day since the last update, never below 0. */
  function DecayedStrength(m: Marker, now: int): real
  {
    Max(0.0, m.strength - ((now - m.lastUpdated) as real / DayInMs as real) * MarkerDecayRate)
  }

  /** What one marker becomes: weakened, or deleted when below 0.1. */
  function DecayOne(m: Marker, now: int): seq<Marker>
  {
    var s := DecayedStrength(m, now);
    if s < PruneThreshold then [] else [m.(strength := s)]
  }

  function DecayFn(now: int): Marker -> seq<Marker>
  {
    (m: Marker) => DecayOne(m, now)
  }

  function Decayed(ms: seq<Marker>, now: int): seq<Marker>
  {
    FlatMap(ms, DecayFn(now))
  }

  /** Decay deletes but never adds or duplicates a key. */
  lemma {:induction false} DecayKeepsKeys(ms: seq<Marker>, now: int)
    requires UniqueKeys(ms)
    ensures UniqueKeys(Decayed(ms, now))
    ensures forall i :: 0 <= i < |Decayed(ms, now)| ==> Decayed(ms, now)[i].concept in Concepts(ms)
    decreases |ms|
  {
    if ms != [] {
      var init := ms[..|ms| - 1];
      var last := ms[|ms| - 1];
      assert Concepts(init) == Concepts(ms)[..|ms| - 1];
      DecayKeepsKeys(init, now);
      var d := Decayed(init, now);
      var r := Decayed(ms, now);
      assert r == d + DecayOne(last, now);
      forall i | 0 <= i < |d|
        ensures d[i].concept != last.concept
      {
        var j :| 0 <= j < |init| && Concepts(init)[j] == d[i].concept;
        assert Concepts(ms)[j] == d[i].concept;
      }
      forall i | 0 <= i < |r|
        ensures r[i].concept in Concepts(ms)
      {
        if i < |d| {
          var j :| 0 <= j < |init| && Concepts(init)[j] == d[i].concept;
          assert Concepts(ms)[j] == d[i].concept;
        } else {
          assert r[i].concept == Concepts(ms)[|ms| - 1];
        }
      }
      forall i, j | 0 <= i < j < |r|
        ensures Concepts(r)[i] != Concepts(r)[j]
      {
        if j < |d| {
          assert Concepts(d)[i] != Concepts(d)[j];
        }
      }
    }
  }

  /**
   * `applyDecay` with a clock that has not gone backwards: every surviving
   * marker is the old one with its strength lowered (never raised) and at least
   * 0.1, and a marker survives exactly when its decayed strength is at least 0.1.
   */
  lemma DecayEffect(ms: seq<Marker>, now: int, x: Marker)
    requires forall m :: m in ms ==> m.lastUpdated <= now
    ensures x in Decayed(ms, now) ==>
      exists m :: m in ms && x == m.(strength := DecayedStrength(m, now))
                 && PruneThreshold <= x.strength <= m.strength
    ensures forall m :: m in ms && DecayedStrength(m, now) >= PruneThreshold ==>
      m.(strength := DecayedStrength(m, now)) in Decayed(ms, now)
  {
    FlatMapMember(ms, DecayFn(now), x);
    if x in Decayed(ms, now) {
      var k :| 0 <= k < |ms| && x in DecayFn(now)(ms[k]);
      var m := ms[k];
      assert (now - m.lastUpdated) as real / DayInMs as real >= 0.0;
      assert x == m.(strength := DecayedStrength(m, now));
    }
    forall m | m in ms && DecayedStrength(m, now) >= PruneThreshold
      ensures m.(strength := DecayedStrength(m, now)) in Decayed(ms, now)
    {
      var k :| 0 <= k < |ms| && ms[k] == m;
      FlatMapMember(ms, DecayFn(now), m.(strength := DecayedStrength(m, now)));
      assert m.(strength := DecayedStrength(m, now)) in DecayFn(now)(ms[k]);
    }
  }

  // ---------------------------------------------------------------------------
  // Strongest markers
  // ---------------------------------------------------------------------------

  /** Whether a marker takes part in the search for `sign`: positive or negative valence. */
  predicate Qualifies(m: Marker, sign: int)
  {
    (sign > 0 && m.valence > 0.0) || (sign < 0 && m.valence < 0.0)
  }

  /** The running result of `_getStrongestMarker(sign)` over a prefix of the markers. */
  function Strongest(ms: seq<Marker>, sign: int): Option<Marker>
    decreases |ms|
  {
    if ms == [] then None
    else
      var s := Strongest(ms[..|ms| - 1], sign);
      var m := ms[|ms| - 1];
      if sign > 0 && m.valence > 0.0 then
        if s.None? || m.valence > s.value.valence then Some(m) else s
      else if sign < 0 && m.valence < 0.0 then
        if s.None? || m.valence < s.value.valence then Some(m) else s
      else s
  }

  /** The positive search: the first marker of maximum positive valence, none iff no valence is positive. */
  lemma {:induction false} StrongestPositive(ms: seq<Marker>)
    ensures var r := Strongest(ms, 1);
      && (r.None? <==> forall k :: 0 <= k < |ms| ==> ms[k].valence <= 0.0)
      && (r.Some? ==>
            exists i :: 0 <= i < |ms| && ms[i] == r.value && r.value.valence > 0.0
              && forall k :: 0 <= k < i && ms[k].valence > 0.0 ==> ms[k].valence < r.value.valence)
      && (r.Some? ==> forall k :: 0 <= k < |ms| && ms[k].valence > 0.0 ==> ms[k].valence <= r.value.valence)
    decreases |ms|
  {
    if ms != [] {
      var init := ms[..|ms| - 1];
      StrongestPositive(init);
      assert forall k :: 0 <= k < |init| ==> init[k] == ms[k];
      var r := Strongest(ms, 1);
      if r.Some? && r != Strongest(init, 1) {
        assert r.value == ms[|ms| - 1];
      } else if r.Some? {
        var i :| 0 <= i < |init| && init[i] == r.value && r.value.valence > 0.0
              && forall k :: 0 <= k < i && init[k].valence > 0.0 ==> init[k].valence < r.value.valence;
        assert ms[i] == r.value;
      }
    }
  }

  /** The negative search: the first marker of minimum negative valence, none iff no valence is negative. */
  lemma {:induction false} StrongestNegative(ms: seq<Marker>)
    ensures var r := Strongest(ms, -1);
      && (r.None? <==> forall k :: 0 <= k < |ms| ==> ms[k].valence >= 0.0)
      && (r.Some? ==>
            exists i :: 0 <= i < |ms| && ms[i] == r.value && r.value.valence < 0.0
              && forall k :: 0 <= k < i && ms[k].valence < 0.0 ==> ms[k].valence > r.value.valence)
      && (r.Some? ==> forall k :: 0 <= k < |ms| && ms[k].valence < 0.0 ==> ms[k].valence >= r.value.valence)
    decreases |ms|
  {
    if ms != [] {
      var init := ms[..|ms| - 1];
      StrongestNegative(init);
      assert forall k :: 0 <= k < |init| ==> init[k] == ms[k];
      var r := Strongest(ms, -1);
      if r.Some? && r != Strongest(init, -1) {
        assert r.value == ms[|ms| - 1];
      } else if r.Some? {
        var i :| 0 <= i < |init| && init[i] == r.value && r.value.valence < 0.0
              && forall k :: 0 <= k < i && init[k].valence < 0.0 ==> init[k].valence > r.value.valence;
        assert ms[i] == r.value;
      }
    }
  }

  /** With a sign that is neither positive nor negative, no marker qualifies and nothing is found. */
  lemma {:induction false} StrongestOfZero(ms: seq<Marker>)
    ensures Strongest(ms, 0).None?
    decreases |ms|
  {
    if ms != [] {
      StrongestOfZero(ms[..|ms| - 1]);
    }
  }

  /**
   * The strongest positive marker has the maximum valence, the strongest
   * negative one the minimum, and ties go to the first inserted; there is
   * none exactly when no marker has a valence of that sign.
   */
  lemma StrongestIsExtreme(ms: seq<Marker>, sign: int)
    ensures var r := Strongest(ms, sign);
      && (r.None? <==> forall k :: 0 <= k < |ms| ==> !Qualifies(ms[k], sign))
      && (r.Some? ==>
            exists i :: 0 <= i < |ms| && ms[i] == r.value && Qualifies(r.value, sign)
              && (forall k :: 0 <= k < i && sign > 0 && ms[k].valence > 0.0 ==> ms[k].valence < r.value.valence)
              && (forall k :: 0 <= k < i && sign < 0 && ms[k].valence < 0.0 ==> ms[k].valence > r.value.valence))
      && (r.Some? && sign > 0 ==> forall k :: 0 <= k < |ms| && ms[k].valence > 0.0 ==> ms[k].valence <= r.value.valence)
      && (r.Some? && sign < 0 ==> forall k :: 0 <= k < |ms| && ms[k].valence < 0.0 ==> ms[k].valence >= r.value.valence)
  {
    SameSearch(ms, sign);
    if sign > 0 {
      StrongestPositive(ms);
    } else if sign < 0 {
      StrongestNegative(ms);
    } else {
      StrongestOfZero(ms);
    }
  }

  /** The search depends on the sign of `sign` only. */
  lemma {:induction false} SameSearch(ms: seq<Marker>, sign: int)
    ensures sign > 0 ==> Strongest(ms, sign) == Strongest(ms, 1)
    ensures sign < 0 ==> Strongest(ms, sign) == Strongest(ms, -1)
    ensures sign == 0 ==> Strongest(ms, sign) == Strongest(ms, 0)
    decreases |ms|
  {
    if ms != [] {
      SameSearch(ms[..|ms| - 1], sign);
    }
  }

  /** What `getState` reports of the memory. */
  datatype MemoryState = MemoryState(
    markers: seq<Marker>,
    episodeCount: nat,
    strongestPositive: Option<Marker>,
    strongestNegative: Option<Marker>)

  // ---------------------------------------------------------------------------
  // The memory
  // ---------------------------------------------------------------------------

  class Memory {
    var somaticMarkers: seq<Marker>
    var episodes: seq<Episode>

    /** Keys are unique and the episode log is within its cap. */
    predicate Valid()
      reads this
    {
      UniqueKeys(somaticMarkers) && |episodes| <= MaxEpisodes
    }

    constructor ()
      ensures somaticMarkers == [] && episodes == []
      ensures Valid()
    {
      somaticMarkers := [];
      episodes := [];
    }

    method RegisterSomaticMarker(concept: string, change: Levels, context: string, now: int)
      requires Valid()
      modifies this
      ensures somaticMarkers == Registered(old(somaticMarkers), concept, change, context, now)
      ensures episodes == old(episodes)
      ensures Valid()
    {
      var key := Key(concept);
      var valence := ValenceOf(change);
      var existing := IndexOf(Concepts(somaticMarkers), key);
      if existing.Some? {
        var i := existing.value;
        somaticMarkers := somaticMarkers[i := Reinforced(somaticMarkers[i], valence, now)];
      } else {
        somaticMarkers := somaticMarkers + [NewMarker(key, valence, context, change, now)];
      }
      RegisterEffect(old(somaticMarkers), concept, change, context, now);
    }

    method PreloadMarker(concept: string, data: PreloadData, now: int)
      requires Valid()
      modifies this
      ensures somaticMarkers == Preloaded(old(somaticMarkers), concept, data, now)
      ensures episodes == old(episodes)
      ensures Valid()
    {
      somaticMarkers := Preloaded(somaticMarkers, concept, data, now);
      PreloadEffect(old(somaticMarkers), concept, data, now);
    }

    /** `checkSomaticMarker`: the marker stored under the concept's key. */
    function CheckSomaticMarker(concept: string): (r: Option<Marker>)
      reads this
      requires Valid()
      ensures r.Some? <==> exists i :: 0 <= i < |somaticMarkers| && somaticMarkers[i].concept == Key(concept)
      ensures r.Some? ==> r.value in somaticMarkers && r.value.concept == Key(concept)
    {
      Get(somaticMarkers, Key(concept))
    }

    method ScanForMarkers(text: string) returns (found: seq<Marker>)
      ensures found == ScanOf(somaticMarkers, text)
    {
      var words := Words(text);
      var hits: seq<Marker> := [];
      var i := 0;
      while i < |words|
        invariant 0 <= i <= |words|
        invariant hits == FlatMap(words[..i], HitsFn(somaticMarkers))
      {
        FlatMapStep(words, HitsFn(somaticMarkers), i);
        var marker := Get(somaticMarkers, words[i]);
        if marker.Some? && marker.value.strength > ScanThreshold {
          hits := hits + [marker.value];
        }
        i := i + 1;
      }
      assert words[..|words|] == words;
      found := SortDesc(hits, AbsValence);
    }

    /** The keyword loop of `recordEpisode`: one registration per keyword, in order. */
    method RegisterKeywords(keywords: seq<string>, change: Levels, context: string, now: int)
      requires Valid()
      modifies this
      ensures somaticMarkers == RegisterAll(old(somaticMarkers), keywords, change, context, now)
      ensures episodes == old(episodes)
      ensures Valid()
    {
      var i := 0;
      while i < |keywords|
        invariant 0 <= i <= |keywords|
        invariant somaticMarkers == RegisterAll(old(somaticMarkers), keywords[..i], change, context, now)
        invariant episodes == old(episodes)
        invariant Valid()
      {
        RegisterAllStep(old(somaticMarkers), keywords, i, change, context, now);
        RegisterSomaticMarker(keywords[i], change, context, now);
        i := i + 1;
      }
      assert keywords[..|keywords|] == keywords;
    }

    method RecordEpisode(episode: Episode, now: int)
      requires Valid()
      modifies this
      ensures episodes == PushBounded(old(episodes), episode.(timestamp := now), MaxEpisodes)
      ensures somaticMarkers == EpisodeMarkers(old(somaticMarkers), episode, now)
      ensures Valid()
    {
      episodes := episodes + [episode.(timestamp := now)];
      if |episodes| > MaxEpisodes {
        episodes := episodes[1..];
      }
      if episode.input != "" && episode.somaChange.Some? {
        var keywords := Keywords(episode.input);
        RegisterKeywords(keywords, episode.somaChange.value, episode.input, now);
      }
    }

    /**
     * `getRecentEpisodes`: `slice(-limit)`, a suffix of the episodes holding the
     * last `limit` of them, or all of them when `limit` is 0 (`slice(-0)` is
     * `slice(0)`) or exceeds the count.
     */
    function GetRecentEpisodes(limit: nat): (r: seq<Episode>)
      reads this
      ensures |r| == if limit == 0 || limit >= |episodes| then |episodes| else limit
      ensures exists k :: 0 <= k <= |episodes| && r == episodes[k..]
    {
      Recent(episodes, limit)
    }

    method ApplyDecay(now: int)
      requires Valid()
      modifies this
      ensures somaticMarkers == Decayed(old(somaticMarkers), now)
      ensures episodes == old(episodes)
      ensures Valid()
    {
      var markers := somaticMarkers;
      var kept: seq<Marker> := [];
      var i := 0;
      while i < |markers|
        invariant 0 <= i <= |markers|
        invariant kept == FlatMap(markers[..i], DecayFn(now))
        invariant somaticMarkers == markers && episodes == old(episodes)
      {
        FlatMapStep(markers, DecayFn(now), i);
        var marker := markers[i];
        var strength := DecayedStrength(marker, now);
        if strength >= PruneThreshold {
          kept := kept + [marker.(strength := strength)];
        }
        i := i + 1;
      }
      assert markers[..|markers|] == markers;
      DecayKeepsKeys(markers, now);
      somaticMarkers := kept;
    }

    method GetStrongestMarker(sign: int) returns (strongest: Option<Marker>)
      ensures strongest == Strongest(somaticMarkers, sign)
    {
      strongest := None;
      var i := 0;
      while i < |somaticMarkers|
        invariant 0 <= i <= |somaticMarkers|
        invariant strongest == Strongest(somaticMarkers[..i], sign)
      {
        var marker := somaticMarkers[i];
        assert somaticMarkers[..i + 1][..i] == somaticMarkers[..i];
        if sign > 0 && marker.valence > 0.0 {
          if strongest.None? || marker.valence > strongest.value.valence {
            strongest := Some(marker);
          }
        } else if sign < 0 && marker.valence < 0.0 {
          if strongest.None? || marker.valence < strongest.value.valence {
            strongest := Some(marker);
          }
        }
        i := i + 1;
      }
      assert somaticMarkers[..|somaticMarkers|] == somaticMarkers;
    }

    method GetState() returns (state: MemoryState)
      ensures state == MemoryState(somaticMarkers, |episodes|,
                                   Strongest(somaticMarkers, 1), Strongest(somaticMarkers, -1))
    {
      var positive := GetStrongestMarker(1);
      var negative := GetStrongestMarker(-1);
      state := MemoryState(somaticMarkers, |episodes|, positive, negative);
    }
  }
}
