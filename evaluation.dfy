// The evaluation hierarchy of the psyche: quota of affects from the body,
// an emotion vector, basic and extended emotions, and the final feeling that
// the secondary process works with.

module Evaluation {
  import opened Util
  import opened Types

  /** Tank levels inside the body's [0, 100] range. */
  ghost predicate LevelsInRange(l: Levels)
  {
    forall t :: 0.0 <= l.Get(t) <= 100.0
  }

  // ---------------------------------------------------------------- quota of affects

  datatype QuotaOfAffects = QuotaOfAffects(
    perceptionBody: real, perceptionEnvironment: real, libidinous: real, aggressive: real, selfPreservation: real)

  /**
   * `calculateFromSoma`. Every `|| 100` read treats a level of exactly 0 as
   * 100; `aggressive` alone reads the raw integrity level.
   */
  function QuotaFromSoma(l: Levels): QuotaOfAffects
  {
    var integridad := OrDefault(l.integridad, 100.0);
    var energia := OrDefault(l.energia, 100.0);
    var certeza := OrDefault(l.certeza, 100.0);
    var afiliacion := OrDefault(l.afiliacion, 100.0);
    QuotaOfAffects(
      Max(0.0, (100.0 - integridad) * 0.5 + (100.0 - energia) * 0.3) / 100.0,
      Max(0.0, 100.0 - certeza) / 100.0,
      Max(0.0, 100.0 - afiliacion) / 100.0,
      if l.integridad < 50.0 then (50.0 - l.integridad) / 50.0 else 0.0,
      Max(0.0, (100.0 - energia) * 0.6 + (100.0 - integridad) * 0.4) / 100.0)
  }

  /** `getTotal`: the weighted sum, with weights adding up to 1. */
  function QuotaTotal(q: QuotaOfAffects): real
  {
    q.perceptionBody * 0.2 + q.perceptionEnvironment * 0.15 + q.libidinous * 0.25
    + q.aggressive * 0.2 + q.selfPreservation * 0.2
  }

  ghost predicate QuotaInUnit(q: QuotaOfAffects)
  {
    && 0.0 <= q.perceptionBody <= 1.0 && 0.0 <= q.perceptionEnvironment <= 1.0
    && 0.0 <= q.libidinous <= 1.0 && 0.0 <= q.aggressive <= 1.0 && 0.0 <= q.selfPreservation <= 1.0
  }

  /** For levels in [0, 100], every component and the total lie in [0, 1]. */
  lemma QuotaBounds(l: Levels)
    requires LevelsInRange(l)
    ensures QuotaInUnit(QuotaFromSoma(l))
    ensures 0.0 <= QuotaTotal(QuotaFromSoma(l)) <= 1.0
  {
    assert 0.0 <= l.Get(Integridad) <= 100.0 && 0.0 <= l.Get(Energia) <= 100.0;
    assert 0.0 <= l.Get(Certeza) <= 100.0 && 0.0 <= l.Get(Afiliacion) <= 100.0;
  }

  /** An integrity of exactly 0 reads as 100 in the body terms, yet gives full aggression. */
  lemma ZeroIntegrity(l: Levels)
    requires l.integridad == 0.0
    ensures QuotaFromSoma(l).aggressive == 1.0
    ensures QuotaFromSoma(l) == QuotaFromSoma(l.(integridad := 100.0)).(aggressive := 1.0)
  {
  }

  // ---------------------------------------------------------------- emotion vector

  datatype EmotionVector = EmotionVector(
    pleasure: real, unpleasure: real, libidinalSum: real, aggressiveSum: real, tension: real)

  /**
   * `calculateFromQuota`: pleasure and unpleasure follow the stimulus valence,
   * so that a positive stimulus leaves the balance clearly positive and a
   * negative one clearly negative; the tension is the total quota.
   */
  function EmotionVectorOf(q: QuotaOfAffects, s: Stimulus): (e: EmotionVector)
    ensures e.tension == QuotaTotal(q) && e.libidinalSum == q.libidinous && e.aggressiveSum == q.aggressive
    ensures s.valence == NegativeValence ==> e.pleasure == 0.0
    ensures s.intensity >= 0.0 ==>
              && (s.valence == PositiveValence ==> 0.5 <= e.pleasure <= 1.0)
              && (s.valence == NegativeValence ==> 0.3 <= e.unpleasure <= 1.0)
    ensures QuotaInUnit(q) ==>
              && (s.valence == PositiveValence ==> 0.0 <= e.unpleasure <= 0.3)
              && (s.valence == NeutralValence ==> 0.2 <= e.pleasure <= 0.5 && 0.0 <= e.unpleasure <= 0.5)
    ensures QuotaInUnit(q) && s.intensity >= 0.0 ==>
              && (s.valence == PositiveValence ==> ValenceBalance(e) >= 0.2)
              && (s.valence == NegativeValence ==> ValenceBalance(e) <= -0.3)
  {
    var total := QuotaTotal(q);
    var intensity := OrDefault(s.intensity, 0.5);
    var (pleasure, unpleasure) :=
      match s.valence
      case PositiveValence => (Min(1.0, 0.5 + intensity * 0.5), Max(0.0, total * 0.3))
      case NegativeValence => (0.0, Min(1.0, 0.3 + intensity * 0.7))
      case NeutralValence => (Max(0.0, 0.5 - total * 0.3), total * 0.5);
    EmotionVector(pleasure, unpleasure, q.libidinous, q.aggressive, total)
  }

  /** An intensity of 0 is falsy, so the vector is the one of intensity 0.5. */
  lemma ZeroIntensityReadsAsHalf(q: QuotaOfAffects, s: Stimulus)
    requires s.intensity == 0.0
    ensures EmotionVectorOf(q, s) == EmotionVectorOf(q, s.(intensity := 0.5))
  {
  }

  /** `getValenceBalance`. */
  function ValenceBalance(e: EmotionVector): real
  {
    e.pleasure - e.unpleasure
  }

  ghost predicate VectorInUnit(e: EmotionVector)
  {
    && 0.0 <= e.pleasure <= 1.0 && 0.0 <= e.unpleasure <= 1.0 && 0.0 <= e.libidinalSum <= 1.0
    && 0.0 <= e.aggressiveSum <= 1.0 && 0.0 <= e.tension <= 1.0
  }

  /** From quotas in [0, 1] and an intensity in [0, 1], every field of the vector lies in [0, 1]. */
  lemma VectorBounds(q: QuotaOfAffects, s: Stimulus)
    requires QuotaInUnit(q)
    requires 0.0 <= s.intensity <= 1.0
    ensures VectorInUnit(EmotionVectorOf(q, s))
  {
  }

  // ---------------------------------------------------------------- basic emotions

  datatype BasicEmotions = BasicEmotions(joy: real, anger: real, fear: real, sadness: real, surprise: real, disgust: real)

  /** What the evaluation knows about the stimulus when it forms the basic emotions. */
  datatype BasicContext = BasicContext(threatLevel: real, unexpected: bool, rejected: bool)

  /** `calculateFromEmotionVector`; a threat level of 0 counts as no threat. */
  function BasicFrom(e: EmotionVector, c: BasicContext): BasicEmotions
  {
    BasicEmotions(
      Max(0.0, e.pleasure - e.tension * 0.3),
      Min(1.0, e.aggressiveSum * 0.7 + e.unpleasure * 0.3),
      if c.threatLevel != 0.0 then Min(1.0, c.threatLevel * 0.6 + e.tension * 0.4)
      else Max(0.0, e.tension * 0.5 - e.pleasure * 0.3),
      Max(0.0, e.unpleasure * 0.4 + (1.0 - e.libidinalSum) * 0.3 - e.pleasure * 0.5),
      if c.unexpected then 0.7 else 0.0,
      if c.rejected then e.unpleasure * 0.8 else 0.0)
  }

  ghost predicate BasicInUnit(b: BasicEmotions)
  {
    && 0.0 <= b.joy <= 1.0 && 0.0 <= b.anger <= 1.0 && 0.0 <= b.fear <= 1.0
    && 0.0 <= b.sadness <= 1.0 && 0.0 <= b.surprise <= 1.0 && 0.0 <= b.disgust <= 1.0
  }

  /** Given a vector and a threat level in [0, 1], all six basic emotions lie in [0, 1]. */
  lemma BasicBounds(e: EmotionVector, c: BasicContext)
    requires VectorInUnit(e)
    requires 0.0 <= c.threatLevel <= 1.0
    ensures BasicInUnit(BasicFrom(e, c))
  {
  }

  datatype EmotionName = Joy | Anger | Fear | Sadness | Surprise | Disgust | NeutralEmotion

  /** A named emotion with its intensity; `getDominant` returns one. */
  datatype Dominant = Dominant(name: EmotionName, intensity: real)

  /** The basic emotions in the order `getDominant` visits them. */
  function Entries(b: BasicEmotions): (es: seq<Dominant>)
    ensures |es| == 6
    ensures forall k :: 0 <= k < 6 ==> es[k].name != NeutralEmotion
  {
    [Dominant(Joy, b.joy), Dominant(Anger, b.anger), Dominant(Fear, b.fear),
     Dominant(Sadness, b.sadness), Dominant(Surprise, b.surprise), Dominant(Disgust, b.disgust)]
  }

  /** The strict-maximum scan starting from ('neutral', 0). */
  function ScanMax(es: seq<Dominant>): Dominant
  {
    if es == [] then Dominant(NeutralEmotion, 0.0)
    else
      var d := ScanMax(es[..|es| - 1]);
      if es[|es| - 1].intensity > d.intensity then es[|es| - 1] else d
  }

  /**
   * The scan ends on ('neutral', 0) iff no entry is positive; otherwise it ends
   * on the first entry holding the maximum, which bounds every entry.
   */
  lemma {:induction false} ScanMaxIsFirstMax(es: seq<Dominant>)
    requires forall k :: 0 <= k < |es| ==> es[k].name != NeutralEmotion
    ensures var d := ScanMax(es);
      && d.intensity >= 0.0
      && (forall k :: 0 <= k < |es| ==> es[k].intensity <= d.intensity)
      && (d.name == NeutralEmotion <==> forall k :: 0 <= k < |es| ==> es[k].intensity <= 0.0)
      && (d.name == NeutralEmotion ==> d.intensity == 0.0)
      && (d.name != NeutralEmotion ==>
            exists k :: 0 <= k < |es| && es[k] == d && forall j :: 0 <= j < k ==> es[j].intensity < d.intensity)
    decreases |es|
  {
    if es != [] {
      var init := es[..|es| - 1];
      assert forall k :: 0 <= k < |init| ==> init[k] == es[k];
      ScanMaxIsFirstMax(init);
      var d0 := ScanMax(init);
      var last := es[|es| - 1];
      if last.intensity > d0.intensity {
        assert es[|es| - 1] == ScanMax(es);
      } else if d0.name != NeutralEmotion {
        var k :| 0 <= k < |init| && init[k] == d0 && forall j :: 0 <= j < k ==> init[j].intensity < d0.intensity;
        assert es[k] == d0;
      }
    }
  }

  /** `getDominant` as a specification. */
  function DominantOf(b: BasicEmotions): Dominant
  {
    ScanMax(Entries(b))
  }

  /**
   * `getDominant` answers ('neutral', 0) iff every basic emotion is at most 0;
   * otherwise the first emotion, in joy..disgust order, holding the maximum.
   */
  lemma DominantIsFirstMax(b: BasicEmotions)
    ensures var d := DominantOf(b); var es := Entries(b);
      && (d.name == NeutralEmotion <==>
            b.joy <= 0.0 && b.anger <= 0.0 && b.fear <= 0.0 && b.sadness <= 0.0 && b.surprise <= 0.0 && b.disgust <= 0.0)
      && (d.name == NeutralEmotion ==> d.intensity == 0.0)
      && d.intensity >= b.joy && d.intensity >= b.anger && d.intensity >= b.fear
      && d.intensity >= b.sadness && d.intensity >= b.surprise && d.intensity >= b.disgust
      && (d.name != NeutralEmotion ==>
            exists k :: 0 <= k < 6 && es[k] == d && forall j :: 0 <= j < k ==> es[j].intensity < d.intensity)
  {
    var es := Entries(b);
    ScanMaxIsFirstMax(es);
    assert es[0].intensity == b.joy && es[1].intensity == b.anger && es[2].intensity == b.fear;
    assert es[3].intensity == b.sadness && es[4].intensity == b.surprise && es[5].intensity == b.disgust;
  }

  /** `getDominant`: a max-tracking loop over the six emotions. */
  method GetDominant(b: BasicEmotions) returns (d: Dominant)
    ensures d == DominantOf(b)
  {
    var es := Entries(b);
    d := Dominant(NeutralEmotion, 0.0);
    var k := 0;
    while k < |es|
      invariant 0 <= k <= |es|
      invariant d == ScanMax(es[..k])
    {
      assert es[..k + 1][..k] == es[..k];
      if es[k].intensity > d.intensity {
        d := es[k];
      }
      k := k + 1;
    }
    assert es[..k] == es;
  }

  // ---------------------------------------------------------------- extended emotions

  datatype ExtendedEmotions = ExtendedEmotions(
    envy: real, pride: real, guilt: real, shame: real, gratitude: real, contempt: real)

  /** The superego's verdict as the evaluation reads it. */
  datatype SuperegoState = SuperegoState(culpa: real, verguenza: real)

  datatype ExtendedContext = ExtendedContext(success: bool, receivedHelp: bool, otherHasDesired: bool)

  /** `calculateFromBasicEmotions`. */
  function ExtendedFrom(b: BasicEmotions, se: SuperegoState, c: ExtendedContext): (x: ExtendedEmotions)
    ensures x.guilt == se.culpa && x.shame == se.verguenza
    ensures !c.receivedHelp ==> x.gratitude == 0.0
    ensures !c.otherHasDesired ==> x.envy == 0.0
    ensures x.pride >= 0.0 && x.contempt >= 0.0
  {
    var guilt := OrDefault(se.culpa, 0.0);
    var shame := OrDefault(se.verguenza, 0.0);
    var pride := Max(0.0, b.joy * 0.5 + (if c.success then 0.4 else 0.0) - guilt * 0.3);
    ExtendedEmotions(
      if c.otherHasDesired then Min(1.0, 0.5 + b.sadness * 0.3) else 0.0,
      pride,
      guilt,
      shame,
      if c.receivedHelp then Min(1.0, b.joy * 0.8) else 0.0,
      Max(0.0, b.anger * 0.4 + pride * 0.3 - guilt * 0.5))
  }

  ghost predicate ExtendedInUnit(x: ExtendedEmotions)
  {
    && 0.0 <= x.envy <= 1.0 && 0.0 <= x.pride <= 1.0 && 0.0 <= x.guilt <= 1.0
    && 0.0 <= x.shame <= 1.0 && 0.0 <= x.gratitude <= 1.0 && 0.0 <= x.contempt <= 1.0
  }

  /** Basic emotions, guilt and shame in [0, 1] keep every extended emotion in [0, 1]. */
  lemma ExtendedBounds(b: BasicEmotions, se: SuperegoState, c: ExtendedContext)
    requires BasicInUnit(b)
    requires 0.0 <= se.culpa <= 1.0 && 0.0 <= se.verguenza <= 1.0
    ensures ExtendedInUnit(ExtendedFrom(b, se, c))
  {
  }

  // ---------------------------------------------------------------- feeling

  datatype Feeling = Feeling(value: real, intensity: real, selfRelevance: real)

  /** `Feeling.calculate`: the balance adjusted by the extended emotions, then clamped. */
  function FeelingFrom(e: EmotionVector, b: BasicEmotions, x: ExtendedEmotions, selfActivated: bool): (f: Feeling)
    ensures -1.0 <= f.value <= 1.0
    ensures f.intensity >= Abs(f.value) && f.intensity >= e.tension && f.intensity >= DominantOf(b).intensity
    ensures f.intensity == Abs(f.value) || f.intensity == e.tension || f.intensity == DominantOf(b).intensity
    ensures f.selfRelevance == (if selfActivated then 0.8 else 0.4)
  {
    var raw := ValenceBalance(e) + x.pride * 0.2 + x.gratitude * 0.15 - x.guilt * 0.25 - x.shame * 0.2;
    var value := Clamp(raw, -1.0, 1.0);
    Feeling(value, Max(Max(DominantOf(b).intensity, e.tension), Abs(value)), if selfActivated then 0.8 else 0.4)
  }

  /** `toDescription`. */
  function Describe(f: Feeling): (r: string)
    ensures r == "indiferente" <==> f.intensity < 0.2
    ensures f.intensity >= 0.2 && f.value > 0.6 ==> r == (if f.intensity > 0.7 then "muy feliz" else "contento")
    ensures f.intensity >= 0.2 && f.value <= -0.6 ==> r == (if f.intensity > 0.7 then "muy mal" else "incómodo")
  {
    var v := f.value;
    var i := f.intensity;
    if i < 0.2 then "indiferente"
    else if v > 0.6 then (if i > 0.7 then "muy feliz" else "contento")
    else if v > 0.3 then "bien"
    else if v > 0.0 then "okay"
    else if v > -0.3 then "algo incómodo"
    else if v > -0.6 then "mal"
    else if i > 0.7 then "muy mal" else "incómodo"
  }

  // ---------------------------------------------------------------- the whole hierarchy

  datatype Evaluation = Evaluation(
    quota: QuotaOfAffects, vector: EmotionVector, basic: BasicEmotions,
    extended: ExtendedEmotions, feeling: Feeling)

  /**
   * `evaluate`. The message carries no surprise feature, so nothing is ever
   * unexpected; nobody else ever holds what is desired.
   */
  function EvaluationOf(l: Levels, s: Stimulus, se: SuperegoState, lastOutcome: Option<string>,
                        selfActivated: bool): Evaluation
  {
    var q := QuotaFromSoma(l);
    var e := EmotionVectorOf(q, s);
    var b := BasicFrom(e, BasicContext(if s.stype == Attack then s.intensity else 0.0, false, s.stype == Rejection));
    var x := ExtendedFrom(b, se, ExtendedContext(lastOutcome == Some("success"), s.stype == Affection, false));
    Evaluation(q, e, b, x, FeelingFrom(e, b, x, selfActivated))
  }

  /** Envy and surprise are always 0; gratitude is nonzero only for affection. */
  lemma EvaluationFixedTerms(l: Levels, s: Stimulus, se: SuperegoState, lastOutcome: Option<string>, selfActivated: bool)
    ensures var ev := EvaluationOf(l, s, se, lastOutcome, selfActivated);
      && ev.extended.envy == 0.0
      && ev.basic.surprise == 0.0
      && (ev.extended.gratitude != 0.0 ==> s.stype == Affection)
      && (s.stype != Rejection ==> ev.basic.disgust == 0.0)
  {
  }

  /** With in-range levels, guilt, shame and intensity, every emotion of the hierarchy lies in [0, 1]. */
  lemma EvaluationBounds(l: Levels, s: Stimulus, se: SuperegoState, lastOutcome: Option<string>, selfActivated: bool)
    requires LevelsInRange(l)
    requires 0.0 <= s.intensity <= 1.0
    requires 0.0 <= se.culpa <= 1.0 && 0.0 <= se.verguenza <= 1.0
    ensures var ev := EvaluationOf(l, s, se, lastOutcome, selfActivated);
      && QuotaInUnit(ev.quota) && VectorInUnit(ev.vector) && BasicInUnit(ev.basic) && ExtendedInUnit(ev.extended)
      && -1.0 <= ev.feeling.value <= 1.0 && 0.0 <= ev.feeling.intensity <= 1.0
  {
    var q := QuotaFromSoma(l);
    QuotaBounds(l);
    var e := EmotionVectorOf(q, s);
    VectorBounds(q, s);
    var b := BasicFrom(e, BasicContext(if s.stype == Attack then s.intensity else 0.0, false, s.stype == Rejection));
    BasicBounds(e, BasicContext(if s.stype == Attack then s.intensity else 0.0, false, s.stype == Rejection));
    ExtendedBounds(b, se, ExtendedContext(lastOutcome == Some("success"), s.stype == Affection, false));
    DominantInUnit(b);
  }

  /** The dominant basic emotion of in-range emotions is itself in range. */
  lemma DominantInUnit(b: BasicEmotions)
    requires BasicInUnit(b)
    ensures 0.0 <= DominantOf(b).intensity <= 1.0
  {
    DominantIsFirstMax(b);
    var d := DominantOf(b);
    if d.name != NeutralEmotion {
      var k :| 0 <= k < 6 && Entries(b)[k] == d;
    }
  }

  /** The evaluator: each stage overwrites its record in turn. */
  class PsychicIntensity {
    var quotaOfAffects: QuotaOfAffects
    var emotionVector: EmotionVector
    var basicEmotions: BasicEmotions
    var extendedEmotions: ExtendedEmotions
    var feeling: Feeling

    constructor ()
      ensures quotaOfAffects == QuotaOfAffects(0.0, 0.0, 0.0, 0.0, 0.0)
      ensures emotionVector == EmotionVector(0.0, 0.0, 0.0, 0.0, 0.0)
      ensures basicEmotions == BasicEmotions(0.0, 0.0, 0.0, 0.0, 0.0, 0.0)
      ensures extendedEmotions == ExtendedEmotions(0.0, 0.0, 0.0, 0.0, 0.0, 0.0)
      ensures feeling == Feeling(0.0, 0.0, 0.0)
    {
      quotaOfAffects := QuotaOfAffects(0.0, 0.0, 0.0, 0.0, 0.0);
      emotionVector := EmotionVector(0.0, 0.0, 0.0, 0.0, 0.0);
      basicEmotions := BasicEmotions(0.0, 0.0, 0.0, 0.0, 0.0, 0.0);
      extendedEmotions := ExtendedEmotions(0.0, 0.0, 0.0, 0.0, 0.0, 0.0);
      feeling := Feeling(0.0, 0.0, 0.0);
    }

    /** `evaluate`: runs the five stages in order and stores each result. */
    method Evaluate(l: Levels, s: Stimulus, se: SuperegoState, lastOutcome: Option<string>, selfActivated: bool)
      returns (ev: Evaluation)
      modifies this
      ensures ev == EvaluationOf(l, s, se, lastOutcome, selfActivated)
      ensures quotaOfAffects == ev.quota && emotionVector == ev.vector && basicEmotions == ev.basic
      ensures extendedEmotions == ev.extended && feeling == ev.feeling
    {
      quotaOfAffects := QuotaFromSoma(l);
      emotionVector := EmotionVectorOf(quotaOfAffects, s);
      var threat := if s.stype == Attack then s.intensity else 0.0;
      basicEmotions := BasicFrom(emotionVector, BasicContext(threat, false, s.stype == Rejection));
      extendedEmotions := ExtendedFrom(basicEmotions, se,
                                       ExtendedContext(lastOutcome == Some("success"), s.stype == Affection, false));
      feeling := FeelingFrom(emotionVector, basicEmotions, extendedEmotions, selfActivated);
      ev := Evaluation(quotaOfAffects, emotionVector, basicEmotions, extendedEmotions, feeling);
    }
  }
}
