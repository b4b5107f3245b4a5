// Emotional modulators: arousal weighed from the tank deficits, the
// cognitive resolution it allows, the selection threshold, and the first
// emergent emotion whose pattern matches.

module Modulators {
  import opened Util
  import opened Types
  import Soma
  import Id

  /** The arousal weight of each tank, in the order the weights are declared. */
  const ArousalWeights: seq<(Tank, real)> :=
    [(Integridad, 0.4), (Energia, 0.25), (Certeza, 0.2), (Afiliacion, 0.1), (Competencia, 0.05)]

  /** A tank's arousal contribution; a level of exactly 0 reads as 50 (`|| 50`). */
  function Contribution(l: Levels, w: (Tank, real)): real
  {
    (100.0 - OrDefault(l.Get(w.0), 50.0)) * w.1
  }

  /** The weighted sum over the first weights, before clamping. */
  function ArousalSum(l: Levels, ws: seq<(Tank, real)>): real
  {
    if ws == [] then 0.0 else ArousalSum(l, ws[..|ws| - 1]) + Contribution(l, ws[|ws| - 1])
  }

  /** `_calculateArousal` as a specification. */
  function ArousalOf(l: Levels): (a: real)
    ensures 0.0 <= a <= 100.0
  {
    Min(100.0, Max(0.0, ArousalSum(l, ArousalWeights)))
  }

  /** The weighted deficit written out, weights adding up to 1. */
  function WeightedDeficit(l: Levels): real
  {
    0.4 * (100.0 - OrDefault(l.integridad, 50.0)) + 0.25 * (100.0 - OrDefault(l.energia, 50.0))
    + 0.2 * (100.0 - OrDefault(l.certeza, 50.0)) + 0.1 * (100.0 - OrDefault(l.afiliacion, 50.0))
    + 0.05 * (100.0 - OrDefault(l.competencia, 50.0))
  }

  /** The accumulation over the weight table is the weighted deficit, and arousal clamps it. */
  lemma ArousalClosedForm(l: Levels)
    ensures ArousalSum(l, ArousalWeights) == WeightedDeficit(l)
    ensures ArousalOf(l) == Clamp(WeightedDeficit(l), 0.0, 100.0)
  {
    var ws := ArousalWeights;
    assert ArousalSum(l, ws[..1]) == Contribution(l, ws[0]) by { assert ws[..1][..0] == []; }
    assert ArousalSum(l, ws[..2]) == ArousalSum(l, ws[..1]) + Contribution(l, ws[1]) by { assert ws[..2][..1] == ws[..1]; }
    assert ArousalSum(l, ws[..3]) == ArousalSum(l, ws[..2]) + Contribution(l, ws[2]) by { assert ws[..3][..2] == ws[..2]; }
    assert ArousalSum(l, ws[..4]) == ArousalSum(l, ws[..3]) + Contribution(l, ws[3]) by { assert ws[..4][..3] == ws[..3]; }
    assert ArousalSum(l, ws) == ArousalSum(l, ws[..4]) + Contribution(l, ws[4]) by { assert ws[..4] == ws[..|ws| - 1]; }
  }

  /** For levels in [0, 100] the weighted sum already lies in [0, 100]. */
  lemma ArousalUnclamped(l: Levels)
    requires forall t :: 0.0 <= l.Get(t) <= 100.0
    ensures ArousalOf(l) == ArousalSum(l, ArousalWeights)
  {
    ArousalClosedForm(l);
    assert 0.0 <= l.Get(Integridad) <= 100.0 && 0.0 <= l.Get(Energia) <= 100.0;
    assert 0.0 <= l.Get(Certeza) <= 100.0 && 0.0 <= l.Get(Afiliacion) <= 100.0;
    assert 0.0 <= l.Get(Competencia) <= 100.0;
    forall t ensures 0.0 <= 100.0 - OrDefault(l.Get(t), 50.0) <= 100.0 { }
    assert 0.0 <= 100.0 - OrDefault(l.integridad, 50.0) <= 100.0 by { assert l.integridad == l.Get(Integridad); }
    assert 0.0 <= 100.0 - OrDefault(l.energia, 50.0) <= 100.0 by { assert l.energia == l.Get(Energia); }
    assert 0.0 <= 100.0 - OrDefault(l.certeza, 50.0) <= 100.0 by { assert l.certeza == l.Get(Certeza); }
    assert 0.0 <= 100.0 - OrDefault(l.afiliacion, 50.0) <= 100.0 by { assert l.afiliacion == l.Get(Afiliacion); }
    assert 0.0 <= 100.0 - OrDefault(l.competencia, 50.0) <= 100.0 by { assert l.competencia == l.Get(Competencia); }
  }

  /** A tank at exactly 0 raises arousal exactly as a tank at 50 would. */
  lemma ZeroReadsAsFifty(l: Levels, t: Tank)
    requires l.Get(t) == 0.0
    ensures ArousalOf(l) == ArousalOf(l.Set(t, 50.0))
  {
    ArousalClosedForm(l);
    ArousalClosedForm(l.Set(t, 50.0));
  }

  /** `_calculateArousal`: an accumulation loop over the weights. */
  method CalculateArousal(l: Levels) returns (arousal: real)
    ensures arousal == ArousalOf(l)
  {
    arousal := 0.0;
    var ws := ArousalWeights;
    var k := 0;
    while k < |ws|
      invariant 0 <= k <= |ws|
      invariant arousal == ArousalSum(l, ws[..k])
    {
      assert ws[..k + 1][..k] == ws[..k];
      var level := OrDefault(l.Get(ws[k].0), 50.0);
      arousal := arousal + (100.0 - level) * ws[k].1;
      k := k + 1;
    }
    assert ws[..k] == ws;
    arousal := Min(100.0, Max(0.0, arousal));
  }

  /** Cognitive resolution tiers, from the finest to the coarsest. */
  datatype Resolution = ResHigh | ResMedium | ResLow | ResTunnel

  /** `_calculateResolution`. */
  function ResolutionOf(a: real): (r: Resolution)
    ensures r == ResTunnel <==> a >= 85.0
    ensures r == ResLow <==> 70.0 <= a < 85.0
    ensures r == ResMedium <==> 50.0 <= a < 70.0
    ensures r == ResHigh <==> a < 50.0
  {
    if a >= 85.0 then ResTunnel
    else if a >= 70.0 then ResLow
    else if a >= 50.0 then ResMedium
    else ResHigh
  }

  function Coarseness(r: Resolution): nat
  {
    match r
    case ResHigh => 0
    case ResMedium => 1
    case ResLow => 2
    case ResTunnel => 3
  }

  /** Higher arousal never yields a finer resolution. */
  lemma ResolutionMonotone(a1: real, a2: real)
    requires a1 <= a2
    ensures Coarseness(ResolutionOf(a1)) <= Coarseness(ResolutionOf(a2))
  {
  }

  /** The response length each resolution allows. */
  function MaxTokens(r: Resolution): (n: nat)
    ensures n in {200, 150, 80, 40}
  {
    match r
    case ResHigh => 200
    case ResMedium => 150
    case ResLow => 80
    case ResTunnel => 40
  }

  /** A coarser resolution always allows fewer tokens. */
  lemma MaxTokensShrink(r1: Resolution, r2: Resolution)
    requires Coarseness(r1) < Coarseness(r2)
    ensures MaxTokens(r2) < MaxTokens(r1)
  {
  }

  function CognitiveState(r: Resolution): string
  {
    match r
    case ResHigh => "Análisis profundo, matices, memoria completa"
    case ResMedium => "Análisis normal, algo de contexto"
    case ResLow => "Respuestas cortas, heurísticas rápidas"
    case ResTunnel => "Visión de túnel, solo lo urgente"
  }

  /** `_calculateThreshold`: how stubbornly the current goal is held. */
  function ThresholdOf(criticalNeeds: seq<Tank>, dominante: Option<Id.Impulse>): (n: nat)
    ensures n in {50, 70, 80}
    ensures n == 80 <==> |criticalNeeds| > 0
    ensures n == 70 <==> |criticalNeeds| == 0 && dominante.Some? && dominante.value.intensidad > 0.7
  {
    if |criticalNeeds| > 0 then 80
    else if dominante.Some? && dominante.value.intensidad > 0.7 then 70
    else 50
  }

  // ---------------------------------------------------------------- emergent emotions

  datatype Mood = Ira | Miedo | Tristeza | Alegria | Ansiedad | Aburrimiento | NeutralMood

  /** The patterns in the order they are tried; neutral is the fallback. */
  const MoodOrder: seq<Mood> := [Ira, Miedo, Tristeza, Alegria, Ansiedad, Aburrimiento]

  /** What the emotion patterns look at. */
  datatype PatternInput = PatternInput(
    arousal: real, resolution: Resolution, selectionThreshold: nat, tanks: Levels, dominantDrive: Option<Id.Impulse>)

  predicate Condition(mood: Mood, m: PatternInput)
  {
    match mood
    case Ira => m.arousal > 70.0 && m.dominantDrive.Some? && m.dominantDrive.value.pulsion == "autodefensa"
    case Miedo => m.arousal > 60.0 && m.resolution == ResLow && m.tanks.integridad < 40.0
    case Tristeza => m.tanks.afiliacion < 30.0 && m.arousal < 50.0
    case Alegria => m.arousal < 40.0 && m.tanks.afiliacion > 70.0
    case Ansiedad => m.tanks.certeza < 40.0 && m.arousal > 50.0
    case Aburrimiento => m.arousal < 20.0 && m.tanks.competencia < 50.0
    case NeutralMood => true
  }

  /** The first mood of `ms` whose condition holds, or neutral. */
  function FirstMood(ms: seq<Mood>, m: PatternInput): Mood
  {
    if ms == [] then NeutralMood
    else if Condition(ms[0], m) then ms[0]
    else FirstMood(ms[1..], m)
  }

  /** The first matching pattern wins; neutral is returned only when none matches. */
  lemma {:induction false} FirstMoodIsFirst(ms: seq<Mood>, m: PatternInput)
    requires NeutralMood !in ms
    ensures var r := FirstMood(ms, m);
      && (r == NeutralMood <==> forall k :: 0 <= k < |ms| ==> !Condition(ms[k], m))
      && (r != NeutralMood ==>
            exists k :: 0 <= k < |ms| && ms[k] == r && Condition(r, m) && forall j :: 0 <= j < k ==> !Condition(ms[j], m))
    decreases |ms|
  {
    if ms != [] && !Condition(ms[0], m) {
      FirstMoodIsFirst(ms[1..], m);
      var r := FirstMood(ms, m);
      if r != NeutralMood {
        var k :| 0 <= k < |ms[1..]| && ms[1..][k] == r && Condition(r, m)
                 && forall j :: 0 <= j < k ==> !Condition(ms[1..][j], m);
        assert ms[k + 1] == r;
        forall j | 0 <= j < k + 1 ensures !Condition(ms[j], m)
        {
          if j > 0 {
            assert ms[j] == ms[1..][j - 1];
          }
        }
      }
    }
  }

  /** `_detectEmotion` as a specification. */
  function DetectedMood(m: PatternInput): Mood
  {
    FirstMood(MoodOrder, m)
  }

  /** Fear fires only between arousal 70 (inclusive) and 85 (exclusive). */
  lemma MiedoOnlyMidArousal(m: PatternInput)
    requires m.resolution == ResolutionOf(m.arousal)
    requires DetectedMood(m) == Miedo
    ensures 70.0 <= m.arousal < 85.0
  {
    FirstMoodIsFirst(MoodOrder, m);
    var k :| 0 <= k < |MoodOrder| && MoodOrder[k] == Miedo && Condition(Miedo, m);
  }

  /** `_detectEmotion`: a first-match loop over the ordered patterns. */
  method DetectEmotion(m: PatternInput) returns (mood: Mood)
    ensures mood == DetectedMood(m)
  {
    var ms := MoodOrder;
    var k := 0;
    while k < |ms|
      invariant 0 <= k <= |ms|
      invariant FirstMood(ms[k..], m) == FirstMood(ms, m)
    {
      if Condition(ms[k], m) {
        return ms[k];
      }
      assert ms[k..][1..] == ms[k + 1..];
      k := k + 1;
    }
    mood := NeutralMood;
  }

  function PromptModifier(mood: Mood): string
  {
    match mood
    case Ira => "Estás ENOJADO. Responde cortante, directo, sin paciencia para explicaciones."
    case Miedo => "Sientes MIEDO. Intenta evitar el conflicto, responde de forma evasiva."
    case Tristeza => "Te sientes SOLO y triste. Responde de forma melancólica, buscando conexión."
    case Alegria => "Estás FELIZ. Responde con entusiasmo, humor y buena onda."
    case Ansiedad => "Sientes ANSIEDAD. Responde con preguntas, buscando claridad, algo nervioso."
    case Aburrimiento => "Estás ABURRIDO. Responde con poco interés, buscando algo más estimulante."
    case NeutralMood => "Estás en estado neutro. Responde de forma balanceada."
  }

  function VoiceModifier(mood: Mood): (s: string)
    ensures s != ""
  {
    match mood
    case Ira => "aggressive and impatient tone"
    case Miedo => "nervous and hesitant tone"
    case Tristeza => "soft and melancholic tone"
    case Alegria => "cheerful and energetic tone"
    case Ansiedad => "uncertain and slightly rushed tone"
    case Aburrimiento => "flat and disinterested tone"
    case NeutralMood => "calm and conversational tone"
  }

  /** `_getArousalDescriptor`. */
  function ArousalDescriptor(a: real): string
  {
    if a >= 85.0 then "CRÍTICO - modo pánico"
    else if a >= 70.0 then "Alto - muy estresado"
    else if a >= 50.0 then "Moderado - alerta"
    else if a >= 30.0 then "Bajo - tranquilo"
    else "Mínimo - relajado"
  }

  /** The modulator state; `emotionData` is the matched pattern, absent before the first calculation. */
  datatype ModulatorState = ModulatorState(
    arousal: real, resolution: Resolution, selectionThreshold: nat, emotion: Mood, emotionData: Option<Mood>)

  const InitialState: ModulatorState := ModulatorState(50.0, ResHigh, 50, NeutralMood, None)

  /** `calculate` as a specification. */
  function StateOf(st: Soma.SomaState, drives: Id.Drives): (s: ModulatorState)
    ensures 0.0 <= s.arousal <= 100.0
    ensures s.resolution == ResolutionOf(s.arousal)
    ensures s.emotionData == Some(s.emotion)
  {
    var arousal := ArousalOf(st.tanks);
    var resolution := ResolutionOf(arousal);
    var threshold := ThresholdOf(st.criticalNeeds, drives.dominante);
    var mood := DetectedMood(PatternInput(arousal, resolution, threshold, st.tanks, drives.dominante));
    ModulatorState(arousal, resolution, threshold, mood, Some(mood))
  }

  datatype PromptModifiers = PromptModifiers(
    emotionInstruction: string, voiceModifier: string, suggestedMaxTokens: nat,
    cognitiveState: string, arousalLevel: string, focusLevel: string)

  /** `getPromptModifiers` for a given state. */
  function PromptModifiersOf(s: ModulatorState): (p: PromptModifiers)
    ensures p.focusLevel == "alto" <==> s.selectionThreshold > 60
    ensures p.suggestedMaxTokens == MaxTokens(s.resolution)
    ensures s.emotionData.None? ==> p.emotionInstruction == ""
    ensures p.voiceModifier == "" <==> s.emotionData.None?
  {
    PromptModifiers(
      if s.emotionData.Some? then PromptModifier(s.emotionData.value) else "",
      if s.emotionData.Some? then VoiceModifier(s.emotionData.value) else "",
      MaxTokens(s.resolution),
      CognitiveState(s.resolution),
      ArousalDescriptor(s.arousal),
      if s.selectionThreshold > 60 then "alto" else "normal")
  }

  class Modulators {
    var currentState: ModulatorState

    constructor ()
      ensures currentState == InitialState
    {
      currentState := InitialState;
    }

    /** `calculate`: arousal, resolution, threshold and emotion, stored as the current state. */
    method Calculate(st: Soma.SomaState, drives: Id.Drives) returns (s: ModulatorState)
      modifies this
      ensures s == StateOf(st, drives) && currentState == s
    {
      var arousal := CalculateArousal(st.tanks);
      var resolution := ResolutionOf(arousal);
      var threshold := ThresholdOf(st.criticalNeeds, drives.dominante);
      var mood := DetectEmotion(PatternInput(arousal, resolution, threshold, st.tanks, drives.dominante));
      currentState := ModulatorState(arousal, resolution, threshold, mood, Some(mood));
      s := currentState;
    }

    function GetPromptModifiers(): PromptModifiers
      reads this
    {
      PromptModifiersOf(currentState)
    }

    method Restore(data: Option<ModulatorState>)
      modifies this
      ensures currentState == data.GetOr(old(currentState))
    {
      if data.Some? {
        currentState := data.value;
      }
    }
  }
}
