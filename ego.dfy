// The ego: the executive that runs the primary process, then the secondary
// process, computes the modulators, checks the somatic markers of the words
// of the message, and takes the final decision by a fixed priority: somatic
// avoidance, then pure primary process under maximal arousal, then an active
// defense, then the secondary process's own decision.

module Ego {
  import opened Util
  import opened Types
  import opened Evaluation
  import Soma
  import Id
  import Superego
  import Modulators
  import opened PrimaryProcess
  import opened SecondaryProcess
  import opened Memory

  // ---------------------------------------------------------------------------
  // Somatic markers of the message
  // ---------------------------------------------------------------------------

  /** A word of the message whose marker remembers pain. */
  datatype SomaticWarning = SomaticWarning(concept: string, valence: real)

  /** A marker counts as a warning below this valence. */
  const WarningValence: real := -0.5
  /** A warning overrides every other decision below this valence. */
  const OverrideValence: real := -0.7

  predicate Warns(markers: seq<Marker>, w: string)
  {
    Get(markers, w).Some? && Get(markers, w).value.valence < WarningValence
  }

  /**
   * `_checkSomaticMarkers` over the space-separated words of the normalized
   * message: the first word, in order, whose marker has a valence under -0.5.
   */
  function FirstWarning(words: seq<string>, markers: seq<Marker>): (r: Option<SomaticWarning>)
    ensures r.None? <==> forall i :: 0 <= i < |words| ==> !Warns(markers, words[i])
    ensures r.Some? ==>
      exists i :: 0 <= i < |words| && words[i] == r.value.concept && Warns(markers, words[i])
        && r.value.valence == Get(markers, words[i]).value.valence
        && forall j :: 0 <= j < i ==> !Warns(markers, words[j])
    decreases |words|
  {
    if words == [] then None
    else if Warns(markers, words[0]) then Some(SomaticWarning(words[0], Get(markers, words[0]).value.valence))
    else
      var r := FirstWarning(words[1..], markers);
      assert forall i :: 0 < i < |words| ==> words[i] == words[1..][i - 1];
      r
  }

  function CheckSomaticMarkers(normalized: string, markers: seq<Marker>): Option<SomaticWarning>
  {
    FirstWarning(SplitOn(normalized, ' '), markers)
  }

  // ---------------------------------------------------------------------------
  // Final decision
  // ---------------------------------------------------------------------------

  /** The psychic instance that took the decision. */
  datatype Instance = Memoria | Ello | SuperegoInstance | Yo

  datatype FinalDecision = FinalDecision(
    mode: Mode,
    instance: Instance,
    behavior: string,
    confidence: real,
    defenseApplied: Option<DefenseKind>,
    action: Option<string>)

  const PrimaryArousal: real := 85.0

  /** The dominant drive's aim, or 'evitar' when there is no drive or its aim is empty. */
  function PrimaryBehavior(ds: DriveState): string
  {
    if ds.dominant.Some? && ds.dominant.value.aim != "" then ds.dominant.value.aim else "evitar"
  }

  /**
   * `_buildFinalDecision`: a warning under -0.7 wins whatever the arousal;
   * otherwise arousal of at least 85 hands the decision to the primary
   * process; otherwise an active defense; otherwise the secondary decision.
   */
  function FinalDecisionOf(pr: PrimaryResult, d: Decision, arousal: real, w: Option<SomaticWarning>): (r: FinalDecision)
    ensures r.instance == Memoria <==> w.Some? && w.value.valence < OverrideValence
    ensures r.instance == Memoria ==>
      r.mode == EvitacionSomatica && r.behavior == "evadir_tema" && r.confidence == 0.8
    ensures r.instance == Ello <==> !(w.Some? && w.value.valence < OverrideValence) && arousal >= PrimaryArousal
    ensures r.instance == Ello ==> r.mode == PrimarioPuro && r.behavior == PrimaryBehavior(pr.driveState)
    ensures r.instance == SuperegoInstance <==>
      !(w.Some? && w.value.valence < OverrideValence) && arousal < PrimaryArousal && pr.hasDefenseActive
    ensures r.instance == SuperegoInstance ==>
      r.mode == DefensaActiva && r.behavior == d.promptBehavior && r.defenseApplied == d.defenseApplied
    ensures r.instance == Yo <==>
      !(w.Some? && w.value.valence < OverrideValence) && arousal < PrimaryArousal && !pr.hasDefenseActive
    ensures r.instance == Yo ==>
      r.mode == d.mode && r.behavior == d.promptBehavior && r.confidence == d.confidence && r.action == Some(d.action)
    ensures r.defenseApplied.Some? ==> r.instance == SuperegoInstance
  {
    if w.Some? && w.value.valence < OverrideValence then
      FinalDecision(EvitacionSomatica, Memoria, "evadir_tema", 0.8, None, None)
    else if arousal >= PrimaryArousal then
      FinalDecision(PrimarioPuro, Ello, PrimaryBehavior(pr.driveState), 0.4, None, None)
    else if pr.hasDefenseActive then
      FinalDecision(DefensaActiva, SuperegoInstance, d.promptBehavior, d.confidence, d.defenseApplied, None)
    else
      FinalDecision(d.mode, Yo, d.promptBehavior, d.confidence, None, Some(d.action))
  }

  /**
   * `_calculateMaxTokens`: the token budget of the resolution tier (the same
   * table as the modulators'), cut to the floor of 70% when a defense was applied.
   */
  function MaxTokensOf(res: Modulators.Resolution, d: FinalDecision): (n: nat)
    ensures d.defenseApplied.None? ==> n == Modulators.MaxTokens(res)
    ensures d.defenseApplied.Some? ==>
      n as real <= Modulators.MaxTokens(res) as real * 0.7 < n as real + 1.0
    ensures n <= 200
  {
    var base := Modulators.MaxTokens(res);
    if d.defenseApplied.Some? then (base as real * 0.7).Floor else base
  }

  /** `_getVoiceModifier`: the voice of the dominant emotion. */
  function VoiceOf(e: EmotionName): (r: string)
    ensures r == "calm and conversational tone" <==> e == NeutralEmotion
  {
    match e
    case Joy => "cheerful and energetic tone"
    case Anger => "aggressive and impatient tone"
    case Fear => "nervous and hesitant tone"
    case Sadness => "soft and melancholic tone"
    case Surprise => "excited and curious tone"
    case Disgust => "dismissive tone"
    case NeutralEmotion => "calm and conversational tone"
  }

  // ---------------------------------------------------------------------------
  // Prompt instructions
  // ---------------------------------------------------------------------------

  /**
   * A line of the ego's instructions. The source checks the text of the lines
   * for 'EMOCIÓN' and 'CONDUCTA'; among the lines that can precede those checks
   * only the secondary process's dominant-emotion line and conduct line carry
   * those words (a somatic concept is a word of the lower-cased message and the
   * other texts are fixed), so the checks are modelled as tests for a secondary
   * line of those two kinds.
   */
  datatype EgoLine =
    | FromSecondary(line: Instruction)
    | EmotionFallback(name: EmotionName)
    | HighArousal
    | LowArousal
    | SomaticAlert(concept: string)
    | FinalConduct(behavior: string)

  function Lifted(ls: seq<Instruction>): (r: seq<EgoLine>)
    ensures |r| == |ls| && forall i :: 0 <= i < |ls| ==> r[i] == FromSecondary(ls[i])
    ensures forall l :: l in r ==> l.FromSecondary?
  {
    seq(|ls|, i requires 0 <= i < |ls| => FromSecondary(ls[i]))
  }

  predicate HasEmotionLine(ls: seq<Instruction>)
  {
    exists i :: 0 <= i < |ls| && ls[i].DominantEmotionLine?
  }

  predicate HasConductLine(ls: seq<Instruction>)
  {
    exists i :: 0 <= i < |ls| && ls[i].ConductLine?
  }

  function ArousalLines(arousal: real): seq<EgoLine>
  {
    if arousal > 70.0 then [HighArousal] else if arousal < 30.0 then [LowArousal] else []
  }

  /** The somatic alert, then the final conduct unless the secondary lines carry a conduct line. */
  function AlertAndConduct(d: FinalDecision, secondary: seq<Instruction>, w: Option<SomaticWarning>): (t: seq<EgoLine>)
    ensures forall l :: l in t ==> l.SomaticAlert? || l.FinalConduct?
    ensures w.Some? ==> SomaticAlert(w.value.concept) in t
    ensures w.None? ==> forall l :: l in t ==> !l.SomaticAlert?
    ensures !HasConductLine(secondary) ==> |t| > 0 && t[|t| - 1] == FinalConduct(d.behavior)
    ensures HasConductLine(secondary) ==> forall l :: l in t ==> !l.FinalConduct?
  {
    var alert := if w.Some? then [SomaticAlert(w.value.concept)] else [];
    var conduct := if HasConductLine(secondary) then [] else [FinalConduct(d.behavior)];
    alert + conduct
  }

  /** The arousal context followed by the alert and the conduct. */
  function ContextLines(d: FinalDecision, secondary: seq<Instruction>, arousal: real,
                        w: Option<SomaticWarning>): (t: seq<EgoLine>)
    ensures forall l :: l in t ==> !l.FromSecondary? && !l.EmotionFallback?
    ensures HighArousal in t <==> arousal > 70.0
    ensures LowArousal in t <==> arousal < 30.0
    ensures w.Some? ==> SomaticAlert(w.value.concept) in t
    ensures w.None? ==> forall l :: l in t ==> !l.SomaticAlert?
    ensures !HasConductLine(secondary) ==> |t| > 0 && t[|t| - 1] == FinalConduct(d.behavior)
    ensures HasConductLine(secondary) ==> forall l :: l in t ==> !l.FinalConduct?
  {
    var rest := AlertAndConduct(d, secondary, w);
    assert HighArousal !in rest && LowArousal !in rest;
    ArousalLines(arousal) + rest
  }

  /** The emotion fallback unless the secondary lines carry an emotion line, then the context lines. */
  function EgoTail(d: FinalDecision, secondary: seq<Instruction>, ev: Evaluation, arousal: real,
                   w: Option<SomaticWarning>): (t: seq<EgoLine>)
    ensures forall l :: l in t ==> !l.FromSecondary?
    ensures HighArousal in t <==> arousal > 70.0
    ensures LowArousal in t <==> arousal < 30.0
    ensures w.Some? ==> SomaticAlert(w.value.concept) in t
    ensures w.None? ==> forall l :: l in t ==> !l.SomaticAlert?
    ensures !HasEmotionLine(secondary) ==> EmotionFallback(DominantOf(ev.basic).name) in t
    ensures HasEmotionLine(secondary) ==> forall l :: l in t ==> !l.EmotionFallback?
    ensures !HasConductLine(secondary) ==> |t| > 0 && t[|t| - 1] == FinalConduct(d.behavior)
    ensures HasConductLine(secondary) ==> forall l :: l in t ==> !l.FinalConduct?
  {
    var context := ContextLines(d, secondary, arousal, w);
    if HasEmotionLine(secondary) then context else [EmotionFallback(DominantOf(ev.basic).name)] + context
  }

  /**
   * `_buildPromptInstructions` of the ego: the secondary lines, an emotion line
   * unless one is there, the arousal context, the somatic alert, and the final
   * conduct unless a conduct line is there.
   */
  function EgoInstructionsOf(d: FinalDecision, secondary: seq<Instruction>, ev: Evaluation, arousal: real,
                             w: Option<SomaticWarning>): (r: seq<EgoLine>)
    ensures |secondary| <= |r| && r[..|secondary|] == Lifted(secondary)
    ensures HighArousal in r <==> arousal > 70.0
    ensures LowArousal in r <==> arousal < 30.0
    ensures w.Some? ==> SomaticAlert(w.value.concept) in r
    ensures w.None? ==> forall l :: l in r ==> !l.SomaticAlert?
    ensures !HasEmotionLine(secondary) ==> EmotionFallback(DominantOf(ev.basic).name) in r
    ensures HasEmotionLine(secondary) ==> forall l :: l in r ==> !l.EmotionFallback?
    ensures !HasConductLine(secondary) ==> r[|r| - 1] == FinalConduct(d.behavior)
    ensures HasConductLine(secondary) ==> forall l :: l in r ==> !l.FinalConduct?
  {
    var base := Lifted(secondary);
    var tail := EgoTail(d, secondary, ev, arousal, w);
    var r := base + tail;
    assert r[..|secondary|] == base;
    r
  }

  // ---------------------------------------------------------------------------
  // History
  // ---------------------------------------------------------------------------

  datatype EgoHistoryEntry = EgoHistoryEntry(
    percepcion: StimulusType, decision: Mode, emotion: EmotionName, feeling: real, timestamp: int)

  const EgoHistoryCap: nat := 100

  /** The history after a push and, when longer than 100, `slice(-100)`. */
  function Appended(h: seq<EgoHistoryEntry>, e: EgoHistoryEntry): (r: seq<EgoHistoryEntry>)
    ensures |r| <= EgoHistoryCap && r != [] && r[|r| - 1] == e
    ensures |h| < EgoHistoryCap ==> r == h + [e]
    ensures exists k :: 0 <= k <= |h| && r == h[k..] + [e]
  {
    var p := h + [e];
    if |p| > EgoHistoryCap then
      assert p[|p| - EgoHistoryCap..] == h[|h| + 1 - EgoHistoryCap..] + [e];
      p[|p| - EgoHistoryCap..]
    else
      assert h == h[0..];
      p
  }

  /** `_getLastOutcome`: the sign of the last recorded feeling. */
  function LastOutcome(h: seq<EgoHistoryEntry>): (r: Option<string>)
    ensures r.None? <==> h == []
    ensures r == Some("positive") <==> h != [] && h[|h| - 1].feeling > 0.0
    ensures r == Some("negative") <==> h != [] && h[|h| - 1].feeling < 0.0
    ensures r == Some("neutral") <==> h != [] && h[|h| - 1].feeling == 0.0
  {
    if h == [] then None
    else
      var f := h[|h| - 1].feeling;
      Some(if f > 0.0 then "positive" else if f < 0.0 then "negative" else "neutral")
  }

  // ---------------------------------------------------------------------------
  // The whole ego step
  // ---------------------------------------------------------------------------

  datatype EgoResult = EgoResult(
    decision: FinalDecision,
    instructions: seq<EgoLine>,
    modulatorState: Modulators.ModulatorState,
    emotion: EmotionName,
    feeling: real,
    maxTokens: nat,
    voice: string,
    warning: Option<SomaticWarning>,
    primary: PrimaryResult,
    secondary: SecondaryResult)

  /** What `process` returns, given the results of the two processes and the modulators. */
  function ResultOf(pr: PrimaryResult, sr: SecondaryResult, ms: Modulators.ModulatorState,
                    w: Option<SomaticWarning>): EgoResult
  {
    var d := FinalDecisionOf(pr, sr.decision, ms.arousal, w);
    EgoResult(d, EgoInstructionsOf(d, sr.promptInstructions, pr.evaluation, ms.arousal, w), ms,
              DominantOf(sr.evaluation.basic).name, sr.feeling.value,
              MaxTokensOf(ms.resolution, d), VoiceOf(DominantOf(sr.evaluation.basic).name), w, pr, sr)
  }

  /**
   * `process` as a value: `reps` are the primal repressions, `n` the norms,
   * `h` the decision history, `rand` the random draws of the defense track.
   */
  function EgoOf(st: Soma.SomaState, p: Stimulus, markers: seq<Marker>, reps: seq<string>, n: Superego.Norms,
                 h: seq<EgoHistoryEntry>, rand: nat -> real): EgoResult
  {
    var pr := PrimaryOf(st.tanks, p, reps, n, LastOutcome(h), true, rand);
    var sr := SecondaryOf(pr);
    var ms := Modulators.StateOf(st, Id.DrivesOf(st.tanks));
    ResultOf(pr, sr, ms, CheckSomaticMarkers(p.normalized, markers))
  }

  function EntryOf(p: Stimulus, r: EgoResult, now: int): EgoHistoryEntry
  {
    EgoHistoryEntry(p.stype, r.decision.mode, r.emotion, r.feeling, now)
  }

  /** With no active defense and an undefended secondary decision, no defense reaches the ego's decision. */
  lemma UndefendedResult(pr: PrimaryResult, sr: SecondaryResult, ms: Modulators.ModulatorState,
                         w: Option<SomaticWarning>)
    requires !pr.hasDefenseActive && sr.decision.mode in {EmotionallyCharged, RealityAdapted, Standard}
    ensures var r := ResultOf(pr, sr, ms, w);
      && r.decision.mode != DefensaActiva
      && r.decision.mode != DefenseMediated
      && r.decision.defenseApplied.None?
      && r.maxTokens == Modulators.MaxTokens(ms.resolution)
  {
  }

  /**
   * Under the engine's own wiring the ego never decides in DEFENSA_ACTIVA or
   * DEFENSE_MEDIATED mode and never applies a defense, so its token budget is
   * never cut.
   */
  lemma NeverDefends(st: Soma.SomaState, p: Stimulus, markers: seq<Marker>, reps: seq<string>, n: Superego.Norms,
                     h: seq<EgoHistoryEntry>, rand: nat -> real)
    ensures var r := EgoOf(st, p, markers, reps, n, h, rand);
      && r.decision.mode != DefensaActiva
      && r.decision.mode != DefenseMediated
      && r.decision.defenseApplied.None?
      && r.maxTokens == Modulators.MaxTokens(r.modulatorState.resolution)
  {
    var pr := PrimaryOf(st.tanks, p, reps, n, LastOutcome(h), true, rand);
    PrimaryNeverDefends(st.tanks, p, reps, n, LastOutcome(h), true, rand);
    NeverDefenseMediated(st.tanks, p, reps, n, LastOutcome(h), true, rand);
    UndefendedResult(pr, SecondaryOf(pr), Modulators.StateOf(st, Id.DrivesOf(st.tanks)),
                     CheckSomaticMarkers(p.normalized, markers));
  }

  /**
   * The secondary lines always carry an emotion line and a conduct line, so the
   * ego adds neither: the final behaviour of an override (such as
   * 'evadir_tema') never reaches the instructions, whose conduct line is the
   * secondary process's.
   */
  lemma FinalConductNeverInstructed(pr: PrimaryResult, ms: Modulators.ModulatorState, w: Option<SomaticWarning>)
    ensures var sr := SecondaryOf(pr);
      var r := ResultOf(pr, sr, ms, w);
      && (forall l :: l in r.instructions ==> !l.FinalConduct? && !l.EmotionFallback?)
      && r.instructions[3] == FromSecondary(ConductLine(sr.decision.promptBehavior))
  {
    var sr := SecondaryOf(pr);
    var r := ResultOf(pr, sr, ms, w);
    var ls := sr.promptInstructions;
    assert ls[..4][0] == ls[0] && ls[..4][3] == ls[3];
    assert ls[0].DominantEmotionLine? && ls[3].ConductLine?;
    assert HasEmotionLine(ls) && HasConductLine(ls);
    assert r.instructions[..|ls|][3] == r.instructions[3];
  }

  class Ego {
    const id: Id.Id
    const superego: Superego.Superego
    const modulators: Modulators.Modulators
    const primaryProcess: PrimaryProcess
    const secondaryProcess: SecondaryProcess
    var decisionHistory: seq<EgoHistoryEntry>

    constructor ()
      ensures fresh(id) && fresh(superego) && fresh(modulators) && fresh(primaryProcess) && fresh(secondaryProcess)
      ensures primaryProcess.defenseTrack.superego == superego
      ensures superego.norms == Superego.DefaultNorms
      ensures primaryProcess.perceptionTrack.primalRepressions == []
      ensures decisionHistory == []
    {
      id := new Id.Id();
      var s := new Superego.Superego(Superego.DefaultNorms);
      superego := s;
      modulators := new Modulators.Modulators();
      primaryProcess := new PrimaryProcess(s);
      secondaryProcess := new SecondaryProcess();
      decisionHistory := [];
    }

    /** The first phase of `process`: the primary process, with the self always active. */
    method RunPrimary(st: Soma.SomaState, p: Stimulus, lastOutcome: Option<string>, rand: nat -> real)
      returns (pr: PrimaryResult)
      modifies primaryProcess, primaryProcess.driveTrack, primaryProcess.perceptionTrack,
               primaryProcess.defenseTrack, primaryProcess.defenseTrack.superego, primaryProcess.psychicIntensity
      ensures pr == PrimaryOf(st.tanks, p, old(primaryProcess.perceptionTrack.primalRepressions),
                              old(primaryProcess.defenseTrack.superego.norms), lastOutcome, true, rand)
      ensures primaryProcess.perceptionTrack.primalRepressions == old(primaryProcess.perceptionTrack.primalRepressions)
      ensures primaryProcess.defenseTrack.superego.norms == old(primaryProcess.defenseTrack.superego.norms)
      ensures primaryProcess.lastProcessResult == Some(pr)
      ensures unchanged(secondaryProcess.actionDecisionTrack, secondaryProcess.transformationTrack)
    {
      ghost var log, queue := secondaryProcess.actionDecisionTrack.decisionHistory,
                              secondaryProcess.transformationTrack.feedbackQueue;
      pr := primaryProcess.Process(st, p, superego, lastOutcome, true, rand);
      assert secondaryProcess.actionDecisionTrack.decisionHistory == log
          && secondaryProcess.transformationTrack.feedbackQueue == queue;
    }

    /** The second phase of `process`: the secondary process on the primary result. */
    method RunSecondary(pr: PrimaryResult) returns (sr: SecondaryResult)
      modifies secondaryProcess, secondaryProcess.transformationTrack, secondaryProcess.desireSelectionTrack,
               secondaryProcess.actionDecisionTrack
      ensures sr == SecondaryOf(pr)
      ensures secondaryProcess.lastResult == Some(sr)
      ensures secondaryProcess.actionDecisionTrack.decisionHistory
           == DecisionLog(old(secondaryProcess.actionDecisionTrack.decisionHistory), sr)
      ensures secondaryProcess.transformationTrack.feedbackQueue
           == PushBounded(old(secondaryProcess.transformationTrack.feedbackQueue), FeedbackOf(sr.decision), FeedbackCap)
      ensures unchanged(primaryProcess, primaryProcess.perceptionTrack, primaryProcess.defenseTrack.superego)
    {
      sr := secondaryProcess.Process(pr);
    }

    /** The third phase of `process`: the drives of the id, then the modulators computed from them. */
    method Modulate(st: Soma.SomaState) returns (ms: Modulators.ModulatorState)
      modifies id, modulators
      ensures ms == Modulators.StateOf(st, Id.DrivesOf(st.tanks))
      ensures modulators.currentState == ms
      ensures id.impulsosActivos == Id.DrivesOf(st.tanks).todos && id.catexias == old(id.catexias)
      ensures unchanged(primaryProcess, primaryProcess.perceptionTrack, primaryProcess.defenseTrack.superego,
                        secondaryProcess, secondaryProcess.actionDecisionTrack, secondaryProcess.transformationTrack)
    {
      var drives := id.GenerateDrives(st.tanks);
      ms := modulators.Calculate(st, drives);
    }

    /** The three phases of `process` in order, and what they leave in the ego's parts. */
    method RunPhases(st: Soma.SomaState, p: Stimulus, rand: nat -> real)
      returns (pr: PrimaryResult, sr: SecondaryResult, ms: Modulators.ModulatorState)
      modifies id, modulators, primaryProcess, primaryProcess.driveTrack, primaryProcess.perceptionTrack,
               primaryProcess.defenseTrack, primaryProcess.defenseTrack.superego, primaryProcess.psychicIntensity,
               secondaryProcess, secondaryProcess.transformationTrack, secondaryProcess.desireSelectionTrack,
               secondaryProcess.actionDecisionTrack
      ensures pr == PrimaryOf(st.tanks, p, old(primaryProcess.perceptionTrack.primalRepressions),
                              old(primaryProcess.defenseTrack.superego.norms), LastOutcome(old(decisionHistory)), true, rand)
      ensures sr == SecondaryOf(pr) && ms == Modulators.StateOf(st, Id.DrivesOf(st.tanks))
      ensures PartsAfter(st, pr, sr, ms, old(primaryProcess.perceptionTrack.primalRepressions),
                         old(primaryProcess.defenseTrack.superego.norms),
                         old(secondaryProcess.actionDecisionTrack.decisionHistory),
                         old(secondaryProcess.transformationTrack.feedbackQueue))
    {
      ghost var reps, n := primaryProcess.perceptionTrack.primalRepressions, primaryProcess.defenseTrack.superego.norms;
      ghost var log, queue := secondaryProcess.actionDecisionTrack.decisionHistory,
                              secondaryProcess.transformationTrack.feedbackQueue;
      pr := RunPrimary(st, p, LastOutcome(decisionHistory), rand);
      sr := RunSecondary(pr);
      ms := Modulate(st);
      assert PartsAfter(st, pr, sr, ms, reps, n, log, queue);
    }

    /** `process`: the three phases, the somatic markers, the final decision, the history. */
    method Process(st: Soma.SomaState, p: Stimulus, mem: MemoryState, now: int, rand: nat -> real)
      returns (r: EgoResult)
      modifies this, id, modulators, primaryProcess, primaryProcess.driveTrack, primaryProcess.perceptionTrack,
               primaryProcess.defenseTrack, primaryProcess.defenseTrack.superego, primaryProcess.psychicIntensity,
               secondaryProcess, secondaryProcess.transformationTrack, secondaryProcess.desireSelectionTrack,
               secondaryProcess.actionDecisionTrack
      ensures r == EgoOf(st, p, mem.markers, old(primaryProcess.perceptionTrack.primalRepressions),
                         old(primaryProcess.defenseTrack.superego.norms), old(decisionHistory), rand)
      ensures decisionHistory == Appended(old(decisionHistory), EntryOf(p, r, now))
      ensures PartsAfter(st, r.primary, r.secondary, r.modulatorState, old(primaryProcess.perceptionTrack.primalRepressions),
                         old(primaryProcess.defenseTrack.superego.norms),
                         old(secondaryProcess.actionDecisionTrack.decisionHistory),
                         old(secondaryProcess.transformationTrack.feedbackQueue))
    {
      ghost var reps, n := primaryProcess.perceptionTrack.primalRepressions, primaryProcess.defenseTrack.superego.norms;
      ghost var log, queue := secondaryProcess.actionDecisionTrack.decisionHistory,
                              secondaryProcess.transformationTrack.feedbackQueue;
      var history := decisionHistory;
      var pr, sr, ms := RunPhases(st, p, rand);
      assert PartsAfter(st, pr, sr, ms, reps, n, log, queue);
      r := ResultOf(pr, sr, ms, CheckSomaticMarkers(p.normalized, mem.markers));
      assert r == EgoOf(st, p, mem.markers, reps, n, history, rand);
      Log(EntryOf(p, r, now));
    }

    /** The bounded push of one entry onto the history, which no other part of the ego sees. */
    method Log(e: EgoHistoryEntry)
      modifies this
      ensures decisionHistory == Appended(old(decisionHistory), e)
      ensures unchanged(id, modulators, primaryProcess, primaryProcess.perceptionTrack, primaryProcess.defenseTrack,
                        primaryProcess.defenseTrack.superego, secondaryProcess, secondaryProcess.actionDecisionTrack,
                        secondaryProcess.transformationTrack)
    {
      decisionHistory := Appended(decisionHistory, e);
    }

    /** The parts whose state a turn leaves as `PartsAfter` describes. */
    ghost function Parts(): set<object>
    {
      {id, modulators, primaryProcess, primaryProcess.perceptionTrack, primaryProcess.defenseTrack,
       primaryProcess.defenseTrack.superego, secondaryProcess, secondaryProcess.actionDecisionTrack,
       secondaryProcess.transformationTrack}
    }

    /**
     * What a turn on the soma state `st` leaves in the ego's parts, given the
     * results `pr`, `sr` and `ms` of its three phases: the id's drives of
     * `st`, the modulators' state `ms`, `pr` and `sr` as the two processes'
     * last results, the primal repressions `reps` and the norms `n` as they
     * were, and the secondary process's decision log and feedback queue
     * advanced from `log` and `queue`.
     */
    ghost predicate PartsAfter(st: Soma.SomaState, pr: PrimaryResult, sr: SecondaryResult, ms: Modulators.ModulatorState,
                               reps: seq<string>, n: Superego.Norms, log: seq<HistoryEntry>, queue: seq<FeedbackRep>)
      reads Parts()
    {
      && id.impulsosActivos == Id.DrivesOf(st.tanks).todos
      && modulators.currentState == ms
      && primaryProcess.perceptionTrack.primalRepressions == reps
      && primaryProcess.defenseTrack.superego.norms == n
      && primaryProcess.lastProcessResult == Some(pr)
      && secondaryProcess.lastResult == Some(sr)
      && secondaryProcess.actionDecisionTrack.decisionHistory == DecisionLog(log, sr)
      && secondaryProcess.transformationTrack.feedbackQueue == PushBounded(queue, FeedbackOf(sr.decision), FeedbackCap)
    }

    function GetDecisionHistory(limit: nat): (r: seq<EgoHistoryEntry>)
      reads this
      ensures |r| == if limit == 0 || limit >= |decisionHistory| then |decisionHistory| else limit
      ensures exists k :: 0 <= k <= |decisionHistory| && r == decisionHistory[k..]
    {
      Recent(decisionHistory, limit)
    }

    method AddPrimalRepression(concept: string)
      modifies primaryProcess.perceptionTrack
      ensures primaryProcess.perceptionTrack.primalRepressions
           == AddUnique(old(primaryProcess.perceptionTrack.primalRepressions), Lower(concept))
    {
      primaryProcess.AddPrimalRepression(concept);
    }
  }
}
