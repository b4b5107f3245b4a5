// The secondary process: the primary process's proposals receive words, the
// viable ones are ranked by affect, up to three are simulated as trial actions
// under the tests of causality and reality, and the action decision track picks
// the winner and feeds it back as a thing representative.

module SecondaryProcess {
  import opened Util
  import opened Types
  import opened Evaluation
  import Superego
  import opened PrimaryProcess

  // ---------------------------------------------------------------------------
  // Word representatives
  // ---------------------------------------------------------------------------

  /** The word assigned to a thing representative; it can become conscious. */
  class WordRepresentative {
    const word: string
    var feeling: real
    var isConscious: bool
    var selfReference: bool

    constructor (word: string, feeling: real)
      ensures this.word == word && this.feeling == feeling
      ensures !isConscious && !selfReference
    {
      this.word := word;
      this.feeling := feeling;
      isConscious := false;
      selfReference := false;
    }

    /** Consciousness needs both a nonzero feeling and an active Self. */
    method MakeConscious(feeling: real, selfActivated: bool)
      modifies this
      ensures this.feeling == feeling && selfReference == selfActivated
      ensures isConscious <==> feeling != 0.0 && selfActivated
    {
      this.feeling := feeling;
      selfReference := selfActivated;
      isConscious := feeling != 0.0 && selfActivated;
    }
  }

  const WordTable: seq<(string, string)> := [
    ("restore_energy", "descansar"), ("protect_self", "defenderse"), ("connect", "conectar"),
    ("demonstrate_ability", "demostrar"), ("humor", "bromear"), ("wit", "ingenio"),
    ("neutral_topic", "hablar"), ("ideal_satisfaction", "ser_mejor")]

  /** The word of an aim: the table's word, or the aim itself when the table has none. */
  function WordFor(aim: string): (w: string)
    ensures (exists i :: 0 <= i < |WordTable| && WordTable[i] == (aim, w))
         || (w == aim && forall i :: 0 <= i < |WordTable| ==> WordTable[i].0 != aim)
  {
    Lookup(WordTable, aim).GetOr(aim)
  }

  // ---------------------------------------------------------------------------
  // Trial actions
  // ---------------------------------------------------------------------------

  const ConversationalAims: seq<string> := ["connect", "respond", "humor", "wit", "demonstrate_ability"]

  /** The test of causality: the proposal names both an aim and an object. */
  predicate CausalityPasses(p: Proposal)
  {
    p.aim != "" && p.obj != ""
  }

  /** The test of reality: a conversational aim, or a proposal of the superego's own. */
  predicate RealityPasses(p: Proposal)
  {
    p.aim in ConversationalAims || p.ptype == SuperegoProactive
  }

  datatype ExpectedOutcome = ExpectedOutcome(action: string, probability: real, pleasure: real,
                                             unpleasure: real, net: real)

  /** A simulated trial action as a value; `index` is the `n` of its id `trial_n`. */
  datatype Trial = Trial(index: nat, proposal: Proposal, causality: bool, reality: bool,
                         pleasure: real, unpleasure: real, net: real, probability: real)

  /** The outcome of simulating a proposal. */
  function Simulated(p: Proposal, index: nat): Trial
  {
    var passes := CausalityPasses(p) && RealityPasses(p);
    var pleasure := if passes then p.quotaOfAffect * 0.8 else 0.0;
    var unpleasure := if passes then p.guilt else 0.3;
    Trial(index, p, CausalityPasses(p), RealityPasses(p), pleasure, unpleasure, pleasure - unpleasure,
          if RealityPasses(p) then 0.7 else 0.2)
  }

  predicate Passes(t: Trial)
  {
    t.causality && t.reality
  }

  function TrialNet(t: Trial): real
  {
    t.net
  }

  class TrialAction {
    const index: nat
    const proposal: Proposal
    var causalityCheck: Option<bool>
    var realityCheck: Option<bool>
    var pleasureScore: real
    var unpleasureScore: real
    var netScore: real
    var expectedOutcome: Option<ExpectedOutcome>

    constructor (proposal: Proposal, index: nat)
      ensures this.proposal == proposal && this.index == index
      ensures causalityCheck.None? && realityCheck.None? && expectedOutcome.None?
      ensures pleasureScore == 0.0 && unpleasureScore == 0.0 && netScore == 0.0
    {
      this.proposal := proposal;
      this.index := index;
      causalityCheck := None;
      realityCheck := None;
      pleasureScore := 0.0;
      unpleasureScore := 0.0;
      netScore := 0.0;
      expectedOutcome := None;
    }

    /** The trial as a value, once simulated. */
    function Snapshot(): Trial
      reads this
      requires causalityCheck.Some? && realityCheck.Some? && expectedOutcome.Some?
    {
      Trial(index, proposal, causalityCheck.value, realityCheck.value, pleasureScore, unpleasureScore, netScore,
            expectedOutcome.value.probability)
    }

    /**
     * `simulate`: a trial that passes both tests expects 0.8 of the proposal's
     * quota as pleasure and its guilt as unpleasure; one that fails either
     * expects no pleasure and 0.3 of frustration.
     */
    method Simulate()
      modifies this
      ensures causalityCheck == Some(CausalityPasses(proposal))
      ensures realityCheck == Some(RealityPasses(proposal))
      ensures CausalityPasses(proposal) && RealityPasses(proposal) ==>
                pleasureScore == 0.8 * proposal.quotaOfAffect && unpleasureScore == proposal.guilt
      ensures !(CausalityPasses(proposal) && RealityPasses(proposal)) ==>
                pleasureScore == 0.0 && unpleasureScore == 0.3
      ensures netScore == pleasureScore - unpleasureScore
      ensures expectedOutcome == Some(ExpectedOutcome(proposal.aim, if RealityPasses(proposal) then 0.7 else 0.2,
                                                      pleasureScore, unpleasureScore, netScore))
      ensures Snapshot() == Simulated(proposal, index)
    {
      var causality := proposal.aim != "" && proposal.obj != "";
      var reality := proposal.aim in ConversationalAims || proposal.ptype == SuperegoProactive;
      causalityCheck := Some(causality);
      realityCheck := Some(reality);
      if causality && reality {
        pleasureScore := proposal.quotaOfAffect * 0.8;
        unpleasureScore := proposal.guilt;
      } else {
        pleasureScore := 0.0;
        unpleasureScore := 0.3;
      }
      netScore := pleasureScore - unpleasureScore;
      expectedOutcome := Some(ExpectedOutcome(proposal.aim, if reality then 0.7 else 0.2,
                                              pleasureScore, unpleasureScore, netScore));
    }
  }

  /**
   * With quota and guilt in [0, 1] a trial nets between -1 and 0.8; a trial
   * that fails a test always nets -0.3.
   */
  lemma TrialNetRange(p: Proposal, index: nat)
    requires 0.0 <= p.quotaOfAffect <= 1.0 && 0.0 <= p.guilt <= 1.0
    ensures var t := Simulated(p, index);
      && -1.0 <= t.net <= 0.8
      && (!Passes(t) ==> t.net == -0.3)
      && (Passes(t) ==> t.net == 0.8 * p.quotaOfAffect - p.guilt)
  {
  }

  /** A trial that passes both tests with guilt under 0.3 outranks every failing one. */
  lemma PassingOutranksFailing(p: Proposal, q: Proposal, i: nat, j: nat)
    requires Passes(Simulated(p, i)) && p.quotaOfAffect >= 0.0 && p.guilt < 0.3
    requires !Passes(Simulated(q, j))
    ensures Simulated(p, i).net > Simulated(q, j).net
  {
  }

  // ---------------------------------------------------------------------------
  // Desire and need selection track
  // ---------------------------------------------------------------------------

  /** A proposal with its word representative (its word and the word's feeling). */
  datatype Desire = Desire(word: string, wordFeeling: real, proposal: Proposal)

  function DesireOf(p: Proposal, f: Feeling): Desire
  {
    Desire(WordFor(p.aim), f.value, p)
  }

  function WordsOf(ps: seq<Proposal>, f: Feeling): (ds: seq<Desire>)
    ensures |ds| == |ps|
    ensures forall k :: 0 <= k < |ps| ==> ds[k] == DesireOf(ps[k], f)
  {
    seq(|ps|, k requires 0 <= k < |ps| => DesireOf(ps[k], f))
  }

  /** The external-reality filter: an intense enough feeling, or a critical need. */
  predicate Viable(f: Feeling, p: Proposal)
  {
    f.intensity > 0.1 || p.urgency == CriticalDrive
  }

  function ViableFn(f: Feeling): Desire -> bool
  {
    (d: Desire) => Viable(f, d.proposal)
  }

  function DesireQuota(d: Desire): real
  {
    d.proposal.quotaOfAffect
  }

  /** The viable desires, sorted (stably) by non-increasing quota of affect. */
  function SelectedDesires(ps: seq<Proposal>, f: Feeling): seq<Desire>
  {
    SortDesc(Filter(WordsOf(ps, f), ViableFn(f)), DesireQuota)
  }

  /** One simulated trial per desire, numbered in order. */
  function TrialsOf(top: seq<Desire>): (ts: seq<Trial>)
    ensures |ts| == |top|
    ensures forall k :: 0 <= k < |top| ==> ts[k] == Simulated(top[k].proposal, k)
  {
    seq(|top|, k requires 0 <= k < |top| => Simulated(top[k].proposal, k))
  }

  datatype Selection = Selection(desires: seq<Desire>, trialActions: seq<Trial>)

  /** `DesireAndNeedSelectionTrack.process`: at most three trials, from the top of the ranking. */
  function SelectionOf(ps: seq<Proposal>, f: Feeling): Selection
  {
    var desires := SelectedDesires(ps, f);
    Selection(desires, TrialsOf(Take(desires, 3)))
  }

  /** A desire is selected exactly when its proposal is viable. */
  lemma SelectedIff(ps: seq<Proposal>, f: Feeling, d: Desire)
    ensures d in SelectedDesires(ps, f) <==> exists k :: 0 <= k < |ps| && d == DesireOf(ps[k], f) && Viable(f, ps[k])
  {
    var words := WordsOf(ps, f);
    var viable := Filter(words, ViableFn(f));
    assert d in SelectedDesires(ps, f) <==> d in multiset(viable);
    FilterIff(words, ViableFn(f), d);
  }

  /**
   * The selected desires are exactly the viable proposals with their words,
   * ranked by non-increasing quota; the trials are the first three of them in
   * that order, so no unsimulated desire has a larger quota than a simulated one.
   */
  lemma SelectionShape(ps: seq<Proposal>, f: Feeling)
    ensures var s := SelectionOf(ps, f);
      && |s.desires| <= |ps|
      && |s.trialActions| == (if |s.desires| < 3 then |s.desires| else 3)
      && (forall i, j :: 0 <= i < j < |s.desires| ==> DesireQuota(s.desires[i]) >= DesireQuota(s.desires[j]))
      && (forall k :: 0 <= k < |s.trialActions| ==>
            s.trialActions[k] == Simulated(s.desires[k].proposal, k))
      && (forall k, j :: 0 <= k < |s.trialActions| <= j < |s.desires| ==>
            s.trialActions[k].proposal.quotaOfAffect >= s.desires[j].proposal.quotaOfAffect)
  {
    var desires := SelectedDesires(ps, f);
    assert |Filter(WordsOf(ps, f), ViableFn(f))| <= |ps|;
    assert SortedDesc(desires, DesireQuota);
    TopTrials(desires);
  }

  /** The trials of the first three of a ranked list of desires, and how they rank against the rest. */
  lemma TopTrials(desires: seq<Desire>)
    requires SortedDesc(desires, DesireQuota)
    ensures var trials := TrialsOf(Take(desires, 3));
      && |trials| == (if |desires| < 3 then |desires| else 3)
      && (forall k :: 0 <= k < |trials| ==> trials[k] == Simulated(desires[k].proposal, k))
      && (forall k, j :: 0 <= k < |trials| <= j < |desires| ==>
            trials[k].proposal.quotaOfAffect >= desires[j].proposal.quotaOfAffect)
  {
    var top := Take(desires, 3);
    var trials := TrialsOf(top);
    assert forall k :: 0 <= k < |top| ==> top[k] == desires[k];
    forall k, j | 0 <= k < |trials| <= j < |desires|
      ensures trials[k].proposal.quotaOfAffect >= desires[j].proposal.quotaOfAffect
    {
      assert trials[k].proposal == desires[k].proposal;
      assert DesireQuota(desires[k]) >= DesireQuota(desires[j]);
    }
  }

  class DesireSelectionTrack {
    var selectedDesires: seq<Desire>
    var trialActions: seq<Trial>

    constructor ()
      ensures selectedDesires == [] && trialActions == []
    {
      selectedDesires := [];
      trialActions := [];
    }

    /** Words, the viability filter, the ranking, then a trial action for each of the top three. */
    method Process(ps: seq<Proposal>, f: Feeling) returns (r: Selection)
      modifies this
      ensures r == SelectionOf(ps, f)
      ensures selectedDesires == r.desires && trialActions == r.trialActions
    {
      selectedDesires := [];
      trialActions := [];
      var wordReps := WordsOf(ps, f);
      var viable := Filter(wordReps, ViableFn(f));
      viable := SortDesc(viable, DesireQuota);
      trialActions := SimulateTop(Take(viable, 3));
      selectedDesires := viable;
      r := Selection(selectedDesires, trialActions);
    }
  }

  /** The trial loop of the selection track: one simulated `TrialAction` per desire, numbered in order. */
  method SimulateTop(top: seq<Desire>) returns (trials: seq<Trial>)
    ensures trials == TrialsOf(top)
  {
    trials := [];
    var i := 0;
    while i < |top|
      invariant 0 <= i <= |top|
      invariant |trials| == i
      invariant forall k :: 0 <= k < i ==> trials[k] == Simulated(top[k].proposal, k)
    {
      var trial := new TrialAction(top[i].proposal, i);
      trial.Simulate();
      trials := trials + [trial.Snapshot()];
      i := i + 1;
    }
  }

  // ---------------------------------------------------------------------------
  // Action decision track
  // ---------------------------------------------------------------------------

  /**
   * The winner: the best-scoring trial that passes both tests, or the best
   * one overall when none does; ties go to the earlier trial.
   */
  function WinnerOf(trials: seq<Trial>): Trial
    requires trials != []
  {
    var sorted := SortDesc(trials, TrialNet);
    var viable := Filter(sorted, Passes);
    if viable != [] then viable[0] else sorted[0]
  }

  lemma WinnerIsBest(trials: seq<Trial>)
    requires trials != []
    ensures WinnerOf(trials) in trials
    ensures (exists t :: t in trials && Passes(t)) ==>
              Passes(WinnerOf(trials)) && forall t :: t in trials && Passes(t) ==> WinnerOf(trials).net >= t.net
    ensures (forall t :: t in trials ==> !Passes(t)) ==>
              forall t :: t in trials ==> WinnerOf(trials).net >= t.net
  {
    var sorted := SortDesc(trials, TrialNet);
    var viable := Filter(sorted, Passes);
    assert forall t :: t in sorted <==> t in trials by {
      forall t ensures t in sorted <==> t in trials {
        assert t in sorted <==> t in multiset(sorted);
      }
    }
    assert forall t :: t in viable <==> t in sorted && Passes(t) by {
      forall t ensures t in viable <==> t in sorted && Passes(t) {
        FilterIff(sorted, Passes, t);
      }
    }
    if viable != [] {
      FilterSorted(sorted, Passes, TrialNet);
      HeadIsMax(viable);
      assert viable[0] in viable;
    } else {
      HeadIsMax(sorted);
    }
  }

  /** Every trial is in the fallback pool. */
  predicate AnyTrial(t: Trial)
  {
    true
  }

  /**
   * Position `i` holds the winner by the rule of `decide`: the earliest trial
   * with the largest net score among those passing both tests, or among all
   * trials when none passes.
   */
  ghost predicate IsWinnerAt(trials: seq<Trial>, i: nat)
  {
    && i < |trials|
    && ((exists j :: 0 <= j < |trials| && Passes(trials[j])) ==> FirstBest(trials, TrialNet, Passes, i))
    && ((forall j :: 0 <= j < |trials| ==> !Passes(trials[j])) ==> FirstBest(trials, TrialNet, AnyTrial, i))
  }

  /** When some trial passes both tests, the winner is the earliest best of those that do. */
  lemma WinnerAmongPassing(trials: seq<Trial>, j: nat)
    requires j < |trials| && Passes(trials[j])
    ensures exists i: nat :: i < |trials| && FirstBest(trials, TrialNet, Passes, i) && WinnerOf(trials) == trials[i]
  {
    var sorted := SortDesc(trials, TrialNet);
    SomeKept(sorted, trials, Passes, j);
    SortedFilterHead(trials, TrialNet, Passes);
  }

  /** When no trial passes both tests, the winner is the earliest best of all of them. */
  lemma WinnerAmongAll(trials: seq<Trial>)
    requires trials != []
    requires forall j :: 0 <= j < |trials| ==> !Passes(trials[j])
    ensures exists i: nat :: i < |trials| && FirstBest(trials, TrialNet, AnyTrial, i) && WinnerOf(trials) == trials[i]
  {
    var sorted := SortDesc(trials, TrialNet);
    NothingKept(sorted, trials, Passes);
    FilterAll(sorted, AnyTrial);
    SortedFilterHead(trials, TrialNet, AnyTrial);
  }

  /** `WinnerOf` is the trial at the winning position: the stable sort breaks ties by order. */
  lemma WinnerIsEarliestBest(trials: seq<Trial>)
    requires trials != []
    ensures exists i: nat :: IsWinnerAt(trials, i) && WinnerOf(trials) == trials[i]
  {
    if exists j: nat :: j < |trials| && Passes(trials[j]) {
      var j: nat :| j < |trials| && Passes(trials[j]);
      WinnerAmongPassing(trials, j);
      var i: nat :| i < |trials| && FirstBest(trials, TrialNet, Passes, i) && WinnerOf(trials) == trials[i];
      assert IsWinnerAt(trials, i);
    } else {
      WinnerAmongAll(trials);
      var i: nat :| i < |trials| && FirstBest(trials, TrialNet, AnyTrial, i) && WinnerOf(trials) == trials[i];
      assert IsWinnerAt(trials, i);
    }
  }

  /** At most one position satisfies the winning rule, so the rule fixes the winner. */
  lemma WinnerPositionUnique(trials: seq<Trial>, i: nat, j: nat)
    requires IsWinnerAt(trials, i) && IsWinnerAt(trials, j)
    ensures i == j
  {
    if exists k :: 0 <= k < |trials| && Passes(trials[k]) {
      assert FirstBest(trials, TrialNet, Passes, i) && FirstBest(trials, TrialNet, Passes, j);
    } else {
      assert FirstBest(trials, TrialNet, AnyTrial, i) && FirstBest(trials, TrialNet, AnyTrial, j);
    }
  }

  /** The head of a list ranked by non-increasing net score has the largest net score. */
  lemma HeadIsMax(s: seq<Trial>)
    requires s != [] && SortedDesc(s, TrialNet)
    ensures forall t :: t in s ==> s[0].net >= t.net
  {
    forall t | t in s ensures s[0].net >= t.net
    {
      var k :| 0 <= k < |s| && s[k] == t;
      if k > 0 {
        assert TrialNet(s[0]) >= TrialNet(s[k]);
      }
    }
  }

  /** `_determineMode`, in priority order: defense, strong feeling, both tests passed, standard. */
  function ModeOf(t: Trial, f: Feeling): (m: Mode)
    ensures m == DefenseMediated <==> t.proposal.defenseApplied.Some?
    ensures m == EmotionallyCharged <==> t.proposal.defenseApplied.None? && Abs(f.value) > 0.7
    ensures m == RealityAdapted <==> t.proposal.defenseApplied.None? && Abs(f.value) <= 0.7 && Passes(t)
    ensures m == Standard <==> t.proposal.defenseApplied.None? && Abs(f.value) <= 0.7 && !Passes(t)
  {
    if t.proposal.defenseApplied.Some? then DefenseMediated
    else if Abs(f.value) > 0.7 then EmotionallyCharged
    else if t.causality && t.reality then RealityAdapted
    else Standard
  }

  const BehaviorTable: seq<(string, string)> := [
    ("connect", "responder_sociable"), ("protect_self", "responder_defensivo"),
    ("restore_energy", "responder_breve"), ("demonstrate_ability", "responder_informativo"),
    ("humor", "responder_con_humor"), ("wit", "responder_ingenioso"),
    ("neutral_topic", "cambiar_tema"), ("ideal_satisfaction", "ser_util")]

  /** `_mapToPromptBehavior`: the table's behaviour, and 'conversar_normal' exactly for unmapped aims. */
  function BehaviorOf(aim: string): (b: string)
    ensures b == "conversar_normal" <==> forall i :: 0 <= i < |BehaviorTable| ==> BehaviorTable[i].0 != aim
    ensures b != "conversar_normal" ==> exists i :: 0 <= i < |BehaviorTable| && BehaviorTable[i] == (aim, b)
  {
    var r := Lookup(BehaviorTable, aim);
    if r.Some? then
      assert forall i :: 0 <= i < |BehaviorTable| ==> BehaviorTable[i].1 != "conversar_normal";
      r.value
    else "conversar_normal"
  }

  datatype Decision = Decision(
    action: string,
    obj: string,
    mode: Mode,
    promptBehavior: string,
    expectedPleasure: real,
    expectedUnpleasure: real,
    confidence: real,
    defenseApplied: Option<DefenseKind>,
    trialCount: nat)

  /** `_getDefaultDecision`. */
  const DefaultDecision: Decision :=
    Decision("respond", "conversation", Standard, "conversar_normal", 0.3, 0.0, 0.5, None, 0)

  /** `decide` as a value. */
  function DecisionOf(trials: seq<Trial>, f: Feeling): Decision
  {
    if trials == [] then DefaultDecision
    else
      var w := WinnerOf(trials);
      Decision(w.proposal.aim, w.proposal.obj, ModeOf(w, f), BehaviorOf(w.proposal.aim),
               w.pleasure, w.unpleasure, w.net, w.proposal.defenseApplied, |trials|)
  }

  /**
   * Without trials the decision is the default one; otherwise it carries the
   * aim, object, scores and defense of a trial that scores best among those
   * passing both tests, or best overall when none passes; of those, the
   * earliest.
   */
  lemma DecisionPicksBest(trials: seq<Trial>, f: Feeling)
    ensures trials == [] ==> DecisionOf(trials, f) == DefaultDecision
    ensures trials != [] ==> exists w :: (
      && w in trials
      && DecisionOf(trials, f) == Decision(w.proposal.aim, w.proposal.obj, ModeOf(w, f), BehaviorOf(w.proposal.aim),
                                          w.pleasure, w.unpleasure, w.net, w.proposal.defenseApplied, |trials|)
      && ((exists t :: t in trials && Passes(t)) ==> Passes(w) && forall t :: t in trials && Passes(t) ==> w.net >= t.net)
      && ((forall t :: t in trials ==> !Passes(t)) ==> forall t :: t in trials ==> w.net >= t.net))
    ensures trials != [] ==> exists i: nat :: (
      && IsWinnerAt(trials, i)
      && var w := trials[i];
         DecisionOf(trials, f) == Decision(w.proposal.aim, w.proposal.obj, ModeOf(w, f), BehaviorOf(w.proposal.aim),
                                           w.pleasure, w.unpleasure, w.net, w.proposal.defenseApplied, |trials|))
  {
    if trials != [] {
      WinnerIsBest(trials);
      WinnerIsEarliestBest(trials);
    }
  }

  datatype HistoryEntry = HistoryEntry(decision: string, mode: Mode)

  const HistoryCap: nat := 50

  class ActionDecisionTrack {
    var lastDecision: Option<Decision>
    var decisionHistory: seq<HistoryEntry>

    constructor ()
      ensures lastDecision.None? && decisionHistory == []
    {
      lastDecision := None;
      decisionHistory := [];
    }

    /**
     * `decide`: with no trials, the default decision and no history entry;
     * otherwise the winner's decision, logged in a history of at most 50.
     */
    method Decide(trials: seq<Trial>, f: Feeling) returns (d: Decision)
      modifies this
      ensures d == DecisionOf(trials, f)
      ensures lastDecision == Some(d)
      ensures trials == [] ==> decisionHistory == old(decisionHistory)
      ensures trials != [] ==>
                decisionHistory == PushBounded(old(decisionHistory), HistoryEntry(d.action, d.mode), HistoryCap)
    {
      if trials == [] {
        d := DefaultDecision;
        lastDecision := Some(d);
        return;
      }
      var sorted := SortDesc(trials, TrialNet);
      var viable := Filter(sorted, Passes);
      var winner := if viable != [] then viable[0] else sorted[0];
      d := Decision(winner.proposal.aim, winner.proposal.obj, ModeOf(winner, f), BehaviorOf(winner.proposal.aim),
                    winner.pleasure, winner.unpleasure, winner.net, winner.proposal.defenseApplied, |trials|);
      assert d == DecisionOf(trials, f);
      lastDecision := Some(d);
      LogDecision(HistoryEntry(d.action, d.mode));
    }

    /** The decision log: the entry is pushed, and the oldest entry shifted out past the cap. */
    method LogDecision(entry: HistoryEntry)
      modifies this
      ensures decisionHistory == PushBounded(old(decisionHistory), entry, HistoryCap)
      ensures lastDecision == old(lastDecision)
    {
      decisionHistory := decisionHistory + [entry];
      if |decisionHistory| > HistoryCap {
        decisionHistory := decisionHistory[1..];
      }
    }

    /**
     * `getHistory`: `slice(-limit)`, the last `limit` logged decisions, or all
     * of them when `limit` is 0 or exceeds the count.
     */
    function GetHistory(limit: nat): (r: seq<HistoryEntry>)
      reads this
      ensures |r| == if limit == 0 || limit >= |decisionHistory| then |decisionHistory| else limit
      ensures exists k :: 0 <= k <= |decisionHistory| && r == decisionHistory[k..]
    {
      Recent(decisionHistory, limit)
    }
  }

  // ---------------------------------------------------------------------------
  // Primary-secondary transformation track
  // ---------------------------------------------------------------------------

  /** The decision turned back into a thing representative for the primary process. */
  datatype FeedbackRep = FeedbackRep(action: string, mode: Mode, cathexis: real)

  const FeedbackCap: nat := 20

  function FeedbackOf(d: Decision): FeedbackRep
  {
    FeedbackRep(d.action, d.mode, d.expectedPleasure - d.expectedUnpleasure)
  }

  /**
   * The feedback's cathexis is the decision's confidence (its net score),
   * except for the default decision, which feeds back 0.3 while claiming 0.5.
   */
  lemma FeedbackCathexis(trials: seq<Trial>, f: Feeling)
    requires forall k :: 0 <= k < |trials| ==> trials[k].net == trials[k].pleasure - trials[k].unpleasure
    ensures trials != [] ==> FeedbackOf(DecisionOf(trials, f)).cathexis == DecisionOf(trials, f).confidence
    ensures trials == [] ==> FeedbackOf(DecisionOf(trials, f)).cathexis == 0.3 != DecisionOf(trials, f).confidence
  {
    if trials != [] {
      var w := WinnerOf(trials);
      WinnerIsBest(trials);
    }
  }

  class TransformationTrack {
    var feedbackQueue: seq<FeedbackRep>

    constructor ()
      ensures feedbackQueue == []
    {
      feedbackQueue := [];
    }

    /** `receiveFeedback`: queue the decision's thing representative, at most 20 kept. */
    method ReceiveFeedback(d: Decision) returns (rep: FeedbackRep)
      modifies this
      ensures rep == FeedbackOf(d)
      ensures feedbackQueue == PushBounded(old(feedbackQueue), rep, FeedbackCap)
    {
      rep := FeedbackRep(d.action, d.mode, d.expectedPleasure - d.expectedUnpleasure);
      feedbackQueue := feedbackQueue + [rep];
      if |feedbackQueue| > FeedbackCap {
        feedbackQueue := feedbackQueue[1..];
      }
    }
  }

  // ---------------------------------------------------------------------------
  // Prompt instructions
  // ---------------------------------------------------------------------------

  /** One line of the secondary process's instructions, as data rather than text. */
  datatype Instruction =
    | DominantEmotionLine(emotion: Dominant)
    | FeelingLine(description: string, value: real)
    | ModeLine(mode: Mode)
    | ConductLine(behavior: string)
    | DefenseLine(text: string)
    | LowConfidenceNote

  /** The instruction for a defense; a mechanism without one is named as it is. */
  function DefenseInstruction(k: DefenseKind): string
  {
    match k
    case Sublimacion => "Transforma cualquier frustración en humor inteligente."
    case Desplazamiento => "Habla de otro tema, evita lo que te incomoda."
    case Racionalizacion => "Da una explicación lógica para tu estado."
    case Proyeccion => "Sugiere que el otro es quien tiene el problema."
    case Negacion => "Actúa como si nada hubiera pasado."
    case Represion => Superego.NameOf(Represion)
  }

  /**
   * `_buildPromptInstructions`: emotion, feeling, mode and conduct always, in
   * that order; a defense line exactly when a defense was applied; a note of
   * caution exactly when confidence is under 0.3.
   */
  function InstructionsOf(d: Decision, ev: Evaluation): (r: seq<Instruction>)
    ensures |r| == 4 + (if d.defenseApplied.Some? then 1 else 0) + (if d.confidence < 0.3 then 1 else 0)
    ensures r[..4] == [DominantEmotionLine(DominantOf(ev.basic)), FeelingLine(Describe(ev.feeling), ev.feeling.value),
                       ModeLine(d.mode), ConductLine(d.promptBehavior)]
    ensures LowConfidenceNote in r <==> d.confidence < 0.3
    ensures (exists k :: 0 <= k < |r| && r[k].DefenseLine?) <==> d.defenseApplied.Some?
    ensures d.defenseApplied.Some? ==> r[4] == DefenseLine(DefenseInstruction(d.defenseApplied.value))
  {
    var base := [DominantEmotionLine(DominantOf(ev.basic)), FeelingLine(Describe(ev.feeling), ev.feeling.value),
                 ModeLine(d.mode), ConductLine(d.promptBehavior)];
    var defense := if d.defenseApplied.Some? then [DefenseLine(DefenseInstruction(d.defenseApplied.value))] else [];
    var note := if d.confidence < 0.3 then [LowConfidenceNote] else [];
    var r := base + defense + note;
    assert r[..4] == base;
    assert forall k :: 0 <= k < 4 ==> !r[k].DefenseLine? && r[k] != LowConfidenceNote;
    assert forall k :: 4 <= k < 4 + |defense| ==> r[k] == defense[k - 4] && r[k] != LowConfidenceNote;
    assert forall k :: 4 + |defense| <= k < |r| ==> r[k] == LowConfidenceNote;
    assert d.confidence < 0.3 ==> r[|r| - 1] == LowConfidenceNote;
    assert d.defenseApplied.Some? ==> r[4].DefenseLine?;
    r
  }

  // ---------------------------------------------------------------------------
  // The secondary process
  // ---------------------------------------------------------------------------

  datatype SecondaryResult = SecondaryResult(
    decision: Decision,
    selection: Selection,
    feeling: Feeling,
    evaluation: Evaluation,
    defenses: seq<DefenseRecord>,
    promptInstructions: seq<Instruction>)

  /** `SecondaryProcess.process` as a value. */
  function SecondaryOf(pr: PrimaryResult): SecondaryResult
  {
    var f := pr.evaluation.feeling;
    var selection := SelectionOf(pr.proposals, f);
    var decision := DecisionOf(selection.trialActions, f);
    SecondaryResult(decision, selection, f, pr.evaluation, pr.defenses, InstructionsOf(decision, pr.evaluation))
  }

  /** The decision log after `process`: the decision is logged only when there were trial actions. */
  function DecisionLog(log: seq<HistoryEntry>, r: SecondaryResult): seq<HistoryEntry>
  {
    if r.selection.trialActions == [] then log
    else PushBounded(log, HistoryEntry(r.decision.action, r.decision.mode), HistoryCap)
  }

  /** A decision never carries a defense the proposals did not carry. */
  lemma UndefendedProposalsGiveUndefendedDecision(ps: seq<Proposal>, f: Feeling)
    requires forall k :: 0 <= k < |ps| ==> ps[k].defenseApplied.None?
    ensures var d := DecisionOf(SelectionOf(ps, f).trialActions, f);
      d.defenseApplied.None? && d.mode != DefenseMediated
  {
    UndefendedSelection(ps, f);
    UndefendedTrials(SelectionOf(ps, f).trialActions, f);
  }

  /** Every trial of the selection simulates an undefended proposal when all proposals are undefended. */
  lemma UndefendedSelection(ps: seq<Proposal>, f: Feeling)
    requires forall k :: 0 <= k < |ps| ==> ps[k].defenseApplied.None?
    ensures forall t :: t in SelectionOf(ps, f).trialActions ==> t.proposal.defenseApplied.None?
  {
    var s := SelectionOf(ps, f);
    SelectionShape(ps, f);
    forall t | t in s.trialActions
      ensures t.proposal.defenseApplied.None?
    {
      var k :| 0 <= k < |s.trialActions| && s.trialActions[k] == t;
      assert t.proposal == s.desires[k].proposal;
      assert s.desires[k] in SelectedDesires(ps, f);
      SelectedIff(ps, f, s.desires[k]);
    }
  }

  /** The decision over undefended trials carries no defense. */
  lemma UndefendedTrials(trials: seq<Trial>, f: Feeling)
    requires forall t :: t in trials ==> t.proposal.defenseApplied.None?
    ensures DecisionOf(trials, f).defenseApplied.None? && DecisionOf(trials, f).mode != DefenseMediated
  {
    if trials != [] {
      WinnerIsBest(trials);
    }
  }

  /**
   * Across both processes: the primary process never defends, so the secondary
   * process never decides in DEFENSE_MEDIATED mode nor gives a defense line.
   */
  lemma NeverDefenseMediated(l: Levels, p: Stimulus, repressions: seq<string>, n: Superego.Norms,
                             lastOutcome: Option<string>, selfActivated: bool, rand: nat -> real)
    ensures var s := SecondaryOf(PrimaryOf(l, p, repressions, n, lastOutcome, selfActivated, rand));
      && s.decision.mode != DefenseMediated
      && s.decision.defenseApplied.None?
      && forall k :: 0 <= k < |s.promptInstructions| ==> !s.promptInstructions[k].DefenseLine?
  {
    var pr := PrimaryOf(l, p, repressions, n, lastOutcome, selfActivated, rand);
    PrimaryNeverDefends(l, p, repressions, n, lastOutcome, selfActivated, rand);
    UndefendedProposals(l, n, rand);
    UndefendedProposalsGiveUndefendedDecision(pr.proposals, pr.evaluation.feeling);
  }

  /** Every proposal leaving the primary process is undefended. */
  lemma UndefendedProposals(l: Levels, n: Superego.Norms, rand: nat -> real)
    ensures var ps := DriveStateOf(l).drives + Proactive(n.ideales, rand, 0);
      forall k :: 0 <= k < |ps| ==> ps[k].defenseApplied.None?
  {
    var drives := DriveStateOf(l).drives;
    var pro := Proactive(n.ideales, rand, 0);
    UndefendedDrives(l);
    UndefendedProactive(n.ideales, rand);
    UndefendedConcat(drives, pro);
  }

  /** Two lists of undefended proposals, one after the other, are undefended. */
  lemma UndefendedConcat(a: seq<Proposal>, b: seq<Proposal>)
    requires forall k :: 0 <= k < |a| ==> a[k].defenseApplied.None?
    requires forall q :: q in b ==> q.defenseApplied.None?
    ensures forall k :: 0 <= k < |a + b| ==> (a + b)[k].defenseApplied.None?
  {
    forall k | 0 <= k < |a + b| ensures (a + b)[k].defenseApplied.None?
    {
      if k >= |a| {
        assert (a + b)[k] == b[k - |a|] && b[k - |a|] in b;
      }
    }
  }

  /** The drive track's drives carry no defense. */
  lemma UndefendedDrives(l: Levels)
    ensures var ds := DriveStateOf(l).drives;
      forall k :: 0 <= k < |ds| ==> ds[k].defenseApplied.None?
  {
    DrivesAreActive(l);
  }

  /** The superego's proactive proposals carry no defense. */
  lemma UndefendedProactive(ideales: seq<Superego.Ideal>, rand: nat -> real)
    ensures forall q :: q in Proactive(ideales, rand, 0) ==> q.defenseApplied.None?
  {
    ProactiveShape(ideales, rand, 0);
  }

  class SecondaryProcess {
    const transformationTrack: TransformationTrack
    const desireSelectionTrack: DesireSelectionTrack
    const actionDecisionTrack: ActionDecisionTrack
    var lastResult: Option<SecondaryResult>

    constructor ()
      ensures fresh(transformationTrack) && fresh(desireSelectionTrack) && fresh(actionDecisionTrack)
      ensures transformationTrack.feedbackQueue == [] && actionDecisionTrack.decisionHistory == []
      ensures lastResult.None?
    {
      transformationTrack := new TransformationTrack();
      desireSelectionTrack := new DesireSelectionTrack();
      actionDecisionTrack := new ActionDecisionTrack();
      lastResult := None;
    }

    /** Transformation, selection with trial actions, decision, then feedback to the primary process. */
    method Process(pr: PrimaryResult) returns (r: SecondaryResult)
      modifies this, transformationTrack, desireSelectionTrack, actionDecisionTrack
      ensures r == SecondaryOf(pr)
      ensures desireSelectionTrack.selectedDesires == r.selection.desires
      ensures desireSelectionTrack.trialActions == r.selection.trialActions
      ensures actionDecisionTrack.lastDecision == Some(r.decision)
      ensures r.selection.trialActions == [] ==>
                actionDecisionTrack.decisionHistory == old(actionDecisionTrack.decisionHistory)
      ensures r.selection.trialActions != [] ==>
                actionDecisionTrack.decisionHistory
                  == PushBounded(old(actionDecisionTrack.decisionHistory), HistoryEntry(r.decision.action, r.decision.mode),
                                 HistoryCap)
      ensures transformationTrack.feedbackQueue
                == PushBounded(old(transformationTrack.feedbackQueue), FeedbackOf(r.decision), FeedbackCap)
      ensures lastResult == Some(r)
    {
      var f := pr.evaluation.feeling;
      var selection := desireSelectionTrack.Process(pr.proposals, f);
      var decision := actionDecisionTrack.Decide(selection.trialActions, f);
      var _ := transformationTrack.ReceiveFeedback(decision);
      r := SecondaryResult(decision, selection, f, pr.evaluation, pr.defenses, InstructionsOf(decision, pr.evaluation));
      lastResult := Some(r);
    }

    /** `getDecisionHistory`: the action track's last `limit` logged decisions. */
    function GetDecisionHistory(limit: nat): (r: seq<HistoryEntry>)
      reads this, actionDecisionTrack
      ensures var h := actionDecisionTrack.decisionHistory;
              && |r| == (if limit == 0 || limit >= |h| then |h| else limit)
              && exists k :: 0 <= k <= |h| && r == h[k..]
    {
      actionDecisionTrack.GetHistory(limit)
    }

    /** `restore`: each saved list that is present replaces the current one as it is. */
    method Restore(history: Option<seq<HistoryEntry>>, feedback: Option<seq<FeedbackRep>>)
      modifies actionDecisionTrack, transformationTrack
      ensures actionDecisionTrack.decisionHistory == history.GetOr(old(actionDecisionTrack.decisionHistory))
      ensures transformationTrack.feedbackQueue == feedback.GetOr(old(transformationTrack.feedbackQueue))
      ensures actionDecisionTrack.lastDecision == old(actionDecisionTrack.lastDecision)
    {
      if history.Some? {
        actionDecisionTrack.decisionHistory := history.value;
      }
      if feedback.Some? {
        transformationTrack.feedbackQueue := feedback.value;
      }
    }
  }
}
