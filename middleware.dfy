// The homeostatic middleware: the stimuli of a world snapshot, read against
// each tank's keyword lists, become tank modifiers, frustration signals and a
// prompt injection. The tank mappings are a parameter; loading them from the
// cassette's YAML file is not modelled.
module HomeostaticMiddleware {
  import opened Util

  /** One tank's mapping; a list missing from the configuration is empty (`|| []`). */
  datatype TankConfig = TankConfig(keywords: seq<string>, frustrationKeywords: seq<string>, drainKeywords: seq<string>)

  /**
   * What `_getEmotionalDescription` says of a frustration, by tank: company
   * out of reach, a bodily need, others' achievements, or anything else.
   */
  datatype Description = Excluded(keywords: seq<string>) | Deprived(keywords: seq<string>) | Stagnant | OutOfReach(keywords: seq<string>)

  /** A frustration felt through one tank (the only signal type the middleware emits). */
  datatype EmotionalSignal = EmotionalSignal(tank: string, intensity: real, description: Description)

  /**
   * The `reason` of an impact: whether the matched keywords were accessible,
   * and the drain keywords whose notes were appended.
   */
  datatype Reason = Reason(accessible: bool, matched: seq<string>, drains: seq<string>)

  /** The result of `_evaluateTankImpact`. */
  datatype TankImpact = TankImpact(impact: real, decayModifier: real, reason: Option<Reason>, emotionalSignal: Option<EmotionalSignal>)

  const NoImpact: TankImpact := TankImpact(0.0, 1.0, None, None)

  /** A value of the snapshot's `stimuli` object: only arrays are flattened. */
  datatype StimulusValue = StimulusList(items: seq<string>) | NotAList

  /** The part of a world snapshot the middleware reads; `stimuli` may be missing. */
  datatype Snapshot = Snapshot(stimuli: Option<seq<StimulusValue>>)

  /** A line of the prompt injection: the header, one warning per frustration, a blank line and the closing sentence. */
  datatype InjectionLine = Header | Warning(description: Description) | Blank | Closing

  datatype Signals = Signals(tankModifiers: map<string, TankImpact>, emotionalSignals: seq<EmotionalSignal>, promptInjection: Option<seq<InjectionLine>>)

  const Accessible: real := 5.0
  const Frustration: real := -3.0
  const LowLevel: real := 40.0
  const FrustrationDecay: real := 1.3
  const DrainFactor: real := 1.2

  // ---------------------------------------------------------------------------
  // Keyword matching
  // ---------------------------------------------------------------------------

  /**
   * The keyword test of every loop: the lower-cased stimulus text contains the
   * lower-cased keyword. The rules below are stated for any such test `present`.
   */
  function PresentIn(text: string): string -> bool
  {
    k => Contains(text, Lower(k))
  }

  /** The keywords of `ks` that are present, in list order, as written in the list. */
  function Matching(present: string -> bool, ks: seq<string>): (m: seq<string>)
    ensures |m| <= |ks|
  {
    if ks == [] then []
    else Matching(present, ks[..|ks| - 1]) + (if present(ks[|ks| - 1]) then [ks[|ks| - 1]] else [])
  }

  /** Exactly the present keywords are matched. */
  lemma {:induction false} MatchingExactly(present: string -> bool, ks: seq<string>, k: string)
    ensures k in Matching(present, ks) <==> k in ks && present(k)
    decreases |ks|
  {
    if ks != [] {
      var init := ks[..|ks| - 1];
      MatchingExactly(present, init, k);
      assert ks == init + [ks[|ks| - 1]];
    }
  }

  /** Some frustration keyword is present: the stimulus is out of reach. */
  predicate Frustrated(present: string -> bool, fks: seq<string>)
  {
    exists j :: 0 <= j < |fks| && present(fks[j])
  }

  /** The factor the drain loop puts on the decay modifier: 1.2 per drain keyword present. */
  function DrainProduct(present: string -> bool, ds: seq<string>): real
  {
    if ds == [] then 1.0
    else DrainProduct(present, ds[..|ds| - 1]) * (if present(ds[|ds| - 1]) then DrainFactor else 1.0)
  }

  /** `_getEmotionalDescription(tankId, 'frustration', keywords)`. */
  function DescriptionOf(tank: string, matched: seq<string>): Description
  {
    if tank == "afiliacion" then Excluded(matched)
    else if tank == "energia" then Deprived(matched)
    else if tank == "competencia" then Stagnant
    else OutOfReach(matched)
  }

  /** The description's wording. */
  function DescriptionText(d: Description): string
  {
    match d
    case Excluded(ks) => "Ves " + Join(ks, "/") + " cerca pero no estás incluido. La soledad pesa más."
    case Deprived(ks) => "Percibes " + Join(ks, "/") + " pero no lo tienes. Tu cuerpo lo resiente."
    case Stagnant => "Otros están logrando cosas mientras tú no. Te sientes estancado."
    case OutOfReach(ks) => "Hay " + Join(ks, "/") + " cerca pero fuera de tu alcance."
  }

  /** The reason's wording: the opening sentence, then one note per drain keyword. */
  function ReasonText(r: Reason): string
  {
    var opening := if r.accessible then "Estímulos accesibles: " + Join(r.matched, ", ")
                   else "Frustración: ves " + Join(r.matched, ", ") + " pero está fuera de tu alcance";
    opening + DrainNotes(r.drains)
  }

  function DrainNotes(ds: seq<string>): string
  {
    if ds == [] then "" else DrainNotes(ds[..|ds| - 1]) + ". " + ds[|ds| - 1] + " te afecta"
  }

  // ---------------------------------------------------------------------------
  // One tank
  // ---------------------------------------------------------------------------

  /**
   * `_evaluateTankImpact`: nothing unless a keyword matches; then +5 per match
   * when no frustration keyword is present, else -3 per match (doubled below
   * level 40) with a faster decay and a signal; drain keywords speed the decay.
   */
  function ImpactOf(tank: string, cfg: TankConfig, present: string -> bool, level: real): (r: TankImpact)
    ensures Matching(present, cfg.keywords) == [] ==> r == NoImpact
    ensures r.emotionalSignal.Some? <==> r.impact < 0.0
    ensures r.impact == 0.0 <==> Matching(present, cfg.keywords) == []
    ensures r.impact >= 0.0 <==> !Frustrated(present, cfg.frustrationKeywords) || Matching(present, cfg.keywords) == []
  {
    var matched := Matching(present, cfg.keywords);
    if matched == [] then NoImpact
    else
      var n := |matched| as real;
      if !Frustrated(present, cfg.frustrationKeywords) then
        TankImpact(Accessible * n, DrainProduct(present, cfg.drainKeywords),
                   Some(Reason(true, matched, Matching(present, cfg.drainKeywords))), None)
      else
        var impact := Frustration * n * (if level < LowLevel then 2.0 else 1.0);
        TankImpact(impact, FrustrationDecay * DrainProduct(present, cfg.drainKeywords),
                   Some(Reason(false, matched, Matching(present, cfg.drainKeywords))),
                   Some(EmotionalSignal(tank, Abs(impact), DescriptionOf(tank, matched))))
  }

  /** Each drain keyword present multiplies the decay by 1.2 exactly once. */
  lemma {:induction false} DrainIsPower(present: string -> bool, ds: seq<string>)
    ensures DrainProduct(present, ds) == Pow(DrainFactor, |Matching(present, ds)|)
    decreases |ds|
  {
    if ds != [] {
      DrainIsPower(present, ds[..|ds| - 1]);
    }
  }

  lemma {:induction false} PowAtLeastOne(n: nat)
    ensures Pow(DrainFactor, n) >= 1.0
  {
    if n > 0 {
      PowAtLeastOne(n - 1);
    }
  }

  /**
   * The amounts of one tank's impact: +5·k accessible, -3·k (or -6·k below
   * level 40) frustrated, a signal of intensity |impact| only when frustrated,
   * and a decay modifier of 1.2^d (times 1.3 when frustrated) for d drain
   * keywords present, consulted only once some keyword matched.
   */
  lemma ImpactAmounts(tank: string, cfg: TankConfig, present: string -> bool, level: real)
    requires Matching(present, cfg.keywords) != []
    ensures var r := ImpactOf(tank, cfg, present, level);
      var k := |Matching(present, cfg.keywords)| as real;
      var drain := Pow(DrainFactor, |Matching(present, cfg.drainKeywords)|);
      && (!Frustrated(present, cfg.frustrationKeywords) ==>
            r.impact == 5.0 * k && r.decayModifier == drain && r.emotionalSignal.None?)
      && (Frustrated(present, cfg.frustrationKeywords) ==>
            && r.impact == (if level < 40.0 then -6.0 * k else -3.0 * k)
            && r.decayModifier == 1.3 * drain
            && r.emotionalSignal == Some(EmotionalSignal(tank, -r.impact, DescriptionOf(tank, Matching(present, cfg.keywords)))))
      && r.decayModifier >= 1.0
  {
    var drain := |Matching(present, cfg.drainKeywords)|;
    DrainIsPower(present, cfg.drainKeywords);
    PowAtLeastOne(drain);
  }

  /** The keywords present, collected in list order. */
  method MatchKeywords(present: string -> bool, ks: seq<string>) returns (matched: seq<string>)
    ensures matched == Matching(present, ks)
  {
    matched := [];
    var i := 0;
    while i < |ks|
      invariant 0 <= i <= |ks|
      invariant matched == Matching(present, ks[..i])
    {
      assert ks[..i + 1][..i] == ks[..i];
      if present(ks[i]) {
        matched := matched + [ks[i]];
      }
      i := i + 1;
    }
    assert ks[..i] == ks;
  }

  /** The accessibility scan: it stops at the first frustration keyword present. */
  method IsAccessible(present: string -> bool, fks: seq<string>) returns (accessible: bool)
    ensures accessible <==> !Frustrated(present, fks)
  {
    accessible := true;
    var i := 0;
    while i < |fks| && accessible
      invariant 0 <= i <= |fks|
      invariant accessible <==> forall j :: 0 <= j < i ==> !present(fks[j])
      invariant !accessible ==> Frustrated(present, fks)
    {
      if present(fks[i]) {
        accessible := false;
      }
      i := i + 1;
    }
  }

  /**
   * The drain loop: the factor it puts on the decay modifier and the drain
   * keywords noted in the reason. In exact arithmetic, multiplying the
   * modifier by 1.2 at each hit equals multiplying it once by this factor.
   */
  method ApplyDrains(present: string -> bool, ds: seq<string>) returns (f: real, noted: seq<string>)
    ensures f == DrainProduct(present, ds)
    ensures noted == Matching(present, ds)
  {
    f, noted := 1.0, [];
    var i := 0;
    while i < |ds|
      invariant 0 <= i <= |ds|
      invariant f == DrainProduct(present, ds[..i])
      invariant noted == Matching(present, ds[..i])
    {
      assert ds[..i + 1][..i] == ds[..i];
      if present(ds[i]) {
        f := f * DrainFactor;
        noted := noted + [ds[i]];
      }
      i := i + 1;
    }
    assert ds[..i] == ds;
  }

  /** `_evaluateTankImpact`, step by step. */
  method EvaluateTankImpact(tank: string, cfg: TankConfig, present: string -> bool, level: real) returns (r: TankImpact)
    ensures r == ImpactOf(tank, cfg, present, level)
  {
    var matched := MatchKeywords(present, cfg.keywords);
    if |matched| == 0 {
      return NoImpact;
    }
    var accessible := IsAccessible(present, cfg.frustrationKeywords);
    var n := |matched| as real;
    if accessible {
      var f, noted := ApplyDrains(present, cfg.drainKeywords);
      r := TankImpact(Accessible * n, f, Some(Reason(true, matched, noted)), None);
    } else {
      var intensity := if level < LowLevel then 2.0 else 1.0;
      var impact := Frustration * n * intensity;
      var f, noted := ApplyDrains(present, cfg.drainKeywords);
      r := TankImpact(impact, FrustrationDecay * f, Some(Reason(false, matched, noted)), Some(EmotionalSignal(tank, Abs(impact), DescriptionOf(tank, matched))));
    }
  }

  // ---------------------------------------------------------------------------
  // The snapshot
  // ---------------------------------------------------------------------------

  function ItemsOf(v: StimulusValue): seq<string>
  {
    if v.StimulusList? then v.items else []
  }

  /** `_flattenStimuli`: the arrays among the values, concatenated in order. */
  method FlattenStimuli(stimuli: seq<StimulusValue>) returns (flat: seq<string>)
    ensures flat == FlatMap(stimuli, ItemsOf)
  {
    flat := [];
    var i := 0;
    while i < |stimuli|
      invariant 0 <= i <= |stimuli|
      invariant flat == FlatMap(stimuli[..i], ItemsOf)
    {
      FlatMapStep(stimuli, ItemsOf, i);
      if stimuli[i].StimulusList? {
        flat := flat + stimuli[i].items;
      }
      i := i + 1;
    }
    assert stimuli[..i] == stimuli;
  }

  /** Every flattened item comes from an array value of the snapshot, and every such item is kept. */
  lemma FlattenKeepsItems(stimuli: seq<StimulusValue>, x: string)
    ensures x in FlatMap(stimuli, ItemsOf) <==> exists k :: 0 <= k < |stimuli| && stimuli[k].StimulusList? && x in stimuli[k].items
  {
    FlatMapMember(stimuli, ItemsOf, x);
  }

  /** `currentTankLevels[tankId] || 50`. */
  function LevelOf(levels: map<string, real>, tank: string): real
  {
    if tank in levels then OrDefault(levels[tank], 50.0) else 50.0
  }

  /** Every tank of the mapping, in order, with its impact. */
  function ResultsOf(tanks: seq<(string, TankConfig)>, present: string -> bool, levels: map<string, real>): (rs: seq<(string, TankImpact)>)
    ensures |rs| == |tanks|
    ensures forall k :: 0 <= k < |tanks| ==> rs[k] == (tanks[k].0, ImpactOf(tanks[k].0, tanks[k].1, present, LevelOf(levels, tanks[k].0)))
  {
    seq(|tanks|, k requires 0 <= k < |tanks| => (tanks[k].0, ImpactOf(tanks[k].0, tanks[k].1, present, LevelOf(levels, tanks[k].0))))
  }

  /** `tankModifiers` after the loop: every tank whose impact is not zero, the later entry winning. */
  function Modifiers(rs: seq<(string, TankImpact)>): map<string, TankImpact>
  {
    if rs == [] then map[]
    else
      var m := Modifiers(rs[..|rs| - 1]);
      if rs[|rs| - 1].1.impact != 0.0 then m[rs[|rs| - 1].0 := rs[|rs| - 1].1] else m
  }

  /** `emotionalSignals` after the loop: the signals in mapping order. */
  function SignalList(rs: seq<(string, TankImpact)>): seq<EmotionalSignal>
  {
    if rs == [] then []
    else
      var r := rs[|rs| - 1].1;
      SignalList(rs[..|rs| - 1]) + (if r.emotionalSignal.Some? then [r.emotionalSignal.value] else [])
  }

  /** `_buildPromptInjection`'s lines, before they are joined with new-lines. */
  function InjectionLines(signals: seq<EmotionalSignal>): (lines: seq<InjectionLine>)
    ensures |lines| == |signals| + 3
    ensures lines[0] == Header && lines[|signals| + 1] == Blank && lines[|signals| + 2] == Closing
    ensures forall k :: 0 <= k < |signals| ==> lines[k + 1] == Warning(signals[k].description)
  {
    [Header] + seq(|signals|, k requires 0 <= k < |signals| => Warning(signals[k].description)) + [Blank, Closing]
  }

  /** A line's wording. */
  function LineText(line: InjectionLine): string
  {
    match line
    case Header => "[SEÑALES HOMEOSTÁTICAS]"
    case Warning(d) => "⚠️ " + DescriptionText(d)
    case Blank => ""
    case Closing => "Estas sensaciones colorean tu estado de ánimo actual."
  }

  /** The injection as the prompt receives it: the lines' wording joined with new-lines. */
  function InjectionText(lines: seq<InjectionLine>): string
  {
    Join(seq(|lines|, k requires 0 <= k < |lines| => LineText(lines[k])), "\n")
  }

  /** `_buildPromptInjection`: null without signals, else its lines. */
  method BuildPromptInjection(signals: seq<EmotionalSignal>) returns (r: Option<seq<InjectionLine>>)
    ensures signals == [] <==> r.None?
    ensures r.Some? ==> r.value == InjectionLines(signals)
  {
    if |signals| == 0 {
      return None;
    }
    var lines := [Header];
    var i := 0;
    while i < |signals|
      invariant 0 <= i <= |signals|
      invariant lines == InjectionLines(signals)[..i + 1]
    {
      lines := lines + [Warning(signals[i].description)];
      i := i + 1;
    }
    lines := lines + [Blank];
    lines := lines + [Closing];
    assert lines == InjectionLines(signals);
    r := Some(lines);
  }

  /** The prompt injection `processSnapshot` attaches: present only when some signal is. */
  function InjectionOf(signals: seq<EmotionalSignal>): Option<seq<InjectionLine>>
  {
    if signals == [] then None else Some(InjectionLines(signals))
  }

  /** The stimulus text of a snapshot: its flattened stimuli joined with spaces, lower-cased. */
  function StimuliText(stimuli: seq<StimulusValue>): string
  {
    Lower(Join(FlatMap(stimuli, ItemsOf), " "))
  }

  /** `processSnapshot`: nothing without a snapshot or its stimuli; else every tank of the mapping, in order. */
  function SignalsOf(tanks: seq<(string, TankConfig)>, snapshot: Option<Snapshot>, levels: map<string, real>): (s: Signals)
    ensures snapshot.None? || snapshot.value.stimuli.None? ==> s == Signals(map[], [], None)
    ensures s.promptInjection.Some? <==> s.emotionalSignals != []
  {
    if snapshot.None? || snapshot.value.stimuli.None? then Signals(map[], [], None)
    else
      var rs := ResultsOf(tanks, PresentIn(StimuliText(snapshot.value.stimuli.value)), levels);
      var signals := SignalList(rs);
      Signals(Modifiers(rs), signals, InjectionOf(signals))
  }

  /** The loop of `processSnapshot` over the tanks of the mapping. */
  method ScanTanks(tanks: seq<(string, TankConfig)>, present: string -> bool, levels: map<string, real>)
    returns (modifiers: map<string, TankImpact>, signals: seq<EmotionalSignal>)
    ensures modifiers == Modifiers(ResultsOf(tanks, present, levels))
    ensures signals == SignalList(ResultsOf(tanks, present, levels))
  {
    ghost var rs := ResultsOf(tanks, present, levels);
    modifiers, signals := map[], [];
    var i := 0;
    while i < |tanks|
      invariant 0 <= i <= |tanks|
      invariant modifiers == Modifiers(rs[..i])
      invariant signals == SignalList(rs[..i])
    {
      ResultStep(rs, i);
      var (id, cfg) := tanks[i];
      var r := EvaluateTankImpact(id, cfg, present, LevelOf(levels, id));
      assert rs[i] == (id, r);
      if r.impact != 0.0 {
        modifiers := modifiers[id := r];
      }
      if r.emotionalSignal.Some? {
        signals := signals + [r.emotionalSignal.value];
      }
      i := i + 1;
    }
    assert rs[..i] == rs;
  }

  /** One more result: its modifier and its signal, if any, join those of the results before it. */
  lemma ResultStep(rs: seq<(string, TankImpact)>, i: nat)
    requires i < |rs|
    ensures Modifiers(rs[..i + 1])
         == if rs[i].1.impact != 0.0 then Modifiers(rs[..i])[rs[i].0 := rs[i].1] else Modifiers(rs[..i])
    ensures SignalList(rs[..i + 1])
         == SignalList(rs[..i]) + (if rs[i].1.emotionalSignal.Some? then [rs[i].1.emotionalSignal.value] else [])
  {
    assert rs[..i + 1][..i] == rs[..i];
  }

  /** `processSnapshot`, step by step. */
  method ProcessSnapshot(tanks: seq<(string, TankConfig)>, snapshot: Option<Snapshot>, levels: map<string, real>)
    returns (s: Signals)
    ensures s == SignalsOf(tanks, snapshot, levels)
  {
    if snapshot.None? || snapshot.value.stimuli.None? {
      s := Signals(map[], [], None);
    } else {
      var all := FlattenStimuli(snapshot.value.stimuli.value);
      var text := Lower(Join(all, " "));
      assert text == StimuliText(snapshot.value.stimuli.value);
      var modifiers, signals := ScanTanks(tanks, PresentIn(text), levels);
      var injection := None;
      if |signals| > 0 {
        injection := BuildPromptInjection(signals);
      }
      assert injection == InjectionOf(signals);
      s := Signals(modifiers, signals, injection);
    }
  }

  /** A tank carries a modifier iff some result for it has a non-zero impact, and every modifier is non-zero. */
  lemma {:induction false} ModifiersExactly(rs: seq<(string, TankImpact)>, id: string)
    ensures id in Modifiers(rs) <==> exists k :: 0 <= k < |rs| && rs[k].0 == id && rs[k].1.impact != 0.0
    ensures id in Modifiers(rs) ==> Modifiers(rs)[id].impact != 0.0
    decreases |rs|
  {
    if rs != [] {
      var init := rs[..|rs| - 1];
      ModifiersExactly(init, id);
      assert forall k :: 0 <= k < |init| ==> init[k] == rs[k];
    }
  }

  /** A signal comes only from a frustrated tank, which therefore also carries a modifier. */
  lemma {:induction false} SignalsHaveModifiers(rs: seq<(string, TankImpact)>)
    requires forall k :: 0 <= k < |rs| ==>
      (rs[k].1.emotionalSignal.Some? <==> rs[k].1.impact < 0.0) &&
      (rs[k].1.emotionalSignal.Some? ==> rs[k].1.emotionalSignal.value.tank == rs[k].0 && rs[k].1.emotionalSignal.value.intensity == -rs[k].1.impact)
    ensures forall s :: s in SignalList(rs) ==> s.intensity > 0.0 && s.tank in Modifiers(rs)
    decreases |rs|
  {
    if rs != [] {
      var init := rs[..|rs| - 1];
      assert forall k :: 0 <= k < |init| ==> init[k] == rs[k];
      SignalsHaveModifiers(init);
      var r := rs[|rs| - 1];
      forall s | s in SignalList(rs)
        ensures s.intensity > 0.0 && s.tank in Modifiers(rs)
      {
        if s in SignalList(init) {
          assert s.tank in Modifiers(init);
        } else {
          assert s == r.1.emotionalSignal.value;
        }
      }
    }
  }

  /**
   * Of a snapshot's signals: each is the frustration of a tank of the mapping,
   * with positive intensity, and that tank carries a modifier.
   */
  lemma SnapshotSignalsHaveModifiers(tanks: seq<(string, TankConfig)>, snapshot: Option<Snapshot>, levels: map<string, real>)
    ensures var s := SignalsOf(tanks, snapshot, levels);
      forall sig :: sig in s.emotionalSignals ==> sig.intensity > 0.0 && sig.tank in s.tankModifiers
  {
    if snapshot.Some? && snapshot.value.stimuli.Some? {
      var present := PresentIn(StimuliText(snapshot.value.stimuli.value));
      var rs := ResultsOf(tanks, present, levels);
      forall k | 0 <= k < |rs|
        ensures rs[k].1.emotionalSignal.Some? ==> rs[k].1.emotionalSignal.value.tank == rs[k].0 && rs[k].1.emotionalSignal.value.intensity == -rs[k].1.impact
      {
        var cfg := tanks[k].1;
        if Matching(present, cfg.keywords) != [] {
          ImpactAmounts(tanks[k].0, cfg, present, LevelOf(levels, tanks[k].0));
        }
      }
      SignalsHaveModifiers(rs);
    }
  }
}
