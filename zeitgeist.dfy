// The zeitgeist: the first configured event whose dates, weekday and hours
// window all admit the current moment, and the atmosphere it lends the
// prompt. The events are a parameter (in configuration order); reading them
// from the cassette and the clock are not modelled.
module Zeitgeist {
  import opened Util

  /** The calendar fields `_detectActiveEvent` reads: month 1-12, day of month, hour, weekday 0-6 from Sunday. */
  datatype Moment = Moment(month: int, day: int, hour: int, dayOfWeek: int)

  datatype Date = Date(month: int, day: int)

  /**
   * An event's atmosphere; a field that is missing or empty is the empty
   * string, and is falsy to the prompt builder.
   */
  datatype Atmosphere = Atmosphere(feeling: string, urge: string, context: string, vulnerability: string)

  /**
   * One event of the configuration: each constraint may be absent, in which
   * case it admits every moment. Missing `symbols` and `tank_modifiers` are
   * empty (`|| []`, `|| {}`).
   */
  datatype EventConfig = EventConfig(
    dates: Option<seq<Date>>,
    dayOfWeek: Option<int>,
    hours: Option<(int, int)>,
    symbols: seq<string>,
    atmosphere: Option<Atmosphere>,
    tankModifiers: map<string, real>)

  /** A line of the atmospheric prompt, in the order the builder pushes them. */
  datatype PromptLine = PerceptionHeader | FeelingLine(feeling: string) | UrgeLine(urge: string)
                      | ContextLine(context: string) | VulnerabilityLine(vulnerability: string)

  datatype AmbientState = AmbientState(
    active: bool,
    eventId: Option<string>,
    eventName: Option<string>,
    symbols: seq<string>,
    atmosphere: Option<Atmosphere>,
    tankModifiers: map<string, real>,
    promptContext: Option<seq<PromptLine>>)

  // ---------------------------------------------------------------------------
  // Event detection
  // ---------------------------------------------------------------------------

  /** Some listed date is today. */
  predicate DateListed(dates: seq<Date>, m: Moment)
  {
    exists k :: 0 <= k < |dates| && dates[k].month == m.month && dates[k].day == m.day
  }

  /** Every constraint the event has admits the moment; the hours window is inclusive at both ends. */
  predicate Admits(e: EventConfig, m: Moment)
  {
    && (e.dates.Some? ==> DateListed(e.dates.value, m))
    && (e.dayOfWeek.Some? ==> e.dayOfWeek.value == m.dayOfWeek)
    && (e.hours.Some? ==> e.hours.value.0 <= m.hour <= e.hours.value.1)
  }

  /**
   * `_detectActiveEvent`: the index of the first event, in configuration
   * order, that admits the moment, or none when no event does.
   */
  function FirstActive(events: seq<(string, EventConfig)>, m: Moment): (r: Option<nat>)
    ensures r.Some? ==> r.value < |events| && Admits(events[r.value].1, m)
    ensures r.Some? ==> forall j :: 0 <= j < r.value ==> !Admits(events[j].1, m)
    ensures r.None? <==> forall j :: 0 <= j < |events| ==> !Admits(events[j].1, m)
    decreases |events|
  {
    if events == [] then None
    else if Admits(events[0].1, m) then Some(0)
    else
      var rest := FirstActive(events[1..], m);
      assert forall j :: 0 < j < |events| ==> events[j] == events[1..][j - 1];
      if rest.None? then None else Some(rest.value + 1)
  }

  /**
   * The scan `_detectActiveEvent` performs: events are tried in order, each
   * one skipped as soon as a constraint rejects the moment, and the first one
   * no constraint rejects is returned.
   */
  method DetectActiveEvent(events: seq<(string, EventConfig)>, m: Moment) returns (r: Option<nat>)
    ensures r == FirstActive(events, m)
  {
    var i := 0;
    r := None;
    while i < |events| && r.None?
      invariant 0 <= i <= |events|
      invariant forall j :: 0 <= j < i && (r.None? || j < r.value) ==> !Admits(events[j].1, m)
      invariant r.Some? ==> r.value == i - 1 && Admits(events[r.value].1, m)
    {
      var e := events[i].1;
      var admitted := true;
      if e.dates.Some? && !DateListed(e.dates.value, m) {
        admitted := false;
      } else if e.dayOfWeek.Some? && e.dayOfWeek.value != m.dayOfWeek {
        admitted := false;
      } else if e.hours.Some? && (m.hour < e.hours.value.0 || m.hour > e.hours.value.1) {
        admitted := false;
      }
      if admitted {
        r := Some(i);
      }
      i := i + 1;
    }
  }

  /** An event without any constraint is active whenever no earlier event is. */
  lemma UnconstrainedAlwaysMatches(events: seq<(string, EventConfig)>, m: Moment, k: nat)
    requires k < |events|
    requires events[k].1.dates.None? && events[k].1.dayOfWeek.None? && events[k].1.hours.None?
    ensures FirstActive(events, m).Some? && FirstActive(events, m).value <= k
  {
  }

  /** An event whose dates are an empty list is never active: no date can be listed. */
  lemma EmptyDatesNeverMatch(events: seq<(string, EventConfig)>, m: Moment, k: nat)
    requires k < |events| && events[k].1.dates == Some([])
    ensures FirstActive(events, m) != Some(k)
  {
  }

  /** The hours window admits exactly the hours from its start to its end, both included. */
  lemma HoursWindowInclusive(e: EventConfig, m: Moment)
    requires e.dates.None? && e.dayOfWeek.None? && e.hours.Some?
    ensures Admits(e, m) <==> e.hours.value.0 <= m.hour && m.hour <= e.hours.value.1
  {
  }

  // ---------------------------------------------------------------------------
  // The ambient state
  // ---------------------------------------------------------------------------

  /**
   * `_buildAtmosphericPrompt`: nothing without an atmosphere; else the header,
   * then a line for each of feeling, urge, context and vulnerability that is
   * present, in that order.
   */
  function AtmosphericPrompt(atmosphere: Option<Atmosphere>): (r: Option<seq<PromptLine>>)
    ensures r.None? <==> atmosphere.None?
    ensures r.Some? ==> |r.value| >= 1 && r.value[0] == PerceptionHeader
    ensures r.Some? ==> forall k :: 1 <= k < |r.value| ==> r.value[k] != PerceptionHeader
    ensures r.Some? ==>
      var a := atmosphere.value;
      |r.value| == 1 + (if a.feeling != "" then 1 else 0) + (if a.urge != "" then 1 else 0)
                     + (if a.context != "" then 1 else 0) + (if a.vulnerability != "" then 1 else 0)
  {
    if atmosphere.None? then None
    else
      var a := atmosphere.value;
      Some([PerceptionHeader]
           + (if a.feeling != "" then [FeelingLine(a.feeling)] else [])
           + (if a.urge != "" then [UrgeLine(a.urge)] else [])
           + (if a.context != "" then [ContextLine(a.context)] else [])
           + (if a.vulnerability != "" then [VulnerabilityLine(a.vulnerability)] else []))
  }

  /** The optional line of one field: present iff the field is non-empty. */
  function FieldLine(text: string, line: PromptLine): seq<PromptLine>
  {
    if text != "" then [line] else []
  }

  /** A line lies in four concatenated pieces iff it lies in one of them. */
  lemma InPieces(x: PromptLine, f: seq<PromptLine>, u: seq<PromptLine>, c: seq<PromptLine>, v: seq<PromptLine>)
    ensures x in f + u + c + v <==> x in f || x in u || x in c || x in v
  {
  }

  /**
   * Which lines the prompt carries: the line of each field iff that field is
   * non-empty, carrying the field's text, and no line besides the header and
   * these four.
   */
  lemma PromptContents(atmosphere: Option<Atmosphere>)
    requires atmosphere.Some?
    ensures var a, lines := atmosphere.value, AtmosphericPrompt(atmosphere).value;
      && (FeelingLine(a.feeling) in lines <==> a.feeling != "")
      && (UrgeLine(a.urge) in lines <==> a.urge != "")
      && (ContextLine(a.context) in lines <==> a.context != "")
      && (VulnerabilityLine(a.vulnerability) in lines <==> a.vulnerability != "")
      && forall k :: 1 <= k < |lines| ==>
           lines[k] == FeelingLine(a.feeling) || lines[k] == UrgeLine(a.urge)
           || lines[k] == ContextLine(a.context) || lines[k] == VulnerabilityLine(a.vulnerability)
  {
    var a := atmosphere.value;
    var f := FieldLine(a.feeling, FeelingLine(a.feeling));
    var u := FieldLine(a.urge, UrgeLine(a.urge));
    var c := FieldLine(a.context, ContextLine(a.context));
    var v := FieldLine(a.vulnerability, VulnerabilityLine(a.vulnerability));
    var lines := AtmosphericPrompt(atmosphere).value;
    assert lines == [PerceptionHeader] + (f + u + c + v);
    InPieces(FeelingLine(a.feeling), f, u, c, v);
    InPieces(UrgeLine(a.urge), f, u, c, v);
    InPieces(ContextLine(a.context), f, u, c, v);
    InPieces(VulnerabilityLine(a.vulnerability), f, u, c, v);
    forall k | 1 <= k < |lines|
      ensures lines[k] == FeelingLine(a.feeling) || lines[k] == UrgeLine(a.urge)
              || lines[k] == ContextLine(a.context) || lines[k] == VulnerabilityLine(a.vulnerability)
    {
      assert lines[k] in f + u + c + v;
      InPieces(lines[k], f, u, c, v);
    }
  }

  /** The rank of a line in the builder's order. */
  function Rank(line: PromptLine): nat
  {
    match line
    case PerceptionHeader => 0
    case FeelingLine(_) => 1
    case UrgeLine(_) => 2
    case ContextLine(_) => 3
    case VulnerabilityLine(_) => 4
  }

  predicate RankIncreasing(lines: seq<PromptLine>)
  {
    forall i, j :: 0 <= i < j < |lines| ==> Rank(lines[i]) < Rank(lines[j])
  }

  /** Appending at most one line that outranks every line so far keeps the ranks increasing. */
  lemma AppendOutranking(lines: seq<PromptLine>, extra: seq<PromptLine>, r: nat)
    requires RankIncreasing(lines) && |extra| <= 1
    requires forall i :: 0 <= i < |lines| ==> Rank(lines[i]) < r
    requires forall i :: 0 <= i < |extra| ==> Rank(extra[i]) == r
    ensures RankIncreasing(lines + extra)
    ensures forall i :: 0 <= i < |lines + extra| ==> Rank((lines + extra)[i]) <= r
  {
  }

  /** The lines come in strictly increasing rank: header, feeling, urge, context, vulnerability, each at most once. */
  lemma PromptOrder(atmosphere: Option<Atmosphere>)
    requires atmosphere.Some?
    ensures RankIncreasing(AtmosphericPrompt(atmosphere).value)
  {
    var a := atmosphere.value;
    var f := if a.feeling != "" then [FeelingLine(a.feeling)] else [];
    var u := if a.urge != "" then [UrgeLine(a.urge)] else [];
    var c := if a.context != "" then [ContextLine(a.context)] else [];
    var v := if a.vulnerability != "" then [VulnerabilityLine(a.vulnerability)] else [];
    AppendOutranking([PerceptionHeader], f, 1);
    AppendOutranking([PerceptionHeader] + f, u, 2);
    AppendOutranking([PerceptionHeader] + f + u, c, 3);
    AppendOutranking([PerceptionHeader] + f + u + c, v, 4);
  }

  /** A line's wording. */
  function LineText(line: PromptLine): string
  {
    match line
    case PerceptionHeader => "[PERCEPCIÓN AMBIENTAL]"
    case FeelingLine(s) => "Tu percepción está teñida por " + s + "."
    case UrgeLine(s) => "Sientes una urgencia latente hacia: " + s + "."
    case ContextLine(s) => "El ambiente sugiere: " + s + "."
    case VulnerabilityLine(s) => "Nota: " + s + "."
  }

  /** The prompt context as the prompt receives it: the lines' wording joined with new-lines. */
  function PromptText(lines: seq<PromptLine>): string
  {
    Join(seq(|lines|, k requires 0 <= k < |lines| => LineText(lines[k])), "\n")
  }

  const Inactive: AmbientState := AmbientState(false, None, None, [], None, map[], None)

  /**
   * `getAmbientState`: inactive and empty without an active event; else the
   * first active event's id (as both id and name), its symbols, atmosphere,
   * tank modifiers and atmospheric prompt.
   */
  function AmbientStateOf(events: seq<(string, EventConfig)>, m: Moment): (s: AmbientState)
    ensures FirstActive(events, m).None? <==> s == Inactive
    ensures s.active <==> FirstActive(events, m).Some?
    ensures s.active ==>
      var e := events[FirstActive(events, m).value];
      && s.eventId == Some(e.0) && s.eventName == s.eventId
      && s.symbols == e.1.symbols && s.atmosphere == e.1.atmosphere && s.tankModifiers == e.1.tankModifiers
      && (s.promptContext.Some? <==> e.1.atmosphere.Some?)
  {
    match FirstActive(events, m)
    case None => Inactive
    case Some(k) =>
      var e := events[k];
      AmbientState(true, Some(e.0), Some(e.0), e.1.symbols, e.1.atmosphere, e.1.tankModifiers,
                   AtmosphericPrompt(e.1.atmosphere))
  }
}
