// The Id: turns tank deficits into impulses sorted by intensity, keeps a map
// of affective charges per symbol, and judges a stimulus against its dominant
// impulse under the pleasure principle.

module Id {
  import opened Util
  import opened Types

  datatype DriveMapping = DriveMapping(pulsion: string, deseo: string, conductaImpulsiva: string, frase: string)

  /** The drive each tank gives rise to. */
  function MappingOf(t: Tank): DriveMapping
  {
    match t
    case Energia => DriveMapping("autoconservacion", "descanso", "evitar esfuerzo", "No tengo energía para esto...")
    case Integridad => DriveMapping("autodefensa", "seguridad", "atacar o huir", "¡Defiéndete!")
    case Afiliacion => DriveMapping("libidinal", "conexión", "buscar atención", "Necesito que me hablen...")
    case Certeza => DriveMapping("epistémica", "entender", "pedir clarificación", "¿Qué está pasando?")
    case Competencia => DriveMapping("dominio", "éxito", "demostrar capacidad", "Puedo hacerlo mejor...")
  }

  datatype Urgencia = Critica | Alta | Media | Baja

  function CalcularUrgencia(level: real): (u: Urgencia)
    ensures u == Critica <==> level < 20.0
    ensures u == Alta <==> 20.0 <= level < 40.0
    ensures u == Media <==> 40.0 <= level < 60.0
    ensures u == Baja <==> 60.0 <= level
  {
    if level < 20.0 then Critica
    else if level < 40.0 then Alta
    else if level < 60.0 then Media
    else Baja
  }

  datatype Impulse = Impulse(
    fuente: Tank, pulsion: string, deseo: string, intensidad: real,
    conductaImpulsiva: string, fraseInterna: string, urgencia: Urgencia)

  function ImpulseOf(l: Levels, t: Tank): Impulse
  {
    var m := MappingOf(t);
    Impulse(t, m.pulsion, m.deseo, (100.0 - l.Get(t)) / 100.0, m.conductaImpulsiva, m.frase,
            CalcularUrgencia(l.Get(t)))
  }

  /** The activation threshold: a deficit above 20 emits an impulse. */
  predicate Emits(l: Levels, t: Tank)
  {
    100.0 - l.Get(t) > 20.0
  }

  /** Impulses of the first `n` tanks, in tank order, before sorting. */
  function Candidates(l: Levels, n: nat): (s: seq<Impulse>)
    requires n <= |TankOrder|
    ensures forall k :: 0 <= k < |s| ==> TankIndex(s[k].fuente) < n
    ensures forall k :: 0 <= k < |s| ==> s[k] == ImpulseOf(l, s[k].fuente) && Emits(l, s[k].fuente)
  {
    if n == 0 then []
    else
      var t := TankOrder[n - 1];
      Candidates(l, n - 1) + (if Emits(l, t) then [ImpulseOf(l, t)] else [])
  }

  lemma {:induction false} CandidatesComplete(l: Levels, n: nat, t: Tank)
    requires n <= |TankOrder|
    requires TankIndex(t) < n && Emits(l, t)
    ensures ImpulseOf(l, t) in Candidates(l, n)
    decreases n
  {
    if TankIndex(t) < n - 1 {
      CandidatesComplete(l, n - 1, t);
    }
  }

  function Intensidad(i: Impulse): real
  {
    i.intensidad
  }

  datatype Drives = Drives(dominante: Option<Impulse>, todos: seq<Impulse>, hayConflicto: bool)

  /** Dominant impulse and conflict flag of an already sorted impulse list. */
  function DrivesFrom(todos: seq<Impulse>): Drives
  {
    Drives(if todos == [] then None else Some(todos[0]),
           todos,
           |todos| > 1 && todos[0].intensidad - todos[1].intensidad < 0.2)
  }

  /** The result of `generateDrives` for the given tank levels. */
  function DrivesOf(l: Levels): Drives
  {
    DrivesFrom(SortDesc(Candidates(l, |TankOrder|), Intensidad))
  }

  /** Every sorted impulse is the impulse of its own tank, and that tank emits. */
  lemma DrivesOfElements(l: Levels)
    ensures var todos := DrivesOf(l).todos;
      forall k :: 0 <= k < |todos| ==> todos[k] == ImpulseOf(l, todos[k].fuente) && Emits(l, todos[k].fuente)
  {
    var c := Candidates(l, |TankOrder|);
    var todos := DrivesOf(l).todos;
    assert todos == SortDesc(c, Intensidad);
    forall k | 0 <= k < |todos|
      ensures todos[k] == ImpulseOf(l, todos[k].fuente) && Emits(l, todos[k].fuente)
    {
      assert todos[k] in multiset(c);
    }
  }

  /** An impulse is emitted for a tank iff the tank's level is below 80. */
  lemma DrivesOfCoverage(l: Levels)
    ensures var todos := DrivesOf(l).todos;
      forall t :: (exists k :: 0 <= k < |todos| && todos[k].fuente == t) <==> l.Get(t) < 80.0
  {
    var c := Candidates(l, |TankOrder|);
    var todos := DrivesOf(l).todos;
    assert todos == SortDesc(c, Intensidad);
    DrivesOfElements(l);
    forall t ensures (exists k :: 0 <= k < |todos| && todos[k].fuente == t) <==> l.Get(t) < 80.0
    {
      if l.Get(t) < 80.0 {
        CandidatesComplete(l, |TankOrder|, t);
        assert ImpulseOf(l, t) in multiset(todos);
        var k :| 0 <= k < |todos| && todos[k] == ImpulseOf(l, t);
        assert todos[k].fuente == t;
      }
    }
  }

  /** Each impulse has intensity `(100 - level) / 100` and the urgency of its level. */
  lemma DrivesOfIntensities(l: Levels)
    ensures var todos := DrivesOf(l).todos;
      forall k :: 0 <= k < |todos| ==>
        && todos[k].intensidad == (100.0 - l.Get(todos[k].fuente)) / 100.0
        && todos[k].urgencia == CalcularUrgencia(l.Get(todos[k].fuente))
  {
    DrivesOfElements(l);
  }

  /** The impulses are sorted by non-increasing intensity. */
  lemma DrivesOfSorted(l: Levels)
    ensures var todos := DrivesOf(l).todos;
      forall i, j :: 0 <= i < j < |todos| ==> todos[i].intensidad >= todos[j].intensidad
  {
    assert SortedDesc(DrivesOf(l).todos, Intensidad);
  }

  /** The dominant impulse heads the list; conflict means the top two are closer than 0.2. */
  lemma DrivesOfHead(l: Levels)
    ensures var d := DrivesOf(l);
      && (d.dominante.None? <==> d.todos == [])
      && (d.dominante.Some? ==> d.dominante.value == d.todos[0])
      && (d.hayConflicto <==> |d.todos| >= 2 && d.todos[0].intensidad - d.todos[1].intensidad < 0.2)
  {
  }

  datatype ReactionKind = Indiferencia | Distraccion | Placer | Displacer | Ambivalencia

  /** The Id's reaction; `pulsion` is the satisfied or frustrated impulse when there is one. */
  datatype Reaction = Reaction(
    reaccion: ReactionKind, intensidad: real, pulsion: Option<Impulse>, impulsoConductual: Option<string>)

  /** `evaluarEstimulo` once the drives are known. */
  function ReactionTo(p: Stimulus, d: Drives): (r: Reaction)
    ensures r.reaccion == Indiferencia <==> d.dominante.None?
    ensures r.reaccion == Indiferencia ==> r.intensidad == 0.0
    ensures r.reaccion == Distraccion <==> d.dominante.Some? && d.dominante.value.fuente !in p.affectedTanks
    ensures r.reaccion == Distraccion ==> r.intensidad == 0.2
    ensures r.reaccion == Placer <==>
              d.dominante.Some? && d.dominante.value.fuente in p.affectedTanks && p.valence == PositiveValence
    ensures r.reaccion == Displacer <==>
              d.dominante.Some? && d.dominante.value.fuente in p.affectedTanks && p.valence == NegativeValence
    ensures r.reaccion in {Placer, Displacer} ==> r.intensidad == p.intensity * d.dominante.value.intensidad
    ensures r.reaccion == Displacer ==> r.impulsoConductual == Some(d.dominante.value.conductaImpulsiva)
    ensures r.reaccion == Ambivalencia ==> r.intensidad == 0.5 && p.valence == NeutralValence
  {
    match d.dominante
    case None => Reaction(Indiferencia, 0.0, None, None)
    case Some(dom) =>
      if dom.fuente !in p.affectedTanks then Reaction(Distraccion, 0.2, Some(dom), None)
      else match p.valence
        case PositiveValence => Reaction(Placer, p.intensity * dom.intensidad, Some(dom), None)
        case NegativeValence =>
          Reaction(Displacer, p.intensity * dom.intensidad, Some(dom), Some(dom.conductaImpulsiva))
        case NeutralValence => Reaction(Ambivalencia, 0.5, None, None)
  }

  class Id {
    /** Affective charge per symbol. */
    var catexias: map<string, real>
    var impulsosActivos: seq<Impulse>

    constructor ()
      ensures catexias == map[] && impulsosActivos == []
    {
      catexias := map[];
      impulsosActivos := [];
    }

    /** `generateDrives`: collect the impulses in tank order, then sort them. */
    method GenerateDrives(l: Levels) returns (d: Drives)
      modifies this
      ensures d == DrivesOf(l)
      ensures impulsosActivos == d.todos
      ensures catexias == old(catexias)
    {
      var impulsos: seq<Impulse> := [];
      var i := 0;
      while i < |TankOrder|
        invariant 0 <= i <= |TankOrder|
        invariant impulsos == Candidates(l, i)
      {
        var t := TankOrder[i];
        assert Candidates(l, i + 1) == Candidates(l, i) + (if Emits(l, t) then [ImpulseOf(l, t)] else []);
        var deficit := 100.0 - l.Get(t);
        if deficit > 20.0 {
          impulsos := impulsos + [ImpulseOf(l, t)];
        }
        i := i + 1;
      }
      assert impulsos == Candidates(l, |TankOrder|);
      impulsos := SortDesc(impulsos, Intensidad);
      impulsosActivos := impulsos;
      d := DrivesFrom(impulsos);
    }

    /** The charge of a symbol; an unknown symbol has charge 0. */
    function GetCatexia(simbolo: string): real
      reads this
    {
      if simbolo in catexias then catexias[simbolo] else 0.0
    }

    method InvestirCatexia(simbolo: string, carga: real)
      modifies this
      ensures catexias == old(catexias)[simbolo := old(GetCatexia(simbolo)) + carga]
      ensures impulsosActivos == old(impulsosActivos)
    {
      var actual := GetCatexia(simbolo);
      catexias := catexias[simbolo := actual + carga];
    }

    /** Regenerates the drives, then reacts to the stimulus with the dominant one. */
    method EvaluarEstimulo(p: Stimulus, l: Levels) returns (r: Reaction)
      modifies this
      ensures r == ReactionTo(p, DrivesOf(l))
      ensures impulsosActivos == DrivesOf(l).todos
      ensures catexias == old(catexias)
    {
      var d := GenerateDrives(l);
      r := ReactionTo(p, d);
    }
  }

  /** Investing only changes the invested symbol's charge. */
  lemma InvestLeavesOthers(before: map<string, real>, simbolo: string, carga: real, other: string)
    requires other != simbolo
    ensures var after := before[simbolo := (if simbolo in before then before[simbolo] else 0.0) + carga];
            (other in after <==> other in before) && (other in before ==> after[other] == before[other])
  {
  }
}
