// The Superego: a censor that checks an impulse against internalised
// prohibitions, computes guilt, suggests a defense mechanism, and records
// every defense it activates.

module Superego {
  import opened Util
  import opened Types

  datatype Prohibicion = Prohibicion(regla: string, descripcion: string, severidad: real)

  datatype Ideal = Ideal(ideal: string, descripcion: string, peso: real)

  datatype Tolerancia = Tolerancia(agresion: real, vulgaridad: real, evasion: real)

  /** The internalised norms of a character. */
  datatype Norms = Norms(prohibiciones: seq<Prohibicion>, ideales: seq<Ideal>, tolerancia: Tolerancia)

  const DefaultNorms: Norms := Norms(
    [ Prohibicion("no_insultar", "No insultar directamente", 0.8),
      Prohibicion("no_amenazar", "No amenazar con violencia", 1.0),
      Prohibicion("no_abandonar", "No ignorar completamente", 0.5) ],
    [ Ideal("ser_util", "Ayudar cuando es posible", 0.7),
      Ideal("ser_leal", "Mantener consistencia", 0.6),
      Ideal("ser_autentico", "Ser genuino, no falso", 0.8) ],
    Tolerancia(0.3, 0.5, 0.4))

  /** The fields of a norms object that `configurarNormas` may replace; `None` leaves a field as it is. */
  datatype NormsUpdate = NormsUpdate(
    prohibiciones: Option<seq<Prohibicion>>, ideales: Option<seq<Ideal>>, tolerancia: Option<Tolerancia>)

  /** The shallow merge `{ ...norms, ...update }`. */
  function Merge(n: Norms, u: NormsUpdate): (r: Norms)
    ensures r.prohibiciones == u.prohibiciones.GetOr(n.prohibiciones)
    ensures r.ideales == u.ideales.GetOr(n.ideales)
    ensures r.tolerancia == u.tolerancia.GetOr(n.tolerancia)
    ensures u == NormsUpdate(None, None, None) ==> r == n
  {
    Norms(u.prohibiciones.GetOr(n.prohibiciones), u.ideales.GetOr(n.ideales), u.tolerancia.GetOr(n.tolerancia))
  }

  /** What the censor reads of an impulse; a missing impulse has neither field. */
  datatype CensorInput = CensorInput(pulsion: Option<string>, impulsoConductual: Option<string>)

  /** `_violaProhibicion`: only two rule/behaviour pairs are recognised. */
  predicate ViolaProhibicion(i: CensorInput, p: Prohibicion)
  {
    || (p.regla == "no_insultar" && i.impulsoConductual == Some("atacar o huir"))
    || (p.regla == "no_abandonar" && i.impulsoConductual == Some("evitar esfuerzo"))
  }

  /** Only `no_insultar` and `no_abandonar` can ever be violated, and only by a behaviour that is present. */
  lemma OnlyTwoRulesMatch(i: CensorInput, p: Prohibicion)
    requires ViolaProhibicion(i, p)
    ensures p.regla == "no_insultar" || p.regla == "no_abandonar"
    ensures i.impulsoConductual == Some("atacar o huir") || i.impulsoConductual == Some("evitar esfuerzo")
  {
  }

  /**
   * The matched prohibitions of `ps`, in order, whose severity is above 0.7
   * (`severe`) or not above it (`!severe`).
   */
  function Matched(ps: seq<Prohibicion>, i: CensorInput, severe: bool): (r: seq<Prohibicion>)
    ensures |r| <= |ps|
  {
    if ps == [] then []
    else
      var p := ps[|ps| - 1];
      Matched(ps[..|ps| - 1], i, severe) + (if ViolaProhibicion(i, p) && (p.severidad > 0.7 <==> severe) then [p] else [])
  }

  predicate Sound(ps: seq<Prohibicion>, i: CensorInput, severe: bool, p: Prohibicion)
  {
    p in ps && ViolaProhibicion(i, p) && (p.severidad > 0.7 <==> severe)
  }

  /** Every listed prohibition comes from `ps`, matches the impulse and has the requested severity. */
  lemma {:induction false} MatchedSound(ps: seq<Prohibicion>, i: CensorInput, severe: bool)
    ensures forall k :: 0 <= k < |Matched(ps, i, severe)| ==> Sound(ps, i, severe, Matched(ps, i, severe)[k])
    decreases |ps|
  {
    if ps != [] {
      var init := ps[..|ps| - 1];
      MatchedSound(init, i, severe);
      var r0 := Matched(init, i, severe);
      var r := Matched(ps, i, severe);
      var p := ps[|ps| - 1];
      assert r == r0 + (if ViolaProhibicion(i, p) && (p.severidad > 0.7 <==> severe) then [p] else []);
      forall k | 0 <= k < |r|
        ensures Sound(ps, i, severe, r[k])
      {
        if k < |r0| {
          assert r[k] == r0[k] && Sound(init, i, severe, r0[k]);
          var j :| 0 <= j < |init| && init[j] == r0[k];
          assert ps[j] == r[k];
        } else {
          assert r[k] == ps[|ps| - 1];
        }
      }
    }
  }

  /** Every matching prohibition of the requested severity is listed. */
  lemma {:induction false} MatchedComplete(ps: seq<Prohibicion>, i: CensorInput, severe: bool, k: nat)
    requires k < |ps| && ViolaProhibicion(i, ps[k]) && (ps[k].severidad > 0.7 <==> severe)
    ensures ps[k] in Matched(ps, i, severe)
    decreases |ps|
  {
    if k < |ps| - 1 {
      assert ps[..|ps| - 1][k] == ps[k];
      MatchedComplete(ps[..|ps| - 1], i, severe, k);
    }
  }

  /** `Σ weight · severidad` over a list of prohibitions. */
  function SeveritySum(s: seq<Prohibicion>, weight: real): real
  {
    if s == [] then 0.0 else SeveritySum(s[..|s| - 1], weight) + s[|s| - 1].severidad * weight
  }

  lemma {:induction false} SeveritySumBounds(s: seq<Prohibicion>, weight: real)
    requires weight >= 0.0
    requires forall k :: 0 <= k < |s| ==> s[k].severidad >= 0.0
    ensures SeveritySum(s, weight) >= 0.0
    decreases |s|
  {
    if s != [] {
      assert forall k :: 0 <= k < |s| - 1 ==> s[..|s| - 1][k] == s[k];
      SeveritySumBounds(s[..|s| - 1], weight);
    }
  }

  /** `_calcularCulpa`: guilt weighs violations three times as much as warnings, capped at 1. */
  function CulpaOf(violaciones: seq<Prohibicion>, advertencias: seq<Prohibicion>): real
  {
    Min(1.0, SeveritySum(violaciones, 0.3) + SeveritySum(advertencias, 0.1))
  }

  /** Guilt never exceeds 1, and is non-negative when no severity is negative. */
  lemma CulpaBounds(violaciones: seq<Prohibicion>, advertencias: seq<Prohibicion>)
    requires forall k :: 0 <= k < |violaciones| ==> violaciones[k].severidad >= 0.0
    requires forall k :: 0 <= k < |advertencias| ==> advertencias[k].severidad >= 0.0
    ensures 0.0 <= CulpaOf(violaciones, advertencias) <= 1.0
  {
    SeveritySumBounds(violaciones, 0.3);
    SeveritySumBounds(advertencias, 0.1);
  }

  /** `_sugerirDefensa`: the defense that suits the impulse's drive. */
  function SugerirDefensa(i: CensorInput): (k: DefenseKind)
    ensures k == Sublimacion <==> i.pulsion == Some("autodefensa")
    ensures k == Desplazamiento <==> i.pulsion == Some("libidinal")
    ensures k == Racionalizacion <==> i.pulsion != Some("autodefensa") && i.pulsion != Some("libidinal")
  {
    if i.pulsion == Some("autodefensa") then Sublimacion
    else if i.pulsion == Some("libidinal") then Desplazamiento
    else Racionalizacion
  }

  /** `_evaluarIdeales`: the distance from the ideals is always 0. */
  function EvaluarIdeales(): real
  {
    0.0
  }

  /** The verdict of the censor. */
  datatype Censura = Censura(
    permitido: bool,
    violaciones: seq<Prohibicion>,
    advertencias: seq<Prohibicion>,
    desviacionIdeales: real,
    requiereDefensa: bool,
    defensaSugerida: Option<DefenseKind>,
    culpa: real,
    verguenza: real)

  /** `censurar` under the given norms. */
  function CensuraOf(n: Norms, i: CensorInput): (c: Censura)
    ensures c.permitido <==> c.violaciones == []
    ensures c.requiereDefensa <==> c.violaciones != [] || c.advertencias != []
    ensures c.defensaSugerida.None? <==> !c.requiereDefensa
    ensures c.defensaSugerida.Some? ==> c.defensaSugerida.value == SugerirDefensa(i)
    ensures c.culpa <= 1.0
    ensures c.verguenza == 0.0
  {
    var violaciones := Matched(n.prohibiciones, i, true);
    var advertencias := Matched(n.prohibiciones, i, false);
    var desviacion := EvaluarIdeales();
    var requiere := violaciones != [] || advertencias != [];
    Censura(
      violaciones == [],
      violaciones,
      advertencias,
      desviacion,
      requiere,
      if requiere then Some(SugerirDefensa(i)) else None,
      CulpaOf(violaciones, advertencias),
      if desviacion > 0.5 then desviacion else 0.0)
  }

  /** A prohibition list none of whose rules the impulse violates yields no match. */
  lemma {:induction false} MatchedNone(ps: seq<Prohibicion>, i: CensorInput, severe: bool)
    requires forall k :: 0 <= k < |ps| ==> !ViolaProhibicion(i, ps[k])
    ensures Matched(ps, i, severe) == []
    decreases |ps|
  {
    if ps != [] {
      assert forall k :: 0 <= k < |ps| - 1 ==> ps[..|ps| - 1][k] == ps[k];
      MatchedNone(ps[..|ps| - 1], i, severe);
    }
  }

  /** The impulse is blocked iff it matches some prohibition of severity above 0.7. */
  lemma CensuraBlocksIff(n: Norms, i: CensorInput)
    ensures !CensuraOf(n, i).permitido <==>
              exists k :: 0 <= k < |n.prohibiciones| && ViolaProhibicion(i, n.prohibiciones[k])
                                                  && n.prohibiciones[k].severidad > 0.7
  {
    var ps := n.prohibiciones;
    var v := CensuraOf(n, i).violaciones;
    MatchedSound(ps, i, true);
    if exists k :: 0 <= k < |ps| && ViolaProhibicion(i, ps[k]) && ps[k].severidad > 0.7 {
      var k :| 0 <= k < |ps| && ViolaProhibicion(i, ps[k]) && ps[k].severidad > 0.7;
      MatchedComplete(ps, i, true, k);
    }
    if v != [] {
      assert v[0] in ps;
      var k :| 0 <= k < |ps| && ps[k] == v[0];
      assert ViolaProhibicion(i, ps[k]) && ps[k].severidad > 0.7;
    }
  }

  /** Matches of severity at most 0.7 become warnings only, and each match lands in exactly one list. */
  lemma CensuraPartition(n: Norms, i: CensorInput, k: nat)
    requires k < |n.prohibiciones| && ViolaProhibicion(i, n.prohibiciones[k])
    ensures var c := CensuraOf(n, i);
      && (n.prohibiciones[k].severidad > 0.7 ==> n.prohibiciones[k] in c.violaciones && n.prohibiciones[k] !in c.advertencias)
      && (n.prohibiciones[k].severidad <= 0.7 ==> n.prohibiciones[k] in c.advertencias && n.prohibiciones[k] !in c.violaciones)
  {
    var ps := n.prohibiciones;
    MatchedSound(ps, i, true);
    MatchedSound(ps, i, false);
    var c := CensuraOf(n, i);
    assert c.violaciones == Matched(ps, i, true) && c.advertencias == Matched(ps, i, false);
    if ps[k].severidad > 0.7 {
      MatchedComplete(ps, i, true, k);
      forall j | 0 <= j < |c.advertencias| ensures c.advertencias[j] != ps[k] { }
    } else {
      MatchedComplete(ps, i, false, k);
      forall j | 0 <= j < |c.violaciones| ensures c.violaciones[j] != ps[k] { }
    }
  }

  /** An impulse with no behaviour is always allowed, without guilt or a suggested defense. */
  lemma EmptyImpulseAllowed(n: Norms, i: CensorInput)
    requires i.impulsoConductual.None?
    ensures var c := CensuraOf(n, i);
      c.permitido && !c.requiereDefensa && c.defensaSugerida.None? && c.culpa == 0.0
  {
    MatchedNone(n.prohibiciones, i, true);
    MatchedNone(n.prohibiciones, i, false);
  }

  /** Each defense mechanism by the key it has in the mechanism table. */
  function NameOf(k: DefenseKind): string
  {
    match k
    case Represion => "represion"
    case Negacion => "negacion"
    case Proyeccion => "proyeccion"
    case Racionalizacion => "racionalizacion"
    case Sublimacion => "sublimacion"
    case Desplazamiento => "desplazamiento"
  }

  /** Looks a mechanism key up in the table; an unknown key has no mechanism. */
  function MechanismOf(s: string): (r: Option<DefenseKind>)
    ensures r.Some? ==> NameOf(r.value) == s
    ensures forall k :: NameOf(k) == s ==> r == Some(k)
  {
    if s == "represion" then Some(Represion)
    else if s == "negacion" then Some(Negacion)
    else if s == "proyeccion" then Some(Proyeccion)
    else if s == "racionalizacion" then Some(Racionalizacion)
    else if s == "sublimacion" then Some(Sublimacion)
    else if s == "desplazamiento" then Some(Desplazamiento)
    else None
  }

  /** `_generarInstruccionDefensa`: the prompt instruction each defense adds. */
  function InstruccionDefensa(k: DefenseKind): string
  {
    match k
    case Represion => "Ignora completamente el tema que te molestó. Cambia de tema."
    case Negacion => "Responde como si el comentario ofensivo no existiera."
    case Proyeccion => "Sugiere que el otro es quien tiene el problema, no tú."
    case Racionalizacion => "Explica lógicamente por qué no te afecta (aunque sí lo haga)."
    case Sublimacion => "Transforma tu frustración en humor o ironía inteligente."
    case Desplazamiento => "Habla de algo relacionado pero menos doloroso."
  }

  function Nombre(k: DefenseKind): string
  {
    match k
    case Represion => "Represión"
    case Negacion => "Negación"
    case Proyeccion => "Proyección"
    case Racionalizacion => "Racionalización"
    case Sublimacion => "Sublimación"
    case Desplazamiento => "Desplazamiento"
  }

  /** The record `activarDefensa` returns for a known mechanism. */
  datatype DefenseResult = DefenseResult(tipo: DefenseKind, nombre: string, instruccionPrompt: string)

  function DefenseOf(k: DefenseKind): (d: DefenseResult)
    ensures d.tipo == k && d.nombre == Nombre(k) && d.instruccionPrompt == InstruccionDefensa(k)
  {
    DefenseResult(k, Nombre(k), InstruccionDefensa(k))
  }

  /** One entry of the active-defense log. */
  datatype ActiveDefense = ActiveDefense(mecanismo: DefenseKind, impulsoOriginal: Proposal)

  class Superego {
    var norms: Norms
    var defensasActivas: seq<ActiveDefense>

    constructor (n: Norms)
      ensures norms == n && defensasActivas == []
    {
      norms := n;
      defensasActivas := [];
    }

    /** `censurar`: sorts the matched prohibitions into violations and warnings, then weighs guilt. */
    method Censurar(i: CensorInput) returns (c: Censura)
      ensures c == CensuraOf(norms, i)
    {
      var violaciones: seq<Prohibicion> := [];
      var advertencias: seq<Prohibicion> := [];
      var ps := norms.prohibiciones;
      var k := 0;
      while k < |ps|
        invariant 0 <= k <= |ps|
        invariant violaciones == Matched(ps[..k], i, true)
        invariant advertencias == Matched(ps[..k], i, false)
      {
        var p := ps[k];
        assert ps[..k + 1][..k] == ps[..k] && ps[..k + 1][k] == p;
        assert Matched(ps[..k + 1], i, true) ==
               Matched(ps[..k], i, true) + (if ViolaProhibicion(i, p) && p.severidad > 0.7 then [p] else []);
        assert Matched(ps[..k + 1], i, false) ==
               Matched(ps[..k], i, false) + (if ViolaProhibicion(i, p) && p.severidad <= 0.7 then [p] else []);
        if ViolaProhibicion(i, p) {
          if p.severidad > 0.7 {
            violaciones := violaciones + [p];
          } else {
            advertencias := advertencias + [p];
          }
        }
        k := k + 1;
      }
      assert ps[..k] == ps;
      var desviacion := EvaluarIdeales();
      var requiere := |violaciones| > 0 || |advertencias| > 0;
      var culpa := CalcularCulpa(violaciones, advertencias);
      c := Censura(
        |violaciones| == 0,
        violaciones,
        advertencias,
        desviacion,
        requiere,
        if requiere then Some(SugerirDefensa(i)) else None,
        culpa,
        if desviacion > 0.5 then desviacion else 0.0);
    }

    /**
     * `activarDefensa`: an unknown mechanism yields nothing and logs nothing;
     * a known one is logged once and its description returned.
     */
    method ActivarDefensa(mecanismo: string, impulso: Proposal) returns (r: Option<DefenseResult>)
      modifies this
      ensures norms == old(norms)
      ensures MechanismOf(mecanismo).None? ==> r.None? && defensasActivas == old(defensasActivas)
      ensures MechanismOf(mecanismo).Some? ==>
                && r == Some(DefenseOf(MechanismOf(mecanismo).value))
                && defensasActivas == old(defensasActivas) + [ActiveDefense(MechanismOf(mecanismo).value, impulso)]
    {
      var k := MechanismOf(mecanismo);
      if k.None? {
        return None;
      }
      defensasActivas := defensasActivas + [ActiveDefense(k.value, impulso)];
      r := Some(DefenseOf(k.value));
    }

    /** `configurarNormas`: a shallow merge over the current norms. */
    method ConfigurarNormas(u: NormsUpdate)
      modifies this
      ensures norms == Merge(old(norms), u)
      ensures defensasActivas == old(defensasActivas)
    {
      norms := Merge(norms, u);
    }
  }

  /** `_calcularCulpa` as two accumulation loops. */
  method CalcularCulpa(violaciones: seq<Prohibicion>, advertencias: seq<Prohibicion>) returns (culpa: real)
    ensures culpa == CulpaOf(violaciones, advertencias)
  {
    culpa := 0.0;
    var k := 0;
    while k < |violaciones|
      invariant 0 <= k <= |violaciones|
      invariant culpa == SeveritySum(violaciones[..k], 0.3)
    {
      assert violaciones[..k + 1][..k] == violaciones[..k];
      culpa := culpa + violaciones[k].severidad * 0.3;
      k := k + 1;
    }
    assert violaciones[..k] == violaciones;
    var fromViolations := culpa;
    k := 0;
    while k < |advertencias|
      invariant 0 <= k <= |advertencias|
      invariant culpa == fromViolations + SeveritySum(advertencias[..k], 0.1)
    {
      assert advertencias[..k + 1][..k] == advertencias[..k];
      culpa := culpa + advertencias[k].severidad * 0.1;
      k := k + 1;
    }
    assert advertencias[..k] == advertencias;
    culpa := Min(1.0, culpa);
  }
}
