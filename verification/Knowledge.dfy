/** The fact projection: what a turn's observations do to a process's knowledge. */
module Knowledge {
  import opened Contracts

  datatype Origin = FromEvent(event: Id) | FromAttempt(attempt: Key)

  /** One observation together with the source that made it. */
  datatype Write = Write(fact: Observation, origin: Origin)

  /** One wake source of a turn with the observations it carries. */
  datatype Source = Source(origin: Origin, facts: seq<Observation>)

  datatype Projection = Projection(
    authoritative: map<string, Json>,
    claims: map<string, Json>,
    provenance: map<(FactKind, string), Origin>)
  {
    function Facts(kind: FactKind): map<string, Json> {
      if kind.Authoritative? then authoritative else claims
    }
  }

  const Empty := Projection(map[], map[], map[])

  // ---------------------------------------------------------- specification

  function Apply(p: Projection, w: Write): Projection {
    var traced := p.provenance[(w.fact.kind, w.fact.key) := w.origin];
    if w.fact.kind.Authoritative?
    then Projection(p.authoritative[w.fact.key := w.fact.value], p.claims, traced)
    else Projection(p.authoritative, p.claims[w.fact.key := w.fact.value], traced)
  }

  function Fold(p: Projection, ws: seq<Write>): Projection {
    if ws == [] then p else Apply(Fold(p, ws[..|ws| - 1]), ws[|ws| - 1])
  }

  function Tag(origin: Origin, facts: seq<Observation>): (ws: seq<Write>)
    ensures |ws| == |facts|
    ensures forall i :: 0 <= i < |ws| ==> ws[i] == Write(facts[i], origin)
  {
    seq(|facts|, i requires 0 <= i < |facts| => Write(facts[i], origin))
  }

  /** All writes of a turn: sources in order, each source's observations in order. */
  function Writes(sources: seq<Source>): seq<Write> {
    if sources == [] then []
    else
      var last := sources[|sources| - 1];
      Writes(sources[..|sources| - 1]) + Tag(last.origin, last.facts)
  }

  function Project(p: Projection, sources: seq<Source>): Projection {
    Fold(p, Writes(sources))
  }

  // ------------------------------------------------------- the three folds

  /** The mutable dictionaries that every fold updates in place. */
  class Dictionaries {
    var authoritative: map<string, Json>
    var claims: map<string, Json>
    var provenance: map<(FactKind, string), Origin>

    ghost function View(): Projection
      reads this
    {
      Projection(authoritative, claims, provenance)
    }

    constructor (p: Projection)
      ensures View() == p
    {
      authoritative, claims, provenance := p.authoritative, p.claims, p.provenance;
    }

    /** core/transitions.py: apply one source's observations to the dictionaries. */
    method ApplyFactObservations(observations: seq<Observation>, origin: Origin)
      modifies this
      ensures View() == Fold(old(View()), Tag(origin, observations))
    {
      ghost var ws := Tag(origin, observations);
      for i := 0 to |observations|
        invariant View() == Fold(old(View()), ws[..i])
      {
        var o := observations[i];
        assert ws[..i + 1][..i] == ws[..i];
        if o.kind.Authoritative? {
          authoritative := authoritative[o.key := o.value];
        } else {
          claims := claims[o.key := o.value];
        }
        provenance := provenance[(o.kind, o.key) := origin];
      }
      assert ws[..|observations|] == ws;
    }
  }

  /** processes/state.py: the events of a decision, then its action attempts. */
  method PersistenceFold(p: Projection, events: seq<Source>, attempts: seq<Source>)
    returns (r: Projection)
    ensures r == Project(p, events + attempts)
  {
    var d := new Dictionaries(p);
    ghost var all := events + attempts;
    for i := 0 to |events|
      invariant d.View() == Project(p, all[..i])
    {
      ProjectStep(p, all, i);
      d.ApplyFactObservations(events[i].facts, events[i].origin);
    }
    for i := 0 to |attempts|
      invariant d.View() == Project(p, all[..|events| + i])
    {
      ProjectStep(p, all, |events| + i);
      d.ApplyFactObservations(attempts[i].facts, attempts[i].origin);
    }
    assert all[..|all|] == all;
    r := Projection(d.authoritative, d.claims, d.provenance);
  }

  /** agents/context.py: the preflight copy, one nested loop over all sources. */
  method PreflightFold(p: Projection, sources: seq<Source>) returns (r: Projection)
    ensures r == Project(p, sources)
  {
    var authoritative, claims, provenance := p.authoritative, p.claims, p.provenance;
    for i := 0 to |sources|
      invariant Projection(authoritative, claims, provenance) == Project(p, sources[..i])
    {
      var s := sources[i];
      ghost var ws := Tag(s.origin, s.facts);
      ProjectStep(p, sources, i);
      for j := 0 to |s.facts|
        invariant Projection(authoritative, claims, provenance) ==
                  Fold(Project(p, sources[..i]), ws[..j])
      {
        assert ws[..j + 1][..j] == ws[..j];
        if s.facts[j].kind.Authoritative? {
          authoritative := authoritative[s.facts[j].key := s.facts[j].value];
        } else {
          claims := claims[s.facts[j].key := s.facts[j].value];
        }
        provenance := provenance[(s.facts[j].kind, s.facts[j].key) := s.origin];
      }
      assert ws[..|s.facts|] == ws;
    }
    assert sources[..|sources|] == sources;
    r := Projection(authoritative, claims, provenance);
  }

  /** testkit/scenario_script.py: the script's view of facts and claims, without provenance. */
  method ProspectiveFold(authoritative: map<string, Json>, claims: map<string, Json>, sources: seq<Source>)
    returns (a: map<string, Json>, c: map<string, Json>)
    ensures forall prov ::
              var r := Project(Projection(authoritative, claims, prov), sources);
              a == r.authoritative && c == r.claims
  {
    a, c := authoritative, claims;
    ghost var p := Projection(authoritative, claims, map[]);
    for i := 0 to |sources|
      invariant a == Project(p, sources[..i]).authoritative && c == Project(p, sources[..i]).claims
    {
      var s := sources[i];
      ghost var ws := Tag(s.origin, s.facts);
      ProjectStep(p, sources, i);
      for j := 0 to |s.facts|
        invariant a == Fold(Project(p, sources[..i]), ws[..j]).authoritative
        invariant c == Fold(Project(p, sources[..i]), ws[..j]).claims
      {
        assert ws[..j + 1][..j] == ws[..j];
        if s.facts[j].kind.Authoritative? {
          a := a[s.facts[j].key := s.facts[j].value];
        } else {
          c := c[s.facts[j].key := s.facts[j].value];
        }
      }
      assert ws[..|s.facts|] == ws;
    }
    assert sources[..|sources|] == sources;
    forall prov
      ensures Project(Projection(authoritative, claims, prov), sources).authoritative == a
      ensures Project(Projection(authoritative, claims, prov), sources).claims == c
    {
      FactsIgnoreProvenance(p, Projection(authoritative, claims, prov), Writes(sources));
    }
  }

  lemma ProjectStep(p: Projection, sources: seq<Source>, i: nat)
    requires i < |sources|
    ensures Project(p, sources[..i + 1]) ==
            Fold(Project(p, sources[..i]), Tag(sources[i].origin, sources[i].facts))
  {
    assert sources[..i + 1][..i] == sources[..i];
    FoldAppend(p, Writes(sources[..i]), Tag(sources[i].origin, sources[i].facts));
  }

  lemma {:induction false} FoldAppend(p: Projection, first: seq<Write>, second: seq<Write>)
    ensures Fold(p, first + second) == Fold(Fold(p, first), second)
  {
    if second == [] {
      assert first + second == first;
    } else {
      var n := |second| - 1;
      assert (first + second)[..|first| + n] == first + second[..n];
      FoldAppend(p, first, second[..n]);
    }
  }

  lemma {:induction false} FactsIgnoreProvenance(p: Projection, q: Projection, ws: seq<Write>)
    requires p.authoritative == q.authoritative && p.claims == q.claims
    ensures Fold(p, ws).authoritative == Fold(q, ws).authoritative
    ensures Fold(p, ws).claims == Fold(q, ws).claims
  {
    if ws != [] { FactsIgnoreProvenance(p, q, ws[..|ws| - 1]); }
  }

  // --------------------------------------------------------- what it means

  /** The last write of one kind to one key. */
  function LastWrite(ws: seq<Write>, kind: FactKind, key: string): (r: Option<Write>)
    ensures r.Some? ==> r.value.fact.kind == kind && r.value.fact.key == key
    ensures r.None? <==> forall i :: 0 <= i < |ws| ==> ws[i].fact.kind != kind || ws[i].fact.key != key
    ensures r.Some? ==> exists i :: 0 <= i < |ws| && ws[i] == r.value &&
                                    (forall j :: i < j < |ws| ==>
                                      ws[j].fact.kind != kind || ws[j].fact.key != key)
  {
    if ws == [] then None
    else
      var last := ws[|ws| - 1];
      if last.fact.kind == kind && last.fact.key == key then Some(last)
      else LastWrite(ws[..|ws| - 1], kind, key)
  }

  /** The last writer of a key wins in its own map and is the one provenance names; keys
      nobody wrote keep their base value. Claims therefore never touch authoritative facts. */
  lemma {:induction false} FoldIsLastWriter(p: Projection, ws: seq<Write>, kind: FactKind, key: string)
    ensures var r := Fold(p, ws);
            match LastWrite(ws, kind, key)
            case Some(w) =>
              key in r.Facts(kind) && r.Facts(kind)[key] == w.fact.value &&
              (kind, key) in r.provenance && r.provenance[(kind, key)] == w.origin
            case None =>
              (key in r.Facts(kind) <==> key in p.Facts(kind)) &&
              (key in p.Facts(kind) ==> r.Facts(kind)[key] == p.Facts(kind)[key]) &&
              ((kind, key) in r.provenance <==> (kind, key) in p.provenance) &&
              ((kind, key) in p.provenance ==> r.provenance[(kind, key)] == p.provenance[(kind, key)])
  {
    if ws != [] { FoldIsLastWriter(p, ws[..|ws| - 1], kind, key); }
  }

  /** Every held key has a provenance entry and every entry has a held key. */
  ghost predicate Traced(p: Projection) {
    forall kind, key :: (kind, key) in p.provenance <==> key in p.Facts(kind)
  }

  lemma {:induction false} FoldStaysTraced(p: Projection, ws: seq<Write>)
    requires Traced(p)
    ensures Traced(Fold(p, ws))
  {
    forall kind, key
      ensures (kind, key) in Fold(p, ws).provenance <==> key in Fold(p, ws).Facts(kind)
    {
      FoldIsLastWriter(p, ws, kind, key);
    }
  }

  /** Dropping every customer claim from a turn leaves its authoritative facts unchanged. */
  lemma {:induction false} ClaimsNeverAlterFacts(p: Projection, ws: seq<Write>)
    ensures Fold(p, ws).authoritative == Fold(p, WithoutClaims(ws)).authoritative
  {
    if ws != [] {
      var prefix := WithoutClaims(ws[..|ws| - 1]);
      ClaimsNeverAlterFacts(p, ws[..|ws| - 1]);
      assert (prefix + [ws[|ws| - 1]])[..|prefix|] == prefix;
    }
  }

  function WithoutClaims(ws: seq<Write>): seq<Write> {
    if ws == [] then []
    else
      var prefix := WithoutClaims(ws[..|ws| - 1]);
      if ws[|ws| - 1].fact.kind.Authoritative? then prefix + [ws[|ws| - 1]] else prefix
  }
}
