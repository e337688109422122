/**
 * The FAIR scorer of calculators/fair.py: the four dimension scorers F, A, I
 * and R, which each emit one Observation, the per-resource composer and the
 * routing of the scores graph to its output.
 */
module Fair {
  import opened Wrappers
  import opened PyStrings
  import opened Http
  import opened Rdf
  import opened Reference
  import opened ScoresVocab
  import opened Parser
  import opened Functions

  // ---------------------------------------------------------------------------
  // F: findability
  // ---------------------------------------------------------------------------

  /** Substrings of an IRI that mark it as a persistent identifier. */
  const PidIndicators: seq<string> := ["doi:", "doi.org", "ark:", "purl.org", "linked.data.gov.au", "handle.net", "w3id.org"]

  /** Some persistent-identifier marker occurs in the IRI. */
  predicate HasPid(iri: string)
  {
    exists k :: 0 <= k < |PidIndicators| && Contains(iri, PidIndicators[k])
  }

  /** The identifier bonus: 5 for a persistent identifier, however many markers occur. */
  function PidBonus(iri: string): nat
  {
    if HasPid(iri) then 5 else 0
  }

  /** Properties whose statements count towards metadata richness. */
  const RichnessProperties: seq<string> := [DCTERMS_CREATED, DCTERMS_MODIFIED, DCTERMS_TYPE, PROV_QUALIFIED_ATTRIBUTION]

  /** The resource's richness statements: one per triple, not per distinct property. */
  function RichnessTriples(g: Graph, r: Term): set<Triple>
  {
    set t | t in g && t.s == r && t.p in RichnessProperties
  }

  /** The richness tier: the count itself up to 2, and 3 for three or more. */
  function RichnessAward(c: nat): (a: nat)
    ensures a <= 3 && a <= c
    ensures c >= 3 ==> a == 3
    ensures c <= 2 ==> a == c
  {
    if c == 1 then 1 else if c == 2 then 2 else if c > 2 then 3 else 0
  }

  /** The F score before the catalogue bonus: 3 + identifier bonus + 1 + 1 + richness tier. */
  function FBase(g: Graph, r: Term): nat
  {
    3 + PidBonus(Str(r)) + 1 + 1 + RichnessAward(|RichnessTriples(g, r)|)
  }

  /** The catalogue bonus for a named catalogue: 2, and 2 more when fetching it succeeds. */
  function CatalogueAward(catalogue: string, fetch: Fetcher): nat
  {
    if fetch(catalogue) == Success then 4 else 2
  }

  /**
   * `bonus` is a catalogue bonus the resource can receive: 0 without any
   * `dcterms:isPartOf`, otherwise the award of one of its catalogues (the
   * one the store lists last).
   */
  predicate CatalogueBonus(g: Graph, r: Term, fetch: Fetcher, bonus: int)
  {
    if Objects(g, r, DCTERMS_IS_PART_OF) == {} then bonus == 0
    else exists o :: o in Objects(g, r, DCTERMS_IS_PART_OF) && bonus == CatalogueAward(Str(o), fetch)
  }

  /**
   * The identifier check of `calculate_f`: the markers are tried in order
   * and the first one found earns 5, after which the search stops.
   */
  method ScanPid(iri: string) returns (bonus: nat)
    ensures bonus == PidBonus(iri)
  {
    bonus := 0;
    var k := 0;
    while k < |PidIndicators|
      invariant 0 <= k <= |PidIndicators|
      invariant bonus == 0
      invariant forall j :: 0 <= j < k ==> !Contains(iri, PidIndicators[j])
    {
      if Contains(iri, PidIndicators[k]) {
        bonus := bonus + 5;
        break;
      }
      k := k + 1;
    }
  }

  /**
   * The richness count of `calculate_f`: one per statement about the
   * resource whose predicate is created, modified, type or
   * qualifiedAttribution, visited in the store's order.
   */
  method CountRichness(g: Graph, r: Term) returns (c: nat)
    ensures c == |RichnessTriples(g, r)|
  {
    var about := set t | t in g && t.s == r;
    var todo := about;
    c := 0;
    ghost var rich := RichnessTriples(g, r);
    while todo != {}
      invariant todo <= about
      invariant c == |rich - todo|
      decreases todo
    {
      var t :| t in todo;
      RichnessStep(g, r, todo, t);
      if t.p == DCTERMS_CREATED {
        c := c + 1;
      } else if t.p == DCTERMS_MODIFIED {
        c := c + 1;
      } else if t.p == DCTERMS_TYPE {
        c := c + 1;
      } else if t.p == PROV_QUALIFIED_ATTRIBUTION {
        c := c + 1;
      }
      todo := todo - {t};
    }
    assert rich - todo == rich;
  }

  /**
   * Visiting a statement about `r` adds it to the counted richness
   * statements exactly when its predicate is one of the four.
   */
  lemma RichnessStep(g: Graph, r: Term, todo: set<Triple>, t: Triple)
    requires t in todo && t in g && t.s == r
    ensures var rich := RichnessTriples(g, r);
      |rich - (todo - {t})| == |rich - todo|
        + (if t.p == DCTERMS_CREATED || t.p == DCTERMS_MODIFIED || t.p == DCTERMS_TYPE || t.p == PROV_QUALIFIED_ATTRIBUTION then 1 else 0)
  {
    var rich := RichnessTriples(g, r);
    if t in rich {
      assert rich - (todo - {t}) == (rich - todo) + {t};
    } else {
      assert rich - (todo - {t}) == rich - todo;
    }
  }

  /**
   * `calculate_f`: the F score and its Observation in `container`: 3, the
   * identifier bonus, 1 + 1, the richness tier, and the catalogue bonus; the
   * last catalogue found is fetched, and a failed or erroneous fetch only
   * loses its own 2.
   */
  method CalculateF(g: Graph, r: Term, container: Term, fetch: Fetcher, next: nat) returns (f: nat, obs: Built)
    ensures f >= FBase(g, r) && CatalogueBonus(g, r, fetch, f - FBase(g, r))
    ensures 5 <= f <= 17
    ensures obs == CreateObservation(container, MeasureIri(FairF), IntLiteral(f), next)
  {
    f := 0;
    f := f + 3;
    var pid := ScanPid(Str(r));
    f := f + pid;
    f := f + 1;
    f := f + 1;
    var c := CountRichness(g, r);
    if c == 1 {
      f := f + 1;
    } else if c == 2 {
      f := f + 2;
    } else if c > 2 {
      f := f + 3;
    }
    ghost var base := f;
    assert base == FBase(g, r);
    var catalogue := LastObject(g, r, DCTERMS_IS_PART_OF);
    if catalogue.Some? {
      f := f + 2;
      var response := fetch(Str(catalogue.value));
      if response == Success {
        f := f + 2;
      }
      assert f - base == CatalogueAward(Str(catalogue.value), fetch);
    }
    obs := CreateObservation(container, MeasureIri(FairF), IntLiteral(f), next);
  }

  /**
   * A resource with a persistent identifier, three or more richness
   * statements and only reachable catalogues scores the maximum F of 17:
   * 3 + 5 + 1 + 1 + 3 + 2 + 2.
   */
  lemma FullFindability(g: Graph, r: Term, fetch: Fetcher, bonus: int)
    requires HasPid(Str(r)) && |RichnessTriples(g, r)| >= 3
    requires Objects(g, r, DCTERMS_IS_PART_OF) != {}
    requires forall o :: o in Objects(g, r, DCTERMS_IS_PART_OF) ==> fetch(Str(o)) == Success
    requires CatalogueBonus(g, r, fetch, bonus)
    ensures FBase(g, r) + bonus == 17
  {
  }

  /** Without a catalogue the bonus is 0 and nothing is fetched; with one, a failed fetch still earns 2. */
  lemma CatalogueWithoutFetch(g: Graph, r: Term, fetch: Fetcher, bonus: int)
    requires CatalogueBonus(g, r, fetch, bonus)
    ensures Objects(g, r, DCTERMS_IS_PART_OF) == {} <==> bonus == 0
    ensures (forall o :: o in Objects(g, r, DCTERMS_IS_PART_OF) ==> fetch(Str(o)) != Success) ==>
      bonus == 0 || bonus == 2
  {
  }

  // ---------------------------------------------------------------------------
  // A: accessibility
  // ---------------------------------------------------------------------------

  /** The data-access-rights vocabulary. */
  const DAR_PROTECTED := "https://linked.data.gov.au/def/data-access-rights/protected"
  const DAR_RESTRICTED := "https://linked.data.gov.au/def/data-access-rights/restricted"
  const DAR_METADATA_ONLY := "https://linked.data.gov.au/def/data-access-rights/metadata-only"
  const DAR_CONDITIONAL := "https://linked.data.gov.au/def/data-access-rights/conditional"
  const DAR_EMBARGOED := "https://linked.data.gov.au/def/data-access-rights/embargoed"
  const DAR_OPEN := "https://linked.data.gov.au/def/data-access-rights/open"

  /** The award for one `dcat:theme` object; themes other than the access rights earn nothing. */
  function ThemeAward(o: Term): (a: nat)
    ensures a in {0, 2, 4, 6, 10}
    ensures a == 10 <==> o == Iri(DAR_OPEN)
  {
    if o == Iri(DAR_PROTECTED) || o == Iri(DAR_RESTRICTED) then 0
    else if o == Iri(DAR_METADATA_ONLY) then 2
    else if o == Iri(DAR_CONDITIONAL) then 4
    else if o == Iri(DAR_EMBARGOED) then 6
    else if o == Iri(DAR_OPEN) then 10
    else 0
  }

  /** 1 when `o` is in `themes`, else 0. */
  function Has(themes: set<Term>, o: Term): nat
  {
    if o in themes then 1 else 0
  }

  /**
   * The A score of a set of themes: each access-rights theme present adds
   * its award once, whatever else the set holds.
   */
  function AccessAward(themes: set<Term>): nat
  {
    2 * Has(themes, Iri(DAR_METADATA_ONLY)) + 4 * Has(themes, Iri(DAR_CONDITIONAL))
      + 6 * Has(themes, Iri(DAR_EMBARGOED)) + 10 * Has(themes, Iri(DAR_OPEN))
  }

  /** Visiting one more theme adds exactly its own award. */
  lemma AccessAwardStep(themes: set<Term>, o: Term)
    requires o !in themes
    ensures AccessAward(themes + {o}) == AccessAward(themes) + ThemeAward(o)
  {
  }

  /**
   * `calculate_a`: the sum of the awards of the resource's `dcat:theme`
   * objects, visited in the store's order, and its Observation.
   */
  method CalculateA(g: Graph, r: Term, container: Term, next: nat) returns (a: nat, obs: Built)
    ensures a == AccessAward(Objects(g, r, DCAT_THEME))
    ensures a <= 22
    ensures obs == CreateObservation(container, MeasureIri(FairA), IntLiteral(a), next)
  {
    var themes := Objects(g, r, DCAT_THEME);
    var todo := themes;
    a := 0;
    while todo != {}
      invariant todo <= themes
      invariant a == AccessAward(themes - todo)
      decreases todo
    {
      var o :| o in todo;
      AccessAwardStep(themes - todo, o);
      assert (themes - todo) + {o} == themes - (todo - {o});
      a := a + ThemeAward(o);
      todo := todo - {o};
    }
    assert themes - todo == themes;
    obs := CreateObservation(container, MeasureIri(FairA), IntLiteral(a), next);
  }

  /** A lone `open` theme scores exactly 10; `open` with `embargoed` scores 16, above 10. */
  lemma OpenAccessScores()
    ensures AccessAward({Iri(DAR_OPEN)}) == 10
    ensures AccessAward({Iri(DAR_OPEN), Iri(DAR_EMBARGOED)}) == 16
  {
    assert Iri(DAR_OPEN) != Iri(DAR_METADATA_ONLY) && Iri(DAR_OPEN) != Iri(DAR_CONDITIONAL);
    assert Iri(DAR_OPEN) != Iri(DAR_EMBARGOED);
    assert Iri(DAR_EMBARGOED) != Iri(DAR_METADATA_ONLY) && Iri(DAR_EMBARGOED) != Iri(DAR_CONDITIONAL);
  }

  // ---------------------------------------------------------------------------
  // I: interoperability
  // ---------------------------------------------------------------------------

  /**
   * The I score from machine readability `mr` and shared vocabularies `sv`:
   * 2 for machine-readable metadata, plus both sub-scores, plus 2 more when
   * the two come to at least 1 (both tiers of the source add 2).
   */
  function InteropValue(mr: nat, sv: nat): nat
  {
    mr + 2 + sv + (if mr + sv >= 1 then 2 else 0)
  }

  /** With sub-scores in their ranges the I score is one of 2, 5, 6, 7 or 8: never 3 or 4. */
  lemma InteropRange(mr: nat, sv: nat)
    requires mr <= 2 && sv <= 2
    ensures InteropValue(mr, sv) in {2, 5, 6, 7, 8}
    ensures InteropValue(mr, sv) == 2 <==> mr == 0 && sv == 0
  {
  }

  /** `calculate_i`: the I score and its Observation. */
  method CalculateI(g: Graph, r: Term, container: Term, next: nat) returns (i: nat, obs: Built)
    ensures i == InteropValue(MachineReadability(g, r), SharedVocabsOntologies(g, r))
    ensures i in {2, 5, 6, 7, 8}
    ensures obs == CreateObservation(container, MeasureIri(FairI), IntLiteral(i), next)
  {
    i := 0;
    var mr := MachineReadabilityScore(g, r);
    i := i + mr;
    i := i + 2;
    i := i + SharedVocabsOntologies(g, r);
    var ignoringMetadata := i - 2;
    if ignoringMetadata >= 3 {
      i := i + 2;
    } else if ignoringMetadata >= 1 {
      i := i + 2;
    }
    MachineReadabilityCases(g, r);
    InteropRange(mr, SharedVocabsOntologies(g, r));
    obs := CreateObservation(container, MeasureIri(FairI), IntLiteral(i), next);
  }

  /** A resource whose only statement is a license IRI. */
  lemma LicenseIriOnly(r: Term, license: string)
    ensures MachineReadability({Triple(r, DCTERMS_LICENSE, Iri(license))}, r) == 0
    ensures SharedVocabsOntologies({Triple(r, DCTERMS_LICENSE, Iri(license))}, r) == 2
  {
    var uri := Triple(r, DCTERMS_LICENSE, Iri(license));
    var g := {uri};
    UriExpectedPropertiesShape();
    assert FormatTriples(g, r) == {};
    assert FormatStrings(g, r) == {};
    assert uri in VocabTriples(g, r);
    assert (set t | t in VocabTriples(g, r) && t.o.Iri?) == {uri};
    assert (set t | t in VocabTriples(g, r) && t.o.Lit?) == {};
  }

  /** The same resource with a license literal beside the IRI. */
  lemma LicenseIriAndLiteral(r: Term, license: string, text: string)
    ensures MachineReadability({Triple(r, DCTERMS_LICENSE, Iri(license)), Triple(r, DCTERMS_LICENSE, Lit(text, None))}, r) == 0
    ensures SharedVocabsOntologies({Triple(r, DCTERMS_LICENSE, Iri(license)), Triple(r, DCTERMS_LICENSE, Lit(text, None))}, r) == 0
  {
    var uri := Triple(r, DCTERMS_LICENSE, Iri(license));
    var lit := Triple(r, DCTERMS_LICENSE, Lit(text, None));
    var g := {uri, lit};
    UriExpectedPropertiesShape();
    assert FormatTriples(g, r) == {};
    assert FormatStrings(g, r) == {};
    assert uri in VocabTriples(g, r) && lit in VocabTriples(g, r);
    assert (set t | t in VocabTriples(g, r) && t.o.Iri?) == {uri};
    assert (set t | t in VocabTriples(g, r) && t.o.Lit?) == {lit};
  }

  /**
   * Adding a license literal next to a license IRI lowers I from 6 to 2,
   * while licensing stays at 2: shared vocabularies falls from 2 (only
   * IRIs) to 0 (as many literals as IRIs), so more metadata can mean a
   * lower score.
   */
  lemma LicenseLiteralLowersInterop(r: Term, license: string, text: string)
    ensures var g := {Triple(r, DCTERMS_LICENSE, Iri(license))};
      var g' := g + {Triple(r, DCTERMS_LICENSE, Lit(text, None))};
      && InteropValue(MachineReadability(g, r), SharedVocabsOntologies(g, r)) == 6
      && InteropValue(MachineReadability(g', r), SharedVocabsOntologies(g', r)) == 2
      && LicensingScore(g, r) == 2 && LicensingScore(g', r) == 2
  {
    LicenseIriOnly(r, license);
    LicenseIriAndLiteral(r, license, text);
    var g := {Triple(r, DCTERMS_LICENSE, Iri(license))};
    var g' := g + {Triple(r, DCTERMS_LICENSE, Lit(text, None))};
    assert g' == {Triple(r, DCTERMS_LICENSE, Iri(license)), Triple(r, DCTERMS_LICENSE, Lit(text, None))};
    assert Triple(r, DCTERMS_LICENSE, Iri(license)) in g;
    assert Triple(r, DCTERMS_LICENSE, Iri(license)) in g';
  }

  // ---------------------------------------------------------------------------
  // R: reusability
  // ---------------------------------------------------------------------------

  /** `d` is a data-source score the resource can receive (see `DataSourceScore`). */
  predicate DataSourceChoice(g: Graph, r: Term, d: int)
  {
    if Objects(g, r, DCTERMS_SOURCE) == {} then d == 0
    else exists o :: o in Objects(g, r, DCTERMS_SOURCE) && d == SourceTermScore(o)
  }

  /**
   * `calculate_r`: licensing + provenance + data source, and its
   * Observation. The score is at most 6 and never 1: a data source implies
   * provenance.
   */
  method CalculateR(g: Graph, r: Term, container: Term, next: nat) returns (rv: nat, obs: Built)
    ensures rv >= LicensingScore(g, r) + ProvenanceScore(g)
    ensures DataSourceChoice(g, r, rv - LicensingScore(g, r) - ProvenanceScore(g))
    ensures rv <= 6 && rv != 1
    ensures obs == CreateObservation(container, MeasureIri(FairR), IntLiteral(rv), next)
  {
    rv := 0;
    rv := rv + LicensingScore(g, r);
    rv := rv + ProvenanceScore(g);
    var d := DataSourceScore(g, r);
    rv := rv + d;
    obs := CreateObservation(container, MeasureIri(FairR), IntLiteral(rv), next);
  }

  // ---------------------------------------------------------------------------
  // The FAIR Score of one resource, and of every resource
  // ---------------------------------------------------------------------------

  /** The four raw dimension scores of one resource. */
  datatype FairValues = FairValues(f: nat, a: nat, i: nat, r: nat)

  /** The dimension scores lie in their ranges. */
  predicate InRange(v: FairValues)
  {
    5 <= v.f <= 17 && v.a <= 22 && v.i in {2, 5, 6, 7, 8} && v.r <= 6 && v.r != 1
  }

  /**
   * The statements `calculate_fair` emits for `resource` when its Score is
   * `BNode(next)`: the Score group and its F, A, I and R observations, on
   * the next four blank nodes.
   */
  function FairFragment(resource: Term, next: nat, v: FairValues): Graph
  {
    var score := BNode(next);
    GroupCore(resource, score, ClassIri(FairScore))
      + CreateObservation(score, MeasureIri(FairF), IntLiteral(v.f), next + 1).graph
      + CreateObservation(score, MeasureIri(FairA), IntLiteral(v.a), next + 2).graph
      + CreateObservation(score, MeasureIri(FairI), IntLiteral(v.i), next + 3).graph
      + CreateObservation(score, MeasureIri(FairR), IntLiteral(v.r), next + 4).graph
  }

  /**
   * `v` holds the dimension scores `calculate_f`, `_a`, `_i` and `_r` give the
   * resource: F is its base plus one of its catalogue bonuses, A and I are
   * determined by the graph, and R is licensing plus provenance plus one of
   * its data-source scores.
   */
  predicate FairValuesFor(g: Graph, r: Term, fetch: Fetcher, v: FairValues)
  {
    && v.f >= FBase(g, r) && CatalogueBonus(g, r, fetch, v.f - FBase(g, r))
    && v.a == AccessAward(Objects(g, r, DCAT_THEME))
    && v.i == InteropValue(MachineReadability(g, r), SharedVocabsOntologies(g, r))
    && v.r >= LicensingScore(g, r) + ProvenanceScore(g)
    && DataSourceChoice(g, r, v.r - LicensingScore(g, r) - ProvenanceScore(g))
  }

  /**
   * `calculate_fair`: a new FairScore group for `resource` holding the
   * four dimension observations; five blank nodes are used.
   */
  method CalculateFair(g: Graph, resource: Term, fetch: Fetcher, next: nat) returns (s: Graph, v: FairValues, next': nat)
    ensures s == FairFragment(resource, next, v)
    ensures InRange(v)
    ensures v.f >= FBase(g, resource) && CatalogueBonus(g, resource, fetch, v.f - FBase(g, resource))
    ensures v.a == AccessAward(Objects(g, resource, DCAT_THEME))
    ensures v.i == InteropValue(MachineReadability(g, resource), SharedVocabsOntologies(g, resource))
    ensures v.r >= LicensingScore(g, resource) + ProvenanceScore(g)
    ensures DataSourceChoice(g, resource, v.r - LicensingScore(g, resource) - ProvenanceScore(g))
    ensures next' == next + 5
  {
    var group := CreateObservationGroup(resource, ClassIri(FairScore), None, None, next);
    s := group.graph;
    var f, of := CalculateF(g, resource, group.node, fetch, next + 1);
    s := s + of.graph;
    var a, oa := CalculateA(g, resource, group.node, next + 2);
    s := s + oa.graph;
    var i, oi := CalculateI(g, resource, group.node, next + 3);
    s := s + oi.graph;
    var rv, or := CalculateR(g, resource, group.node, next + 4);
    s := s + or.graph;
    v := FairValues(f, a, i, rv);
    FairFragmentParts(resource, next, v);
    next' := next + 5;
  }

  /** The F observation of a FAIR fragment. */
  function ObsF(next: nat, v: FairValues): Graph
  {
    CreateObservation(BNode(next), MeasureIri(FairF), IntLiteral(v.f), next + 1).graph
  }

  /** The A observation of a FAIR fragment. */
  function ObsA(next: nat, v: FairValues): Graph
  {
    CreateObservation(BNode(next), MeasureIri(FairA), IntLiteral(v.a), next + 2).graph
  }

  /** The I observation of a FAIR fragment. */
  function ObsI(next: nat, v: FairValues): Graph
  {
    CreateObservation(BNode(next), MeasureIri(FairI), IntLiteral(v.i), next + 3).graph
  }

  /** The R observation of a FAIR fragment. */
  function ObsR(next: nat, v: FairValues): Graph
  {
    CreateObservation(BNode(next), MeasureIri(FairR), IntLiteral(v.r), next + 4).graph
  }

  /** The fragment is the Score group and its four observations. */
  lemma FairFragmentParts(resource: Term, next: nat, v: FairValues)
    ensures FairFragment(resource, next, v)
      == GroupCore(resource, BNode(next), ClassIri(FairScore)) + ObsF(next, v) + ObsA(next, v) + ObsI(next, v) + ObsR(next, v)
  {
  }

  /**
   * One resource's fragment scores exactly that resource, with the single
   * Score `BNode(next)`.
   */
  lemma FairFragmentScores(resource: Term, next: nat, v: FairValues)
    ensures ScoredResources(FairFragment(resource, next, v)) == {resource}
    ensures ScoresOf(FairFragment(resource, next, v), resource) == {BNode(next)}
  {
    var score := BNode(next);
    var core := GroupCore(resource, score, ClassIri(FairScore));
    FairFragmentParts(resource, next, v);
    GroupPiece(resource, score, ClassIri(FairScore));
    ObservationPiece(score, FairF, IntLiteral(v.f), next + 1);
    ObservationPiece(score, FairA, IntLiteral(v.a), next + 2);
    ObservationPiece(score, FairI, IntLiteral(v.i), next + 3);
    ObservationPiece(score, FairR, IntLiteral(v.r), next + 4);
    QueriesOfUnion(core, ObsF(next, v), resource, HAS_SCORE);
    QueriesOfUnion(core + ObsF(next, v), ObsA(next, v), resource, HAS_SCORE);
    QueriesOfUnion(core + ObsF(next, v) + ObsA(next, v), ObsI(next, v), resource, HAS_SCORE);
    QueriesOfUnion(core + ObsF(next, v) + ObsA(next, v) + ObsI(next, v), ObsR(next, v), resource, HAS_SCORE);
  }

  /**
   * The fragment's Score is a FairScore with exactly the four observations
   * on the next four blank nodes.
   */
  lemma FairFragmentObservations(resource: Term, next: nat, v: FairValues)
    ensures Iri(ClassIri(FairScore)) in Objects(FairFragment(resource, next, v), BNode(next), RDF_TYPE)
    ensures Objects(FairFragment(resource, next, v), BNode(next), QB_OBSERVATION_PROP)
      == {BNode(next + 1), BNode(next + 2), BNode(next + 3), BNode(next + 4)}
  {
    var score := BNode(next);
    var core := GroupCore(resource, score, ClassIri(FairScore));
    FairFragmentParts(resource, next, v);
    GroupPiece(resource, score, ClassIri(FairScore));
    ObservationPiece(score, FairF, IntLiteral(v.f), next + 1);
    ObservationPiece(score, FairA, IntLiteral(v.a), next + 2);
    ObservationPiece(score, FairI, IntLiteral(v.i), next + 3);
    ObservationPiece(score, FairR, IntLiteral(v.r), next + 4);
    QueriesOfUnion(core, ObsF(next, v), score, QB_OBSERVATION_PROP);
    assert Objects(core + ObsF(next, v), score, QB_OBSERVATION_PROP) == {BNode(next + 1)};
    var ga := core + ObsF(next, v) + ObsA(next, v);
    QueriesOfUnion(core + ObsF(next, v), ObsA(next, v), score, QB_OBSERVATION_PROP);
    assert Objects(ga, score, QB_OBSERVATION_PROP) == {BNode(next + 1), BNode(next + 2)};
    var gi := ga + ObsI(next, v);
    QueriesOfUnion(ga, ObsI(next, v), score, QB_OBSERVATION_PROP);
    assert Objects(gi, score, QB_OBSERVATION_PROP) == {BNode(next + 1), BNode(next + 2), BNode(next + 3)};
    QueriesOfUnion(gi, ObsR(next, v), score, QB_OBSERVATION_PROP);
  }

  /** Each of the four observations carries its own dimension's value under its measure. */
  lemma FairFragmentValues(resource: Term, next: nat, v: FairValues)
    ensures IntLiteral(v.f) in Objects(FairFragment(resource, next, v), BNode(next + 1), MeasureIri(FairF))
    ensures IntLiteral(v.a) in Objects(FairFragment(resource, next, v), BNode(next + 2), MeasureIri(FairA))
    ensures IntLiteral(v.i) in Objects(FairFragment(resource, next, v), BNode(next + 3), MeasureIri(FairI))
    ensures IntLiteral(v.r) in Objects(FairFragment(resource, next, v), BNode(next + 4), MeasureIri(FairR))
  {
    var s := FairFragment(resource, next, v);
    assert Triple(BNode(next + 1), MeasureIri(FairF), IntLiteral(v.f)) in s;
    assert Triple(BNode(next + 2), MeasureIri(FairA), IntLiteral(v.a)) in s;
    assert Triple(BNode(next + 3), MeasureIri(FairI), IntLiteral(v.i)) in s;
    assert Triple(BNode(next + 4), MeasureIri(FairR), IntLiteral(v.r)) in s;
  }

  /**
   * One step of `calculate_fair_per_resource`: `scores += calculate_fair(g, r)`.
   * What is added is the resource's FAIR fragment with its own scores; the
   * resource joins the scored ones with its single new Score, and the other
   * resources keep their groups.
   */
  method AddFairScore(g: Graph, r: Term, fetch: Fetcher, scores: Graph, next: nat) returns (scores': Graph, next': nat)
    requires r !in ScoredResources(scores)
    ensures exists v :: FairValuesFor(g, r, fetch, v) && InRange(v) && scores' == scores + FairFragment(r, next, v)
    ensures ScoredResources(scores') == ScoredResources(scores) + {r}
    ensures ScoresOf(scores', r) == {BNode(next)}
    ensures forall q :: q != r ==> ScoresOf(scores', q) == ScoresOf(scores, q)
    ensures HoldsFairScore(g, fetch, scores', r)
    ensures forall q :: HoldsFairScore(g, fetch, scores, q) ==> HoldsFairScore(g, fetch, scores', q)
    ensures next' == next + 5
  {
    var fragment, v, after := CalculateFair(g, r, fetch, next);
    FairFragmentScores(r, next, v);
    scores' := scores + fragment;
    FreshScoreAdded(scores, fragment, r, next);
    HoldsFairScoreStep(g, fetch, scores, scores', r, next, v);
    next' := after;
  }

  /**
   * `calculate_fair_per_resource`: the union of the FAIR fragments of every
   * catalogued resource, visited in the store's order. Every resource, and
   * nothing else, is scored, each with one FairScore group, and five blank
   * nodes are used per resource.
   */
  method CalculateFairPerResource(g: Graph, fetch: Fetcher, next: nat) returns (scores: Graph, next': nat)
    ensures ScoredResources(scores) == Resources(g)
    ensures forall r :: r in Resources(g) ==> |ScoresOf(scores, r)| == 1
    ensures forall r {:trigger HoldsFairScore(g, fetch, scores, r)} :: r in Resources(g) ==> HoldsFairScore(g, fetch, scores, r)
    ensures next' == next + 5 * |Resources(g)|
  {
    var todo := Resources(g);
    ghost var all := todo;
    scores := {};
    next' := next;
    ghost var done: set<Term> := {};
    ghost var groupOf: map<Term, Term> := map[];
    while todo != {}
      invariant todo <= all && done == all - todo
      invariant GroupsTracked(scores, done, groupOf)
      invariant forall q {:trigger HoldsFairScore(g, fetch, scores, q)} :: q in done ==> HoldsFairScore(g, fetch, scores, q)
      invariant next' == next + 5 * |done|
      decreases todo
    {
      var r :| r in todo;
      ghost var n := next';
      scores, next' := VisitResource(g, fetch, r, scores, next', done, groupOf);
      VisitOne(all, todo, done, r);
      done := done + {r};
      groupOf := groupOf[r := BNode(n)];
      todo := todo - {r};
    }
    assert done == all;
    GroupsTrackedOne(scores, done, groupOf);
  }

  /** One iteration of `CalculateFairPerResource`, stated in terms of its loop invariant. */
  method VisitResource(g: Graph, fetch: Fetcher, r: Term, scores: Graph, next: nat,
                       ghost done: set<Term>, ghost groupOf: map<Term, Term>) returns (scores': Graph, next': nat)
    requires GroupsTracked(scores, done, groupOf) && r !in done
    requires forall q {:trigger HoldsFairScore(g, fetch, scores, q)} :: q in done ==> HoldsFairScore(g, fetch, scores, q)
    ensures GroupsTracked(scores', done + {r}, groupOf[r := BNode(next)])
    ensures forall q {:trigger HoldsFairScore(g, fetch, scores', q)} :: q in done + {r} ==> HoldsFairScore(g, fetch, scores', q)
    ensures next' == next + 5
  {
    scores', next' := AddFairScore(g, r, fetch, scores, next);
    GroupsTrackedStep(scores, scores', done, groupOf, r, next);
  }

  /**
   * The scores graph holds the resource's FAIR Score: its single Score
   * group is `BNode(n)`, and the FAIR fragment on that node, carrying
   * dimension scores the resource receives, lies in the graph.
   */
  ghost predicate HoldsFairScore(g: Graph, fetch: Fetcher, scores: Graph, r: Term)
  {
    exists n: nat, v :: (ScoresOf(scores, r) == {BNode(n)}
      && FairFragment(r, n, v) <= scores && FairValuesFor(g, r, fetch, v) && InRange(v))
  }

  /** Adding one resource's fragment gives it its FAIR Score and keeps those already held. */
  lemma HoldsFairScoreStep(g: Graph, fetch: Fetcher, scores: Graph, scores': Graph, r: Term, n: nat, v: FairValues)
    requires FairValuesFor(g, r, fetch, v) && InRange(v) && scores' == scores + FairFragment(r, n, v)
    requires ScoresOf(scores', r) == {BNode(n)}
    requires forall q :: q != r ==> ScoresOf(scores', q) == ScoresOf(scores, q)
    requires r !in ScoredResources(scores)
    ensures HoldsFairScore(g, fetch, scores', r)
    ensures forall q :: HoldsFairScore(g, fetch, scores, q) ==> HoldsFairScore(g, fetch, scores', q)
  {
    assert FairFragment(r, n, v) <= scores';
    forall q | HoldsFairScore(g, fetch, scores, q)
      ensures HoldsFairScore(g, fetch, scores', q)
    {
      var m: nat, w :| (ScoresOf(scores, q) == {BNode(m)}
        && FairFragment(q, m, w) <= scores && FairValuesFor(g, q, fetch, w) && InRange(w));
      if q == r {
        NoScoresUnlessScored(scores, r);
        assert false;
      }
      assert ScoresOf(scores', q) == {BNode(m)};
      assert FairFragment(q, m, w) <= scores';
    }
  }

  /** `scores` scores exactly `done`, and `groupOf` names each one's single Score group. */
  predicate GroupsTracked(scores: Graph, done: set<Term>, groupOf: map<Term, Term>)
  {
    && ScoredResources(scores) == done
    && done == groupOf.Keys
    && forall r :: r in groupOf ==> ScoresOf(scores, r) == {groupOf[r]}
  }

  /** One step of the per-resource loop keeps the groups tracked. */
  lemma GroupsTrackedStep(scores: Graph, scores': Graph, done: set<Term>, groupOf: map<Term, Term>, r: Term, n: nat)
    requires GroupsTracked(scores, done, groupOf) && r !in done
    requires ScoredResources(scores') == ScoredResources(scores) + {r}
    requires ScoresOf(scores', r) == {BNode(n)}
    requires forall q :: q != r ==> ScoresOf(scores', q) == ScoresOf(scores, q)
    ensures GroupsTracked(scores', done + {r}, groupOf[r := BNode(n)])
  {
  }

  /** Moving one element from the unvisited to the visited part of `all`. */
  lemma VisitOne<T>(all: set<T>, todo: set<T>, done: set<T>, x: T)
    requires todo <= all && done == all - todo && x in todo
    ensures done + {x} == all - (todo - {x})
    ensures |done + {x}| == |done| + 1
  {
  }

  /** Tracked groups are one per resource. */
  lemma GroupsTrackedOne(scores: Graph, done: set<Term>, groupOf: map<Term, Term>)
    requires GroupsTracked(scores, done, groupOf)
    ensures forall r :: r in done ==> |ScoresOf(scores, r)| == 1
  {
  }

  /**
   * Joining one resource's fragment to the scores so far adds that
   * resource, with its single fresh Score, and leaves the groups of the
   * other resources as they were.
   */
  lemma FreshScoreAdded(scores: Graph, fragment: Graph, r: Term, next: nat)
    requires ScoredResources(fragment) == {r} && ScoresOf(fragment, r) == {BNode(next)}
    requires r !in ScoredResources(scores)
    ensures ScoredResources(scores + fragment) == ScoredResources(scores) + {r}
    ensures ScoresOf(scores + fragment, r) == {BNode(next)}
    ensures forall q :: q != r ==> ScoresOf(scores + fragment, q) == ScoresOf(scores, q)
  {
    forall q
      ensures ScoresOf(scores + fragment, q) == ScoresOf(scores, q) + ScoresOf(fragment, q)
    {
    }
    forall q | q != r
      ensures ScoresOf(scores + fragment, q) == ScoresOf(scores, q)
    {
      NoScoresUnlessScored(fragment, q);
    }
    NoScoresUnlessScored(scores, r);
  }

  /** A term that is not a scored resource has no Score groups. */
  lemma NoScoresUnlessScored(s: Graph, q: Term)
    requires q !in ScoredResources(s)
    ensures ScoresOf(s, q) == {}
  {
  }

  // ---------------------------------------------------------------------------
  // Where `main` sends the scores
  // ---------------------------------------------------------------------------

  /** The three outcomes of `main`: print in a media type, write to a file, or return the graph. */
  datatype OutputRoute = PrintAs(format: string) | WriteFile(path: string) | ReturnGraph

  /**
   * The output decision of `main`: an RDF media type prints the scores
   * (Turtle as "longturtle"), a string ending with a known file suffix
   * writes a file, anything else returns the graph.
   */
  function Route(output: string): (route: OutputRoute)
    ensures route.PrintAs? <==> output in SuffixMediaTypes()
    ensures route.WriteFile? <==> output !in SuffixMediaTypes() && exists k :: k in KnownFileTypes && EndsWith(output, k)
    ensures route.PrintAs? && output != "text/turtle" ==> route.format == output
    ensures output == "text/turtle" ==> route == PrintAs("longturtle")
  {
    SuffixKeysExact();
    if output in SuffixMediaTypes() then
      PrintAs(if output == "text/turtle" then "longturtle" else output)
    else if exists k :: k in SuffixKeys() && EndsWith(output, k) then
      WriteFile(output)
    else
      ReturnGraph
  }

  /** "graph", as `main`'s output argument, returns the scores graph. */
  lemma GraphRoutesToGraph()
    ensures Route("graph") == ReturnGraph
  {
    SuffixKeysExact();
    assert "graph"[1..] == "raph";
    assert forall k :: k in KnownFileTypes ==> !EndsWith("graph", k);
  }

  /**
   * A path routed to a file, whose name is longer than its suffix, is then
   * accepted with the media type of that suffix.
   */
  lemma FileRouteAccepted(output: string)
    requires Route(output).WriteFile?
    ensures exists k :: (k in KnownFileTypes && EndsWith(output, k)
      && (|PathName(output)| > |k| ==> GetValidOutputFileAndType(output) == Ok((PathName(output), MediaTypeOf(k).value))))
  {
    var k :| k in KnownFileTypes && EndsWith(output, k);
    KnownSuffixAccepted(output, k);
  }
}
