/**
 * The CARE calculator of calculators/care.py: the C1 checks, the C2 gate,
 * the stub A, R and E dimensions and their composition into a CareScore.
 *
 * As written, `calculate_care_c2` has no `return`, so it evaluates to None
 * and `calculate_care_c` fails when it adds that to the C1 total. Every
 * CARE score therefore ends in an error; the corrected C dimension and the
 * fragment it would produce are modelled beside the as-written path.
 */
module Care {
  import opened Wrappers
  import opened Rdf
  import opened ScoresVocab
  import opened Parser
  import opened Http
  import opened Functions

  /** The Python values `calculate_care_c2` can evaluate to. */
  datatype PyValue = PyInt(n: int) | PyNone

  /** Why a CARE calculation raises instead of returning a graph. */
  datatype CareError =
    | TransportError(url: string) // httpx.get of the catalogue raised
    | UnsupportedOperand          // `int += None` raised a TypeError

  // ---------------------------------------------------------------------------
  // C1: discoverable, searchable, accessible
  // ---------------------------------------------------------------------------

  /**
   * What `calculate_c1_discoverable` makes of fetching `catalogue`: 1 on a
   * success status, 0 on any other status, and the raised error otherwise.
   */
  function DiscoverAward(catalogue: string, fetch: Fetcher): (res: Result<nat, CareError>)
    ensures res == Ok(1) <==> fetch(catalogue) == Success
    ensures res == Ok(0) <==> fetch(catalogue) == Failure
    ensures res.Err? <==> fetch(catalogue) == HttpError
    ensures res.Err? ==> res.error == TransportError(catalogue)
  {
    match fetch(catalogue)
    case Success => Ok(1)
    case Failure => Ok(0)
    case HttpError => Err(TransportError(catalogue))
  }

  /**
   * `res` is an outcome `calculate_c1_discoverable` can have: 0 without any
   * `dcterms:isPartOf`, otherwise the outcome of fetching one of the
   * catalogues (the one the store lists last).
   */
  predicate DiscoverableOutcome(g: Graph, r: Term, fetch: Fetcher, res: Result<nat, CareError>)
  {
    if Objects(g, r, DCTERMS_IS_PART_OF) == {} then res == Ok(0)
    else exists o :: o in Objects(g, r, DCTERMS_IS_PART_OF) && res == DiscoverAward(Str(o), fetch)
  }

  /**
   * `calculate_c1_discoverable`: the last `dcterms:isPartOf` object is
   * fetched; a success earns 1, and an error raised by the fetch escapes.
   */
  method CalculateC1Discoverable(g: Graph, r: Term, fetch: Fetcher) returns (res: Result<nat, CareError>)
    ensures DiscoverableOutcome(g, r, fetch, res)
    ensures res.Ok? ==> res.value <= 1
    ensures res == Ok(1) ==> exists o :: o in Objects(g, r, DCTERMS_IS_PART_OF) && fetch(Str(o)) == Success
    ensures res.Err? ==> exists o :: (o in Objects(g, r, DCTERMS_IS_PART_OF)
      && fetch(Str(o)) == HttpError && res.error == TransportError(Str(o)))
  {
    var catalogue := LastObject(g, r, DCTERMS_IS_PART_OF);
    if catalogue.Some? {
      var url := Str(catalogue.value);
      var x := fetch(url);
      if x == HttpError {
        return Err(TransportError(url));
      }
      if x == Success {
        return Ok(1);
      }
    }
    return Ok(0);
  }

  /**
   * `calculate_c1_searchable`: the graph-wide searchable check; the resource
   * plays no part.
   */
  function CalculateC1Searchable(g: Graph, searchable: set<string>): (v: nat)
    ensures v <= 1
    ensures v == 1 <==> exists t :: t in g && t.p in searchable
  {
    SearchableScore(g, searchable)
  }

  /**
   * `calculate_c1_accessible`: 1 when some `dcterms:accessRights` object of
   * the resource is true in Python, else 0.
   */
  function CalculateC1Accessible(g: Graph, r: Term): (v: nat)
    ensures v <= 1
    ensures v == 1 <==> exists t :: t in g && t.s == r && t.p == DCTERMS_ACCESS_RIGHTS && Truthy(t.o)
  {
    if exists o :: o in Objects(g, r, DCTERMS_ACCESS_RIGHTS) && Truthy(o) then 1 else 0
  }

  /**
   * `calculate_care_c1`: the sum of the three checks, so at most 3; only the
   * discoverable check can fail.
   */
  method CalculateCareC1(g: Graph, r: Term, fetch: Fetcher, searchable: set<string>) returns (res: Result<nat, CareError>)
    ensures res.Ok? ==> res.value <= 3
    ensures res.Ok? ==> exists d: nat :: (DiscoverableOutcome(g, r, fetch, Ok(d))
      && res.value == d + CalculateC1Searchable(g, searchable) + CalculateC1Accessible(g, r))
    ensures res.Err? ==> DiscoverableOutcome(g, r, fetch, res)
  {
    var c1Value := 0;
    var discoverable := CalculateC1Discoverable(g, r, fetch);
    if discoverable.Err? {
      return Err(discoverable.error);
    }
    c1Value := c1Value + discoverable.value;
    c1Value := c1Value + CalculateC1Searchable(g, searchable);
    c1Value := c1Value + CalculateC1Accessible(g, r);
    return Ok(c1Value);
  }

  // ---------------------------------------------------------------------------
  // C2 and C, as written
  // ---------------------------------------------------------------------------

  /**
   * `calculate_care_c2` as written: the local value is 1 when C1 exceeds 2,
   * but it is never returned, so the call evaluates to None.
   */
  method CalculateCareC2(g: Graph, r: Term, c1: int) returns (v: PyValue)
    ensures v == PyNone
  {
    var c2Value := 0;
    if c1 > 2 {
      c2Value := c2Value + 1;
    }
    v := PyNone;
  }

  /** Python's `acc += x` for an `int` accumulator: adding None raises a TypeError. */
  function AddPy(acc: int, x: PyValue): (res: Result<int, CareError>)
    ensures res.Ok? <==> x.PyInt?
    ensures res.Err? ==> res.error == UnsupportedOperand
    ensures x.PyInt? ==> res.value - acc == x.n
  {
    match x
    case PyInt(n) => Ok(acc + n)
    case PyNone => Err(UnsupportedOperand)
  }

  /**
   * `calculate_care_c` as written: it always raises. The error is the
   * fetch's when discovering the catalogue raised, and otherwise the
   * TypeError of adding C2's None.
   */
  method CalculateCareC(g: Graph, r: Term, container: Term, fetch: Fetcher, searchable: set<string>, next: nat)
    returns (res: Result<Built, CareError>)
    ensures res.Err?
    ensures res.error == UnsupportedOperand || DiscoverableOutcome(g, r, fetch, Err(res.error))
    ensures (forall o :: o in Objects(g, r, DCTERMS_IS_PART_OF) ==> fetch(Str(o)) != HttpError)
      ==> res == Err(UnsupportedOperand)
  {
    var cValue := 0;
    var c1 := CalculateCareC1(g, r, fetch, searchable);
    if c1.Err? {
      return Err(c1.error);
    }
    cValue := cValue + c1.value;
    var c2 := CalculateCareC2(g, r, c1.value);
    var sum := AddPy(cValue, c2);
    match sum
    case Err(e) =>
      res := Err(e);
    case Ok(_) =>
      assert false;
  }

  // ---------------------------------------------------------------------------
  // A, R and E: stubs
  // ---------------------------------------------------------------------------

  /** `calculate_care_a`: an Observation of value 0 in `container`, whatever the graph. */
  function CalculateCareA(g: Graph, r: Term, container: Term, next: nat): (obs: Built)
    ensures Objects(obs.graph, container, QB_OBSERVATION_PROP) == {BNode(next)}
    ensures IntLiteral(0) in Objects(obs.graph, BNode(next), MeasureIri(CareA))
    ensures obs.next == next + 1
  {
    ObservationPiece(container, CareA, IntLiteral(0), next);
    CreateObservation(container, MeasureIri(CareA), IntLiteral(0), next)
  }

  /** `calculate_care_r`: an Observation of value 0 in `container`, whatever the graph. */
  function CalculateCareR(g: Graph, r: Term, container: Term, next: nat): (obs: Built)
    ensures Objects(obs.graph, container, QB_OBSERVATION_PROP) == {BNode(next)}
    ensures IntLiteral(0) in Objects(obs.graph, BNode(next), MeasureIri(CareR))
    ensures obs.next == next + 1
  {
    ObservationPiece(container, CareR, IntLiteral(0), next);
    CreateObservation(container, MeasureIri(CareR), IntLiteral(0), next)
  }

  /** `calculate_care_e`: an Observation of value 0 in `container`, whatever the graph. */
  function CalculateCareE(g: Graph, r: Term, container: Term, next: nat): (obs: Built)
    ensures Objects(obs.graph, container, QB_OBSERVATION_PROP) == {BNode(next)}
    ensures IntLiteral(0) in Objects(obs.graph, BNode(next), MeasureIri(CareE))
    ensures obs.next == next + 1
  {
    ObservationPiece(container, CareE, IntLiteral(0), next);
    CreateObservation(container, MeasureIri(CareE), IntLiteral(0), next)
  }

  // ---------------------------------------------------------------------------
  // Composition, as written
  // ---------------------------------------------------------------------------

  /**
   * `calculate_care`: the group is created under the class `SCORES.careScore`,
   * then the C observation is computed, which raises; the A, R and E
   * observations are never reached.
   */
  method CalculateCare(g: Graph, resource: Term, fetch: Fetcher, searchable: set<string>, next: nat)
    returns (res: Result<(Graph, nat), CareError>)
    ensures res.Err?
    ensures res.error == UnsupportedOperand
      || exists o :: (o in Objects(g, resource, DCTERMS_IS_PART_OF)
           && fetch(Str(o)) == HttpError && res.error == TransportError(Str(o)))
    ensures (forall o :: o in Objects(g, resource, DCTERMS_IS_PART_OF) ==> fetch(Str(o)) != HttpError)
      ==> res == Err(UnsupportedOperand)
  {
    var group := CreateObservationGroup(resource, CARE_SCORE_AS_CALLED, None, None, next);
    var s := group.graph;
    var c := CalculateCareC(g, resource, group.node, fetch, searchable, group.next);
    match c
    case Err(e) =>
      res := Err(e);
    case Ok(_) =>
      assert false;
  }

  /**
   * `calculate_care_per_resource` as written: with no resource the result is
   * the empty graph. Otherwise the loop over the resources never completes
   * an iteration: the first resource visited, whichever the store yields,
   * raises, and its error escapes.
   */
  method CalculateCarePerResource(g: Graph, fetch: Fetcher, searchable: set<string>, next: nat)
    returns (res: Result<(Graph, nat), CareError>)
    ensures res.Ok? <==> Resources(g) == {}
    ensures res.Ok? ==> res.value == ({}, next)
    ensures res.Err? ==> exists r :: (r in Resources(g)
      && (res.error == UnsupportedOperand
          || exists o :: (o in Objects(g, r, DCTERMS_IS_PART_OF)
               && fetch(Str(o)) == HttpError && res.error == TransportError(Str(o)))))
  {
    var scores: Graph := {};
    if Resources(g) == {} {
      return Ok((scores, next));
    }
    var r :| r in Resources(g);
    var fragment := CalculateCare(g, r, fetch, searchable, next);
    match fragment
    case Err(e) =>
      res := Err(e);
    case Ok(_) =>
      assert false;
  }

  // ---------------------------------------------------------------------------
  // C2 and C, corrected
  // ---------------------------------------------------------------------------

  /** `calculate_care_c2` as evidently intended, returning its value: 1 exactly when C1 exceeds 2. */
  function CareC2Intended(c1: int): (v: nat)
    ensures v <= 1
    ensures v == 1 <==> c1 > 2
  {
    var c2Value := 0;
    if c1 > 2 then c2Value + 1 else c2Value
  }

  /**
   * `c` is a corrected C score the resource can receive: its C1 (one of its
   * discovery outcomes, plus the searchable and accessible checks) plus the
   * C2 gate on that C1.
   */
  ghost predicate CorrectedC(g: Graph, r: Term, fetch: Fetcher, searchable: set<string>, c: int)
  {
    exists d: nat :: (DiscoverableOutcome(g, r, fetch, Ok(d))
      && var c1 := d + CalculateC1Searchable(g, searchable) + CalculateC1Accessible(g, r);
         c == c1 + CareC2Intended(c1))
  }

  /**
   * With the return restored, a full C1 of 3 earns a C2 of 1: the richer C2
   * of 3 that the documentation describes is out of reach.
   */
  lemma CareC2AtFullC1()
    ensures CareC2Intended(3) == 1
    ensures forall c1 :: CareC2Intended(c1) != 3
  {
  }

  /**
   * `calculate_care_c` with C2's value returned: C is the resource's C1 plus
   * the gate, so at most 4, and 4 only for a full C1; only the fetch can
   * still raise.
   */
  method CalculateCareCCorrected(g: Graph, r: Term, container: Term, fetch: Fetcher, searchable: set<string>, next: nat)
    returns (res: Result<(nat, Built), CareError>)
    ensures res.Ok? ==> res.value.0 <= 4
    ensures res.Ok? ==> exists d: nat :: (DiscoverableOutcome(g, r, fetch, Ok(d))
      && var c1 := d + CalculateC1Searchable(g, searchable) + CalculateC1Accessible(g, r);
         res.value.0 == c1 + CareC2Intended(c1))
    ensures res.Ok? ==> res.value.1 == CreateObservation(container, MeasureIri(CareC), IntLiteral(res.value.0), next)
    ensures res.Err? ==> exists o :: (o in Objects(g, r, DCTERMS_IS_PART_OF)
      && fetch(Str(o)) == HttpError && res.error == TransportError(Str(o)))
  {
    var cValue := 0;
    var c1 := CalculateCareC1(g, r, fetch, searchable);
    if c1.Err? {
      DiscoverableError(g, r, fetch, c1);
      return Err(c1.error);
    }
    cValue := cValue + c1.value;
    cValue := cValue + CareC2Intended(c1.value);
    var obs := CreateObservation(container, MeasureIri(CareC), IntLiteral(cValue), next);
    return Ok((cValue, obs));
  }

  /** A failed discovery comes from a catalogue whose fetch raised. */
  lemma DiscoverableError(g: Graph, r: Term, fetch: Fetcher, res: Result<nat, CareError>)
    requires res.Err? && DiscoverableOutcome(g, r, fetch, res)
    ensures exists o :: (o in Objects(g, r, DCTERMS_IS_PART_OF)
      && fetch(Str(o)) == HttpError && res.error == TransportError(Str(o)))
  {
    assert Objects(g, r, DCTERMS_IS_PART_OF) != {};
    var o :| o in Objects(g, r, DCTERMS_IS_PART_OF) && res == DiscoverAward(Str(o), fetch);
  }

  /** The CARE fragment with the corrected C: the group and the C, A, R and E observations. */
  function CareFragment(resource: Term, next: nat, c: nat): Graph
  {
    var score := BNode(next);
    GroupCore(resource, score, CARE_SCORE_AS_CALLED)
      + CreateObservation(score, MeasureIri(CareC), IntLiteral(c), next + 1).graph
      + CreateObservation(score, MeasureIri(CareA), IntLiteral(0), next + 2).graph
      + CreateObservation(score, MeasureIri(CareR), IntLiteral(0), next + 3).graph
      + CreateObservation(score, MeasureIri(CareE), IntLiteral(0), next + 4).graph
  }

  /**
   * `calculate_care` with the corrected C: the group with its four
   * observations, five blank nodes used; only the fetch can raise.
   */
  method CalculateCareCorrected(g: Graph, resource: Term, fetch: Fetcher, searchable: set<string>, next: nat)
    returns (res: Result<(Graph, nat), CareError>, c: nat)
    ensures res.Ok? ==> c <= 4 && res.value == (CareFragment(resource, next, c), next + 5)
    ensures res.Ok? ==> CorrectedC(g, resource, fetch, searchable, c)
    ensures res.Err? ==> exists o :: (o in Objects(g, resource, DCTERMS_IS_PART_OF)
      && fetch(Str(o)) == HttpError && res.error == TransportError(Str(o)))
  {
    var group := CreateObservationGroup(resource, CARE_SCORE_AS_CALLED, None, None, next);
    var s := group.graph;
    var cObs := CalculateCareCCorrected(g, resource, group.node, fetch, searchable, next + 1);
    if cObs.Err? {
      return Err(cObs.error), 0;
    }
    c := cObs.value.0;
    s := s + cObs.value.1.graph;
    s := s + CalculateCareA(g, resource, group.node, next + 2).graph;
    s := s + CalculateCareR(g, resource, group.node, next + 3).graph;
    s := s + CalculateCareE(g, resource, group.node, next + 4).graph;
    CareFragmentParts(g, resource, next, c);
    return Ok((s, next + 5)), c;
  }

  /** The corrected fragment is the union of the pieces `calculate_care` adds. */
  lemma CareFragmentParts(g: Graph, resource: Term, next: nat, c: nat)
    ensures CareFragment(resource, next, c)
      == CreateObservationGroup(resource, CARE_SCORE_AS_CALLED, None, None, next).graph
        + CreateObservation(BNode(next), MeasureIri(CareC), IntLiteral(c), next + 1).graph
        + CalculateCareA(g, resource, BNode(next), next + 2).graph
        + CalculateCareR(g, resource, BNode(next), next + 3).graph
        + CalculateCareE(g, resource, BNode(next), next + 4).graph
  {
  }

  /**
   * The corrected fragment scores exactly its resource, by the single Score
   * `BNode(next)`, which carries the C value under careCScore.
   */
  lemma CareFragmentScores(resource: Term, next: nat, c: nat)
    ensures ScoredResources(CareFragment(resource, next, c)) == {resource}
    ensures ScoresOf(CareFragment(resource, next, c), resource) == {BNode(next)}
    ensures IntLiteral(c) in Objects(CareFragment(resource, next, c), BNode(next + 1), MeasureIri(CareC))
  {
    var score := BNode(next);
    var core := GroupCore(resource, score, CARE_SCORE_AS_CALLED);
    var oc := CreateObservation(score, MeasureIri(CareC), IntLiteral(c), next + 1).graph;
    var oa := CreateObservation(score, MeasureIri(CareA), IntLiteral(0), next + 2).graph;
    var or := CreateObservation(score, MeasureIri(CareR), IntLiteral(0), next + 3).graph;
    var oe := CreateObservation(score, MeasureIri(CareE), IntLiteral(0), next + 4).graph;
    assert CareFragment(resource, next, c) == core + oc + oa + or + oe;
    GroupPiece(resource, score, CARE_SCORE_AS_CALLED);
    ObservationPiece(score, CareC, IntLiteral(c), next + 1);
    ObservationPiece(score, CareA, IntLiteral(0), next + 2);
    ObservationPiece(score, CareR, IntLiteral(0), next + 3);
    ObservationPiece(score, CareE, IntLiteral(0), next + 4);
    QueriesOfUnion(core, oc, resource, HAS_SCORE);
    QueriesOfUnion(core + oc, oa, resource, HAS_SCORE);
    QueriesOfUnion(core + oc + oa, or, resource, HAS_SCORE);
    QueriesOfUnion(core + oc + oa + or, oe, resource, HAS_SCORE);
    assert Triple(BNode(next + 1), MeasureIri(CareC), IntLiteral(c)) in oc;
  }

  /**
   * The corrected fragment's Score holds exactly the four observations on
   * the next four blank nodes, and A, R and E each carry 0 under their
   * measures.
   */
  lemma CareFragmentObservations(resource: Term, next: nat, c: nat)
    ensures Objects(CareFragment(resource, next, c), BNode(next), QB_OBSERVATION_PROP)
      == {BNode(next + 1), BNode(next + 2), BNode(next + 3), BNode(next + 4)}
    ensures IntLiteral(0) in Objects(CareFragment(resource, next, c), BNode(next + 2), MeasureIri(CareA))
    ensures IntLiteral(0) in Objects(CareFragment(resource, next, c), BNode(next + 3), MeasureIri(CareR))
    ensures IntLiteral(0) in Objects(CareFragment(resource, next, c), BNode(next + 4), MeasureIri(CareE))
  {
    var score := BNode(next);
    var core := GroupCore(resource, score, CARE_SCORE_AS_CALLED);
    var oc := CreateObservation(score, MeasureIri(CareC), IntLiteral(c), next + 1).graph;
    var oa := CreateObservation(score, MeasureIri(CareA), IntLiteral(0), next + 2).graph;
    var or := CreateObservation(score, MeasureIri(CareR), IntLiteral(0), next + 3).graph;
    var oe := CreateObservation(score, MeasureIri(CareE), IntLiteral(0), next + 4).graph;
    assert CareFragment(resource, next, c) == core + oc + oa + or + oe;
    GroupPiece(resource, score, CARE_SCORE_AS_CALLED);
    ObservationPiece(score, CareC, IntLiteral(c), next + 1);
    ObservationPiece(score, CareA, IntLiteral(0), next + 2);
    ObservationPiece(score, CareR, IntLiteral(0), next + 3);
    ObservationPiece(score, CareE, IntLiteral(0), next + 4);
    QueriesOfUnion(core, oc, score, QB_OBSERVATION_PROP);
    assert Objects(core + oc, score, QB_OBSERVATION_PROP) == {BNode(next + 1)};
    QueriesOfUnion(core + oc, oa, score, QB_OBSERVATION_PROP);
    assert Objects(core + oc + oa, score, QB_OBSERVATION_PROP) == {BNode(next + 1), BNode(next + 2)};
    QueriesOfUnion(core + oc + oa, or, score, QB_OBSERVATION_PROP);
    assert Objects(core + oc + oa + or, score, QB_OBSERVATION_PROP) == {BNode(next + 1), BNode(next + 2), BNode(next + 3)};
    QueriesOfUnion(core + oc + oa + or, oe, score, QB_OBSERVATION_PROP);
    assert Triple(BNode(next + 2), MeasureIri(CareA), IntLiteral(0)) in oa;
    assert Triple(BNode(next + 3), MeasureIri(CareR), IntLiteral(0)) in or;
    assert Triple(BNode(next + 4), MeasureIri(CareE), IntLiteral(0)) in oe;
  }
}
