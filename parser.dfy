/**
 * calculators/parser.py: the DCAT forward chaining that the scorers run on
 * their input graph, the builders of Score (observation group) and
 * Observation fragments, and the output file-type rules.
 */
module Parser {
  import opened Wrappers
  import opened PyStrings
  import opened Rdf
  import opened ScoresVocab

  // ---------------------------------------------------------------------------
  // Forward chaining
  // ---------------------------------------------------------------------------

  /** The `rdf:type dcat:Dataset` statements of a graph. */
  function DatasetTypings(g: Graph): set<Triple>
  {
    set t | t in g && t.p == RDF_TYPE && t.o == Iri(DCAT_DATASET)
  }

  /** For each typing statement, the same subject typed `dcat:Resource`. */
  function AsResourceTypings(ts: set<Triple>): set<Triple>
  {
    set t | t in ts :: Triple(t.s, RDF_TYPE, Iri(DCAT_RESOURCE))
  }

  /** The statements of `g` whose predicate is `p`. */
  function WithPredicate(g: Graph, p: string): set<Triple>
  {
    set t | t in g && t.p == p
  }

  /** Each statement turned around, with predicate `p`. */
  function Inverted(ts: set<Triple>, p: string): set<Triple>
  {
    set t | t in ts :: Triple(t.o, p, t.s)
  }

  /** The graph after the first rule: every dataset is also a resource. */
  function ChainTypes(g: Graph): Graph
  {
    g + AsResourceTypings(DatasetTypings(g))
  }

  /** The graph after the second rule: `isPartOf(s, o)` adds `hasPart(o, s)`. */
  function ChainHasPart(g: Graph): Graph
  {
    g + Inverted(WithPredicate(g, DCTERMS_IS_PART_OF), DCTERMS_HAS_PART)
  }

  /** The graph after the third rule: `hasPart(s, o)` adds `isPartOf(o, s)`. */
  function ChainIsPartOf(g: Graph): Graph
  {
    g + Inverted(WithPredicate(g, DCTERMS_HAS_PART), DCTERMS_IS_PART_OF)
  }

  /** The three rules of `_forward_chain_dcat`, applied in order, each once. */
  function ForwardChain(g: Graph): Graph
  {
    ChainIsPartOf(ChainHasPart(ChainTypes(g)))
  }

  /**
   * `_forward_chain_dcat(g)`: three loops that add to the graph in place.
   * Each loop walks the matching statements present when it starts; no loop
   * adds a statement that its own pattern matches, so walking the live store
   * instead visits the same statements.
   */
  method ForwardChainDcat(g: Store)
    modifies g
    ensures g.triples == ForwardChain(old(g.triples))
  {
    AddResourceTypings(g);
    AddInverses(g, DCTERMS_IS_PART_OF, DCTERMS_HAS_PART);
    AddInverses(g, DCTERMS_HAS_PART, DCTERMS_IS_PART_OF);
  }

  /** The first loop: each subject typed `dcat:Dataset` is also typed `dcat:Resource`. */
  method AddResourceTypings(g: Store)
    modifies g
    ensures g.triples == ChainTypes(old(g.triples))
  {
    ghost var g0 := g.triples;
    var datasets := DatasetTypings(g.triples);
    ghost var all := datasets;
    while datasets != {}
      invariant datasets <= all
      invariant g.triples == g0 + AsResourceTypings(all - datasets)
      decreases datasets
    {
      var t :| t in datasets;
      assert all - (datasets - {t}) == (all - datasets) + {t};
      assert AsResourceTypings((all - datasets) + {t})
        == AsResourceTypings(all - datasets) + {Triple(t.s, RDF_TYPE, Iri(DCAT_RESOURCE))};
      g.triples := g.triples + {Triple(t.s, RDF_TYPE, Iri(DCAT_RESOURCE))};
      datasets := datasets - {t};
    }
    assert all - datasets == all;
  }

  /**
   * The second and third loops: for each statement `(s, p, o)`, the
   * statement `(o, q, s)` is added.
   */
  method AddInverses(g: Store, p: string, q: string)
    modifies g
    ensures g.triples == old(g.triples) + Inverted(WithPredicate(old(g.triples), p), q)
  {
    ghost var g0 := g.triples;
    var links := WithPredicate(g.triples, p);
    ghost var all := links;
    while links != {}
      invariant links <= all
      invariant g.triples == g0 + Inverted(all - links, q)
      decreases links
    {
      var t :| t in links;
      assert all - (links - {t}) == (all - links) + {t};
      assert Inverted((all - links) + {t}, q) == Inverted(all - links, q) + {Triple(t.o, q, t.s)};
      g.triples := g.triples + {Triple(t.o, q, t.s)};
      links := links - {t};
    }
    assert all - links == all;
  }

  /** Forward chaining only adds statements. */
  lemma ForwardChainExtends(g: Graph)
    ensures g <= ForwardChain(g)
  {
  }

  /** What forward chaining adds is resource typings and part links, nothing else. */
  lemma {:induction false} ForwardChainAddsOnly(g: Graph, t: Triple)
    requires t in ForwardChain(g) && t !in g
    ensures (t.p == RDF_TYPE && t.o == Iri(DCAT_RESOURCE)) || t.p == DCTERMS_HAS_PART || t.p == DCTERMS_IS_PART_OF
  {
  }

  /** A `dcat:Dataset` typing in the chained graph was already in the input. */
  lemma {:induction false} DatasetTypingsPreserved(g: Graph, s: Term)
    requires Triple(s, RDF_TYPE, Iri(DCAT_DATASET)) in ForwardChain(g)
    ensures Triple(s, RDF_TYPE, Iri(DCAT_DATASET)) in g
  {
    var t := Triple(s, RDF_TYPE, Iri(DCAT_DATASET));
    if t !in g {
      ForwardChainAddsOnly(g, t);
      assert false;
    }
  }

  /** After chaining, every subject typed `dcat:Dataset` is typed `dcat:Resource`. */
  lemma {:induction false} DatasetsAreResources(g: Graph, s: Term)
    requires Triple(s, RDF_TYPE, Iri(DCAT_DATASET)) in ForwardChain(g)
    ensures Triple(s, RDF_TYPE, Iri(DCAT_RESOURCE)) in ForwardChain(g)
  {
    var t := Triple(s, RDF_TYPE, Iri(DCAT_DATASET));
    DatasetTypingsPreserved(g, s);
    assert t in DatasetTypings(g);
    assert Triple(s, RDF_TYPE, Iri(DCAT_RESOURCE)) in AsResourceTypings(DatasetTypings(g));
  }

  /** After chaining, `isPartOf(s, o)` holds exactly when `hasPart(o, s)` does. */
  lemma {:induction false} PartOfSymmetric(g: Graph, s: Term, o: Term)
    ensures Triple(s, DCTERMS_IS_PART_OF, o) in ForwardChain(g)
        <==> Triple(o, DCTERMS_HAS_PART, s) in ForwardChain(g)
  {
    var g1 := ChainTypes(g);
    var g2 := ChainHasPart(g1);
    var up := Triple(s, DCTERMS_IS_PART_OF, o);
    var down := Triple(o, DCTERMS_HAS_PART, s);
    if up in ForwardChain(g) {
      if up in g2 {
        assert up in g1;
        assert up in WithPredicate(g1, DCTERMS_IS_PART_OF);
        assert down in Inverted(WithPredicate(g1, DCTERMS_IS_PART_OF), DCTERMS_HAS_PART);
      } else {
        var u :| u in WithPredicate(g2, DCTERMS_HAS_PART) && up == Triple(u.o, DCTERMS_IS_PART_OF, u.s);
        assert u == down;
      }
    }
    if down in ForwardChain(g) {
      assert down in g2;
      assert down in WithPredicate(g2, DCTERMS_HAS_PART);
      assert up in Inverted(WithPredicate(g2, DCTERMS_HAS_PART), DCTERMS_IS_PART_OF);
    }
  }

  /** Running the forward chaining a second time adds nothing. */
  lemma {:induction false} ForwardChainIdempotent(g: Graph)
    ensures ForwardChain(ForwardChain(g)) == ForwardChain(g)
  {
    var h := ForwardChain(g);
    forall t | t in AsResourceTypings(DatasetTypings(h)) ensures t in h {
      var u :| u in DatasetTypings(h) && t == Triple(u.s, RDF_TYPE, Iri(DCAT_RESOURCE));
      DatasetsAreResources(g, u.s);
    }
    assert ChainTypes(h) == h;
    forall t | t in Inverted(WithPredicate(h, DCTERMS_IS_PART_OF), DCTERMS_HAS_PART) ensures t in h {
      var u :| u in WithPredicate(h, DCTERMS_IS_PART_OF) && t == Triple(u.o, DCTERMS_HAS_PART, u.s);
      PartOfSymmetric(g, u.s, u.o);
    }
    assert ChainHasPart(h) == h;
    forall t | t in Inverted(WithPredicate(h, DCTERMS_HAS_PART), DCTERMS_IS_PART_OF) ensures t in h {
      var u :| u in WithPredicate(h, DCTERMS_HAS_PART) && t == Triple(u.o, DCTERMS_IS_PART_OF, u.s);
      PartOfSymmetric(g, u.o, u.s);
    }
    assert ChainIsPartOf(h) == h;
  }

  // ---------------------------------------------------------------------------
  // Score and Observation fragments
  // ---------------------------------------------------------------------------

  /** A freshly built fragment: its new node, its statements and the next unused blank node number. */
  datatype Built = Built(node: Term, graph: Graph, next: nat)

  const HAS_SCORE := PropertyIri(HasScore)
  const REF_RESOURCE := PropertyIri(RefResource)
  const REF_TIME := PropertyIri(RefTime)

  /** The structural IRIs of a Score fragment are pairwise distinct and differ from every measure. */
  lemma StructuralPredicatesDistinct()
    ensures HAS_SCORE != RDF_TYPE && HAS_SCORE != REF_RESOURCE && HAS_SCORE != QB_OBSERVATION_PROP
    ensures QB_OBSERVATION_PROP != RDF_TYPE && QB_OBSERVATION_PROP != REF_RESOURCE
    ensures forall m :: MeasureIri(m) != HAS_SCORE && MeasureIri(m) != QB_OBSERVATION_PROP && MeasureIri(m) != RDF_TYPE
    ensures REF_TIME != RDF_TYPE && REF_TIME != HAS_SCORE && REF_TIME != REF_RESOURCE
  {
  }

  /**
   * `_create_observation`: a new Observation node carrying `value` under the
   * measure `property`, linked from its Score container.
   */
  function CreateObservation(container: Term, property: string, value: Term, next: nat): (r: Built)
    ensures r.node == BNode(next) && r.next == next + 1
  {
    var obs := BNode(next);
    Built(obs, {
      Triple(obs, RDF_TYPE, Iri(QB_OBSERVATION)),
      Triple(container, QB_OBSERVATION_PROP, obs),
      Triple(obs, property, value)
    }, next + 1)
  }

  /**
   * An observation of a measure (any property but rdf:type) in an existing
   * container is exactly three statements: the new node typed
   * qb:Observation, linked from the container, and carrying the value. The
   * new node is unused by any graph whose blank nodes are numbered lower.
   */
  lemma ObservationShape(container: Term, property: string, value: Term, next: nat, earlier: Graph)
    requires property != RDF_TYPE && TermBelow(container, next)
    ensures var r := CreateObservation(container, property, value, next);
      && |r.graph| == 3
      && Objects(r.graph, container, QB_OBSERVATION_PROP) == {r.node}
      && Objects(r.graph, r.node, RDF_TYPE) == {Iri(QB_OBSERVATION)}
      && Objects(r.graph, r.node, property) == {value}
      && (GraphBelow(earlier, next) ==> forall t :: t in earlier ==> t.s != r.node && t.o != r.node)
  {
    var r := CreateObservation(container, property, value, next);
    var a := Triple(r.node, RDF_TYPE, Iri(QB_OBSERVATION));
    var b := Triple(container, QB_OBSERVATION_PROP, r.node);
    var c := Triple(r.node, property, value);
    assert a != b && a != c && b != c;
    assert |{a, b}| == 2;
    assert |{a, b, c}| == 3;
  }

  /** The five statements of a Score without a validity interval. */
  function GroupCore(resource: Term, score: Term, scoreClass: string): Graph
  {
    {
      Triple(resource, RDF_TYPE, Iri(DCAT_RESOURCE)),
      Triple(resource, HAS_SCORE, score),
      Triple(score, RDF_TYPE, Iri(scoreClass)),
      Triple(score, RDF_TYPE, Iri(QB_OBSERVATION_GROUP)),
      Triple(score, REF_RESOURCE, resource)
    }
  }

  /** A time:Instant node at `date`, linked from the interval `t` by `link`. */
  function InstantAt(t: Term, link: string, instant: Term, date: Term): Graph
  {
    {
      Triple(instant, RDF_TYPE, Iri(TIME_INSTANT)),
      Triple(instant, TIME_IN_XSD_DATE, date),
      Triple(t, link, instant)
    }
  }

  /**
   * The validity interval of a Score: nothing without dates; otherwise a
   * time:ProperInterval `BNode(next)` linked from the Score, with a
   * beginning instant and then an end instant on the following blank nodes
   * when those dates are given.
   */
  function ValidityInterval(score: Term, beginning: Option<Term>, end: Option<Term>, next: nat): (r: Built)
    ensures beginning.None? && end.None? ==> r.graph == {} && r.next == next
    ensures r.next >= next
  {
    if beginning.None? && end.None? then
      Built(score, {}, next)
    else
      var t := BNode(next);
      var timed := {Triple(t, RDF_TYPE, Iri(TIME_PROPER_INTERVAL)), Triple(score, REF_TIME, t)};
      var afterBeginning := if beginning.Some? then next + 2 else next + 1;
      var withBeginning :=
        if beginning.Some? then timed + InstantAt(t, TIME_HAS_BEGINNING, BNode(next + 1), beginning.value)
        else timed;
      var withEnd :=
        if end.Some? then withBeginning + InstantAt(t, TIME_HAS_END, BNode(afterBeginning), end.value)
        else withBeginning;
      Built(t, withEnd, if end.Some? then afterBeginning + 1 else afterBeginning)
  }

  /**
   * `_create_observation_group`: a new Score node of class `scoreClass` for
   * `resource`, with its validity interval when a beginning or an end date
   * is given. Blank nodes are minted in the source's order: the Score, the
   * interval, the beginning instant, the end instant.
   */
  function CreateObservationGroup(resource: Term, scoreClass: string, beginning: Option<Term>, end: Option<Term>, next: nat): (r: Built)
    ensures r.node == BNode(next) && r.next > next
    ensures beginning.None? && end.None? ==> r.graph == GroupCore(resource, BNode(next), scoreClass) && r.next == next + 1
  {
    var score := BNode(next);
    var interval := ValidityInterval(score, beginning, end, next + 1);
    Built(score, GroupCore(resource, score, scoreClass) + interval.graph, interval.next)
  }

  /**
   * Without dates a Score is five statements: the resource typed
   * dcat:Resource and pointing to the Score, the Score typed with its class
   * and as qb:ObservationGroup, and pointing back to the resource.
   */
  lemma GroupWithoutDates(resource: Term, scoreClass: string, next: nat)
    requires TermBelow(resource, next) && scoreClass != QB_OBSERVATION_GROUP
    ensures var r := CreateObservationGroup(resource, scoreClass, None, None, next);
      && |r.graph| == 5
      && Objects(r.graph, resource, HAS_SCORE) == {r.node}
      && Objects(r.graph, r.node, REF_RESOURCE) == {resource}
      && Objects(r.graph, r.node, RDF_TYPE) == {Iri(scoreClass), Iri(QB_OBSERVATION_GROUP)}
      && Objects(r.graph, resource, RDF_TYPE) == {Iri(DCAT_RESOURCE)}
  {
    var score := BNode(next);
    var a := Triple(resource, RDF_TYPE, Iri(DCAT_RESOURCE));
    var b := Triple(resource, HAS_SCORE, score);
    var c := Triple(score, RDF_TYPE, Iri(scoreClass));
    var d := Triple(score, RDF_TYPE, Iri(QB_OBSERVATION_GROUP));
    var e := Triple(score, REF_RESOURCE, resource);
    assert |{a, b}| == 2;
    assert |{a, b, c}| == 3;
    assert |{a, b, c, d}| == 4;
    assert |{a, b, c, d, e}| == 5;
  }

  /**
   * A validity interval is linked by scores:refTime exactly when a beginning
   * or an end is given.
   */
  lemma GroupTimeLinks(resource: Term, scoreClass: string, beginning: Option<Term>, end: Option<Term>, next: nat)
    ensures var r := CreateObservationGroup(resource, scoreClass, beginning, end, next);
      WithPredicate(r.graph, REF_TIME) != {} <==> beginning.Some? || end.Some?
  {
    if beginning.Some? || end.Some? {
      var r := CreateObservationGroup(resource, scoreClass, beginning, end, next);
      assert Triple(BNode(next), REF_TIME, BNode(next + 1)) in r.graph;
    }
  }

  /** The interval has a beginning instant exactly when a beginning date is given, and likewise for the end. */
  lemma GroupInstantLinks(resource: Term, scoreClass: string, beginning: Option<Term>, end: Option<Term>, next: nat)
    ensures var r := CreateObservationGroup(resource, scoreClass, beginning, end, next);
      && (WithPredicate(r.graph, TIME_HAS_BEGINNING) != {} <==> beginning.Some?)
      && (WithPredicate(r.graph, TIME_HAS_END) != {} <==> end.Some?)
  {
    var r := CreateObservationGroup(resource, scoreClass, beginning, end, next);
    if beginning.Some? {
      assert Triple(BNode(next + 1), TIME_HAS_BEGINNING, BNode(next + 2)) in r.graph;
    }
    if end.Some? {
      var e := if beginning.Some? then next + 3 else next + 2;
      assert Triple(BNode(next + 1), TIME_HAS_END, BNode(e)) in r.graph;
    }
  }

  /**
   * A dated Score points to exactly one validity interval, the blank node
   * minted right after it, and that node is a time:ProperInterval.
   */
  lemma GroupIntervalLink(resource: Term, scoreClass: string, beginning: Option<Term>, end: Option<Term>, next: nat)
    requires beginning.Some? || end.Some?
    ensures var r := CreateObservationGroup(resource, scoreClass, beginning, end, next);
      && Objects(r.graph, r.node, REF_TIME) == {BNode(next + 1)}
      && Iri(TIME_PROPER_INTERVAL) in Objects(r.graph, BNode(next + 1), RDF_TYPE)
  {
    var score := BNode(next);
    var core := GroupCore(resource, score, scoreClass);
    var interval := ValidityInterval(score, beginning, end, next + 1).graph;
    StructuralPredicatesDistinct();
    assert Objects(core, score, REF_TIME) == {};
    IntervalLink(score, beginning, end, next + 1);
    assert Objects(core + interval, score, REF_TIME) == Objects(core, score, REF_TIME) + Objects(interval, score, REF_TIME);
  }

  /** Within the interval's own statements, the Score's only refTime is the interval node. */
  lemma IntervalLink(score: Term, beginning: Option<Term>, end: Option<Term>, next: nat)
    requires beginning.Some? || end.Some?
    requires score.BNode? && score.id < next
    ensures var r := ValidityInterval(score, beginning, end, next);
      && Objects(r.graph, score, REF_TIME) == {BNode(next)}
      && Iri(TIME_PROPER_INTERVAL) in Objects(r.graph, BNode(next), RDF_TYPE)
  {
    var r := ValidityInterval(score, beginning, end, next);
    assert Triple(score, REF_TIME, BNode(next)) in r.graph;
    assert Triple(BNode(next), RDF_TYPE, Iri(TIME_PROPER_INTERVAL)) in r.graph;
  }

  // ---------------------------------------------------------------------------
  // Output file types
  // ---------------------------------------------------------------------------

  /** `RDF_FILE_SUFFIXES`: output file suffixes and the RDF media type each selects. */
  const RdfFileSuffixes: seq<(string, string)> := [
    (".ttl", "text/turtle"),
    (".rdf", "application/rdf+xml"),
    (".json-ld", "application/ld+json"),
    (".nt", "text/nt")
  ]

  /** `RDF_FILE_SUFFIXES.keys()` */
  function SuffixKeys(): set<string>
  {
    set i | 0 <= i < |RdfFileSuffixes| :: RdfFileSuffixes[i].0
  }

  /** `RDF_FILE_SUFFIXES.values()` */
  function SuffixMediaTypes(): set<string>
  {
    set i | 0 <= i < |RdfFileSuffixes| :: RdfFileSuffixes[i].1
  }

  /** `RDF_FILE_SUFFIXES[sfx]`, or None for a missing key. */
  function MediaTypeOf(sfx: string): Option<string>
  {
    if sfx == ".ttl" then Some("text/turtle")
    else if sfx == ".rdf" then Some("application/rdf+xml")
    else if sfx == ".json-ld" then Some("application/ld+json")
    else if sfx == ".nt" then Some("text/nt")
    else None
  }

  /** The suffix keys, written out. */
  lemma SuffixKeysExact()
    ensures SuffixKeys() == {".ttl", ".rdf", ".json-ld", ".nt"}
  {
    assert RdfFileSuffixes[0].0 == ".ttl";
    assert RdfFileSuffixes[1].0 == ".rdf";
    assert RdfFileSuffixes[2].0 == ".json-ld";
    assert RdfFileSuffixes[3].0 == ".nt";
  }

  /** `MediaTypeOf` reads the suffix table: it finds a media type for exactly its keys, and the paired one. */
  lemma MediaTypeOfTable(sfx: string)
    ensures MediaTypeOf(sfx).Some? <==> sfx in SuffixKeys()
    ensures forall i :: 0 <= i < |RdfFileSuffixes| && RdfFileSuffixes[i].0 == sfx ==> MediaTypeOf(sfx) == Some(RdfFileSuffixes[i].1)
  {
    SuffixKeysExact();
  }

  /** `known_file_types` of `_get_valid_output_file_and_type`. */
  const KnownFileTypes: seq<string> := [".ttl", ".rdf", ".json-ld", ".nt"]

  /** `_output_is_format`: the string is a suffix key or "graph". */
  function OutputIsFormat(s: string): (b: bool)
    ensures b <==> s == ".ttl" || s == ".rdf" || s == ".json-ld" || s == ".nt" || s == "graph"
  {
    SuffixKeysExact();
    s in SuffixKeys() || s == "graph"
  }

  /** The error `_get_valid_output_file_and_type` raises for a path it cannot serialise to. */
  datatype OutputError = UnknownFileType(path: string)

  /**
   * `_get_valid_output_file_and_type`: the file name and the media type its
   * suffix selects, or the error raised for any other suffix.
   */
  function GetValidOutputFileAndType(path: string): (r: Result<(string, string), OutputError>)
    ensures r.Ok? <==> PathSuffix(path) in KnownFileTypes
    ensures r.Ok? ==> r.value.0 == PathName(path) && Some(r.value.1) == MediaTypeOf(PathSuffix(path))
    ensures r.Err? ==> r.error == UnknownFileType(path)
  {
    var sfx := PathSuffix(path);
    if sfx !in KnownFileTypes then Err(UnknownFileType(path))
    else
      match MediaTypeOf(sfx)
      case Some(media) => Ok((PathName(path), media))
      case None => Err(UnknownFileType(path))
  }

  /** Each known file type is a dot followed by dot-free, slash-free text. */
  lemma KnownFileTypeForm(k: string)
    requires k in KnownFileTypes
    ensures 2 <= |k| && k[0] == '.' && '/' !in k
    ensures forall i :: 0 < i < |k| ==> k[i] != '.'
  {
  }

  /**
   * A path ending with a known suffix is accepted, with the media type of
   * that suffix, unless its file name is the bare suffix (".ttl" names a dot
   * file whose `Path.suffix` is empty), which is rejected.
   */
  lemma KnownSuffixAccepted(path: string, k: string)
    requires k in KnownFileTypes && EndsWith(path, k)
    ensures |PathName(path)| > |k| ==> GetValidOutputFileAndType(path) == Ok((PathName(path), MediaTypeOf(k).value))
    ensures |PathName(path)| <= |k| ==> GetValidOutputFileAndType(path) == Err(UnknownFileType(path))
  {
    KnownFileTypeForm(k);
    SuffixOfEnding(path, k);
    var name := PathName(path);
    assert |name| >= |k| by { assert EndsWith(name, k); }
    if |name| > |k| {
      assert PathSuffix(path) == k;
    } else {
      assert PathSuffix(path) == "";
      assert "" !in KnownFileTypes;
    }
  }

  // ---------------------------------------------------------------------------
  // Reading built Score groups back
  // ---------------------------------------------------------------------------

  /** `s.subjects(scores:hasScore, None)`: the resources a scores graph scores. */
  function ScoredResources(s: Graph): set<Term>
  {
    set t | t in s && t.p == PropertyIri(HasScore) :: t.s
  }

  /** The Score groups a scores graph holds for `resource`. */
  function ScoresOf(s: Graph, resource: Term): set<Term>
  {
    Objects(s, resource, PropertyIri(HasScore))
  }

  /** Both queries distribute over the union of two graphs. */
  lemma QueriesOfUnion(a: Graph, b: Graph, s: Term, p: string)
    ensures ScoredResources(a + b) == ScoredResources(a) + ScoredResources(b)
    ensures Objects(a + b, s, p) == Objects(a, s, p) + Objects(b, s, p)
  {
  }

  /** An Observation scores no resource and has no observations of its own but its container's link. */
  lemma ObservationPiece(container: Term, m: Measure, value: Term, n: nat)
    ensures ScoredResources(CreateObservation(container, MeasureIri(m), value, n).graph) == {}
    ensures forall q :: Objects(CreateObservation(container, MeasureIri(m), value, n).graph, q, HAS_SCORE) == {}
    ensures Objects(CreateObservation(container, MeasureIri(m), value, n).graph, container, QB_OBSERVATION_PROP) == {BNode(n)}
    ensures value in Objects(CreateObservation(container, MeasureIri(m), value, n).graph, BNode(n), MeasureIri(m))
  {
    StructuralPredicatesDistinct();
    var g := CreateObservation(container, MeasureIri(m), value, n).graph;
    assert Triple(container, QB_OBSERVATION_PROP, BNode(n)) in g;
    assert Triple(BNode(n), MeasureIri(m), value) in g;
  }

  /** The Score group scores its resource, by the Score alone, and holds no observation yet. */
  lemma GroupPiece(resource: Term, score: Term, cls: string)
    ensures ScoredResources(GroupCore(resource, score, cls)) == {resource}
    ensures Objects(GroupCore(resource, score, cls), resource, HAS_SCORE) == {score}
    ensures forall q :: q != resource ==> Objects(GroupCore(resource, score, cls), q, HAS_SCORE) == {}
    ensures Objects(GroupCore(resource, score, cls), score, QB_OBSERVATION_PROP) == {}
    ensures Iri(cls) in Objects(GroupCore(resource, score, cls), score, RDF_TYPE)
  {
    StructuralPredicatesDistinct();
    assert Triple(resource, HAS_SCORE, score) in GroupCore(resource, score, cls);
    assert Triple(score, RDF_TYPE, Iri(cls)) in GroupCore(resource, score, cls);
  }
}
