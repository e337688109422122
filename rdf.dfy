/**
 * The RDF graph store as the scorers see it: terms, triples, a graph as a
 * finite set of triples, the pattern queries the scorers make, and the
 * vocabulary IRIs they use. Blank nodes carry a number so that minting a
 * fresh one is an explicit counter step.
 */
module Rdf {
  import opened Wrappers
  import opened PyStrings

  /** An rdflib term: URIRef, Literal (lexical form and optional datatype) or BNode. */
  datatype Term = Iri(iri: string) | Lit(lexical: string, dtype: Option<string>) | BNode(id: nat)

  /** A statement; predicates are IRIs. */
  datatype Triple = Triple(s: Term, p: string, o: Term)

  type Graph = set<Triple>

  // Namespaces
  const RDF_NS := "http://www.w3.org/1999/02/22-rdf-syntax-ns#"
  const PROV_NS := "http://www.w3.org/ns/prov#"

  // Vocabulary terms
  const RDF_TYPE := "http://www.w3.org/1999/02/22-rdf-syntax-ns#type"
  const DCAT_RESOURCE := "http://www.w3.org/ns/dcat#Resource"
  const DCAT_DATASET := "http://www.w3.org/ns/dcat#Dataset"
  const DCAT_MEDIA_TYPE := "http://www.w3.org/ns/dcat#mediaType"
  const DCAT_HAD_ROLE := "http://www.w3.org/ns/dcat#hadRole"
  const DCAT_THEME := "http://www.w3.org/ns/dcat#theme"
  const DCTERMS_FORMAT := "http://purl.org/dc/terms/format"
  const DCTERMS_TYPE := "http://purl.org/dc/terms/type"
  const DCTERMS_LICENSE := "http://purl.org/dc/terms/license"
  const DCTERMS_PUBLISHER := "http://purl.org/dc/terms/publisher"
  const DCTERMS_CREATOR := "http://purl.org/dc/terms/creator"
  const DCTERMS_CONTRIBUTOR := "http://purl.org/dc/terms/contributor"
  const DCTERMS_ACCESS_RIGHTS := "http://purl.org/dc/terms/accessRights"
  const DCTERMS_SOURCE := "http://purl.org/dc/terms/source"
  const DCTERMS_CREATED := "http://purl.org/dc/terms/created"
  const DCTERMS_MODIFIED := "http://purl.org/dc/terms/modified"
  const DCTERMS_IS_PART_OF := "http://purl.org/dc/terms/isPartOf"
  const DCTERMS_HAS_PART := "http://purl.org/dc/terms/hasPart"
  const PROV_AGENT := "http://www.w3.org/ns/prov#agent"
  const PROV_HAD_ROLE := "http://www.w3.org/ns/prov#hadRole"
  const PROV_QUALIFIED_ATTRIBUTION := "http://www.w3.org/ns/prov#qualifiedAttribution"
  const RDFS_MEMBER := "http://www.w3.org/2000/01/rdf-schema#member"
  const XSD_ANY_URI := "http://www.w3.org/2001/XMLSchema#anyURI"
  const XSD_INTEGER := "http://www.w3.org/2001/XMLSchema#integer"
  const QB_OBSERVATION := "http://purl.org/linked-data/cube#Observation"
  const QB_OBSERVATION_GROUP := "http://purl.org/linked-data/cube#ObservationGroup"
  const QB_OBSERVATION_PROP := "http://purl.org/linked-data/cube#observation"
  const TIME_PROPER_INTERVAL := "http://www.w3.org/2006/time#ProperInterval"
  const TIME_INSTANT := "http://www.w3.org/2006/time#Instant"
  const TIME_IN_XSD_DATE := "http://www.w3.org/2006/time#inXSDDate"
  const TIME_HAS_BEGINNING := "http://www.w3.org/2006/time#hasBeginning"
  const TIME_HAS_END := "http://www.w3.org/2006/time#hasEnd"

  /** Python's `str(term)`: the IRI, the lexical form, or the blank node label. */
  function Str(t: Term): string
  {
    match t
    case Iri(iri) => iri
    case Lit(lexical, _) => lexical
    case BNode(id) => "N" + NatToString(id)
  }

  /**
   * Python truth of a term: an IRI or literal is false when its text is
   * empty; a blank node's label never is.
   */
  predicate Truthy(t: Term)
  {
    match t
    case Iri(iri) => iri != ""
    case Lit(lexical, _) => lexical != ""
    case BNode(_) => true
  }

  /** rdflib's `Literal(n)` for a Python `int`. */
  function IntLiteral(n: nat): Term
  {
    Lit(NatToString(n), Some(XSD_INTEGER))
  }

  /** Python's `int(literal)` for an xsd:integer literal written in plain digits. */
  function IntValue(t: Term): Option<nat>
  {
    if t.Lit? && t.dtype == Some(XSD_INTEGER) then ParseNat(t.lexical) else None
  }

  /** A score written with `Literal(n)` reads back as `n`. */
  lemma IntLiteralRoundTrip(n: nat)
    ensures IntValue(IntLiteral(n)) == Some(n)
  {
    ParseNatToString(n);
  }

  /** `g.objects(s, p)` as a set. */
  function Objects(g: Graph, s: Term, p: string): set<Term>
  {
    set t | t in g && t.s == s && t.p == p :: t.o
  }

  /** `g.subjects(p, o)` as a set. */
  function Subjects(g: Graph, p: string, o: Term): set<Term>
  {
    set t | t in g && t.p == p && t.o == o :: t.s
  }

  /** `set(g.predicates(None, None))`. */
  function Predicates(g: Graph): set<string>
  {
    set t | t in g :: t.p
  }

  /** A term is not one of the blank nodes numbered `n` or above. */
  predicate TermBelow(t: Term, n: nat)
  {
    t.BNode? ==> t.id < n
  }

  /** Every blank node of `g` is numbered below `n`, so `BNode(n)` is fresh for `g`. */
  predicate GraphBelow(g: Graph, n: nat)
  {
    forall t :: t in g ==> TermBelow(t.s, n) && TermBelow(t.o, n)
  }

  /**
   * `for o in g.objects(s, p): last = o`: the object the iteration visits
   * last. The store's iteration order is unspecified, so the loop visits the
   * matching triples in an arbitrary order.
   */
  method LastObject(g: Graph, s: Term, p: string) returns (last: Option<Term>)
    ensures last.None? <==> Objects(g, s, p) == {}
    ensures last.Some? ==> last.value in Objects(g, s, p)
  {
    var todo := set t | t in g && t.s == s && t.p == p;
    last := None;
    while todo != {}
      invariant todo <= g
      invariant forall t :: t in todo ==> t.s == s && t.p == p
      invariant last.None? <==> todo == set t | t in g && t.s == s && t.p == p
      invariant last.Some? ==> last.value in Objects(g, s, p)
      decreases todo
    {
      var t :| t in todo;
      last := Some(t.o);
      todo := todo - {t};
    }
    if last.None? {
      assert forall t :: t in g && t.s == s && t.p == p ==> t in todo;
    }
  }

  /** The rdflib graph object that `_forward_chain_dcat` adds to in place. */
  class Store {
    var triples: Graph

    constructor(g: Graph)
      ensures triples == g
    {
      triples := g;
    }
  }

  /** `g.subjects(rdf:type, dcat:Resource)`: the catalogued resources. */
  function Resources(g: Graph): set<Term>
  {
    Subjects(g, RDF_TYPE, Iri(DCAT_RESOURCE))
  }
}
