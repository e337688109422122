/**
 * The sub-scores of calculators/functions.py. Each reads the metadata graph
 * (and, for most, one catalogued resource) and returns a small integer that
 * the FAIR dimension scorers add up.
 */
module Functions {
  import opened Wrappers
  import opened PyStrings
  import opened Rdf
  import opened Reference

  // ---------------------------------------------------------------------------
  // Machine readability
  // ---------------------------------------------------------------------------

  /** The statements giving the resource a format or a media type. */
  function FormatTriples(g: Graph, r: Term): set<Triple>
  {
    set t | t in g && t.s == r && t.p in FormatProperties
  }

  /** The string forms of the resource's format and media-type objects. */
  function FormatStrings(g: Graph, r: Term): set<string>
  {
    set t | t in FormatTriples(g, r) :: Str(t.o)
  }

  /**
   * The machine-readability score, independent of any iteration order: 2 when
   * some format object is a known mime type, otherwise 1 when some is a
   * known file extension, otherwise 0.
   */
  function MachineReadability(g: Graph, r: Term): (v: nat)
  {
    if FormatStrings(g, r) * MimeTypes() != {} then 2
    else if FormatStrings(g, r) * FileExtensions() != {} then 1
    else 0
  }

  /**
   * `machine_readability_score`: visits the format objects in the store's
   * (unspecified) order, returning 2 at the first mime type and remembering
   * a file extension otherwise. Whatever the order, the result is
   * `MachineReadability`.
   */
  method MachineReadabilityScore(g: Graph, r: Term) returns (value: nat)
    ensures value == MachineReadability(g, r)
  {
    var matching := FormatTriples(g, r);
    var todo := matching;
    value := 0;
    while todo != {}
      invariant todo <= matching
      invariant forall t :: t in matching && t !in todo ==> Str(t.o) !in MimeTypes()
      invariant value == 1 <==> exists t :: t in matching && t !in todo && Str(t.o) in FileExtensions()
      invariant value <= 1
      decreases todo
    {
      var t :| t in todo;
      var literal := Str(t.o);
      if literal in MimeTypes() {
        assert literal in FormatStrings(g, r) * MimeTypes();
        return 2;
      } else if literal in FileExtensions() {
        value := 1;
      }
      todo := todo - {t};
    }
    assert FormatStrings(g, r) * MimeTypes() == {};
    if value == 1 {
      var t :| t in matching && Str(t.o) in FileExtensions();
      assert Str(t.o) in FormatStrings(g, r) * FileExtensions();
    } else {
      assert FormatStrings(g, r) * FileExtensions() == {};
    }
  }

  /** Some format or media-type object of the resource has its string form in `table`. */
  predicate HasFormatIn(g: Graph, r: Term, table: set<string>)
  {
    exists t :: t in g && t.s == r && t.p in FormatProperties && Str(t.o) in table
  }

  /** Intersecting the format strings with a table asks whether some format object is in it. */
  lemma FormatStringsMeet(g: Graph, r: Term, table: set<string>)
    ensures FormatStrings(g, r) * table != {} <==> HasFormatIn(g, r, table)
  {
    if HasFormatIn(g, r, table) {
      var t :| t in g && t.s == r && t.p in FormatProperties && Str(t.o) in table;
      assert Str(t.o) in FormatStrings(g, r) * table;
    }
    if FormatStrings(g, r) * table != {} {
      var x :| x in FormatStrings(g, r) * table;
      var t :| t in FormatTriples(g, r) && Str(t.o) == x;
      assert t in g && t.s == r && t.p in FormatProperties && Str(t.o) in table;
    }
  }

  /**
   * The score is at most 2; it is 2 exactly when some format or media-type
   * object is a known mime type, and 1 exactly when none is but some is a
   * known file extension.
   */
  lemma MachineReadabilityCases(g: Graph, r: Term)
    ensures MachineReadability(g, r) <= 2
    ensures MachineReadability(g, r) == 2 <==> HasFormatIn(g, r, MimeTypes())
    ensures MachineReadability(g, r) == 1 <==> !HasFormatIn(g, r, MimeTypes()) && HasFormatIn(g, r, FileExtensions())
  {
    FormatStringsMeet(g, r, MimeTypes());
    FormatStringsMeet(g, r, FileExtensions());
  }

  /**
   * Because no file extension is also a mime type, a format string that is
   * an extension never scores 2 on its own: a resource whose only format
   * object is `ext` scores 1.
   */
  lemma ExtensionAloneScoresOne(r: Term, p: string, ext: string)
    requires p in FormatProperties && ext in FileExtensions()
    ensures MachineReadability({Triple(r, p, Lit(ext, None))}, r) == 1
  {
    var g := {Triple(r, p, Lit(ext, None))};
    FormatTableShape();
    assert FormatTriples(g, r) == g;
    assert FormatStrings(g, r) == {ext};
    assert ext !in MimeTypes();
    assert FormatStrings(g, r) * MimeTypes() == {};
    assert ext in FormatStrings(g, r) * FileExtensions();
  }

  // ---------------------------------------------------------------------------
  // Shared vocabularies and ontologies
  // ---------------------------------------------------------------------------

  /** The resource's statements under the properties expected to point at IRIs. */
  function VocabTriples(g: Graph, r: Term): set<Triple>
  {
    set t | t in g && t.s == r && t.p in UriExpectedProperties
  }

  /** How many of those statements have an IRI object. */
  function UriCount(g: Graph, r: Term): nat
  {
    |set t | t in VocabTriples(g, r) && t.o.Iri?|
  }

  /** How many of those statements have a literal object. */
  function LiteralCount(g: Graph, r: Term): nat
  {
    |set t | t in VocabTriples(g, r) && t.o.Lit?|
  }

  /**
   * `shared_vocabs_ontologies`: 2 when the objects are IRIs and no literal,
   * 1 when IRIs strictly outnumber literals, 0 otherwise (no objects, no
   * IRIs, or literals as many as IRIs). Blank-node objects count as neither.
   */
  function SharedVocabsOntologies(g: Graph, r: Term): (v: nat)
    ensures v <= 2
    ensures v > 0 ==> UriCount(g, r) > LiteralCount(g, r)
    ensures v == 2 <==> UriCount(g, r) > 0 && LiteralCount(g, r) == 0
    ensures v == 1 <==> LiteralCount(g, r) > 0 && UriCount(g, r) > LiteralCount(g, r)
  {
    if |VocabTriples(g, r)| > 0 then
      if UriCount(g, r) == 0 then 0
      else if LiteralCount(g, r) == 0 then 2
      else if UriCount(g, r) > LiteralCount(g, r) then 1
      else 0
    else 0
  }

  /** Adding a statement with a blank-node object never changes the score. */
  lemma {:induction false} BlankObjectsNeutral(g: Graph, r: Term, t: Triple)
    requires t.o.BNode?
    ensures SharedVocabsOntologies(g + {t}, r) == SharedVocabsOntologies(g, r)
  {
    var g' := g + {t};
    assert (set u | u in VocabTriples(g', r) && u.o.Iri?) == (set u | u in VocabTriples(g, r) && u.o.Iri?);
    assert (set u | u in VocabTriples(g', r) && u.o.Lit?) == (set u | u in VocabTriples(g, r) && u.o.Lit?);
    if |VocabTriples(g, r)| == 0 {
      assert VocabTriples(g, r) == {};
      assert (set u | u in VocabTriples(g, r) && u.o.Iri?) == {};
    }
  }

  /** Adding one more IRI object under an expected property never lowers the score. */
  lemma {:induction false} UriObjectMonotone(g: Graph, r: Term, t: Triple)
    requires t !in g && t.s == r && t.p in UriExpectedProperties && t.o.Iri?
    ensures SharedVocabsOntologies(g + {t}, r) >= SharedVocabsOntologies(g, r)
  {
    var g' := g + {t};
    var uris := set u | u in VocabTriples(g, r) && u.o.Iri?;
    var uris' := set u | u in VocabTriples(g', r) && u.o.Iri?;
    assert uris' == uris + {t};
    assert t !in uris;
    assert |uris'| == |uris| + 1;
    assert (set u | u in VocabTriples(g', r) && u.o.Lit?) == (set u | u in VocabTriples(g, r) && u.o.Lit?);
    assert t in VocabTriples(g', r);
    if LiteralCount(g, r) > 0 && UriCount(g, r) + 1 <= LiteralCount(g, r) {
      assert SharedVocabsOntologies(g, r) == 0;
    }
  }

  // ---------------------------------------------------------------------------
  // Licensing, provenance, data source, searchability
  // ---------------------------------------------------------------------------

  /** `licensing_score`: 2 when the resource has a license statement, IRI or literal, else 0. */
  function LicensingScore(g: Graph, r: Term): (v: nat)
    ensures v == 0 || v == 2
    ensures v == 2 <==> exists t :: t in g && t.s == r && t.p == DCTERMS_LICENSE
  {
    if exists t :: t in g && t.s == r && t.p in LicenseProperties then 2 else 0
  }

  /** `p in PROV`: the predicate lies in the PROV namespace. */
  predicate InProvNamespace(p: string)
  {
    StartsWith(p, PROV_NS)
  }

  /**
   * `provenance_score`: 2 when any predicate of the whole graph is a PROV
   * term or an additional provenance property (dcterms:source), else 0.
   */
  function ProvenanceScore(g: Graph): (v: nat)
    ensures v == 0 || v == 2
    ensures v == 2 <==> exists t :: t in g && (InProvNamespace(t.p) || t.p == DCTERMS_SOURCE)
  {
    var props := Predicates(g);
    assert forall t :: t in g ==> t.p in props;
    if exists p :: p in props && InProvNamespace(p) then 2
    else if exists p :: p in props && p in AdditionalProvenanceProperties then 2
    else 0
  }

  /** Provenance only ever grows with the graph. */
  lemma ProvenanceMonotone(g: Graph, h: Graph)
    requires g <= h
    ensures ProvenanceScore(g) <= ProvenanceScore(h)
  {
    if ProvenanceScore(g) == 2 {
      var t :| t in g && (InProvNamespace(t.p) || t.p == DCTERMS_SOURCE);
      assert t in h;
    }
  }

  /**
   * The data-source score of one `dcterms:source` object: 2 for an IRI, 1
   * for an xsd:anyURI literal, 0 for anything else. An empty IRI or an empty
   * anyURI literal is false in Python and scores 0.
   */
  function SourceTermScore(o: Term): (v: nat)
    ensures v <= 2
    ensures v == 2 <==> o.Iri? && o.iri != ""
    ensures v == 1 <==> o.Lit? && o.dtype == Some(XSD_ANY_URI) && o.lexical != ""
  {
    match o
    case Iri(iri) => if iri == "" then 0 else 2
    case Lit(lexical, dtype) => if lexical != "" && dtype == Some(XSD_ANY_URI) then 1 else 0
    case BNode(_) => 0
  }

  /**
   * `data_source_score`: scores the `dcterms:source` object that the store
   * hands back first, which may be any of them; 0 when there is none. A
   * positive score implies a `dcterms:source` statement, so provenance then
   * scores 2. With a single `dcterms:source` there is no choice: the result
   * is that object's own term score.
   */
  method DataSourceScore(g: Graph, r: Term) returns (d: nat)
    ensures Objects(g, r, DCTERMS_SOURCE) == {} ==> d == 0
    ensures Objects(g, r, DCTERMS_SOURCE) != {} ==>
      exists o :: o in Objects(g, r, DCTERMS_SOURCE) && d == SourceTermScore(o)
    ensures d <= 2
    ensures d > 0 ==> ProvenanceScore(g) == 2
    ensures forall o :: Objects(g, r, DCTERMS_SOURCE) == {o} ==> d == SourceTermScore(o)
  {
    if Objects(g, r, DCTERMS_SOURCE) == {} {
      return 0;
    }
    var source :| source in Objects(g, r, DCTERMS_SOURCE);
    d := SourceTermScore(source);
    var t :| t in g && t.s == r && t.p == DCTERMS_SOURCE && t.o == source;
    assert t.p == DCTERMS_SOURCE;
  }

  /**
   * `searchable_score`: 1 when any predicate of the whole graph is a
   * searchable property, else 0. The table of searchable properties is a
   * parameter: reference_data/reference.py does not define it.
   */
  function SearchableScore(g: Graph, searchable: set<string>): (v: nat)
    ensures v <= 1
    ensures v == 1 <==> exists t :: t in g && t.p in searchable
  {
    if exists p :: p in Predicates(g) && p in searchable then 1 else 0
  }
}
