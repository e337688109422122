# scores-calculator: a verified model of the FAIR and CARE scoring engine

The scores calculator reads RDF metadata about catalogued resources and
scores every `dcat:Resource` in it. It gives four FAIR dimension scores (F,
A, I, R) and four CARE dimension scores (C, A, R, E). Each score is written
back as RDF: one Score node per resource (a `qb:ObservationGroup` of class
`scores:FairScore` or `scores:careScore`) and one `qb:Observation` per
dimension.

This Dafny project models the scoring core:

- `wrappers.dfy` (`Wrappers`): `Option` and `Result`.
- `pystrings.dfy` (`PyStrings`): the Python string operations the core
  relies on. These are `in` on strings, `str.endswith`, `str.startswith`,
  `pathlib.Path.name` and `.suffix`, and `str(int)`.
- `rdf.dfy` (`Rdf`): an RDF graph is a finite set of triples. A term is an
  IRI, a literal (lexical form and optional datatype) or a blank node with a
  numeric id. The module holds the IRI constants, the rdflib queries as set
  comprehensions, "the last object the store yields" as a method, and a
  `Store` class for the graph that forward chaining updates in place.
- `http.dfy` (`Http`): what an HTTP GET of a catalogue IRI comes to.
- `reference.dfy` (`Reference`): the constant tables of
  `reference_data/reference.py` and their shape.
- `scores_vocab.dfy` (`ScoresVocab`): the Scores vocabulary of
  `calculators/_SCORES.py`.
- `parser.dfy` (`Parser`): DCAT forward chaining (in place, on a `Store`),
  the Observation and ObservationGroup builders, and the output-path rules.
- `functions.dfy` (`Functions`): the sub-score helpers (machine readability,
  shared vocabularies, licensing, provenance, data source, searchability).
- `fair.py` is modelled in `fair.dfy` (`Fair`): the F, A, I and R scorers as
  methods that accumulate like the source, the FAIR Score of one resource,
  the loop over all resources, and the output routing of `main`.
- `care.py` is modelled in `care.dfy` (`Care`): the C1 checks, C2, the stub
  A/R/E dimensions, and the CARE composition. It models both the code as
  written (which always raises) and the corrected C dimension.

Fresh blank nodes come from an explicit counter. A builder that mints nodes
takes `next`, uses `BNode(next)`, `BNode(next + 1)`, ... in the source's
order, and returns the next free id. An HTTP fetch is an oracle function
from IRI to `Success`, `Failure` (a non-success status) or `HttpError` (an
exception raised by the client). Where the source takes "whichever object
the store yields last or first", the method picks with `:|`, and its
contract holds for every choice.

## Model

| member | source | states |
|---|---|---|
| PyStrings.Contains | calculators/fair.py:96-99 | Python's `needle in hay` is true exactly when the needle occurs at some index of the text |
| PyStrings.PathName | calculators/parser.py:109 | `Path.name` holds no `/` and is a tail of the path |
| PyStrings.PathNameAfterLastSlash | calculators/parser.py:109 | that tail is the whole text after the last `/`: it is the entire path or is preceded by a `/` |
| PyStrings.SuffixOfEnding | calculators/parser.py:103 | for a path ending in a one-dot suffix such as `.ttl`, the name also ends in it, and `Path.suffix` is that suffix when the name is longer than it and empty when the name is the suffix itself |
| PyStrings.ParseNatToString | calculators/fair.py:168 | the decimal text of a non-negative integer reads back as the same integer |
| Rdf.IntLiteralRoundTrip | calculators/fair.py:168 | `Literal(n)` of a score reads back as `n` |
| Rdf.LastObject | calculators/fair.py:144-146 | the object kept by the overwrite loop is absent exactly when the subject has no such object, and otherwise is one of its objects |
| Reference.FormatPropertiesExact | reference_data/reference.py:4 | the format properties are exactly `dcterms:format` and `dcat:mediaType` |
| Reference.ExtensionList | reference_data/reference.py:8-24 | the dictionary literal repeats no key: the 15 extensions, listed in table order, are pairwise distinct and are exactly the dictionary's keys |
| Reference.FormatTableShape | reference_data/reference.py:8-24 | the extension table has 15 distinct keys and no key is also a mime value |
| Reference.FormatTableNotInjective | reference_data/reference.py:13-14 | `yaml` and `yml` map to the same mime type |
| Reference.UriExpectedPropertiesShape | reference_data/reference.py:27-40 | 12 distinct URI-expected properties, including `dcterms:license` and `dcat:theme`, so every license property also counts for shared vocabularies |
| Reference.SingletonPropertyLists | reference_data/reference.py:43-46 | the license properties are exactly `[dcterms:license]` and the extra provenance properties exactly `[dcterms:source]` |
| ScoresVocab.CareScoreUndeclared | calculators/_SCORES.py:5-46 | the IRI `scores:careScore` used for the CARE group is none of the declared classes, properties or measures |
| Parser.ForwardChainDcat | calculators/parser.py:134-145 | the store afterwards holds exactly the closure `ForwardChain` of the old store |
| Parser.AddResourceTypings | calculators/parser.py:138-139 | the first loop adds `s rdf:type dcat:Resource` for each dataset `s` and nothing else |
| Parser.AddInverses | calculators/parser.py:141-145 | each of the part-of loops adds the inverse of every statement with its predicate and nothing else |
| Parser.ForwardChainExtends | calculators/parser.py:134-145 | forward chaining removes no statement |
| Parser.ForwardChainAddsOnly | calculators/parser.py:134-145 | every added statement is a `dcat:Resource` typing, a `hasPart` or an `isPartOf` |
| Parser.DatasetTypingsPreserved | calculators/parser.py:138-139 | forward chaining types nothing new as `dcat:Dataset` |
| Parser.DatasetsAreResources | calculators/parser.py:138-139 | afterwards every `dcat:Dataset` is a `dcat:Resource` |
| Parser.PartOfSymmetric | calculators/parser.py:141-145 | afterwards `s isPartOf o` holds exactly when `o hasPart s` holds |
| Parser.ForwardChainIdempotent | calculators/parser.py:134-145 | running forward chaining a second time adds nothing |
| Parser.CreateObservation | calculators/parser.py:196-214 | the Observation is the fresh node `BNode(next)` and one id is used |
| Parser.ObservationShape | calculators/parser.py:207-214 | exactly three statements: the node typed `qb:Observation`, linked from its container, carrying the value under the measure; the node appears in no earlier statement |
| Parser.ValidityInterval | calculators/parser.py:176-191 | without dates no statement is added and no id is used |
| Parser.CreateObservationGroup | calculators/parser.py:153-193 | the Score is `BNode(next)`; without dates its graph is the five core statements and one id is used |
| Parser.GroupWithoutDates | calculators/parser.py:167-174 | without dates exactly five statements: the resource typed `dcat:Resource` pointing to the Score, and the Score typed with its class and `qb:ObservationGroup` pointing back |
| Parser.GroupTimeLinks | calculators/parser.py:176-180 | a `refTime` link appears exactly when a beginning or an end is given |
| Parser.GroupInstantLinks | calculators/parser.py:182-191 | `time:hasBeginning` appears exactly when a beginning is given and `time:hasEnd` exactly when an end is given |
| Parser.GroupIntervalLink | calculators/parser.py:176-180 | a dated Score links to exactly one interval, the next fresh node, typed `time:ProperInterval` |
| Parser.IntervalLink | calculators/parser.py:177-180 | within the interval statements the Score's only `refTime` is the interval node |
| Parser.SuffixKeysExact | calculators/parser.py:38-43 | the output suffixes are exactly `.ttl`, `.rdf`, `.json-ld`, `.nt` |
| Parser.MediaTypeOfTable | calculators/parser.py:38-43 | a suffix has a media type exactly when it is a key, and it is that key's entry |
| Parser.OutputIsFormat | calculators/parser.py:78-84 | true exactly for the four suffix keys and `"graph"` |
| Parser.GetValidOutputFileAndType | calculators/parser.py:98-109 | accepts exactly when the path's suffix is a known file type, returning the file name and the suffix's media type; otherwise the unknown-file-type error |
| Parser.KnownFileTypeForm | calculators/parser.py:102 | each known file type is a dot followed by at least one character, with no further dot or `/` |
| Parser.KnownSuffixAccepted | calculators/parser.py:98-109 | a path ending in a known type is accepted with that type's media type when its name is longer than the suffix, and rejected when the name is only the suffix (a dot-file) |
| Functions.MachineReadabilityScore | calculators/functions.py:16-39 | the early-return loop computes the order-free specification `MachineReadability` |
| Functions.MachineReadabilityCases | calculators/functions.py:25-39 | the score is at most 2; 2 exactly when some format string is a known mime type; 1 exactly when none is but some is a known extension |
| Functions.ExtensionAloneScoresOne | calculators/functions.py:32-38 | a lone extension such as `csv` under either format property scores 1 |
| Functions.SharedVocabsOntologies | calculators/functions.py:42-63 | at most 2; positive only when URIs outnumber literals; 2 exactly when there is a URI and no literal; 1 exactly when there are literals and URIs outnumber them |
| Functions.BlankObjectsNeutral | calculators/functions.py:45-55 | adding a blank-node object does not change the score (it counts as neither URI nor literal) |
| Functions.UriObjectMonotone | calculators/functions.py:42-63 | adding a new URI object under a URI-expected property never lowers the score |
| Functions.LicensingScore | calculators/functions.py:66-81 | 0 or 2, and 2 exactly when the resource has a `dcterms:license` statement, URI or literal |
| Functions.ProvenanceScore | calculators/functions.py:84-96 | 0 or 2, and 2 exactly when some statement anywhere in the graph has a PROV predicate or `dcterms:source` |
| Functions.ProvenanceMonotone | calculators/functions.py:84-96 | a larger graph never has a lower provenance score |
| Functions.SourceTermScore | calculators/functions.py:109-115 | 2 exactly for a non-empty IRI, 1 exactly for a non-empty `xsd:anyURI` literal, otherwise 0 |
| Functions.DataSourceScore | calculators/functions.py:99-115 | 0 without a `dcterms:source`; otherwise the term score of one of the sources, and with a single source exactly its term score; at most 2; positive only when provenance scores 2 |
| Functions.SearchableScore | calculators/functions.py:118-123 | 0 or 1, and 1 exactly when some predicate anywhere in the graph is searchable |
| Fair.RichnessAward | calculators/fair.py:129-134 | the richness tier is the count up to 2 and 3 for three or more |
| Fair.ScanPid | calculators/fair.py:96-99 | the indicator loop with `break` adds 5 exactly when some indicator occurs in the IRI, and only once |
| Fair.CountRichness | calculators/fair.py:119-128 | the if/elif loop counts the richness statements themselves, not distinct properties |
| Fair.RichnessStep | calculators/fair.py:120-128 | visiting one statement about the resource adds one to the count exactly when its predicate is one of the four |
| Fair.CalculateF | calculators/fair.py:67-168 | F is the fixed part plus the catalogue bonus of the last catalogue (0 without one, 4 on a successful fetch, else 2, and an HTTP error is swallowed); 5 ≤ F ≤ 17; the F Observation carries it |
| Fair.FullFindability | calculators/fair.py:84-164 | a PID resource with three richness statements and a reachable catalogue scores 17 |
| Fair.CatalogueWithoutFetch | calculators/fair.py:144-166 | the bonus is 0 exactly without `isPartOf`, and is at most 2 when no catalogue answers |
| Fair.ThemeAward | calculators/fair.py:195-205 | each theme earns 0, 2, 4, 6 or 10, and 10 exactly for `open` |
| Fair.AccessAwardStep | calculators/fair.py:191-205 | adding a new theme adds exactly its own award |
| Fair.CalculateA | calculators/fair.py:171-218 | A is the sum of the awards of the distinct themes, at most 22; the A Observation carries it |
| Fair.OpenAccessScores | calculators/fair.py:204-205 | a lone `open` theme gives 10, and `open` with `embargoed` gives 16 |
| Fair.InteropRange | calculators/fair.py:262-278 | I is 2, 5, 6, 7 or 8, and 2 exactly when both helpers score 0 |
| Fair.CalculateI | calculators/fair.py:221-280 | I is `mr + 2 + sv` plus 2 when `mr + sv ≥ 1`; the I Observation carries it |
| Fair.LicenseIriOnly | calculators/functions.py:42-81 | a lone license IRI scores shared vocabularies 2 and machine readability 0 |
| Fair.LicenseIriAndLiteral | calculators/functions.py:42-81 | a license IRI plus a license literal scores shared vocabularies 0 |
| Fair.LicenseLiteralLowersInterop | calculators/fair.py:262-278 | adding a license literal keeps licensing at 2 but lowers I from 6 to 2 |
| Fair.CalculateR | calculators/fair.py:283-325 | R is licensing plus provenance plus the score of one data source; 0 ≤ R ≤ 6 and R ≠ 1 |
| Fair.CalculateFair | calculators/fair.py:328-340 | the output is one FairScore group and its four observations on five fresh nodes; F is the resource's base plus one of its catalogue bonuses, A its access award, I its interoperability value, R its licensing plus provenance plus one of its data-source scores, all in range |
| Fair.FairFragmentScores | calculators/fair.py:328-340 | the fragment scores exactly its resource, with the single Score `BNode(next)` |
| Fair.FairFragmentObservations | calculators/fair.py:332-338 | the Score is typed FairScore and holds exactly four observations, the next four nodes |
| Fair.FairFragmentValues | calculators/fair.py:335-338 | each observation carries its dimension's value under that dimension's measure |
| Fair.AddFairScore | calculators/fair.py:347-348 | one loop step adds exactly the resource's FAIR fragment, carrying the resource's own dimension scores; the resource gets its single new Score and the other resources keep theirs |
| Fair.CalculateFairPerResource | calculators/fair.py:343-350 | the scored resources are exactly the `dcat:Resource` subjects; each has exactly one Score, a FairScore group whose F, A, I and R observations carry that resource's own scores; five ids are used per resource |
| Fair.FreshScoreAdded | calculators/fair.py:347-348 | the union with a fragment for an unscored resource adds just that resource's Score |
| Fair.Route | calculators/fair.py:419-457 | print when the output is one of the four media types (Turtle printed as long Turtle); write a file when it is not and ends in a known suffix; otherwise return the graph |
| Fair.GraphRoutesToGraph | calculators/fair.py:455-457 | the output `"graph"` returns the graph |
| Fair.FileRouteAccepted | calculators/fair.py:447-454 | every output routed to a file ends in a known suffix, and is accepted by the file-type check with that suffix's media type when its name is longer than the suffix |
| Care.DiscoverAward | calculators/care.py:104-111 | a successful fetch gives 1, a non-success status 0, and a raised error escapes as an error for that URL |
| Care.CalculateC1Discoverable | calculators/care.py:90-111 | 0 without `isPartOf`; otherwise the fetch outcome of one catalogue; 1 only when some catalogue answers; an error only from a catalogue whose fetch raised |
| Care.CalculateC1Searchable | calculators/care.py:114-116 | 0 or 1, 1 exactly when some predicate anywhere in the graph is searchable; the resource plays no part |
| Care.CalculateC1Accessible | calculators/care.py:139-143 | 0 or 1, 1 exactly when the resource has a `dcterms:accessRights` object that Python treats as true |
| Care.CalculateCareC1 | calculators/care.py:71-87 | C1 is the discoverable outcome plus searchable plus accessible, at most 3; it fails only when discovery fails |
| Care.CalculateCareC2 | calculators/care.py:119-136 | the call evaluates to None, whatever C1 is |
| Care.AddPy | calculators/care.py:66 | `acc += x` succeeds exactly for an integer `x`, and adding None is a TypeError |
| Care.CalculateCareC | calculators/care.py:61-68 | C always fails: with the fetch's error when discovery raised, and otherwise with the TypeError |
| Care.CalculateCareA | calculators/care.py:146-149 | one Observation in the container carrying 0 under `careAScore` |
| Care.CalculateCareR | calculators/care.py:152-155 | one Observation in the container carrying 0 under `careRScore` |
| Care.CalculateCareE | calculators/care.py:158-161 | one Observation in the container carrying 0 under `careEScore` |
| Care.CalculateCare | calculators/care.py:164-176 | `calculate_care` always fails, with the TypeError unless a catalogue fetch raised |
| Care.CalculateCarePerResource | calculators/care.py:179-186 | succeeds exactly when there is no `dcat:Resource`, and then returns the empty graph; otherwise fails with the error of some resource |
| Care.CareC2Intended | calculators/care.py:134-136 | corrected C2: 1 exactly when C1 exceeds 2, else 0 |
| Care.CalculateCareCCorrected | calculators/care.py:61-68 | corrected C is the resource's C1 (one of its discovery outcomes plus its searchable and accessible checks) plus the C2 gate on that C1, at most 4, and its Observation carries it; only a raising fetch fails |
| Care.DiscoverableError | calculators/care.py:104-110 | a failed discovery names a catalogue whose fetch raised |
| Care.CalculateCareCorrected | calculators/care.py:164-176 | with the corrected C: the group and the C, A, R, E observations on five fresh nodes, where C is the resource's C1 plus the C2 gate, at most 4 |
| Care.CareC2AtFullC1 | calculators/care.py:134-136 | with the return restored, C2 for a C1 of 3 is 1, not the 3 that tests/test_care.py:40-42 expects |
| Care.CareFragmentScores | calculators/care.py:164-176 | the corrected CARE fragment scores exactly its resource, with the single Score carrying the C value |
| Care.CareFragmentObservations | calculators/care.py:164-176 | the corrected CARE Score holds exactly the C, A, R and E observations on the next four nodes, with A, R and E carrying 0 under their measures |

`main` in `calculators/care.py:221-257` routes its output exactly as
`calculators/fair.py:421-457` does, so `Fair.Route` covers both.

## Left out

- HTTP: `httpx.get` is an oracle from IRI to success, failure status or raised `httpx.HTTPError`. Other exceptions (for example `httpx.InvalidURL`, which is not an `HTTPError`) are not modelled, and neither are request headers or redirects.
- RDF parsing and serialisation, SHACL validation, printing and file writes in both `main`s are foreign library calls and I/O. Only the routing decision is modelled (`Fair.Route`). The case where `main` is passed `output=None` is not modelled.
- Fair.Route: the `application/ld+json` JSON-LD context and the other serialisation options are not modelled. Only the choice of route and format is.
- `normalise_fair_scores` (calculators/fair.py:353-380) uses float division and two-decimal formatting. It takes the first raw value anywhere in the graph rather than the resource's own, and it adds to the graph while iterating over it. Its F divisor 17 is the F maximum, which is reached (`Fair.FullFindability`). Its I divisor 8 equals the proved I upper bound (`Fair.InteropRange`). Its A divisor 10 is below the proved A upper bound 22 (`Fair.CalculateA`), and its R divisor 7 is above the proved R upper bound 6 (`Fair.CalculateR`). That 8, 22 and 6 are actually reached is not proved here.
- CLI and filesystem code is not part of this model. This covers `_create_parser`, `_get_valid_output_dir`, `_load_input_graph`, `_input_is_a_file`, `_bind_extra_prefixes`, `calculators/__main__.py`, `calculators/idg.py` and `process_directory.py`, which passes `file_path` rather than the merged graph to the FAIR `main`.
- Namespace prefix bindings affect only serialisation and are not modelled.
- Blank-node labels: rdflib's random `BNode()` identities become consecutive ids from a counter. `str()` of a blank node is modelled as `N` followed by its id.
- `searchable_properties` is imported by `calculators/functions.py` but not defined in `reference_data/reference.py`, so as shipped, importing `calculators/functions.py`, and with it `calculators/fair.py` and `calculators/care.py`, raises an ImportError before any score is computed. The model assumes the import succeeds: the searchable set is a parameter of `Functions.SearchableScore` and of the CARE searchable check.
- Functions.ProvenanceScore: `p in PROV` is modelled as "the IRI starts with the PROV namespace". rdflib's closed PROV namespace also checks the term list, so a made-up `prov:` IRI counts here but may not in rdflib.
- Python truth of literals: `Rdf.Truthy` treats a literal as false exactly when its lexical form is empty. rdflib also treats typed literals whose value is falsy, such as `"0"^^xsd:integer` or `"false"^^xsd:boolean`, as false. This affects only `Care.CalculateC1Accessible`, the one user of `Truthy`, and only for such literals.
- Path handling: `Path(output)` normalisation (such as trailing `/` or `.` components) is not modelled. `PathName` and `PathSuffix` follow the final `/`-separated component.
- `Care.CalculateCarePerResource`: the resource loop is modelled as its one reachable iteration, because the first resource visited always raises.
- The corrected CARE path is modelled for one resource (`Care.CalculateCareCorrected`), not for the loop over all resources. That loop would have the same shape as `Fair.CalculateFairPerResource`.
- The CARE group class is kept as the undeclared `scores:careScore`, as called, in both the as-written and the corrected paths (`ScoresVocab.CareScoreUndeclared`).
- `tests/test_care.py` calls functions that care.py does not define (`calculate_a11_notices`, `calculate_care_c3`, `calculate_r1`, ...). They belong to another revision and are not modelled.
- C2's documented checks: the docstring at calculators/care.py:129-132 lists three +1 items behind the C1 > 2 gate (catalogue discoverable, title exists, description exists), and tests/test_care.py:40-42 expects C2 = 3 for C1 = 3. The source implements none of the three checks, so they are not modelled; the expected 3 is unreachable both as written (None) and with the return restored (at most 1, `Care.CareC2AtFullC1`).
- Fresh blank nodes are numbered from `next` without a requirement that `g` uses no id at or above it, so a blank-node resource of `g` could share an id with a minted node; rdflib's `BNode()` never collides. The contracts of `Fair.CalculateFair`, `Fair.CalculateFairPerResource` and the CARE builders hold regardless, but with such a collision the output graph has a shape the program cannot produce.
- Language tags: a literal is its lexical form and an optional datatype, with no language tag. In rdflib `"x"@en` and `"x"@de` are two objects, and `shared_vocabs_ontologies` counts both (calculators/functions.py:43-55). The model cannot hold both statements, so `Functions.LiteralCount`, and with it `Functions.SharedVocabsOntologies`, counts such a pair once.
- Facts about the code that a reader may not expect:
  - F reaches 17 = 3 + 5 + 1 + 1 + 3 + 4 for a persistent identifier, three or more richness statements and a reachable catalogue (`Fair.FullFindability`).
  - Adding a statement can lower a score: a license literal added next to a license IRI lowers I from 6 to 2 (`Fair.LicenseLiteralLowersInterop`).
  - Both branches of the I bonus add 2, although the comment at calculators/fair.py:272-273 describes +2 and +1 (`Fair.CalculateI` follows the code).

## Findings

| source | as written | input that shows it | evidently intended | confidence | as-written member | corrected member |
|---|---|---|---|---|---|---|
| calculators/care.py:134-136 | `calculate_care_c2` computes `c2_value` but has no `return`, so it yields None. `c_value += None` at care.py:66 then raises a TypeError, so no CARE score is ever produced. | any graph with one `dcat:Resource` and no `dcterms:isPartOf`; `calculate_care_per_resource` raises instead of returning a Score | restores the missing `return` only: `return c2_value`, so C = C1 + (1 if C1 > 2 else 0), at most 4 | not executed; high | Care.CalculateCareC | Care.CalculateCareCCorrected |
