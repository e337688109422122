/** The constant tables of reference_data/reference.py that the sub-scores read. */
module Reference {
  import opened Rdf

  /** Properties whose objects name a media type or a file format. */
  const FormatProperties: seq<string> := [DCTERMS_FORMAT, DCAT_MEDIA_TYPE]

  /**
   * Machine-readable file extensions and their mime types, in the order the
   * dictionary literal lists them. The scorers only ask whether a string is
   * one of its keys or one of its values.
   */
  const FormatsToMimeTypes: seq<(string, string)> := [
    ("json", "application/json"),
    ("xml", "application/xml"),
    ("csv", "text/csv"),
    ("tsv", "text/tab-separated-values"),
    ("yaml", "application/x-yaml"),
    ("yml", "application/x-yaml"),
    ("rdf", "application/rdf+xml"),
    ("ttl", "text/turtle"),
    ("jsonld", "application/ld+json"),
    ("geojson", "application/geo+json"),
    ("gml", "application/gml+xml"),
    ("kml", "application/vnd.google-earth.kml+xml"),
    ("xlsx", "application/vnd.openxmlformats-officedocument.spreadsheetml.sheet"),
    ("xls", "application/vnd.ms-excel"),
    ("ods", "application/vnd.oasis.opendocument.spreadsheet")
  ]

  /** `machine_readable_formats_to_mime_types.keys()` */
  function FileExtensions(): set<string>
  {
    set i | 0 <= i < |FormatsToMimeTypes| :: FormatsToMimeTypes[i].0
  }

  /** `machine_readable_formats_to_mime_types.values()` */
  function MimeTypes(): set<string>
  {
    set i | 0 <= i < |FormatsToMimeTypes| :: FormatsToMimeTypes[i].1
  }

  /** Properties whose objects are expected to be IRIs of shared vocabularies. */
  const UriExpectedProperties: seq<string> := [
    DCTERMS_FORMAT,
    DCTERMS_TYPE,
    DCTERMS_LICENSE,
    DCTERMS_PUBLISHER,
    DCTERMS_CREATOR,
    DCTERMS_CONTRIBUTOR,
    DCTERMS_ACCESS_RIGHTS,
    PROV_AGENT,
    PROV_HAD_ROLE,
    DCAT_HAD_ROLE,
    DCAT_THEME,
    RDFS_MEMBER
  ]

  /** Properties that declare a data usage licence. */
  const LicenseProperties: seq<string> := [DCTERMS_LICENSE]

  /** Provenance properties outside the PROV namespace. */
  const AdditionalProvenanceProperties: seq<string> := [DCTERMS_SOURCE]

  /** The format/media-type properties are dcterms:format and dcat:mediaType and nothing else. */
  lemma FormatPropertiesExact(p: string)
    ensures p in FormatProperties <==> p == DCTERMS_FORMAT || p == DCAT_MEDIA_TYPE
  {
  }

  /** The elements of a sequence with no repeats are as many as its length. */
  lemma {:induction false} DistinctCard(s: seq<string>)
    requires forall i, j :: 0 <= i < j < |s| ==> s[i] != s[j]
    ensures |set i | 0 <= i < |s| :: s[i]| == |s|
  {
    if |s| > 0 {
      var init := s[..|s| - 1];
      DistinctCard(init);
      var a := set i | 0 <= i < |init| :: init[i];
      var b := set i | 0 <= i < |s| :: s[i];
      assert b == a + {s[|s| - 1]};
      assert s[|s| - 1] !in a;
    }
  }

  /**
   * The extensions in table order. The dictionary literal repeats no key, so
   * the list has no repeats and holds exactly the dictionary's keys.
   */
  function ExtensionList(): (keys: seq<string>)
    ensures forall i, j :: 0 <= i < j < |keys| ==> keys[i] != keys[j]
    ensures (set i | 0 <= i < |keys| :: keys[i]) == FileExtensions()
    ensures |keys| == 15
  {
    var keys := seq(|FormatsToMimeTypes|, i requires 0 <= i < |FormatsToMimeTypes| => FormatsToMimeTypes[i].0);
    assert forall i :: 0 <= i < |keys| ==> keys[i] == FormatsToMimeTypes[i].0;
    assert forall k :: k in FileExtensions() ==> exists i :: 0 <= i < |keys| && keys[i] == k;
    keys
  }

  /**
   * Fifteen distinct extensions, none of which is also a mime type, so a
   * format string never scores as both.
   */
  lemma FormatTableShape()
    ensures |FileExtensions()| == 15
    ensures FileExtensions() !! MimeTypes()
  {
    DistinctCard(ExtensionList());
    forall i, j | 0 <= i < |FormatsToMimeTypes| && 0 <= j < |FormatsToMimeTypes|
      ensures FormatsToMimeTypes[i].0 != FormatsToMimeTypes[j].1
    {
      assert |FormatsToMimeTypes[i].0| < 8 <= |FormatsToMimeTypes[j].1|;
    }
  }

  /** Two extensions share a mime type: the table is not injective. */
  lemma FormatTableNotInjective()
    ensures FormatsToMimeTypes[4] == ("yaml", "application/x-yaml")
    ensures FormatsToMimeTypes[5] == ("yml", "application/x-yaml")
  {
  }

  /**
   * Twelve distinct properties, dcterms:license and dcat:theme among them, so a
   * licence IRI counts both for licensing and for shared vocabularies.
   */
  lemma UriExpectedPropertiesShape()
    ensures |UriExpectedProperties| == 12
    ensures forall i, j :: 0 <= i < j < 12 ==> UriExpectedProperties[i] != UriExpectedProperties[j]
    ensures DCTERMS_LICENSE in UriExpectedProperties && DCAT_THEME in UriExpectedProperties
    ensures forall p :: p in LicenseProperties ==> p in UriExpectedProperties
  {
  }

  /** The licence and additional provenance lists hold exactly one property each. */
  lemma SingletonPropertyLists()
    ensures LicenseProperties == [DCTERMS_LICENSE]
    ensures AdditionalProvenanceProperties == [DCTERMS_SOURCE]
  {
  }
}
