/**
  The GCS-backed ontology loader: construction from an explicit bucket name
  or the environment, validation of a decoded ontology document, loading
  with a fall-back to the built-in mortgage ontology, and listing the
  ontology names stored in the bucket. The storage client is replaced by
  two functions over bucket and blob names: one gives the outcome of
  downloading and decoding a blob, the other the outcome of listing a
  bucket.
*/
module Loader {
  import opened PyValues

  const DefaultBucket: string := "aare-ai-ontologies"
  const BucketVariable: string := "ONTOLOGY_BUCKET"
  const DefaultOntologyName: string := "mortgage-compliance-v1"
  const JsonSuffix: string := ".json"

  /** The keys every ontology must have, in the order they are checked. */
  const RequiredFields: seq<string> := ["name", "version", "constraints", "extractors"]

  /** Downloading `blob` from the bucket and decoding it as JSON. */
  datatype Fetched =
    | NotFound                 // google.cloud.exceptions.NotFound
    | Failed(reason: string)   // any other exception, including a JSON decoding error
    | Document(doc: Value)     // the decoded document

  /** Listing the blobs of the bucket. */
  datatype Listing =
    | ListFailed(reason: string)
    | Listed(blobNames: seq<string>)

  /** The exception `_validate_ontology` raises for a missing field. */
  function MissingField(field: string): Exc {
    Exc("ValueError", "Invalid ontology: missing " + field)
  }

  /** The exception the corrected validation raises for a document that is not an object. */
  function NotAnObject(doc: Value): Exc {
    Exc("ValueError", "Invalid ontology: expected an object, got " + TypeName(doc))
  }

  /** What the field loop raises for `field`: the error of the `in` test itself, or a missing field. */
  function FieldError(doc: Value, field: string): Exc {
    match Contains(doc, field)
    case Raise(e) => e
    case Ok(_) => MissingField(field)
  }

  /** The first `n` required fields pass the `in` test of `_validate_ontology`. */
  ghost predicate PassesFirst(doc: Value, n: nat)
    requires n <= |RequiredFields|
  {
    forall j :: 0 <= j < n ==> Contains(doc, RequiredFields[j]) == Ok(true)
  }

  /** Every required field passes the `in` test, whatever kind of value `doc` is. */
  ghost predicate HasRequiredFields(doc: Value) {
    PassesFirst(doc, |RequiredFields|)
  }

  /** `k` is the first required field whose `in` test does not answer True. */
  ghost predicate FirstFailureAt(doc: Value, k: int) {
    0 <= k < |RequiredFields| && PassesFirst(doc, k) && Contains(doc, RequiredFields[k]) != Ok(true)
  }

  /** A well-formed ontology: an object holding every required key. */
  ghost predicate IsOntology(doc: Value) {
    doc.Obj? && forall j :: 0 <= j < |RequiredFields| ==> RequiredFields[j] in doc.fields
  }

  /** `k` is the first required key missing from the object `m`. */
  ghost predicate FirstMissingKey(m: map<string, Value>, k: int) {
    0 <= k < |RequiredFields|
    && (forall j :: 0 <= j < k ==> RequiredFields[j] in m)
    && RequiredFields[k] !in m
  }

  /**
    `_validate_ontology` as written: for each required field in order, raise
    on the first one that `field in ontology` does not find; the `in` test
    itself raises TypeError on a scalar. On success the argument is returned
    unchanged.
  */
  method ValidateOntologyAsWritten(doc: Value) returns (r: Result<Value>)
    ensures r.Ok? <==> HasRequiredFields(doc)
    ensures r.Ok? ==> r.value == doc
    ensures r.Raise? ==> exists k :: 0 <= k < |RequiredFields| && FirstFailureAt(doc, k) && r.exc == FieldError(doc, RequiredFields[k])
  {
    var i := 0;
    while i < |RequiredFields|
      invariant 0 <= i <= |RequiredFields|
      invariant PassesFirst(doc, i)
    {
      var field := RequiredFields[i];
      var present := Contains(doc, field);
      if present.Raise? || !present.value {
        assert FirstFailureAt(doc, i);
        r := Raise(FieldError(doc, field));
        return;
      }
      i := i + 1;
    }
    r := Ok(doc);
  }

  /**
    A JSON list that holds the four field names is accepted as written,
    although it is not an ontology object.
  */
  lemma AsWrittenAcceptsFieldList()
    ensures var doc := Arr([Str("name"), Str("version"), Str("constraints"), Str("extractors")]);
            HasRequiredFields(doc) && !IsOntology(doc)
  {
  }

  /**
    The validation with the object check the field loop presupposes: a
    document that is not an object is refused, an object passes exactly when
    it holds every required key, and the error names the first missing one.
  */
  method ValidateOntology(doc: Value) returns (r: Result<Value>)
    ensures r.Ok? <==> IsOntology(doc)
    ensures r.Ok? ==> r.value == doc
    ensures !doc.Obj? ==> r == Raise(NotAnObject(doc))
    ensures doc.Obj? && r.Raise? ==>
              exists k :: 0 <= k < |RequiredFields| && FirstMissingKey(doc.fields, k) && r.exc == MissingField(RequiredFields[k])
  {
    if !doc.Obj? {
      r := Raise(NotAnObject(doc));
    } else {
      r := ValidateOntologyAsWritten(doc);
      if r.Raise? {
        ghost var k :| 0 <= k < |RequiredFields| && FirstFailureAt(doc, k) && r.exc == FieldError(doc, RequiredFields[k]);
        assert FirstMissingKey(doc.fields, k);
      }
    }
  }

  // ---------------------------------------------------------------------
  // The built-in ontology
  // ---------------------------------------------------------------------

  function Variable(name: string, kind: string): Value {
    Obj(map["name" := Str(name), "type" := Str(kind)])
  }

  function Rule(id: string, category: string, description: string, readable: string,
                variables: seq<Value>, message: string, citation: string): Value
  {
    Obj(map[
      "category" := Str(category),
      "description" := Str(description),
      "formula_readable" := Str(readable),
      "variables" := Arr(variables),
      "error_message" := Str(message),
      "citation" := Str(citation),
      "id" := Str(id)])
  }

  /** An extractor driven by a regular expression, kept as an opaque string. */
  function PatternExtractor(kind: string, pattern: string): Value {
    Obj(map["type" := Str(kind), "pattern" := Str(pattern)])
  }

  /** An extractor driven by a keyword list. */
  function KeywordExtractor(kind: string, keywords: seq<Value>): Value {
    Obj(map["type" := Str(kind), "keywords" := Arr(keywords)])
  }

  /** The five constraints of the default ontology, in their fixed order. */
  function DefaultConstraints(): seq<Value> {
    [AtrQmDti(), HoepaHighCost(), UdaapNoGuarantees(), HpmlEscrow(), RegBAdverse()]
  }

  function AtrQmDti(): Value {
    Rule("ATR_QM_DTI", "ATR/QM", "Debt-to-income ratio requirements",
         "(dti \U{2264} 43) \U{2228} (compensating_factors \U{2265} 2)",
         [Variable("dti", "real"), Variable("compensating_factors", "int")],
         "DTI exceeds 43% without sufficient compensating factors",
         "12 CFR \U{00A7} 1026.43(c)")
  }

  function HoepaHighCost(): Value {
    Rule("HOEPA_HIGH_COST", "HOEPA", "High-cost mortgage counseling requirement",
         "(fee_percentage < 8) \U{2228} counseling_disclosed",
         [Variable("fee_percentage", "real"), Variable("counseling_disclosed", "bool")],
         "HOEPA triggered - counseling disclosure required",
         "12 CFR \U{00A7} 1026.32")
  }

  function UdaapNoGuarantees(): Value {
    Rule("UDAAP_NO_GUARANTEES", "UDAAP", "Prohibition on guarantee language",
         "\U{00AC}(has_guarantee \U{2227} has_approval)",
         [Variable("has_guarantee", "bool"), Variable("has_approval", "bool")],
         "Cannot guarantee approval",
         "12 CFR \U{00A7} 1036.3")
  }

  function HpmlEscrow(): Value {
    Rule("HPML_ESCROW", "Escrow", "Escrow requirements based on FICO",
         "(credit_score \U{2265} 620) \U{2228} \U{00AC}escrow_waived",
         [Variable("credit_score", "int"), Variable("escrow_waived", "bool")],
         "Cannot waive escrow with FICO < 620",
         "12 CFR \U{00A7} 1026.35(b)")
  }

  function RegBAdverse(): Value {
    Rule("REG_B_ADVERSE", "Regulation B", "Adverse action disclosure requirements",
         "is_denial \U{2192} has_specific_reason",
         [Variable("is_denial", "bool"), Variable("has_specific_reason", "bool")],
         "Must disclose specific denial reason",
         "12 CFR \U{00A7} 1002.9")
  }

  /** The extractor table of the default ontology, keyed by variable name. */
  function DefaultExtractors(): map<string, Value> {
    map[
      "dti" := PatternExtractor("float", "dti[:\\s~]*(\\d+(?:\\.\\d+)?)"),
      "credit_score" := PatternExtractor("int", "(?:fico|credit score)[:\\s]*(\\d{3})"),
      "fees" := PatternExtractor("money", "\\$?([\\d,]+)k?\\s*(?:fees?|costs?)"),
      "loan_amount" := PatternExtractor("money", "\\$?([\\d,]+)k?\\s*(?:loan|mortgage)"),
      "has_guarantee" := KeywordExtractor("boolean", [Str("guaranteed"), Str("100%"), Str("definitely")]),
      "has_approval" := KeywordExtractor("boolean", [Str("approved"), Str("approve")]),
      "counseling_disclosed" := KeywordExtractor("boolean", [Str("counseling")]),
      "escrow_waived" := KeywordExtractor("boolean", [Str("escrow waived"), Str("waive escrow"), Str("skip escrow")]),
      "is_denial" := KeywordExtractor("boolean", [Str("denied"), Str("cannot approve")]),
      "has_specific_reason" := KeywordExtractor("boolean", [Str("credit"), Str("income"), Str("dti"), Str("debt"), Str("score")])
    ]
  }

  /** `_get_default_ontology`: the U.S. mortgage compliance ontology. */
  function DefaultOntology(): Value {
    MortgageOntology(DefaultConstraints(), DefaultExtractors())
  }

  /** The dict literal of `_get_default_ontology` around its constraint list and extractor table. */
  function MortgageOntology(constraints: seq<Value>, extractors: map<string, Value>): Value {
    Obj(map[
      "description" := Str("U.S. Mortgage Compliance - Core constraints"),
      "extractors" := Obj(extractors),
      "constraints" := Arr(constraints),
      "version" := Str("1.0.0"),
      "name" := Str(DefaultOntologyName)])
  }

  /** The `id` of a constraint object (`Null` when it has none). */
  function IdOf(c: Value): Value {
    if c.Obj? && "id" in c.fields then c.fields["id"] else Null
  }

  /** The constraint ids of the default ontology, in order. */
  const DefaultIds: seq<string> :=
    ["ATR_QM_DTI", "HOEPA_HIGH_COST", "UDAAP_NO_GUARANTEES", "HPML_ESCROW", "REG_B_ADVERSE"]

  /** The default ontology is well formed, so the fall-back of `load` always yields an ontology. */
  lemma DefaultOntologyIsOntology()
    ensures IsOntology(DefaultOntology())
    ensures HasRequiredFields(DefaultOntology())
    ensures DefaultOntology().fields["name"] == Str(DefaultOntologyName)
    ensures DefaultOntology().fields["version"] == Str("1.0.0")
    ensures DefaultOntology().fields["constraints"] == Arr(DefaultConstraints())
  {
  }

  /** The default ontology carries five constraints whose ids are, in order, the five of `DefaultIds`. */
  lemma DefaultConstraintOrder()
    ensures |DefaultConstraints()| == |DefaultIds| == 5
    ensures forall i :: 0 <= i < 5 ==> IdOf(DefaultConstraints()[i]) == Str(DefaultIds[i])
  {
  }

  /** The default constraint ids are pairwise distinct. */
  lemma DefaultIdsDistinct()
    ensures forall i, j :: 0 <= i < j < |DefaultConstraints()| ==>
              IdOf(DefaultConstraints()[i]) != IdOf(DefaultConstraints()[j])
  {
    DefaultConstraintOrder();
    assert forall i, j :: 0 <= i < j < |DefaultIds| ==> DefaultIds[i] != DefaultIds[j];
  }

  // ---------------------------------------------------------------------
  // Ontology names from blob names
  // ---------------------------------------------------------------------

  /** Python's `s.replace(pat, "")` for a non-empty `pat`: every non-overlapping occurrence, left to right, is removed. */
  function RemoveAll(s: string, pat: string): (r: string)
    requires pat != []
    ensures |r| <= |s|
    decreases |s|
  {
    if |s| < |pat| then s
    else if s[..|pat|] == pat then RemoveAll(s[|pat|..], pat)
    else [s[0]] + RemoveAll(s[1..], pat)
  }

  /** The comprehension of `list_available`: names ending in `.json`, in listing order, with `.json` removed. */
  function JsonNames(blobNames: seq<string>): (names: seq<string>)
    ensures |names| <= |blobNames|
  {
    if blobNames == [] then [] else NameOf(blobNames[0]) + JsonNames(blobNames[1..])
  }

  /** What one blob name contributes to the listing. */
  function NameOf(blobName: string): (names: seq<string>)
    ensures |names| <= 1
    ensures names != [] <==> EndsWith(blobName, JsonSuffix)
  {
    if EndsWith(blobName, JsonSuffix) then [RemoveAll(blobName, JsonSuffix)] else []
  }

  /**
    A string in which the pattern does not occur is left as it is: a check of
    the `replace` model itself, which no other member relies on.
  */
  lemma {:induction false} RemoveAllWithoutOccurrence(s: string, pat: string)
    requires pat != []
    requires !IsSubstring(pat, s)
    ensures RemoveAll(s, pat) == s
    decreases |s|
  {
    if |s| < |pat| {
    } else {
      assert s[..|pat|] != pat;
      RemoveAllWithoutOccurrence(s[1..], pat);
      assert [s[0]] + s[1..] == s;
    }
  }

  /**
    `.json` cannot overlap itself, so a stem free of `.json` followed by the
    suffix loses exactly the suffix.
  */
  lemma {:induction false} RemoveSuffixOnly(stem: string)
    requires !IsSubstring(JsonSuffix, stem)
    ensures RemoveAll(stem + JsonSuffix, JsonSuffix) == stem
    decreases |stem|
  {
    var s := stem + JsonSuffix;
    if stem == [] {
      assert s == JsonSuffix;
      assert s[|JsonSuffix|..] == [];
    } else {
      if |stem| >= |JsonSuffix| {
        assert s[..|JsonSuffix|] == stem[..|JsonSuffix|];
        assert !IsPrefix(JsonSuffix, stem);
      } else {
        assert s[|stem|] == '.';
        assert JsonSuffix[|stem|] != '.';
      }
      assert s[..|JsonSuffix|] != JsonSuffix;
      assert s[1..] == stem[1..] + JsonSuffix;
      RemoveSuffixOnly(stem[1..]);
    }
  }

  /** Listing is compositional: the names of a concatenation are the concatenated names. */
  lemma {:induction false} JsonNamesAppend(a: seq<string>, b: seq<string>)
    ensures JsonNames(a + b) == JsonNames(a) + JsonNames(b)
    decreases |a|
  {
    if a == [] {
      assert a + b == b;
    } else {
      calc {
        JsonNames(a + b);
        { assert (a + b)[0] == a[0]; assert (a + b)[1..] == a[1..] + b; }
        NameOf(a[0]) + JsonNames(a[1..] + b);
        { JsonNamesAppend(a[1..], b); }
        NameOf(a[0]) + (JsonNames(a[1..]) + JsonNames(b));
        (NameOf(a[0]) + JsonNames(a[1..])) + JsonNames(b);
      }
    }
  }

  /** Exactly the `.json` blob names contribute, each as its stripped form (membership in both directions). */
  lemma {:induction false} JsonNamesMembers(blobNames: seq<string>, name: string)
    ensures name in JsonNames(blobNames) <==>
              exists i :: 0 <= i < |blobNames| && EndsWith(blobNames[i], JsonSuffix)
                          && RemoveAll(blobNames[i], JsonSuffix) == name
    decreases |blobNames|
  {
    if blobNames != [] {
      var tail := blobNames[1..];
      JsonNamesMembers(tail, name);
      if name in JsonNames(tail) {
        var i :| 0 <= i < |tail| && EndsWith(tail[i], JsonSuffix) && RemoveAll(tail[i], JsonSuffix) == name;
        assert blobNames[i + 1] == tail[i];
      }
      if exists i :: 0 <= i < |blobNames| && EndsWith(blobNames[i], JsonSuffix)
                     && RemoveAll(blobNames[i], JsonSuffix) == name {
        var i :| 0 <= i < |blobNames| && EndsWith(blobNames[i], JsonSuffix)
                 && RemoveAll(blobNames[i], JsonSuffix) == name;
        if i > 0 {
          assert tail[i - 1] == blobNames[i];
        }
      }
    }
  }

  /**
    A listed name leads `load` back to the blob it came from whenever that
    blob's stem is free of `.json`; `a.json.json`, where `replace` also takes
    the inner occurrence, is listed as `a`, which `load` fetches as `a.json`.
  */
  lemma ListedNameNamesItsBlob(stem: string)
    requires !IsSubstring(JsonSuffix, stem)
    ensures JsonNames([stem + JsonSuffix]) == [stem]
    ensures JsonNames(["a.json.json"]) == ["a"] && "a" + JsonSuffix != "a.json.json"
  {
    RemoveSuffixOnly(stem);
    assert EndsWith(stem + JsonSuffix, JsonSuffix) by {
      assert (stem + JsonSuffix)[|stem|..] == JsonSuffix;
    }
    assert |[stem + JsonSuffix][1..]| == 0;
    var twice: string := "a.json.json";
    assert EndsWith(twice, JsonSuffix) by {
      assert twice[|twice| - 5..] == ".json";
    }
    assert RemoveAll(twice, JsonSuffix) == "a" by {
      assert twice[..5][0] == 'a';
      assert twice[1..] == ".json.json";
      assert twice[1..][..5] == JsonSuffix;
      assert twice[1..][5..] == ".json";
      assert ".json"[..5] == JsonSuffix;
      assert ".json"[5..] == [];
    }
    assert |[twice][1..]| == 0;
  }

  // ---------------------------------------------------------------------
  // The loader object
  // ---------------------------------------------------------------------

  class OntologyLoader {
    /** The bucket holding `<name>.json` ontology blobs. */
    const bucketName: string
    /** Whether `storage.Client()` succeeded when the loader was built. */
    const hasClient: bool

    /**
      `OntologyLoader(bucket_name)`: an empty or absent bucket name falls back
      to the environment variable, then to the built-in bucket name.
    */
    constructor (bucketNameArg: Option<string>, environment: map<string, string>, clientCreated: bool)
      ensures bucketNameArg.Some? && bucketNameArg.value != "" ==> bucketName == bucketNameArg.value
      ensures !(bucketNameArg.Some? && bucketNameArg.value != "") ==>
                bucketName == if BucketVariable in environment then environment[BucketVariable] else DefaultBucket
      ensures hasClient == clientCreated
    {
      if bucketNameArg.Some? && bucketNameArg.value != "" {
        bucketName := bucketNameArg.value;
      } else if BucketVariable in environment {
        bucketName := environment[BucketVariable];
      } else {
        bucketName := DefaultBucket;
      }
      hasClient := clientCreated;
    }

    /**
      `load(ontology_name)` as written: the stored document when there is a
      client and the blob `<name>.json` downloads, decodes and passes the
      `in` test of `_validate_ontology`; the default ontology in every other
      case. No exception escapes, and the result always passes that test.
    */
    method Load(ontologyName: string, fetch: (string, string) -> Fetched) returns (ontology: Value)
      ensures HasRequiredFields(ontology)
      ensures !hasClient ==> ontology == DefaultOntology()
      ensures hasClient ==>
                var fetched := fetch(bucketName, ontologyName + JsonSuffix);
                (fetched.Document? && HasRequiredFields(fetched.doc) ==> ontology == fetched.doc)
                && (!fetched.Document? ==> ontology == DefaultOntology())
                && (fetched.Document? && !HasRequiredFields(fetched.doc) ==> ontology == DefaultOntology())
    {
      if hasClient {
        var fetched := fetch(bucketName, ontologyName + JsonSuffix);
        if fetched.Document? {
          var checked := ValidateOntologyAsWritten(fetched.doc);
          if checked.Ok? {
            ontology := checked.value;
            return;
          }
        }
      }
      DefaultOntologyIsOntology();
      ontology := DefaultOntology();
    }

    /**
      `load` with the corrected validation: the result is always an ontology
      object holding every required key; a stored document is used exactly
      when it is one.
    */
    method LoadChecked(ontologyName: string, fetch: (string, string) -> Fetched) returns (ontology: Value)
      ensures IsOntology(ontology)
      ensures !hasClient ==> ontology == DefaultOntology()
      ensures hasClient ==>
                var fetched := fetch(bucketName, ontologyName + JsonSuffix);
                (fetched.Document? && IsOntology(fetched.doc) ==> ontology == fetched.doc)
                && (!fetched.Document? ==> ontology == DefaultOntology())
                && (fetched.Document? && !IsOntology(fetched.doc) ==> ontology == DefaultOntology())
    {
      if hasClient {
        var fetched := fetch(bucketName, ontologyName + JsonSuffix);
        if fetched.Document? {
          var checked := ValidateOntology(fetched.doc);
          if checked.Ok? {
            ontology := checked.value;
            return;
          }
        }
      }
      DefaultOntologyIsOntology();
      ontology := DefaultOntology();
    }

    /**
      `list_available()`: the stripped `.json` blob names of the bucket, or
      the single default name when there is no client or the listing fails.
    */
    function ListAvailable(list: string -> Listing): (names: seq<string>)
      ensures !hasClient ==> names == [DefaultOntologyName]
      ensures hasClient && list(bucketName).ListFailed? ==> names == [DefaultOntologyName]
      ensures hasClient && list(bucketName).Listed? ==> names == JsonNames(list(bucketName).blobNames)
      ensures hasClient && list(bucketName).Listed? ==>
                forall name :: name in names <==>
                  exists i :: 0 <= i < |list(bucketName).blobNames|
                              && EndsWith(list(bucketName).blobNames[i], JsonSuffix)
                              && RemoveAll(list(bucketName).blobNames[i], JsonSuffix) == name
      ensures hasClient && list(bucketName).Listed? ==> |names| <= |list(bucketName).blobNames|
    {
      if hasClient then
        match list(bucketName)
        case Listed(blobNames) =>
          var names := JsonNames(blobNames);
          assert forall name :: name in names <==>
                   exists i :: 0 <= i < |blobNames| && EndsWith(blobNames[i], JsonSuffix)
                               && RemoveAll(blobNames[i], JsonSuffix) == name
          by {
            forall name ensures name in names <==>
                   exists i :: 0 <= i < |blobNames| && EndsWith(blobNames[i], JsonSuffix)
                               && RemoveAll(blobNames[i], JsonSuffix) == name
            {
              JsonNamesMembers(blobNames, name);
            }
          }
          names
        case ListFailed(_) => [DefaultOntologyName]
      else
        [DefaultOntologyName]
    }
  }
}
