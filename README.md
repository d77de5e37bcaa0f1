# aare.ai GCP endpoint and ontology loader in Dafny

This project models the decision logic of the aare.ai Google Cloud Function.
The function checks language-model output against compliance ontologies.
The model covers two independent pieces:

- **The HTTP endpoint** (`main.py`, module `Endpoint`). It covers the CORS
  origin selection, the fixed order in which a request is answered or refused
  (OPTIONS 204, other non-POST 405, missing/invalid/falsy body 400, missing or
  falsy `llm_output` 400, any exception 500), and the assembly of the 200
  response document. `main.py` imports `OntologyLoader`, `LLMParser` and
  `SMTVerifier` from the `aare_core` package, which is not part of this model.
  Their calls are the three function fields of an `Engine` value. Each one
  either returns a JSON value or raises an exception.
- **The GCS ontology loader** (`handlers/ontology_loader.py`, module `Loader`).
  This covers the constructor's choice of bucket name, the required-field check
  `_validate_ontology`, and `load`'s fall-back to the built-in mortgage
  ontology. It also covers that built-in ontology (five constraints, in a fixed
  order, with distinct ids) and `list_available`, including its
  `replace(".json", "")` name stripping. The storage client is replaced by two
  functions: one gives the outcome of downloading and decoding a blob
  (`NotFound`, `Failed` or `Document`), the other the outcome of listing a
  bucket.

Module `PyValues` holds what both modules share. It defines JSON-shaped Python
values and the Python operations the handlers use on them: truthiness, `d[k]`,
`d.get(k, default)`, `len`, and `k in x`. Every operation that can raise in
Python returns the exception it would raise, with the exception's type name
and `str()` text. A document is therefore a full JSON value, not only a map.
This matters because `_validate_ontology` uses Python's `in`, which also works
on lists and on strings. The exception texts are the ones CPython 3.11 and 3.12
produce; older and newer releases word some of them differently (for example
"string indices must be integers" before 3.11).

The loader is a class. Its two fields, `bucketName` and `hasClient`, are
`const` because `__init__` is the only code that sets them.
`ValidateOntologyAsWritten` is a method with a loop because `_validate_ontology`
is one; `ValidateOntology` is the corrected check described under
"## Findings". The default ontology and the listing comprehension are
functions.

Three facts about the code shape the model:

- `load` is cached by `functools.lru_cache` on the loader instance and the
  ontology name (handlers/ontology_loader.py:25-26); no version takes part in
  the key.
- The success document has a `"solver": "Constraint Logic"` entry and no
  `warnings` entry (main.py:100-114).
- `{}` is refused as invalid JSON, because an empty dict is falsy
  (main.py:73).

## Model

| member | source | states |
|---|---|---|
| `Loader.ValidateOntologyAsWritten` | handlers/ontology_loader.py:44-50 | The argument comes back unchanged exactly when every required field passes Python's `in` test. Otherwise the exception is the one for the first field, in the order name, version, constraints, extractors, whose test fails: a ValueError naming that field, or the TypeError that `in` raises on a scalar. |
| `Loader.AsWrittenAcceptsFieldList` | handlers/ontology_loader.py:46-49 | The as-written check accepts the JSON list `["name","version","constraints","extractors"]`, which is not an ontology object. |
| `Loader.ValidateOntology` | handlers/ontology_loader.py:44-50 | The corrected check accepts exactly the objects that hold all four required keys, and returns them unchanged. It refuses a non-object. For an object, the error names the first missing key in the required order. |
| `Loader.DefaultOntologyIsOntology` | handlers/ontology_loader.py:52-156 | `_get_default_ontology`, modelled by `Loader.DefaultOntology`: the built-in ontology is an object with all four required keys. It passes the as-written `in` test too. Its name is `mortgage-compliance-v1`, its version `1.0.0`, and its constraints are the five built-in ones. |
| `Loader.DefaultConstraintOrder` | handlers/ontology_loader.py:58-119 | There are exactly five default constraints. Their ids are, in order, ATR_QM_DTI, HOEPA_HIGH_COST, UDAAP_NO_GUARANTEES, HPML_ESCROW and REG_B_ADVERSE. |
| `Loader.DefaultIdsDistinct` | handlers/ontology_loader.py:58-119 | The `id` entries of the five default constraints are pairwise distinct. |
| `Loader.OntologyLoader.constructor` | handlers/ontology_loader.py:14-23 | A non-empty explicit bucket name is used. Otherwise the name comes from `ONTOLOGY_BUCKET` in the environment, falling back to `aare-ai-ontologies`. The client flag records whether the client was created. |
| `Loader.OntologyLoader.Load` | handlers/ontology_loader.py:25-42 | `load` as written, with the as-written check. No exception escapes, and the result always passes the `in` test for the four required fields. Without a client it is the default ontology. With a client it is the fetched `<name>.json` document in the bucket when that document passes the test. A NotFound, any other failure, or a document that fails the test all give the default. |
| `Loader.OntologyLoader.LoadChecked` | handlers/ontology_loader.py:25-42 | `load` with the corrected check: the result is always an object holding the four required keys. A fetched document is returned exactly when it is such an object; otherwise, and without a client, the result is the default ontology. |
| `Loader.OntologyLoader.ListAvailable` | handlers/ontology_loader.py:158-171 | Without a client, or when listing fails, the result is `["mortgage-compliance-v1"]`. Otherwise it is the stripped `.json` blob names in listing order. A name is in the result exactly when it is the stripped form of some blob name ending in `.json`, and there are never more names than blobs. |
| `Loader.JsonNames` | handlers/ontology_loader.py:164-168 | The comprehension never yields more names than there are blobs. |
| `Loader.NameOf` | handlers/ontology_loader.py:165-167 | One blob contributes at most one name, and contributes one exactly when its name ends with `.json`. |
| `Loader.JsonNamesMembers` | handlers/ontology_loader.py:164-168 | A name is produced exactly when some blob name ending in `.json` strips to it (both directions). |
| `Loader.JsonNamesAppend` | handlers/ontology_loader.py:164-168 | The comprehension keeps listing order: the names of a concatenation are the concatenation of the names. |
| `Loader.RemoveAll` | handlers/ontology_loader.py:165 | `replace(pat, "")` never lengthens a name. |
| `Loader.RemoveAllWithoutOccurrence` | handlers/ontology_loader.py:165 | `replace(pat, "")` leaves a name without an occurrence of `pat` unchanged. |
| `Loader.RemoveSuffixOnly` | handlers/ontology_loader.py:165 | For a stem that does not contain `.json`, stripping `stem + ".json"` gives back exactly the stem, because `.json` cannot overlap itself. |
| `Loader.ListedNameNamesItsBlob` | handlers/ontology_loader.py:164-168 | The blob `stem.json` is listed as `stem`, which `load` maps back to the same blob. `a.json.json` is listed as `a`, because `replace` also removes the inner occurrence, and `load("a")` would fetch a different blob. |
| `Endpoint.AllowedOrigin` | main.py:18-34 | The chosen `Access-Control-Allow-Origin` value is always one of the four allowed origins. |
| `Endpoint.CorsHeaders` | main.py:36-41 | The header map carries the chosen allowed origin. |
| `Endpoint.OriginEchoedIffAllowed` | main.py:28-34 | The request's origin is echoed exactly when it is in the allow-list. Any other origin, or a missing header, gets `https://aare.ai`. |
| `Endpoint.CorsHeadersFixed` | main.py:36-41 | Every request gets the same four header names. The Content-Type, Allow-Headers and Allow-Methods values never depend on the origin. |
| `Endpoint.Admit` | main.py:69-116 | The `try` block of a POST. A missing, undecodable or falsy body is refused as invalid JSON. The only refusal messages are "Invalid JSON in request body" and "llm_output is required". A completed block means an object body with a truthy `llm_output` for which the loader returned. |
| `Endpoint.SuccessDocument` | main.py:100-114 | The response assembly completes exactly when the verifier's result is a dict with `verified`, `violations`, `proof` and `execution_time_ms`, and the ontology is a dict with `name`, `version` and a `constraints` entry that has a length. With the result entries present, an ontology without `name` raises KeyError `'name'`. |
| `Endpoint.ResponseEntriesCarry` | main.py:100-114 | The success document holds the ontology summary (name, version, constraint count) and passes the verdict, violations, parsed data, proof and verification id through unchanged. |
| `Endpoint.Verify` | main.py:45-126 | Every response carries the request's CORS headers and one of the statuses 200, 204, 400, 405 or 500. The body is empty exactly for 204. |
| `Endpoint.PreflightAnswered` | main.py:55-59 | OPTIONS gets 204 with an empty body, whatever the body and whatever the engine does. |
| `Endpoint.OtherMethodsRefused` | main.py:61-67 | A method other than OPTIONS or POST gets 405 "Method not allowed". |
| `Endpoint.FalsyBodyRefused` | main.py:71-78 | A POST whose body is missing, undecodable or falsy gets 400 "Invalid JSON in request body", before `llm_output` is inspected. |
| `Endpoint.EmptyObjectIsInvalidJson` | main.py:73-78 | A POST of `{}` gets the invalid-JSON refusal, not the missing-`llm_output` one. |
| `Endpoint.NonObjectBodyRaises` | main.py:80-126 | A truthy body that is not a JSON object makes `.get` raise AttributeError, and the request gets 500 with that exception's text and type. |
| `Endpoint.MissingOutputRefused` | main.py:80-88 | An object body whose `llm_output` is missing or falsy gets 400 "llm_output is required", whatever the engine would do. |
| `Endpoint.SuccessResponse` | main.py:80-116 | The loader is asked for the request's `ontology`, or `mortgage-compliance-v1` when it is absent. When the engine calls return the entries `verify` reads, the status is 200. The document mirrors the ontology's name and version, gives its constraint count, and passes the verifier's verdict, violations, proof, parsed data and the verification id through. |
| `Endpoint.LoadFailureAnswered` | main.py:90-126 | An exception raised by the loader gives 500 with that exception's `str()` and type name. |
| `Endpoint.RaisedAnswered` | main.py:118-126 | Any exception raised in the `try` block of a POST gives 500 with that exception's `str()` and type name. |
| `Endpoint.ParseFailureAnswered` | main.py:93-94 | An exception raised by the parser on the loaded ontology gives 500 with that exception's `str()` and type name. |
| `Endpoint.VerifierFailureAnswered` | main.py:96-97 | An exception raised by the verifier on the parsed data gives 500 with that exception's `str()` and type name. |
| `Endpoint.MissingNameAnswered` | main.py:100-126 | A loaded ontology without `name` makes the response assembly raise KeyError `'name'`, and the request gets 500. |
| `Endpoint.StatusClassifiesOutcome` | main.py:58-126 | Status 200 means exactly that a POST's `try` block completed. Status 500 means exactly that it raised. A 400 only answers a POST whose body is falsy or not admitted. |

## Left out

- Google Cloud Storage I/O (`storage.Client`, `bucket`, `blob`, `download_as_text`, `list_blobs`) is replaced by the `Fetched` and `Listing` outcomes. They are given as functions of the bucket and blob names.
- `json.loads` and `request.get_json(silent=True)` are library parsing. The model takes their result as a decoded value, or `None`/`Failed` when decoding fails. JSON floats are reals, without NaN or infinities.
- `json.dumps` of the response is not modelled: a response body is the JSON value that would be serialised. In the source `json.dumps(response_body)` (main.py:116) runs inside the `try`, so a parser or verifier result that cannot be serialised raises TypeError and gets 500. The model types every `Engine` result as a JSON value, so that path cannot arise, and the 200 of `Endpoint.SuccessResponse` presumes serialisable results.
- `lru_cache(maxsize=10)` on `load`: this memoisation and LRU eviction is library behaviour. The model computes every `Load` from the current fetch outcome, so it does not show that a repeated call returns the memoised result even when storage has changed.
- The `aare_core` package (its ontology loader, `LLMParser.parse` and `SMTVerifier.verify`) is not part of this model. Its calls are the uninterpreted function fields of `Engine`, so no statement about extraction or constraint solving is made.
- `uuid.uuid4()` and `datetime.utcnow()` are nondeterministic and come in through the `Env` parameter. `execution_time_ms` is passed through from the verifier's result.
- Logging, the `functions_framework` decorator and the module-level construction of the components in `main.py` are plumbing with no effect on the responses.
- The extractors' regular expressions and keyword lists in the default ontology are carried as strings. Their matching semantics belong to the parser, which is not part of this model.
- Header lookup: `request.headers.get("Origin", "")` is case-insensitive in the framework. The model receives the header value already looked up, as an `Option<string>`.
- `GetItem` renders `str(KeyError(k))` as the key between single quotes. That is exact only for keys without quotes or backslashes, and every key the handlers subscript is such a literal.

## Findings

| source | as written | input that shows it | evidently intended | confidence | as-written member | corrected member |
|---|---|---|---|---|---|---|
| handlers/ontology_loader.py:46-49 | `field not in ontology` is Python's generic `in`. A decoded JSON list is accepted when it holds the four field names as elements, and a JSON string when it contains them as substrings. Either is returned from `load` as the ontology. | blob content `["name", "version", "constraints", "extractors"]` | only a JSON object that has the four keys is a valid ontology; anything else falls back to the default | medium, not executed | `Loader.ValidateOntologyAsWritten` (with `Loader.AsWrittenAcceptsFieldList`) | `Loader.ValidateOntology` |

`Loader.OntologyLoader.Load` models `load` as written, with the as-written
check: for such a document it returns the list or string itself.
`Loader.OntologyLoader.LoadChecked` is `load` with the corrected check: it
returns the default ontology for such a document.
