/**
  The HTTP verification endpoint: CORS origin selection, the order in which
  a request is admitted or refused, and the assembly of the success and
  error responses. The extraction and constraint-checking engine that the
  endpoint calls (an ontology loader, an output parser and an SMT-backed
  verifier from a package outside this model) is a parameter: three total
  functions that either return a JSON value or raise. The random
  verification id and the clock reading are parameters as well.
*/
module Endpoint {
  import opened PyValues

  /** The origins a browser may call the endpoint from; the first is the primary domain. */
  const AllowedOrigins: seq<string> :=
    ["https://aare.ai", "https://www.aare.ai", "http://localhost:8000", "http://localhost:3000"]

  const PrimaryOrigin: string := "https://aare.ai"
  const DefaultOntologyName: string := "mortgage-compliance-v1"

  const AllowOriginHeader: string := "Access-Control-Allow-Origin"
  const ContentType: string := "application/json"
  const AllowHeaders: string := "Content-Type,x-api-key,Authorization"
  const AllowMethods: string := "OPTIONS,POST"

  /** An incoming request: its HTTP method, its `Origin` header if sent, and its body as `get_json(silent=True)` sees it (`None` for a missing or undecodable body). */
  datatype Request = Request(verb: string, origin: Option<string>, body: Option<Value>)

  /** The engine calls: `load(ontology_name)`, `parse(llm_output, ontology)`, `verify(extracted_data, ontology)`. */
  datatype Engine = Engine(
    load: Value -> Result<Value>,
    parse: (Value, Value) -> Result<Value>,
    verify: (Value, Value) -> Result<Value>)

  /** The nondeterministic parts of a success response: `str(uuid.uuid4())` and `datetime.utcnow().isoformat()`. */
  datatype Env = Env(verificationId: string, timestamp: string)

  /** A response body: empty (the preflight answer) or a JSON document. */
  datatype Body = Empty | Json(doc: Value)

  datatype Response = Response(body: Body, status: int, headers: map<string, string>)

  /** What the `try` block of `verify` ends with when nothing raises: an early refusal or the success document. */
  datatype Admission = Refused(message: string) | Accepted(doc: Value)

  /** The value of `Access-Control-Allow-Origin` for a request's `Origin` header (absent reads as ""). */
  function AllowedOrigin(origin: Option<string>): (chosen: string)
    ensures chosen in AllowedOrigins
  {
    var requested := origin.GetOr("");
    if requested in AllowedOrigins then requested else AllowedOrigins[0]
  }

  /** `get_cors_headers`. */
  function CorsHeaders(origin: Option<string>): (headers: map<string, string>)
    ensures AllowOriginHeader in headers && headers[AllowOriginHeader] == AllowedOrigin(origin)
  {
    map[
      "Content-Type" := ContentType,
      "Access-Control-Allow-Headers" := AllowHeaders,
      "Access-Control-Allow-Methods" := AllowMethods,
      AllowOriginHeader := AllowedOrigin(origin)]
  }

  function ErrorBody(message: string): Body {
    Json(Obj(map["error" := Str(message)]))
  }

  /** The body of the `except Exception as e` branch. */
  function ExceptionBody(e: Exc): Body {
    Json(Obj(map["error" := Str(e.message), "type" := Str(e.typeName)]))
  }

  /** The success document, its entries evaluated in the order the dict display lists them. */
  function SuccessDocument(ontology: Value, extracted: Value, result: Value, env: Env): (r: Result<Value>)
    ensures r.Ok? <==>
              && result.Obj? && "verified" in result.fields && "violations" in result.fields
              && ontology.Obj? && "name" in ontology.fields && "version" in ontology.fields
              && "constraints" in ontology.fields && Len(ontology.fields["constraints"]).Ok?
              && "proof" in result.fields && "execution_time_ms" in result.fields
    ensures (&& result.Obj? && "verified" in result.fields && "violations" in result.fields
             && ontology.Obj? && "name" !in ontology.fields) ==> r == Raise(Exc("KeyError", "'name'"))
  {
    var verified :- GetItem(result, "verified");
    var violations :- GetItem(result, "violations");
    var name :- GetItem(ontology, "name");
    var version :- GetItem(ontology, "version");
    var constraints :- GetItem(ontology, "constraints");
    var count :- Len(constraints);
    var proof :- GetItem(result, "proof");
    var elapsed :- GetItem(result, "execution_time_ms");
    Ok(Obj(ResponseEntries(verified, violations, extracted, name, version, count, proof, elapsed, env)))
  }

  /** The entries of the success document. */
  function ResponseEntries(verified: Value, violations: Value, extracted: Value, name: Value, version: Value,
                           count: nat, proof: Value, elapsed: Value, env: Env): map<string, Value>
  {
    map[
      "verified" := verified,
      "violations" := violations,
      "parsed_data" := extracted,
      "ontology" := Obj(map["name" := name, "version" := version, "constraints_checked" := Int(count)]),
      "proof" := proof,
      "solver" := Str("Constraint Logic"),
      "verification_id" := Str(env.verificationId),
      "execution_time_ms" := elapsed,
      "timestamp" := Str(env.timestamp)]
  }

  /** The `try` block of `verify` for a POST request. */
  function Admit(body: Option<Value>, engine: Engine, env: Env): (r: Result<Admission>)
    ensures body.None? || !Truthy(body.value) ==> r == Ok(Refused("Invalid JSON in request body"))
    ensures r.Ok? && r.value.Refused? ==>
              r.value.message == "Invalid JSON in request body" || r.value.message == "llm_output is required"
    ensures r.Ok? && r.value.Accepted? ==>
              && body.Some? && body.value.Obj?
              && "llm_output" in body.value.fields && Truthy(body.value.fields["llm_output"])
              && engine.load(RequestedOntology(body.value.fields)).Ok?
  {
    if body.None? || !Truthy(body.value) then Ok(Refused("Invalid JSON in request body"))
    else
      var llmOutput :- Get(body.value, "llm_output", Str(""));
      // The body is a dict once the first `.get` has returned, so the second cannot raise.
      var ontologyName := Get(body.value, "ontology", Str(DefaultOntologyName)).value;
      if !Truthy(llmOutput) then Ok(Refused("llm_output is required"))
      else
        var ontology :- engine.load(ontologyName);
        var extracted :- engine.parse(llmOutput, ontology);
        var result :- engine.verify(extracted, ontology);
        var doc :- SuccessDocument(ontology, extracted, result, env);
        Ok(Accepted(doc))
  }

  /** `verify(request)`: every response carries the CORS headers of the request and one of five status codes. */
  function Verify(req: Request, engine: Engine, env: Env): (resp: Response)
    ensures resp.headers == CorsHeaders(req.origin)
    ensures resp.status in {200, 204, 400, 405, 500}
    ensures resp.body == Empty <==> resp.status == 204
  {
    var headers := CorsHeaders(req.origin);
    if req.verb == "OPTIONS" then Response(Empty, 204, headers)
    else if req.verb != "POST" then Response(ErrorBody("Method not allowed"), 405, headers)
    else
      match Admit(req.body, engine, env)
      case Ok(Refused(message)) => Response(ErrorBody(message), 400, headers)
      case Ok(Accepted(doc)) => Response(Json(doc), 200, headers)
      case Raise(e) => Response(ExceptionBody(e), 500, headers)
  }

  // ---------------------------------------------------------------------
  // CORS
  // ---------------------------------------------------------------------

  /** The request's origin is echoed exactly when it is allowed; any other origin, or none, gets the primary domain. */
  lemma OriginEchoedIffAllowed(origin: string)
    ensures AllowedOrigin(Some(origin)) == origin <==> origin in AllowedOrigins
    ensures origin !in AllowedOrigins ==> AllowedOrigin(Some(origin)) == PrimaryOrigin
    ensures AllowedOrigin(None) == PrimaryOrigin
  {
  }

  /** Only the allowed origin differs between requests; the other three headers are fixed. */
  lemma CorsHeadersFixed(a: Option<string>, b: Option<string>)
    ensures CorsHeaders(a).Keys == CorsHeaders(b).Keys ==
              {"Content-Type", AllowOriginHeader, "Access-Control-Allow-Headers", "Access-Control-Allow-Methods"}
    ensures CorsHeaders(a) - {AllowOriginHeader} == CorsHeaders(b) - {AllowOriginHeader}
    ensures CorsHeaders(a)["Content-Type"] == ContentType
    ensures CorsHeaders(a)["Access-Control-Allow-Headers"] == AllowHeaders
    ensures CorsHeaders(a)["Access-Control-Allow-Methods"] == AllowMethods
  {
  }

  // ---------------------------------------------------------------------
  // Admission order
  // ---------------------------------------------------------------------

  /** A preflight request is answered 204 with an empty body, whatever its body and whatever the engine would do. */
  lemma PreflightAnswered(req: Request, engine: Engine, env: Env)
    requires req.verb == "OPTIONS"
    ensures Verify(req, engine, env) == Response(Empty, 204, CorsHeaders(req.origin))
  {
  }

  /** Every method other than OPTIONS and POST is refused with 405 before the body is read. */
  lemma OtherMethodsRefused(req: Request, engine: Engine, env: Env)
    requires req.verb != "OPTIONS" && req.verb != "POST"
    ensures Verify(req, engine, env) == Response(ErrorBody("Method not allowed"), 405, CorsHeaders(req.origin))
  {
  }

  /** A POST whose body is missing, undecodable or falsy is refused with 400, before `llm_output` is looked at. */
  lemma FalsyBodyRefused(req: Request, engine: Engine, env: Env)
    requires req.verb == "POST"
    requires req.body.None? || !Truthy(req.body.value)
    ensures Verify(req, engine, env) == Response(ErrorBody("Invalid JSON in request body"), 400, CorsHeaders(req.origin))
  {
  }

  /** In particular `{}` is an invalid body, not a body lacking `llm_output`. */
  lemma EmptyObjectIsInvalidJson(origin: Option<string>, engine: Engine, env: Env)
    ensures Verify(Request("POST", origin, Some(Obj(map[]))), engine, env).body == ErrorBody("Invalid JSON in request body")
    ensures ErrorBody("Invalid JSON in request body") != ErrorBody("llm_output is required")
  {
    var invalid, missing := "Invalid JSON in request body", "llm_output is required";
    assert |invalid| != |missing|;
    assert ErrorBody(invalid).doc.fields["error"] != ErrorBody(missing).doc.fields["error"];
  }

  /** A truthy body that is not an object fails on `.get` and is answered 500 with AttributeError. */
  lemma NonObjectBodyRaises(req: Request, engine: Engine, env: Env)
    requires req.verb == "POST" && req.body.Some?
    requires Truthy(req.body.value) && !req.body.value.Obj?
    ensures Verify(req, engine, env).status == 500
    ensures Verify(req, engine, env).body ==
              ExceptionBody(Exc("AttributeError", "'" + TypeName(req.body.value) + "' object has no attribute 'get'"))
  {
  }

  /** An object body whose `llm_output` is absent or falsy is refused with 400 before the engine is called. */
  lemma MissingOutputRefused(req: Request, engine: Engine, env: Env)
    requires req.verb == "POST" && req.body.Some? && req.body.value.Obj? && req.body.value.fields != map[]
    requires "llm_output" !in req.body.value.fields || !Truthy(req.body.value.fields["llm_output"])
    ensures Verify(req, engine, env) == Response(ErrorBody("llm_output is required"), 400, CorsHeaders(req.origin))
  {
  }

  // ---------------------------------------------------------------------
  // Engine calls and response assembly
  // ---------------------------------------------------------------------

  /** The ontology name handed to the loader: the request's `ontology` field, or the default name. */
  function RequestedOntology(fields: map<string, Value>): Value {
    if "ontology" in fields then fields["ontology"] else Str(DefaultOntologyName)
  }

  /** An admitted POST request: an object body with a truthy `llm_output`. */
  predicate Admitted(req: Request) {
    && req.verb == "POST" && req.body.Some? && req.body.value.Obj?
    && "llm_output" in req.body.value.fields && Truthy(req.body.value.fields["llm_output"])
  }

  /**
    When the loader, parser and verifier all return and supply the entries the
    endpoint reads, the answer is 200 and the document copies the ontology's
    name and version, counts its constraints, and passes the verifier's
    verdict, violations, proof and timing through. The loader is asked for the
    request's `ontology`, or `mortgage-compliance-v1` when it is absent.
  */
  lemma SuccessResponse(req: Request, engine: Engine, env: Env,
                        ontology: map<string, Value>, constraints: seq<Value>, extracted: Value,
                        result: map<string, Value>)
    requires Admitted(req)
    requires engine.load(RequestedOntology(req.body.value.fields)) == Ok(Obj(ontology))
    requires "name" in ontology && "version" in ontology
    requires "constraints" in ontology && ontology["constraints"] == Arr(constraints)
    requires engine.parse(req.body.value.fields["llm_output"], Obj(ontology)) == Ok(extracted)
    requires engine.verify(extracted, Obj(ontology)) == Ok(Obj(result))
    requires "verified" in result && "violations" in result && "proof" in result && "execution_time_ms" in result
    ensures var resp := Verify(req, engine, env);
            && resp.status == 200
            && resp.body.Json? && resp.body.doc.Obj?
            && var doc := resp.body.doc.fields;
            && "ontology" in doc
            && doc["ontology"] == Obj(map["name" := ontology["name"], "version" := ontology["version"],
                                          "constraints_checked" := Int(|constraints|)])
            && "verified" in doc && doc["verified"] == result["verified"]
            && "violations" in doc && doc["violations"] == result["violations"]
            && "parsed_data" in doc && doc["parsed_data"] == extracted
            && "proof" in doc && doc["proof"] == result["proof"]
            && "verification_id" in doc && doc["verification_id"] == Str(env.verificationId)
  {
    var fields := req.body.value.fields;
    var doc := ResponseEntries(result["verified"], result["violations"], extracted, ontology["name"],
                               ontology["version"], |constraints|, result["proof"], result["execution_time_ms"], env);
    assert Get(req.body.value, "llm_output", Str("")) == Ok(fields["llm_output"]);
    assert Get(req.body.value, "ontology", Str(DefaultOntologyName)) == Ok(RequestedOntology(fields));
    assert SuccessDocument(Obj(ontology), extracted, Obj(result), env) == Ok(Obj(doc));
    assert Admit(req.body, engine, env) == Ok(Accepted(Obj(doc)));
    assert Verify(req, engine, env) == Response(Json(Obj(doc)), 200, CorsHeaders(req.origin));
    ResponseEntriesCarry(result["verified"], result["violations"], extracted, ontology["name"],
                         ontology["version"], |constraints|, result["proof"], result["execution_time_ms"], env);
  }

  lemma ResponseEntriesCarry(verified: Value, violations: Value, extracted: Value, name: Value, version: Value,
                             count: nat, proof: Value, elapsed: Value, env: Env)
    ensures var doc := ResponseEntries(verified, violations, extracted, name, version, count, proof, elapsed, env);
            && "ontology" in doc
            && doc["ontology"] == Obj(map["name" := name, "version" := version, "constraints_checked" := Int(count)])
            && "verified" in doc && doc["verified"] == verified
            && "violations" in doc && doc["violations"] == violations
            && "parsed_data" in doc && doc["parsed_data"] == extracted
            && "proof" in doc && doc["proof"] == proof
            && "verification_id" in doc && doc["verification_id"] == Str(env.verificationId)
  {
  }

  /** Whatever the loader raises is answered 500 with that exception's text and type name. */
  lemma LoadFailureAnswered(req: Request, engine: Engine, env: Env, e: Exc)
    requires Admitted(req)
    requires engine.load(RequestedOntology(req.body.value.fields)) == Raise(e)
    ensures Verify(req, engine, env) == Response(ExceptionBody(e), 500, CorsHeaders(req.origin))
  {
  }

  /** Any exception raised inside the `try` block of a POST is answered 500 with its text and type name. */
  lemma RaisedAnswered(req: Request, engine: Engine, env: Env, e: Exc)
    requires req.verb == "POST"
    requires Admit(req.body, engine, env) == Raise(e)
    ensures Verify(req, engine, env) == Response(ExceptionBody(e), 500, CorsHeaders(req.origin))
  {
  }

  /** Whatever the parser raises on the loaded ontology is answered 500 with that exception's text and type name. */
  lemma ParseFailureAnswered(req: Request, engine: Engine, env: Env, ontology: Value, e: Exc)
    requires Admitted(req)
    requires engine.load(RequestedOntology(req.body.value.fields)) == Ok(ontology)
    requires engine.parse(req.body.value.fields["llm_output"], ontology) == Raise(e)
    ensures Verify(req, engine, env) == Response(ExceptionBody(e), 500, CorsHeaders(req.origin))
  {
  }

  /** Whatever the verifier raises on the parsed data is answered 500 with that exception's text and type name. */
  lemma VerifierFailureAnswered(req: Request, engine: Engine, env: Env, ontology: Value, extracted: Value, e: Exc)
    requires Admitted(req)
    requires engine.load(RequestedOntology(req.body.value.fields)) == Ok(ontology)
    requires engine.parse(req.body.value.fields["llm_output"], ontology) == Ok(extracted)
    requires engine.verify(extracted, ontology) == Raise(e)
    ensures Verify(req, engine, env) == Response(ExceptionBody(e), 500, CorsHeaders(req.origin))
  {
  }

  /** A loaded ontology without `name` fails the response assembly with KeyError and is answered 500. */
  lemma MissingNameAnswered(req: Request, engine: Engine, env: Env,
                            ontology: map<string, Value>, extracted: Value, result: map<string, Value>)
    requires Admitted(req)
    requires engine.load(RequestedOntology(req.body.value.fields)) == Ok(Obj(ontology))
    requires engine.parse(req.body.value.fields["llm_output"], Obj(ontology)) == Ok(extracted)
    requires engine.verify(extracted, Obj(ontology)) == Ok(Obj(result))
    requires "verified" in result && "violations" in result
    requires "name" !in ontology
    ensures Verify(req, engine, env) == Response(ExceptionBody(Exc("KeyError", "'name'")), 500, CorsHeaders(req.origin))
  {
    assert "'" + "name" + "'" == "'name'";
  }

  /** The status tells the outcome of the `try` block: 200 exactly for a completed POST, 500 exactly for a raised one. */
  lemma StatusClassifiesOutcome(req: Request, engine: Engine, env: Env)
    ensures Verify(req, engine, env).status == 200 <==>
              req.verb == "POST" && Admit(req.body, engine, env).Ok? && Admit(req.body, engine, env).value.Accepted?
    ensures Verify(req, engine, env).status == 500 <==>
              req.verb == "POST" && Admit(req.body, engine, env).Raise?
    ensures Verify(req, engine, env).status == 400 ==>
              req.verb == "POST" && (req.body.None? || !Truthy(req.body.value) || !Admitted(req))
  {
  }
}
