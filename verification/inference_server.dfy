/**
 * The inference server's request and lifecycle logic. Its one piece of
 * state is the module-level `pipeline`, absent until `initialize_pipeline`
 * succeeds. `health_check` and `generate` read it and the request to decide
 * a status code and a JSON body. The inference engine (the `LLMPipeline`
 * constructor and the call of a pipeline) and the directory test are
 * oracles passed in as functions; HTTP plumbing is not modelled.
 */
module InferenceServer {
  import opened Wrappers

  // ---------------------------------------------------------------------
  // Values exchanged with clients and with the engine
  // ---------------------------------------------------------------------

  /** A decoded JSON value (numbers are integers in this model). */
  datatype Json =
    | JNull
    | JBool(b: bool)
    | JNum(n: int)
    | JStr(s: string)
    | JArr(items: seq<Json>)
    | JObj(fields: map<string, Json>)

  /** Python truthiness of the decoded value (`if not data`, `if not prompt`). */
  predicate Truthy(j: Json) {
    match j
    case JNull => false
    case JBool(b) => b
    case JNum(n) => n != 0
    case JStr(s) => s != ""
    case JArr(items) => items != []
    case JObj(fields) => fields != map[]
  }

  /** Values that support `prompt[:50]`, the slice taken when the request is logged. */
  predicate Sliceable(j: Json) {
    j.JStr? || j.JArr?
  }

  /** `dict.get(key)` on a JSON object. */
  function Lookup(fields: map<string, Json>, key: string): Option<Json> {
    if key in fields then Some(fields[key]) else None
  }

  /** What `request.get_json()` gives: a decoded body (`null` for none), or the exception it raises. */
  datatype RequestJson = JsonBody(data: Json) | JsonRaised

  /** An opaque handle on a constructed `LLMPipeline`. */
  datatype PipelineHandle = PipelineHandle(id: nat)

  /** The outcome of calling a pipeline: the generated text, or the exception text it raised. */
  datatype EngineOutcome = Completed(text: string) | EngineRaised(detail: string)

  /** Where an exception caught by `generate`'s `except Exception` came from. */
  datatype FailureCause =
    | EngineFailure(detail: string)   // raised by the pipeline call
    | RequestFailure                  // raised by get_json, `.get` on a non-object or `prompt[:50]`

  datatype Body =
    | HealthBody(status: string, pipelineInitialized: bool, message: Option<string>)
    | GeneratedText(text: string)
    | ErrorBody(error: string)
    | GenerationError(cause: FailureCause)  // "An error occurred during text generation: " + str(e)

  datatype Response = Response(status: nat, body: Body)

  const OK := 200
  const BAD_REQUEST := 400
  const SERVER_ERROR := 500
  const UNAVAILABLE := 503
  const DEFAULT_MAX_NEW_TOKENS := 100

  const NOT_INITIALIZED_HEALTH := "LLM pipeline is not initialized."
  const NOT_INITIALIZED := "LLMPipeline not initialized. Check server logs."
  const INVALID_JSON := "Invalid JSON in request body"
  const MISSING_PROMPT := "Missing 'prompt' in request body"

  // ---------------------------------------------------------------------
  // health_check
  // ---------------------------------------------------------------------

  /** `health_check` for the current value of `pipeline`. */
  function HealthCheck(pipeline: Option<PipelineHandle>): (r: Response)
    ensures r.status == OK <==> pipeline.Some?
    ensures r.status == UNAVAILABLE <==> pipeline.None?
    ensures r.body.HealthBody? && r.body.pipelineInitialized == pipeline.Some?
    ensures r.body.status == (if pipeline.Some? then "ok" else "error")
    ensures r.body.message.Some? <==> pipeline.None?
    ensures pipeline.None? ==> r.body.message == Some(NOT_INITIALIZED_HEALTH)
  {
    if pipeline.Some? then Response(OK, HealthBody("ok", true, None))
    else Response(UNAVAILABLE, HealthBody("error", false, Some(NOT_INITIALIZED_HEALTH)))
  }

  // ---------------------------------------------------------------------
  // generate
  // ---------------------------------------------------------------------

  /** What `generate` does before the engine could be involved: answer, or call the pipeline. */
  datatype Decision =
    | Reply(response: Response)
    | Invoke(handle: PipelineHandle, prompt: Json, maxNewTokens: Json)

  /** The object body has a usable prompt: present and truthy. */
  predicate HasPrompt(fields: map<string, Json>) {
    "prompt" in fields && Truthy(fields["prompt"])
  }

  /**
   * The checks of `generate` in their order: pipeline presence, then the
   * body, then the prompt. The engine is called only when all pass.
   */
  function GenerateDecision(pipeline: Option<PipelineHandle>, request: RequestJson): (d: Decision)
    ensures pipeline.None? ==> d == Reply(Response(SERVER_ERROR, ErrorBody(NOT_INITIALIZED)))
    ensures d.Invoke? <==>
      pipeline.Some? && request.JsonBody? && request.data.JObj? &&
      HasPrompt(request.data.fields) && Sliceable(request.data.fields["prompt"])
    ensures d.Invoke? ==>
      d.handle == pipeline.value &&
      d.prompt == request.data.fields["prompt"] &&
      d.maxNewTokens == Lookup(request.data.fields, "max_new_tokens").GetOr(JNum(DEFAULT_MAX_NEW_TOKENS))
    ensures d.Reply? && d.response.status == BAD_REQUEST <==>
      pipeline.Some? && request.JsonBody? &&
      (!Truthy(request.data) || (request.data.JObj? && !HasPrompt(request.data.fields)))
    ensures d.Reply? ==> d.response.status in {BAD_REQUEST, SERVER_ERROR}
    ensures pipeline.Some? && request.JsonBody? && !Truthy(request.data) ==>
      d == Reply(Response(BAD_REQUEST, ErrorBody(INVALID_JSON)))
    ensures pipeline.Some? && request.JsonBody? && Truthy(request.data) && request.data.JObj? &&
            !HasPrompt(request.data.fields) ==>
      d == Reply(Response(BAD_REQUEST, ErrorBody(MISSING_PROMPT)))
    ensures pipeline.Some? && d.Reply? && d.response.status == SERVER_ERROR ==>
      d.response.body == GenerationError(RequestFailure)
  {
    match pipeline
    case None => Reply(Response(SERVER_ERROR, ErrorBody(NOT_INITIALIZED)))
    case Some(handle) =>
      match request
      case JsonRaised => Reply(Response(SERVER_ERROR, GenerationError(RequestFailure)))
      case JsonBody(data) =>
        if !Truthy(data) then Reply(Response(BAD_REQUEST, ErrorBody(INVALID_JSON)))
        else if !data.JObj? then Reply(Response(SERVER_ERROR, GenerationError(RequestFailure)))
        else
          var prompt := Lookup(data.fields, "prompt");
          var maxNewTokens := Lookup(data.fields, "max_new_tokens").GetOr(JNum(DEFAULT_MAX_NEW_TOKENS));
          if prompt.None? || !Truthy(prompt.value) then Reply(Response(BAD_REQUEST, ErrorBody(MISSING_PROMPT)))
          else if !Sliceable(prompt.value) then Reply(Response(SERVER_ERROR, GenerationError(RequestFailure)))
          else Invoke(handle, prompt.value, maxNewTokens)
  }

  /** `generate`, with `engine` standing for the call `pipeline(prompt, max_new_tokens=...)`. */
  function Generate(pipeline: Option<PipelineHandle>, request: RequestJson,
                    engine: (PipelineHandle, Json, Json) -> EngineOutcome): (r: Response)
    ensures r.status == OK <==>
      GenerateDecision(pipeline, request).Invoke? &&
      engine(GenerateDecision(pipeline, request).handle, GenerateDecision(pipeline, request).prompt,
             GenerateDecision(pipeline, request).maxNewTokens).Completed?
    ensures r.status == OK ==> r.body.GeneratedText?
    ensures r.status in {OK, BAD_REQUEST, SERVER_ERROR}
    ensures var d := GenerateDecision(pipeline, request);
      d.Reply? ==> r == d.response
    ensures var d := GenerateDecision(pipeline, request);
      d.Invoke? && engine(d.handle, d.prompt, d.maxNewTokens).Completed? ==>
        r == Response(OK, GeneratedText(engine(d.handle, d.prompt, d.maxNewTokens).text))
    ensures var d := GenerateDecision(pipeline, request);
      d.Invoke? && engine(d.handle, d.prompt, d.maxNewTokens).EngineRaised? ==>
        r == Response(SERVER_ERROR, GenerationError(EngineFailure(engine(d.handle, d.prompt, d.maxNewTokens).detail)))
  {
    match GenerateDecision(pipeline, request)
    case Reply(response) => response
    case Invoke(handle, prompt, maxNewTokens) =>
      match engine(handle, prompt, maxNewTokens)
      case Completed(text) => Response(OK, GeneratedText(text))
      case EngineRaised(detail) => Response(SERVER_ERROR, GenerationError(EngineFailure(detail)))
  }

  /** Without a pipeline every request gets 500, even one without a prompt. */
  lemma GenerateWithoutPipeline(request: RequestJson, engine: (PipelineHandle, Json, Json) -> EngineOutcome)
    ensures Generate(None, request, engine) == Response(SERVER_ERROR, ErrorBody(NOT_INITIALIZED))
  {
  }

  /** When `generate` answers before calling the engine, no engine outcome changes the answer. */
  lemma EngineNotConsulted(pipeline: Option<PipelineHandle>, request: RequestJson,
                           e1: (PipelineHandle, Json, Json) -> EngineOutcome,
                           e2: (PipelineHandle, Json, Json) -> EngineOutcome)
    requires GenerateDecision(pipeline, request).Reply?
    ensures Generate(pipeline, request, e1) == Generate(pipeline, request, e2)
  {
  }

  /** A string prompt with no `max_new_tokens` reaches the engine with the default of 100 tokens. */
  lemma DefaultTokenBudget(handle: PipelineHandle, prompt: string,
                           engine: (PipelineHandle, Json, Json) -> EngineOutcome)
    requires prompt != ""
    ensures var request := JsonBody(JObj(map["prompt" := JStr(prompt)]));
      Generate(Some(handle), request, engine) ==
        match engine(handle, JStr(prompt), JNum(100))
        case Completed(text) => Response(OK, GeneratedText(text))
        case EngineRaised(detail) => Response(SERVER_ERROR, GenerationError(EngineFailure(detail)))
  {
    var fields := map["prompt" := JStr(prompt)];
    assert "max_new_tokens" !in fields;
  }

  /** An empty prompt is refused with 400 once a pipeline exists. */
  lemma EmptyPromptRefused(handle: PipelineHandle, engine: (PipelineHandle, Json, Json) -> EngineOutcome)
    ensures Generate(Some(handle), JsonBody(JObj(map["prompt" := JStr("")])), engine) ==
      Response(BAD_REQUEST, ErrorBody(MISSING_PROMPT))
  {
  }

  // ---------------------------------------------------------------------
  // The server process and its one piece of state
  // ---------------------------------------------------------------------

  /** The server module's globals: `pipeline`, `model_path_g`, `device_g`. */
  class Server {
    var pipeline: Option<PipelineHandle>
    const modelPath: Option<string>
    const device: string

    /** The module as loaded, with the command-line arguments assigned to the globals. */
    constructor (modelPath: Option<string>, device: string)
      ensures this.modelPath == modelPath && this.device == device
      ensures pipeline == None
    {
      this.modelPath := modelPath;
      this.device := device;
      pipeline := None;
    }

    /** The model path is given and not empty (`if not model_path_g` fails otherwise). */
    predicate PathGiven()
      reads this
    {
      modelPath.Some? && modelPath.value != ""
    }

    /**
     * `initialize_pipeline`: the only operation that assigns `pipeline`.
     * `construct` is the `LLMPipeline` constructor (None when it raises) and
     * `isDirectory` is `os.path.isdir`.
     */
    method InitializePipeline(isDirectory: string -> bool, construct: (string, string) -> Option<PipelineHandle>)
      returns (ok: bool)
      modifies this`pipeline
      ensures ok <==> PathGiven() && isDirectory(modelPath.value) && construct(modelPath.value, device).Some?
      ensures !PathGiven() || !isDirectory(modelPath.value) ==> pipeline == old(pipeline)
      ensures PathGiven() && isDirectory(modelPath.value) ==> pipeline == construct(modelPath.value, device)
      ensures ok ==> pipeline.Some?
    {
      if modelPath.None? || modelPath.value == "" {
        return false;
      }
      if !isDirectory(modelPath.value) {
        return false;
      }
      var constructed := construct(modelPath.value, device);
      if constructed.Some? {
        pipeline := constructed;
        ok := true;
      } else {
        pipeline := None;
        ok := false;
      }
    }

    /** The `/health` route: reads `pipeline`, changes nothing. */
    method HandleHealth() returns (r: Response)
      ensures r == HealthCheck(pipeline)
    {
      r := HealthCheck(pipeline);
    }

    /** The `/generate` route: reads `pipeline`, changes nothing. */
    method HandleGenerate(request: RequestJson, engine: (PipelineHandle, Json, Json) -> EngineOutcome)
      returns (r: Response)
      ensures r == Generate(pipeline, request, engine)
    {
      r := Generate(pipeline, request, engine);
    }
  }

  /**
   * The `__main__` path: set the globals, initialise, and serve only when
   * initialisation succeeded (the process exits otherwise). A server that
   * serves always has a pipeline, so `/health` answers 200 and `/generate`
   * never takes its "not initialized" branch.
   */
  method Startup(modelPath: Option<string>, device: string,
                 isDirectory: string -> bool, construct: (string, string) -> Option<PipelineHandle>)
    returns (server: Server, serving: bool)
    ensures fresh(server) && server.modelPath == modelPath && server.device == device
    ensures serving <==> modelPath.Some? && modelPath.value != "" && isDirectory(modelPath.value) &&
                         construct(modelPath.value, device).Some?
    ensures serving ==> server.pipeline == construct(modelPath.value, device)
    ensures serving ==> HealthCheck(server.pipeline).status == OK
    ensures serving ==> forall request :: GenerateDecision(server.pipeline, request).Reply? ==>
      GenerateDecision(server.pipeline, request).response.body != ErrorBody(NOT_INITIALIZED)
  {
    server := new Server(modelPath, device);
    serving := server.InitializePipeline(isDirectory, construct);
  }
}
