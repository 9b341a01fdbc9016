/** The production endpoints of `app/api/endpoints.py`: the central error
    classification, the request guards of text generation and image
    description, and the fallback health answer. What the API service
    answers is an input; request ids, timestamps, logging and timing are
    left out. */
module Endpoints {
  import opened Wrappers
  import opened Text
  import ApiService
  import ModelService

  /** The subclasses of `AIServerError` in `app/core/exceptions.py`. */
  datatype ServerErrorKind = Base | Validation | ModelNotLoaded | Processing | Configuration | Resource

  /** An exception reaching `handle_api_error`: one of the server's own,
      which carries a `field`; the API service's `InferenceException`,
      which does not; or any other exception, with its text. */
  datatype Raised =
    | ServerError(kind: ServerErrorKind, message: string, field: Option<string>)
    | Inference(e: ApiService.InferenceException)
    | Other(text: string)

  /** `str(error)`. */
  function Str(e: Raised): string {
    match e
    case ServerError(_, m, _) => m
    case Inference(ie) => ie.message
    case Other(t) => t
  }

  /** `getattr(error, 'field', None)`. */
  function Field(e: Raised): Option<string> {
    if e.ServerError? then e.field else None
  }

  /** The `error` part of `ErrorResponse`. */
  datatype ErrorBody = ErrorBody(code: string, message: string, field: Option<string>)

  /** The JSON error answer: status code and body. */
  datatype ErrorReply = ErrorReply(status: int, error: ErrorBody)

  /** `handle_api_error`: three of the server's error kinds have their own
      status and code; everything else, including the API service's own
      exception, is an internal error. */
  function HandleApiError(e: Raised): (r: ErrorReply)
    ensures r.error.message == Str(e) && r.error.field == Field(e)
    ensures r.status == 422 <==> e.ServerError? && e.kind == Validation
    ensures r.status == 503 <==> e.ServerError? && e.kind == ModelNotLoaded
    ensures r.status == 422 || r.status == 503 || r.status == 500
    ensures r.error.code == "VALIDATION_ERROR" <==> r.status == 422
    ensures r.error.code == "MODEL_NOT_LOADED" <==> r.status == 503
    ensures r.error.code == "PROCESSING_ERROR" <==> e.ServerError? && e.kind == Processing
    ensures r.error.code == "INTERNAL_ERROR" <==> !(e.ServerError? && e.kind in {Validation, ModelNotLoaded, Processing})
  {
    var (status, code) :=
      if e.ServerError? && e.kind == Validation then (422, "VALIDATION_ERROR")
      else if e.ServerError? && e.kind == ModelNotLoaded then (503, "MODEL_NOT_LOADED")
      else if e.ServerError? && e.kind == Processing then (500, "PROCESSING_ERROR")
      else (500, "INTERNAL_ERROR");
    ErrorReply(status, ErrorBody(code, Str(e), Field(e)))
  }

  /** The API service signals a missing model with its own exception, which
      is none of the server's kinds: it reaches the client as an internal
      error without a field, never as 503. */
  lemma ServiceErrorsAreInternal(message: string, errorCode: string)
    ensures var r := HandleApiError(Inference(ApiService.InferenceException(message, errorCode)));
      r == ErrorReply(500, ErrorBody("INTERNAL_ERROR", message, None))
  {
  }

  /** `generate_text`: a blank prompt is refused before the service is
      asked; otherwise the service's answer, or its error classified. */
  function GenerateText(request: ApiService.TextRequest, service: Result<string, Raised>): (r: Result<string, ErrorReply>)
    ensures IsBlank(request.prompt) ==>
      r == Err(ErrorReply(422, ErrorBody("VALIDATION_ERROR", "Prompt cannot be empty", Some("prompt"))))
    ensures !IsBlank(request.prompt) ==> (r.Ok? <==> service.Ok?)
    ensures !IsBlank(request.prompt) && service.Ok? ==> r.value == service.value
    ensures !IsBlank(request.prompt) && service.Err? ==> r.error == HandleApiError(service.error)
  {
    if Strip(request.prompt) == [] then Err(HandleApiError(ServerError(Validation, "Prompt cannot be empty", Some("prompt"))))
    else match service
      case Ok(response) => Ok(response)
      case Err(e) => Err(HandleApiError(e))
  }

  /** The endpoint's blank-prompt guard comes before the service's own
      check, so a blank prompt is a 422 on `prompt` and never the service's
      `INVALID_REQUEST`, which would surface as a 500. */
  lemma BlankPromptGuardFirst(request: ApiService.TextRequest, service: Result<string, Raised>)
    requires IsBlank(request.prompt)
    ensures ApiService.ValidateTextRequest(request).Some?
    ensures var r := GenerateText(request, service); r.Err? && r.error.status == 422 && r.error.error.field == Some("prompt")
  {
  }

  /** `ImageDescriptionRequest`. */
  datatype ImageRequest = ImageRequest(imageB64: string, maxLength: int)

  /** The smallest image payload accepted, in characters. */
  const MinImageLength := 100

  /** `describe_image`: a payload under 100 characters is refused before
      the service is asked. */
  function DescribeImage(request: ImageRequest, service: Result<string, Raised>): (r: Result<string, ErrorReply>)
    ensures |request.imageB64| < MinImageLength ==>
      r == Err(ErrorReply(422, ErrorBody("VALIDATION_ERROR", "Image data too small", Some("image_b64"))))
    ensures |request.imageB64| >= MinImageLength ==> (r.Ok? <==> service.Ok?)
    ensures |request.imageB64| >= MinImageLength && service.Ok? ==> r.value == service.value
    ensures |request.imageB64| >= MinImageLength && service.Err? ==> r.error == HandleApiError(service.error)
  {
    if |request.imageB64| < MinImageLength then Err(HandleApiError(ServerError(Validation, "Image data too small", Some("image_b64"))))
    else match service
      case Ok(response) => Ok(response)
      case Err(e) => Err(HandleApiError(e))
  }

  /** The `system` part of the health answer. */
  datatype SystemInfo = SystemInfo(error: Option<string>, totalModels: nat, loadedModels: nat, healthyModels: nat)

  /** `HealthResponse` of the endpoints, without its timestamp. */
  datatype HealthReply = HealthReply(status: string, models: map<string, ModelService.ModelStatus>, system: SystemInfo)

  /** `health_check`: the service's health report, or, when asking for it
      raised, an unhealthy answer with no models and zero counts. */
  function HealthCheck(service: Result<ModelService.HealthStatus, string>): (r: HealthReply)
    ensures service.Err? ==> r == HealthReply("unhealthy", map[], SystemInfo(Some(service.error), 0, 0, 0))
    ensures service.Ok? ==>
      && (r.status == "healthy" <==> service.value.overallHealthy)
      && r.models == service.value.models
      && r.system == SystemInfo(None, service.value.totalModels, service.value.loadedModels, service.value.healthyModels)
    ensures r.status == "healthy" || r.status == "unhealthy"
  {
    match service
    case Err(e) => HealthReply("unhealthy", map[], SystemInfo(Some(e), 0, 0, 0))
    case Ok(h) =>
      HealthReply(if h.overallHealthy then "healthy" else "unhealthy", h.models,
                  SystemInfo(None, h.totalModels, h.loadedModels, h.healthyModels))
  }
}
