/** `GlobalExceptionHandler`: maps each exception a controller lets escape to
    an HTTP response and a published severity, and reports the exception with
    the request's context when publishing is enabled. */
module GlobalHandling {
  import opened Wrappers
  import opened ExceptionLevels
  import opened BackendEvents
  import opened ExceptionPublishing
  import LambdaEvents

  /** The handler Spring selects for an exception (the most specific
      `@ExceptionHandler` class that matches it). */
  datatype HandlerKind =
    | ResourceNotFound
    | ShippingInfoNotFound
    | OrderStatus
    | MethodArgumentNotValid
    | ConstraintViolation
    | InsufficientStock
    | IOFailure
    | Unhandled

  /** One field error or constraint violation: the field (property path) and
      its message. */
  datatype FieldError = FieldError(field: string, message: Option<string>)

  /** A handled exception; `errors` lists the binding errors or violations in
      the order the exception reports them (empty for the other kinds). */
  datatype Handled = Handled(kind: HandlerKind, ex: Thrown, errors: seq<FieldError>)

  /** The parts of `HttpServletRequest` the context reads. */
  datatype Request = Request(
    headers: map<string, string>,
    httpMethod: string,
    uri: string,
    remoteAddr: string,
    queryString: Option<string>,
    principal: Option<string>)

  /** The response body: an `ErrorResponse`, the field → message map of the
      validation handlers, or the plain text of the stock handler. */
  datatype Body =
    | ErrorBody(status: int, message: Option<string>)
    | FieldMessages(errors: map<string, Option<string>>)
    | Text(text: Option<string>)

  datatype Response = Response(status: int, body: Body)

  const NOT_FOUND := 404
  const BAD_REQUEST := 400
  const INTERNAL_SERVER_ERROR := 500
  /** The single tag every web-request exception is published with. */
  const WEB_REQUEST_TAG := "web-request"

  /** The HTTP status of each handler. */
  function Status(k: HandlerKind): int
  {
    match k
    case ResourceNotFound => NOT_FOUND
    case ShippingInfoNotFound => NOT_FOUND
    case OrderStatus => BAD_REQUEST
    case MethodArgumentNotValid => BAD_REQUEST
    case ConstraintViolation => BAD_REQUEST
    case InsufficientStock => BAD_REQUEST
    case IOFailure => INTERNAL_SERVER_ERROR
    case Unhandled => INTERNAL_SERVER_ERROR
  }

  /** The level each handler publishes with. */
  function PublishedLevel(k: HandlerKind): ExceptionLevel
  {
    match k
    case ResourceNotFound => WARN
    case ShippingInfoNotFound => WARN
    case OrderStatus => ERROR
    case MethodArgumentNotValid => WARN
    case ConstraintViolation => WARN
    case InsufficientStock => ERROR
    case IOFailure => ERROR
    case Unhandled => FATAL
  }

  /** The handler table read as rules: a missing resource and a failed
      validation are client mistakes reported as WARN; every 500 is critical;
      only an exception no other handler claims is FATAL, and it alone hides
      its message. */
  lemma HandlerTable(h: Handled)
    ensures Status(h.kind) == NOT_FOUND ==> PublishedLevel(h.kind) == WARN
    ensures Status(h.kind) == INTERNAL_SERVER_ERROR ==> IsCritical(PublishedLevel(h.kind))
    ensures PublishedLevel(h.kind) == FATAL <==> h.kind == Unhandled
    ensures PublishedLevel(h.kind) == WARN <==> Status(h.kind) == NOT_FOUND || h.kind.MethodArgumentNotValid? || h.kind.ConstraintViolation?
    ensures Respond(h).status == Status(h.kind)
    ensures h.kind == Unhandled <==> Respond(h).body == ErrorBody(INTERNAL_SERVER_ERROR, Some("Internal server error"))
  {
  }

  /** The response each handler returns. */
  function Respond(h: Handled): (r: Response)
    ensures r.status == Status(h.kind)
    ensures r.body.ErrorBody? ==> r.body.status == r.status
    ensures r.body.FieldMessages? <==> h.kind.MethodArgumentNotValid? || h.kind.ConstraintViolation?
    ensures r.body.FieldMessages? ==> r.body.errors == FieldErrorMap(h.errors)
  {
    match h.kind
    case ResourceNotFound => Response(NOT_FOUND, ErrorBody(NOT_FOUND, h.ex.message))
    case ShippingInfoNotFound => Response(NOT_FOUND, ErrorBody(NOT_FOUND, h.ex.message))
    case OrderStatus => Response(BAD_REQUEST, ErrorBody(BAD_REQUEST, h.ex.message))
    case MethodArgumentNotValid => Response(BAD_REQUEST, FieldMessages(FieldErrorMap(h.errors)))
    case ConstraintViolation => Response(BAD_REQUEST, FieldMessages(FieldErrorMap(h.errors)))
    case InsufficientStock => Response(BAD_REQUEST, Text(h.ex.message))
    case IOFailure =>
      Response(INTERNAL_SERVER_ERROR, ErrorBody(INTERNAL_SERVER_ERROR,
        Some("Failed to process shipping request: " + LambdaEvents.JavaText(h.ex.message))))
    case Unhandled => Response(INTERNAL_SERVER_ERROR, ErrorBody(INTERNAL_SERVER_ERROR, Some("Internal server error")))
  }

  /** The map the validation handlers build by putting each error in turn. */
  function FieldErrorMap(errors: seq<FieldError>): map<string, Option<string>>
  {
    if errors == [] then map[]
    else FieldErrorMap(errors[..|errors| - 1])[errors[|errors| - 1].field := errors[|errors| - 1].message]
  }

  /** Exactly the reported fields have an entry. */
  lemma {:induction false} FieldErrorMapDomain(errors: seq<FieldError>, f: string)
    ensures f in FieldErrorMap(errors) <==> exists i :: 0 <= i < |errors| && errors[i].field == f
  {
    if errors != [] {
      var n := |errors| - 1;
      var init := errors[..n];
      FieldErrorMapDomain(init, f);
      if f in FieldErrorMap(init) {
        var i :| 0 <= i < |init| && init[i].field == f;
        assert errors[i].field == f;
      }
      if exists i :: 0 <= i < |errors| && errors[i].field == f {
        var i :| 0 <= i < |errors| && errors[i].field == f;
        if i < n {
          assert init[i].field == f;
        }
      }
    }
  }

  /** A field reported several times keeps the message of its last report. */
  lemma {:induction false} FieldErrorMapLastWins(errors: seq<FieldError>, i: nat)
    requires i < |errors|
    requires forall j :: i < j < |errors| ==> errors[j].field != errors[i].field
    ensures errors[i].field in FieldErrorMap(errors)
    ensures FieldErrorMap(errors)[errors[i].field] == errors[i].message
  {
    var n := |errors| - 1;
    if i < n {
      var init := errors[..n];
      assert init[i] == errors[i];
      forall j | i < j < |init|
        ensures init[j].field != init[i].field
      {
        assert init[j] == errors[j];
      }
      FieldErrorMapLastWins(init, i);
    }
  }

  /** `request.getHeader(name)`: null when the header is absent. */
  function Header(r: Request, name: string): Option<string>
  {
    if name in r.headers then Some(r.headers[name]) else None
  }

  /** The six keys every request context holds. */
  const REQUEST_KEYS: set<string> := {"requestId", "httpMethod", "endpoint", "userAgent", "remoteAddr", "queryString"}

  /** The context `createRequestContext` builds for a request. */
  function RequestContext(request: Option<Request>): Context
  {
    match request
    case None => map[]
    case Some(r) =>
      var base := map[
        "requestId" := Header(r, "X-Request-ID"),
        "httpMethod" := Some(r.httpMethod),
        "endpoint" := Some(r.uri),
        "userAgent" := Header(r, "User-Agent"),
        "remoteAddr" := Some(r.remoteAddr),
        "queryString" := r.queryString];
      if r.principal.Some? then base["userId" := r.principal] else base
  }

  /** No request, no context; otherwise the six request keys, and `userId`
      exactly when a principal is authenticated. */
  lemma RequestContextKeys(request: Option<Request>)
    ensures request.None? ==> RequestContext(request) == map[]
    ensures request.Some? ==>
      RequestContext(request).Keys == REQUEST_KEYS + (if request.value.principal.Some? then {"userId"} else {})
    ensures request.Some? ==>
      ("userId" in RequestContext(request) <==> request.value.principal.Some?)
  {
  }

  /** `createRequestContext`: the puts into a fresh `HashMap`. */
  method CreateRequestContext(request: Option<Request>) returns (context: Context)
    ensures context == RequestContext(request)
  {
    context := map[];
    if request.Some? {
      var r := request.value;
      context := context["requestId" := Header(r, "X-Request-ID")];
      context := context["httpMethod" := Some(r.httpMethod)];
      context := context["endpoint" := Some(r.uri)];
      context := context["userAgent" := Header(r, "User-Agent")];
      context := context["remoteAddr" := Some(r.remoteAddr)];
      context := context["queryString" := r.queryString];
      if r.principal.Some? {
        context := context["userId" := r.principal];
      }
    }
  }

  /** The validation handlers' loop: each error is put in turn. */
  method CollectFieldErrors(errors: seq<FieldError>) returns (m: map<string, Option<string>>)
    ensures m == FieldErrorMap(errors)
  {
    m := map[];
    var i := 0;
    while i < |errors|
      invariant 0 <= i <= |errors|
      invariant m == FieldErrorMap(errors[..i])
    {
      assert errors[..i + 1][..i] == errors[..i];
      m := m[errors[i].field := errors[i].message];
      i := i + 1;
    }
    assert errors[..|errors|] == errors;
  }

  /** The requests a handled exception adds to the topic: one, carrying the
      handler's level, the request context and the "web-request" tag, when
      publishing is enabled and the event serializes; none otherwise. */
  function Reported(p: ExceptionPublisher, h: Handled, request: Option<Request>, now: int, serializeFails: bool)
    : (r: seq<PublishRequest>)
    reads p
    ensures |r| <= 1
    ensures |r| == 1 <==> p.IsEnabled() && !serializeFails
    ensures |r| == 1 ==> r[0].message.level == Some(PublishedLevel(h.kind)) && r[0].message.tags == Some([WEB_REQUEST_TAG])
  {
    if p.IsEnabled() then
      Sent(p.topicArn, ExplicitEvent(h.ex, p.serviceName, p.environment, Some(RequestContext(request)),
                                     Some(PublishedLevel(h.kind)), [WEB_REQUEST_TAG], now), serializeFails)
    else []
  }

  class GlobalExceptionHandler {
    const publisher: ExceptionPublisher

    constructor (publisher: ExceptionPublisher)
      ensures this.publisher == publisher
    {
      this.publisher := publisher;
    }

    /** Every `handle…` method: report the exception, then build the
        response. Whatever happens while reporting, the response is the
        handler's own. */
    method Handle(h: Handled, request: Option<Request>, now: int, serializeFails: bool) returns (response: Response)
      modifies publisher`calls
      ensures response == Respond(h)
      ensures publisher.calls == old(publisher.calls) + Reported(publisher, h, request, now, serializeFails)
    {
      PublishException(h, request, now, serializeFails);
      match h.kind {
        case MethodArgumentNotValid =>
          var errors := CollectFieldErrors(h.errors);
          response := Response(BAD_REQUEST, FieldMessages(errors));
        case ConstraintViolation =>
          var errors := CollectFieldErrors(h.errors);
          response := Response(BAD_REQUEST, FieldMessages(errors));
        case _ =>
          response := Respond(h);
      }
    }

    /** The private `publishException(ex, request, level)`: publishes only when
        the publisher is enabled, with the request context and one tag. */
    method PublishException(h: Handled, request: Option<Request>, now: int, serializeFails: bool)
      modifies publisher`calls
      ensures publisher.calls == old(publisher.calls) + Reported(publisher, h, request, now, serializeFails)
    {
      if publisher.IsEnabled() {
        var context := CreateRequestContext(request);
        publisher.PublishExceptionWithLevelAndContext(h.ex, Some(PublishedLevel(h.kind)), Some(context),
                                                      [WEB_REQUEST_TAG], now, serializeFails);
      }
    }
  }
}
