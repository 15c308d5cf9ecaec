/** The HTTP gateway generated for the gRPC `Greeter` service (examples/helloworld.http.go):
    a request handler built by `MakeHandler` around one RPC method, the `Greeter` adaptor that
    routes `SayHello` through an optional unary interceptor, its route map, and the `Server`
    that holds a request multiplexer. JSON encoding, the network and `net/http` itself are
    abstracted to the outcomes they produce. */
module HelloworldHttp {
  import opened Wrappers
  import GoHttp

  // ---------------------------------------------------------------- the status decision

  const StatusOK := 200
  const StatusBadRequest := 400
  const StatusMethodNotAllowed := 405
  const StatusInternalServerError := 500

  const JsonContentType := "application/json"
  const TextContentType := "text/plain; charset=utf-8"

  /** What reading the request body into the request message gave: a message, `io.EOF`
      (an empty body), or any other error. */
  datatype DecodeOutcome = DecodeOk | DecodeEOF | DecodeError

  /** What a handler does with one request: whether it calls the method, the status it
      answers with and the `Content-Type` it leaves set (None: not set). */
  datatype Decision = Decision(invoke: bool, status: nat, contentType: Option<string>)

  /** A request reaches the method when it is a POST whose body decoded, or was empty. */
  predicate Invokes(httpMethod: string, decode: DecodeOutcome)
  {
    httpMethod == "POST" && decode != DecodeError
  }

  /** The decision of `MakeHandler`'s handler; `invokeOk` is whether the method returned
      without error and `marshalOk` whether its reply could be written as JSON. */
  function Decide(httpMethod: string, decode: DecodeOutcome, invokeOk: bool, marshalOk: bool): (d: Decision)
    ensures d.invoke <==> Invokes(httpMethod, decode)
    ensures httpMethod != "POST" ==> d.status == StatusMethodNotAllowed && d.contentType == None
    ensures httpMethod == "POST" && decode == DecodeError ==> d.status == StatusBadRequest && d.contentType == None
    ensures d.invoke && !invokeOk ==> d.status == StatusInternalServerError && d.contentType == None
    ensures d.invoke && invokeOk ==>
      && (d.status == StatusOK <==> marshalOk)
      && (!marshalOk ==> d.status == StatusInternalServerError)
      && d.contentType == Some(if marshalOk then JsonContentType else TextContentType)
    ensures d.status == StatusOK <==> Invokes(httpMethod, decode) && invokeOk && marshalOk
  {
    if httpMethod != "POST" then Decision(false, StatusMethodNotAllowed, None)
    else if decode == DecodeError then Decision(false, StatusBadRequest, None)
    else if !invokeOk then Decision(true, StatusInternalServerError, None)
    else if !marshalOk then Decision(true, StatusInternalServerError, Some(TextContentType))
    else Decision(true, StatusOK, Some(JsonContentType))
  }

  /** An empty body is treated as a decoded one. */
  lemma EmptyBodyTolerated(httpMethod: string, invokeOk: bool, marshalOk: bool)
    ensures Decide(httpMethod, DecodeEOF, invokeOk, marshalOk) == Decide(httpMethod, DecodeOk, invokeOk, marshalOk)
  {
  }

  /** When the method is not called, what it or the encoder would have done plays no part. */
  lemma NotInvokedIgnoresOutcomes(httpMethod: string, decode: DecodeOutcome, a: bool, b: bool, c: bool, e: bool)
    requires !Invokes(httpMethod, decode)
    ensures Decide(httpMethod, decode, a, b) == Decide(httpMethod, decode, c, e)
  {
  }

  /** The decision of the handler template that protoc-gen-gohttp/generator/generator.go
      writes (`encoding/json`): any method is accepted, and any decode error, an empty body
      included, is a bad request; a failed encoding leaves no content type. */
  function TemplateDecide(decode: DecodeOutcome, invokeOk: bool, marshalOk: bool): (d: Decision)
    ensures d.invoke <==> decode == DecodeOk
    ensures !d.invoke ==> d.status == StatusBadRequest && d.contentType == None
    ensures d.invoke && !(invokeOk && marshalOk) ==> d.status == StatusInternalServerError && d.contentType == None
    ensures d.status == StatusOK <==> d.invoke && invokeOk && marshalOk
    ensures d.status == StatusOK ==> d.contentType == Some(JsonContentType)
  {
    if decode != DecodeOk then Decision(false, StatusBadRequest, None)
    else if !invokeOk then Decision(true, StatusInternalServerError, None)
    else if !marshalOk then Decision(true, StatusInternalServerError, None)
    else Decision(true, StatusOK, Some(JsonContentType))
  }

  /** On a POST whose body decoded the two handlers call the method and answer alike; they
      differ only in the content type left after a failed encoding. */
  lemma TemplateAgreesOnDecodedPost(invokeOk: bool, marshalOk: bool)
    ensures var d := Decide("POST", DecodeOk, invokeOk, marshalOk);
      var t := TemplateDecide(DecodeOk, invokeOk, marshalOk);
      && d.invoke && t.invoke && d.status == t.status
      && (d.contentType == t.contentType <==> !(invokeOk && !marshalOk))
  {
  }

  /** Where they part: the template calls the method for any HTTP method and refuses an
      empty body, the example handler refuses other methods and accepts an empty body. */
  lemma TemplateDiffers(httpMethod: string)
    requires httpMethod != "POST"
    ensures !Decide(httpMethod, DecodeOk, true, true).invoke && TemplateDecide(DecodeOk, true, true).invoke
    ensures Decide("POST", DecodeEOF, true, true).status == StatusOK
    ensures TemplateDecide(DecodeEOF, true, true).status == StatusBadRequest
  {
  }

  // ---------------------------------------------------------------- messages and calls

  datatype HelloRequest = HelloRequest(name: string)
  datatype HelloReply = HelloReply(message: string)

  /** `new(pb.HelloRequest)`: the message with every field at its zero value. */
  const ZeroRequest := HelloRequest("")

  /** A reply or the error the call returned. */
  type Reply = Result<HelloReply, string>

  /** `Method`, with the context left out. */
  type Method = HelloRequest -> Reply

  /** `pb.GreeterServer`, the implementation behind the gateway. */
  datatype GreeterServer = GreeterServer(sayHello: Method)

  /** `grpc.UnaryServerInfo`. */
  datatype ServerInfo = ServerInfo(server: GreeterServer, fullMethod: string)

  /** `grpc.UnaryServerInterceptor`: called with the request, the call's description and a
      continuation that performs the call. */
  datatype Interceptor = Interceptor(intercept: (HelloRequest, ServerInfo, Method) -> Reply)

  /** The request body as the JSON decoder sees it. */
  datatype Body = JsonBody(msg: HelloRequest) | EmptyBody | MalformedBody

  datatype Request = Request(httpMethod: string, body: Body)

  datatype Response = Response(status: nat, contentType: Option<string>)

  function DecodeOf(b: Body): (r: DecodeOutcome)
    ensures r == DecodeOk <==> b.JsonBody?
    ensures r == DecodeEOF <==> b.EmptyBody?
  {
    match b
    case JsonBody(_) => DecodeOk
    case EmptyBody => DecodeEOF
    case MalformedBody => DecodeError
  }

  /** The response to a request that was decoded (or not) as `decode` says, when the method
      would be called with `arg`. */
  function Respond(httpMethod: string, decode: DecodeOutcome, arg: HelloRequest, call: Method,
                   marshals: HelloReply -> bool): (r: Response)
    ensures r.status == StatusMethodNotAllowed <==> httpMethod != "POST"
    ensures r.status == StatusBadRequest <==> httpMethod == "POST" && decode == DecodeError
    ensures r.status == StatusOK <==> Invokes(httpMethod, decode) && call(arg).Ok? && marshals(call(arg).value)
    ensures r.status == StatusInternalServerError && r.contentType.None?
            <==> Invokes(httpMethod, decode) && call(arg).Err?
    ensures r.status == StatusInternalServerError && r.contentType == Some(TextContentType)
            <==> Invokes(httpMethod, decode) && call(arg).Ok? && !marshals(call(arg).value)
    ensures r.contentType == Some(JsonContentType) <==> r.status == StatusOK
    ensures !Invokes(httpMethod, decode) ==> r.contentType.None?
  {
    var out := call(arg);
    var d := Decide(httpMethod, decode, out.Ok?, out.Ok? && marshals(out.value));
    Response(d.status, d.contentType)
  }

  /** The message a handler holding `input` calls the method with after request `r`: the
      decoded body, or, when the body was empty, whatever the message already held. */
  function Target(input: HelloRequest, r: Request): (m: HelloRequest)
    ensures r.httpMethod == "POST" && r.body.JsonBody? ==> m == r.body.msg
    ensures !(r.httpMethod == "POST" && r.body.JsonBody?) ==> m == input
  {
    if r.httpMethod == "POST" && r.body.JsonBody? then r.body.msg else input
  }

  /** The handler `MakeHandler(method, in)` returns. The closure captures `in`, a single
      message that every request is decoded into. */
  class Handler {
    const call: Method
    /** The captured request message, `in`. */
    var input: HelloRequest

    /** `MakeHandler(call, new(pb.HelloRequest))`. */
    constructor (call: Method)
      ensures this.call == call && input == ZeroRequest
    {
      this.call := call;
      input := ZeroRequest;
    }

    /** Serves one request; `marshals` says whether a reply can be written as JSON. Returns
        the response and the message the method was called with, if it was. */
    method ServeHTTP(r: Request, marshals: HelloReply -> bool) returns (resp: Response, invokedWith: Option<HelloRequest>)
      modifies this`input
      ensures input == Target(old(input), r)
      ensures invokedWith == if Invokes(r.httpMethod, DecodeOf(r.body)) then Some(input) else None
      ensures resp == Respond(r.httpMethod, DecodeOf(r.body), input, call, marshals)
    {
      if r.httpMethod != "POST" {
        return Response(StatusMethodNotAllowed, None), None;
      }
      match r.body {
        case MalformedBody =>
          return Response(StatusBadRequest, None), None;
        case JsonBody(msg) =>
          input := msg;
        case EmptyBody =>
      }
      invokedWith := Some(input);
      var out := call(input);
      if out.Err? {
        return Response(StatusInternalServerError, None), invokedWith;
      }
      if !marshals(out.value) {
        return Response(StatusInternalServerError, Some(TextContentType)), invokedWith;
      }
      resp := Response(StatusOK, Some(JsonContentType));
    }
  }

  /** A POST with a JSON body followed by a POST with an empty body: the second call is made
      with the first request's message, not with an empty one. */
  method EmptyBodyRepeatsLastRequest(h: Handler, m: HelloRequest, marshals: HelloReply -> bool)
    returns (first: Option<HelloRequest>, second: Option<HelloRequest>)
    modifies h
    ensures first == Some(m) && second == Some(m)
  {
    var resp;
    resp, first := h.ServeHTTP(Request("POST", JsonBody(m)), marshals);
    resp, second := h.ServeHTTP(Request("POST", EmptyBody), marshals);
  }

  /** The message a handler that decodes every request into a new message calls the method
      with. */
  function FreshTarget(r: Request): (m: HelloRequest)
    ensures m == Target(ZeroRequest, r)
  {
    if r.httpMethod == "POST" && r.body.JsonBody? then r.body.msg else ZeroRequest
  }

  /** The handler with `in` allocated per request: each request is served as a first request
      to a new handler would be, whatever came before it. */
  method ServeFresh(call: Method, r: Request, marshals: HelloReply -> bool) returns (resp: Response, invokedWith: Option<HelloRequest>)
    ensures invokedWith == if Invokes(r.httpMethod, DecodeOf(r.body)) then Some(FreshTarget(r)) else None
    ensures r.httpMethod == "POST" && r.body.EmptyBody? ==> invokedWith == Some(ZeroRequest)
    ensures resp == Respond(r.httpMethod, DecodeOf(r.body), FreshTarget(r), call, marshals)
  {
    if r.httpMethod != "POST" {
      return Response(StatusMethodNotAllowed, None), None;
    }
    var input := ZeroRequest;
    match r.body {
      case MalformedBody =>
        return Response(StatusBadRequest, None), None;
      case JsonBody(msg) =>
        input := msg;
      case EmptyBody =>
    }
    invokedWith := Some(input);
    var out := call(input);
    if out.Err? {
      return Response(StatusInternalServerError, None), invokedWith;
    }
    if !marshals(out.value) {
      return Response(StatusInternalServerError, Some(TextContentType)), invokedWith;
    }
    resp := Response(StatusOK, Some(JsonContentType));
  }

  // ---------------------------------------------------------------- the Greeter adaptor

  const SayHelloFullMethod := "/helloworld.Greeter/SayHello"

  /** The route the generator gives `Greeter.SayHello`. */
  const SayHelloRoute := "/greeter/say_hello"

  /** `Greeter`: the server implementation and the interceptor (None: nil). */
  datatype Greeter = Greeter(srv: GreeterServer, interceptor: Option<Interceptor>)

  /** The continuation handed to the interceptor: the call itself. */
  function Continuation(srv: GreeterServer): (k: Method)
    ensures forall req :: k(req) == srv.sayHello(req)
  {
    req => srv.sayHello(req)
  }

  /** `Greeter.SayHello`: a direct call without an interceptor; otherwise one call of the
      interceptor, told the server and the full method name. */
  function SayHello(g: Greeter, req: HelloRequest): (r: Reply)
    ensures g.interceptor.None? ==> r == g.srv.sayHello(req)
    ensures g.interceptor.Some? ==>
      r == g.interceptor.value.intercept(req, ServerInfo(g.srv, SayHelloFullMethod), Continuation(g.srv))
  {
    match g.interceptor
    case None => g.srv.sayHello(req)
    case Some(i) => i.intercept(req, ServerInfo(g.srv, SayHelloFullMethod), Continuation(g.srv))
  }

  /** An interceptor that only calls its continuation changes nothing. */
  lemma PassThroughInterceptor(srv: GreeterServer, i: Interceptor, req: HelloRequest)
    requires forall q, info, k :: i.intercept(q, info, k) == k(q)
    ensures SayHello(Greeter(srv, Some(i)), req) == SayHello(Greeter(srv, None), req)
  {
  }

  /** What the interceptor is given: the request, the server, the full method name, and a
      continuation that calls the server. Each is read back by an interceptor that answers
      with it. */
  lemma InterceptorArguments(srv: GreeterServer, req: HelloRequest)
    ensures SayHello(Greeter(srv, Some(Interceptor((q: HelloRequest, info: ServerInfo, k: Method) => Ok(HelloReply(q.name))))), req)
            == Ok(HelloReply(req.name))
    ensures SayHello(Greeter(srv, Some(Interceptor((q: HelloRequest, info: ServerInfo, k: Method) => Ok(HelloReply(info.fullMethod))))), req)
            == Ok(HelloReply(SayHelloFullMethod))
    ensures SayHello(Greeter(srv, Some(Interceptor((q: HelloRequest, info: ServerInfo, k: Method) => info.server.sayHello(q)))), req)
            == srv.sayHello(req)
    ensures SayHello(Greeter(srv, Some(Interceptor((q: HelloRequest, info: ServerInfo, k: Method) => k(q)))), req)
            == srv.sayHello(req)
  {
  }

  /** The one route is the generator's pattern for `Greeter.SayHello`. */
  lemma SayHelloRouteIsPattern()
    ensures SayHelloRoute == GoHttp.Pattern("Greeter", "SayHello")
  {
    GoHttp.PatternSayHello();
  }

  /** `Greeter.HandlerMap`: one route, served by a new handler around `SayHello`. */
  method HandlerMap(g: Greeter) returns (m: map<string, Handler>)
    ensures m.Keys == {SayHelloRoute}
    ensures fresh(m[SayHelloRoute]) && m[SayHelloRoute].input == ZeroRequest
    ensures forall req :: m[SayHelloRoute].call(req) == SayHello(g, req)
  {
    m := map[];
    var h := new Handler(req => SayHello(g, req));
    m := m[SayHelloRoute := h];
  }

  // ---------------------------------------------------------------- the server

  const TooManyInterceptors := "At most one unary server interceptor can be set."

  /** `http.ServeMux.Handle`'s panic on a pattern registered twice. */
  function MultipleRegistrations(pattern: string): string
  {
    "http: multiple registrations for " + pattern
  }

  /** `NewServer`'s choice of interceptor: none for no argument, the argument for one, and a
      panic for more. */
  function SelectInterceptor(interceptors: seq<Interceptor>): (r: Result<Option<Interceptor>, string>)
    ensures r.Ok? <==> |interceptors| <= 1
    ensures |interceptors| == 0 ==> r == Ok(None)
    ensures |interceptors| == 1 ==> r == Ok(Some(interceptors[0]))
    ensures r.Err? ==> r.error == TooManyInterceptors
  {
    if |interceptors| == 0 then Ok(None)
    else if |interceptors| == 1 then Ok(Some(interceptors[0]))
    else Err(TooManyInterceptors)
  }

  class Server {
    /** The multiplexer's routes. */
    var mux: map<string, Handler>
    const interceptor: Option<Interceptor>

    constructor (interceptor: Option<Interceptor>)
      ensures mux == map[] && this.interceptor == interceptor
    {
      mux := map[];
      this.interceptor := interceptor;
    }

    /** Registers every route of the `Greeter` built from `srv` and the server's interceptor.
        A route the multiplexer already has makes it panic (the result), with nothing
        registered. */
    method RegisterGreeterServer(srv: GreeterServer) returns (panicked: Option<string>)
      modifies this`mux
      ensures SayHelloRoute in old(mux) ==> panicked == Some(MultipleRegistrations(SayHelloRoute)) && mux == old(mux)
      ensures SayHelloRoute !in old(mux) ==>
        && panicked == None
        && mux.Keys == old(mux).Keys + {SayHelloRoute}
        && (forall p :: p in old(mux) ==> mux[p] == old(mux)[p])
        && fresh(mux[SayHelloRoute]) && mux[SayHelloRoute].input == ZeroRequest
        && (forall req :: mux[SayHelloRoute].call(req) == SayHello(Greeter(srv, interceptor), req))
    {
      var routes := HandlerMap(Greeter(srv, interceptor));
      var todo := routes.Keys;
      while todo != {}
        invariant todo <= routes.Keys
        invariant fresh(routes[SayHelloRoute]) && routes[SayHelloRoute].input == ZeroRequest
        invariant SayHelloRoute in todo ==> mux == old(mux)
        invariant SayHelloRoute !in todo ==> SayHelloRoute !in old(mux) && mux == old(mux)[SayHelloRoute := routes[SayHelloRoute]]
        decreases todo
      {
        var pattern :| pattern in todo;
        if pattern in mux {
          return Some(MultipleRegistrations(pattern));
        }
        mux := mux[pattern := routes[pattern]];
        todo := todo - {pattern};
      }
      return None;
    }
  }

  /** `NewServer`: a server with an empty multiplexer and the chosen interceptor; more than
      one interceptor panics (the error). */
  method NewServer(interceptors: seq<Interceptor>) returns (r: Result<Server, string>)
    ensures SelectInterceptor(interceptors).Err? ==> r == Err(TooManyInterceptors)
    ensures SelectInterceptor(interceptors).Ok? ==>
      r.Ok? && fresh(r.value) && r.value.mux == map[] && r.value.interceptor == SelectInterceptor(interceptors).value
  {
    var chosen := SelectInterceptor(interceptors);
    if chosen.Err? {
      return Err(chosen.error);
    }
    var s := new Server(chosen.value);
    return Ok(s);
  }
}
