/** The protoc-gen-gohttp generator (protoc-gen-gohttp/generator/generator.go). For every
    service of a proto file it writes, through the emitter of `Base`, a struct, a constructor,
    a `HandlerMap` method with one route per RPC method, and one wrapper per method.
    What each step writes is specified as a sequence of `Line`s; each emission method is
    proved to append exactly the rendering of those lines to the buffer. */
module GoHttp {
  import opened Wrappers
  import opened GoStd
  import opened Base
  import Camel

  datatype MethodDesc = MethodDesc(name: string, inputType: string, outputType: string)

  datatype ServiceDesc = ServiceDesc(name: string, methods: seq<MethodDesc>)

  datatype ProtoFile = ProtoFile(name: string, services: seq<ServiceDesc>)

  /** One file of the response: `CodeGeneratorResponse_File`. */
  datatype File = File(name: string, content: string)

  /** A generation-time failure: `Fail` reports it and exits the process. */
  datatype Error = Fail(msg: string)

  const PbPkgPathKey := "pb_pkg_path"

  const MissingPbPkgPath := Fail("parameter `pb_pkg_path` is required (e.g. --gohttp_out=pb_pkg_path=<pb package path>:<proto file path>)")

  const HttpGoSuffix := ".http.go"

  // ---------------------------------------------------------------- names

  /** The output file: one trailing ".proto" or ".protodevel" extension is dropped and
      ".http.go" appended. */
  function GoFileName(protoName: string): (r: string)
    ensures |r| >= |HttpGoSuffix| && r[|r| - |HttpGoSuffix|..] == HttpGoSuffix
  {
    var ext := Ext(protoName);
    var name := if ext == ".proto" || ext == ".protodevel" then protoName[..|protoName| - |ext|] else protoName;
    name + HttpGoSuffix
  }

  lemma GoFileNameOfProto(base: string)
    ensures GoFileName(base + ".proto") == base + HttpGoSuffix
    ensures GoFileName(base + ".protodevel") == base + HttpGoSuffix
  {
    ExtOfSuffix(base, ".proto");
    assert (base + ".proto")[..|base|] == base;
    ExtOfSuffix(base, ".protodevel");
    assert (base + ".protodevel")[..|base|] == base;
  }

  /** The name is kept whole exactly when its extension is neither of the two. */
  lemma GoFileNameKeeps(protoName: string)
    ensures GoFileName(protoName) == protoName + HttpGoSuffix
            <==> Ext(protoName) != ".proto" && Ext(protoName) != ".protodevel"
  {
    var ext := Ext(protoName);
    if ext == ".proto" || ext == ".protodevel" {
      assert |GoFileName(protoName)| < |protoName + HttpGoSuffix|;
    }
  }

  lemma GoFileNameHelloworld()
    ensures GoFileName("helloworld.proto") == "helloworld.http.go"
  {
    GoFileNameOfProto("helloworld");
    assert "helloworld" + ".proto" == "helloworld.proto";
  }

  /** Only the last extension counts: a ".proto" before it is kept. */
  lemma GoFileNameOtherExtension()
    ensures GoFileName("greeter.proto.bak") == "greeter.proto.bak.http.go"
  {
    ExtOfSuffix("greeter.proto", ".bak");
    assert "greeter.proto" + ".bak" == "greeter.proto.bak";
  }

  /** The Go type generated for a service. */
  function HttpServiceName(serviceName: string): (r: string)
    ensures |r| == |serviceName| + 4 && r[..|serviceName|] == serviceName && r[|serviceName|..] == "HTTP"
  {
    serviceName + "HTTP"
  }

  /** Distinct services get distinct gateway types. */
  lemma HttpServiceNameInjective(a: string, b: string)
    requires HttpServiceName(a) == HttpServiceName(b)
    ensures a == b
  {
    assert a == HttpServiceName(a)[..|a|];
    assert b == HttpServiceName(b)[..|b|];
  }

  /** The route of a method: "/<service>/<method>", both parts mangled by `Underscore`. */
  function Pattern(serviceName: string, methodName: string): string
  {
    "/" + Camel.Underscored(serviceName) + "/" + Camel.Underscored(methodName)
  }

  /** A route starts with '/', has no upper-case letter, and its first segment is the
      service's: it is "/" + Underscore(service) + "/" + Underscore(method). */
  lemma PatternShape(serviceName: string, methodName: string)
    ensures var r := Pattern(serviceName, methodName);
      |r| >= 2 && r[0] == '/' && NoUpper(r)
      && r[1 + |Camel.Underscored(serviceName)|] == '/'
  {
    Camel.UnderscoredNoUpper(serviceName);
    Camel.UnderscoredNoUpper(methodName);
  }

  /** Route paths are not unique: two distinct method names of one service can share one. */
  lemma PatternsCollide()
    ensures Pattern("Greeter", "aB") == Pattern("Greeter", "B") == "/greeter/b"
  {
    assert "/" + "greeter" + "/" + "b" == "/greeter/b";
    assert Pattern("Greeter", "aB") == "/" + "greeter" + "/" + "b" by {
      Camel.UnderscoreGreeter();
      Camel.UnderscoreLowerThenUpper();
    }
    assert Pattern("Greeter", "B") == "/" + "greeter" + "/" + "b" by {
      Camel.UnderscoreGreeter();
      Camel.UnderscoreSingleUpper();
    }
  }

  lemma PatternSayHello()
    ensures Pattern("Greeter", "SayHello") == "/greeter/say_hello"
  {
    assert "/" + "greeter" + "/" + "say_hello" == "/greeter/say_hello";
    assert Pattern("Greeter", "SayHello") == "/" + "greeter" + "/" + "say_hello" by {
      Camel.UnderscoreGreeter();
      Camel.UnderscoreSayHello();
    }
  }

  /** The routes of the methods, in declaration order. */
  function Patterns(serviceName: string, ms: seq<MethodDesc>): (r: seq<string>)
    ensures |r| == |ms|
    ensures forall i :: 0 <= i < |ms| ==> r[i] == Pattern(serviceName, ms[i].name)
  {
    if ms == [] then [] else Patterns(serviceName, ms[..|ms| - 1]) + [Pattern(serviceName, ms[|ms| - 1].name)]
  }

  function Names(ms: seq<MethodDesc>): (r: seq<string>)
    ensures |r| == |ms| && forall i :: 0 <= i < |ms| ==> r[i] == ms[i].name
  {
    if ms == [] then [] else Names(ms[..|ms| - 1]) + [ms[|ms| - 1].name]
  }

  /** `g.Param["pb_pkg_path"]`, the empty string when absent. */
  function PbPkgPath(param: map<string, string>): string
  {
    if PbPkgPathKey in param then param[PbPkgPathKey] else ""
  }

  // ---------------------------------------------------------------- what is written

  /** The package clause every file opens with, and the text it renders to. */
  const PackageLine := Line(0, [Str("package http")])

  const PackageClause := "package http\n"

  function ImportsLines(pbPkgPath: string): (r: seq<Line>)
    ensures |r| == 9 && r[0] == PackageLine
  {
    [ PackageLine,
      Line(0, []),
      Line(0, [Str("import (")]),
      Line(1, [Str("\"encoding/json\"")]),
      Line(1, [Str("\"net/http\"")]),
      Line(1, []),
      Line(1, [Str("\""), Str(pbPkgPath), Str("\"")]),
      Line(1, [Str("context \"golang.org/x/net/context\"")]),
      Line(0, [Str(")")]) ]
  }

  function MethodInterfaceLines(): seq<Line>
  {
    [ Line(0, []),
      Line(0, [Str("type Method func(context.Context, interface{}) (interface{}, error)")]) ]
  }

  /** The handler template, written by a single `P` call (a multi-line raw string). */
  const MakeHandlerSource :=
    "func MakeHandler(method Method, in interface{}) http.HandlerFunc {\n"
    + "\treturn func(w http.ResponseWriter, r *http.Request) {\n"
    + "\t\tdecoder := json.NewDecoder(r.Body)\n"
    + "\t\tif err := decoder.Decode(in); err != nil {\n"
    + "\t\t\tw.WriteHeader(http.StatusBadRequest)\n"
    + "\t\t\treturn\n"
    + "\t\t}\n"
    + "\n"
    + "\t\tout, err := method(nil, in)\n"
    + "\t\tif err != nil {\n"
    + "\t\t\tw.WriteHeader(http.StatusInternalServerError)\n"
    + "\t\t\treturn\n"
    + "\t\t}\n"
    + "\n"
    + "\t\tbytes, err := json.Marshal(out)\n"
    + "\t\tif err != nil {\n"
    + "\t\t\tw.WriteHeader(http.StatusInternalServerError)\n"
    + "\t\t\treturn\n"
    + "\t\t}\n"
    + "\n"
    + "\t\tw.Header().Set(\"Content-Type\", \"application/json\")\n"
    + "\t\tw.Write(bytes)\n"
    + "\t}\n"
    + "}"

  function MakeHandlerFuncLines(): seq<Line>
  {
    [ Line(0, []), Line(0, [Str(MakeHandlerSource)]) ]
  }

  function StructureLines(serviceName: string): seq<Line>
  {
    [ Line(0, []),
      Line(0, [Str("type "), Str(HttpServiceName(serviceName)), Str(" struct {")]),
      Line(1, [Str("srv pb."), Str(serviceName), Str("Server")]),
      Line(0, [Str("}")]) ]
  }

  function NewFuncLines(serviceName: string): seq<Line>
  {
    var h := HttpServiceName(serviceName);
    [ Line(0, []),
      Line(0, [Str("func New"), Str(h), Str("(srv pb."), Str(serviceName), Str("Server) *"), Str(h), Str(" {")]),
      Line(1, [Str("return &"), Str(h), Str("{srv: srv}")]),
      Line(0, [Str("}")]) ]
  }

  const RouteLead := Str("m[\"")

  /** `m["<pattern>"] = MakeHandler(h.<Method>, new(pb.<Input>))`. */
  function RouteLine(serviceName: string, m: MethodDesc, typeName: string -> string): Line
  {
    Line(1, [RouteLead, Str(Pattern(serviceName, m.name)), Str("\"] = "), Str("MakeHandler(h."),
             Str(m.name), Str(", new(pb."), Str(typeName(m.inputType)), Str("))")])
  }

  function RouteLines(serviceName: string, ms: seq<MethodDesc>, typeName: string -> string): (r: seq<Line>)
    ensures |r| == |ms|
    ensures forall i :: 0 <= i < |ms| ==> r[i] == RouteLine(serviceName, ms[i], typeName)
  {
    if ms == [] then []
    else RouteLines(serviceName, ms[..|ms| - 1], typeName) + [RouteLine(serviceName, ms[|ms| - 1], typeName)]
  }

  const MakeMapLine := Line(1, [Str("m := make(map[string]http.HandlerFunc)")])

  const ReturnMapLine := Line(1, [Str("return m")])

  function HandlerMapHead(serviceName: string): seq<Line>
  {
    [ Line(0, []),
      Line(0, [Str("func (h *"), Str(HttpServiceName(serviceName)), Str(") HandlerMap() map[string]http.HandlerFunc {")]),
      MakeMapLine ]
  }

  function HandlerMapLines(serviceName: string, ms: seq<MethodDesc>, typeName: string -> string): seq<Line>
  {
    HandlerMapHead(serviceName) + RouteLines(serviceName, ms, typeName) + [ReturnMapLine, Line(0, [Str("}")])]
  }

  const DelegateLead := Str("return h.srv.")

  function WrapperLines(serviceName: string, m: MethodDesc, typeName: string -> string): seq<Line>
  {
    [ Line(0, []),
      Line(0, [Str("func (h *"), Str(HttpServiceName(serviceName)), Str(") "), StrRef(m.name),
               Str("(ctx context.Context, in interface{}) (interface{}, error) {")]),
      Line(1, [DelegateLead, StrRef(m.name), Str("(ctx, in.(*pb."), Str(typeName(m.inputType)), Str("))")]),
      Line(0, [Str("}")]) ]
  }

  function WrappersLines(serviceName: string, ms: seq<MethodDesc>, typeName: string -> string): (r: seq<Line>)
    ensures |r| == 4 * |ms|
  {
    if ms == [] then []
    else WrappersLines(serviceName, ms[..|ms| - 1], typeName) + WrapperLines(serviceName, ms[|ms| - 1], typeName)
  }

  function ServiceLines(serviceName: string, ms: seq<MethodDesc>, typeName: string -> string): seq<Line>
  {
    StructureLines(serviceName) + NewFuncLines(serviceName)
    + HandlerMapLines(serviceName, ms, typeName) + WrappersLines(serviceName, ms, typeName)
  }

  function ServicesLines(services: seq<ServiceDesc>, typeName: string -> string, camelCase: string -> string): seq<Line>
  {
    if services == [] then []
    else
      var s := services[|services| - 1];
      ServicesLines(services[..|services| - 1], typeName, camelCase) + ServiceLines(camelCase(s.name), s.methods, typeName)
  }

  /** What `Make` writes before the services: imports, the method type and `MakeHandler`. */
  function HeadLines(pbPkgPath: string): (r: seq<Line>)
    ensures |r| > 0 && r[0] == PackageLine
  {
    ImportsLines(pbPkgPath) + MethodInterfaceLines() + MakeHandlerFuncLines()
  }

  /** Everything `Make` writes for one proto file. */
  function FileLines(f: ProtoFile, pbPkgPath: string, typeName: string -> string, camelCase: string -> string): (r: seq<Line>)
    ensures |r| > 0 && r[0] == PackageLine
  {
    HeadLines(pbPkgPath) + ServicesLines(f.services, typeName, camelCase)
  }

  /** `FileLines` under fixed parameters, as a function of the proto file alone. */
  function FileOf(pbPkgPath: string, typeName: string -> string, camelCase: string -> string): (file: ProtoFile -> seq<Line>)
    ensures forall f :: file(f) == FileLines(f, pbPkgPath, typeName, camelCase)
  {
    f => FileLines(f, pbPkgPath, typeName, camelCase)
  }

  /** Everything written for a run of proto files, one after the other, when `file` gives
      what is written for one of them. */
  function AllLines(fs: seq<ProtoFile>, file: ProtoFile -> seq<Line>): seq<Line>
  {
    if fs == [] then [] else AllLines(fs[..|fs| - 1], file) + file(fs[|fs| - 1])
  }

  /** The files `generate` returns when every `Make` succeeds, from a generator that had
      written `w0` at indent depth `d`: file i is named after proto file i and holds the whole
      buffer at that point, that is everything written for files 0..i. */
  function Outputs(w0: seq<Line>, d: nat, fs: seq<ProtoFile>, file: ProtoFile -> seq<Line>): (r: seq<File>)
    ensures |r| == |fs|
    decreases |fs|
  {
    if fs == [] then []
    else Outputs(w0, d, fs[..|fs| - 1], file) + [File(GoFileName(fs[|fs| - 1].name), Render(w0 + Shift(d, AllLines(fs, file))))]
  }

  // ---------------------------------------------------------------- reading the lines back

  /** The route a line registers, when it is an assignment `m["<route>"] = ...`. */
  function RouteOf(l: Line): Option<string>
  {
    if |l.args| >= 2 && l.args[0] == RouteLead then Some(Text(l.args[1])) else None
  }

  /** The routes registered by a block of lines, in order. */
  function Routes(ls: seq<Line>): seq<string>
  {
    if ls == [] then []
    else Routes(ls[..|ls| - 1]) + (match RouteOf(ls[|ls| - 1]) case Some(p) => [p] case None => [])
  }

  lemma {:induction false} RoutesAppend(a: seq<Line>, b: seq<Line>)
    ensures Routes(a + b) == Routes(a) + Routes(b)
    decreases |b|
  {
    if b == [] {
      assert a + b == a;
    } else {
      var b' := b[..|b| - 1];
      assert (a + b)[..|a + b| - 1] == a + b';
      assert (a + b)[|a + b| - 1] == b[|b| - 1];
      RoutesAppend(a, b');
    }
  }

  /** A block none of whose lines is a route assignment registers nothing. */
  lemma {:induction false} RoutesNone(ls: seq<Line>)
    requires forall k :: 0 <= k < |ls| ==> RouteOf(ls[k]).None?
    ensures Routes(ls) == []
    decreases |ls|
  {
    if ls != [] {
      RoutesNone(ls[..|ls| - 1]);
    }
  }

  /** The method a line delegates to, when it is `return h.srv.<Method>(...)`. */
  function DelegateOf(l: Line): Option<string>
  {
    if |l.args| >= 2 && l.args[0] == DelegateLead then Some(Text(l.args[1])) else None
  }

  function Delegates(ls: seq<Line>): seq<string>
  {
    if ls == [] then []
    else Delegates(ls[..|ls| - 1]) + (match DelegateOf(ls[|ls| - 1]) case Some(p) => [p] case None => [])
  }

  lemma {:induction false} DelegatesAppend(a: seq<Line>, b: seq<Line>)
    ensures Delegates(a + b) == Delegates(a) + Delegates(b)
    decreases |b|
  {
    if b == [] {
      assert a + b == a;
    } else {
      var b' := b[..|b| - 1];
      assert (a + b)[..|a + b| - 1] == a + b';
      assert (a + b)[|a + b| - 1] == b[|b| - 1];
      DelegatesAppend(a, b');
    }
  }

  lemma {:induction false} DelegatesNone(ls: seq<Line>)
    requires forall k :: 0 <= k < |ls| ==> DelegateOf(ls[k]).None?
    ensures Delegates(ls) == []
    decreases |ls|
  {
    if ls != [] {
      DelegatesNone(ls[..|ls| - 1]);
    }
  }

  // ---------------------------------------------------------------- properties of the output

  lemma RouteOfRouteLine(serviceName: string, m: MethodDesc, typeName: string -> string)
    ensures RouteOf(RouteLine(serviceName, m, typeName)) == Some(Pattern(serviceName, m.name))
    ensures DelegateOf(RouteLine(serviceName, m, typeName)).None?
  {
  }

  /** The route lines register exactly the methods' routes, in declaration order. */
  lemma {:induction false} RouteLinesRoutes(serviceName: string, ms: seq<MethodDesc>, typeName: string -> string)
    ensures Routes(RouteLines(serviceName, ms, typeName)) == Patterns(serviceName, ms)
    ensures Delegates(RouteLines(serviceName, ms, typeName)) == []
    decreases |ms|
  {
    if ms != [] {
      var ms' := ms[..|ms| - 1];
      var l := RouteLine(serviceName, ms[|ms| - 1], typeName);
      RouteLinesRoutes(serviceName, ms', typeName);
      RoutesAppend(RouteLines(serviceName, ms', typeName), [l]);
      DelegatesAppend(RouteLines(serviceName, ms', typeName), [l]);
      RouteOfRouteLine(serviceName, ms[|ms| - 1], typeName);
      assert [l][..0] == [];
    }
  }

  lemma HandlerMapHeadNone(serviceName: string)
    ensures Routes(HandlerMapHead(serviceName)) == [] && Delegates(HandlerMapHead(serviceName)) == []
  {
    var head := HandlerMapHead(serviceName);
    assert head[1].args[0] == Str("func (h *");
    RoutesNone(head);
    DelegatesNone(head);
  }

  lemma HandlerMapTailNone()
    ensures Routes([ReturnMapLine, Line(0, [Str("}")])]) == []
    ensures Delegates([ReturnMapLine, Line(0, [Str("}")])]) == []
  {
    RoutesNone([ReturnMapLine, Line(0, [Str("}")])]);
    DelegatesNone([ReturnMapLine, Line(0, [Str("}")])]);
  }

  /** `HandlerMap` opens with the `make` line, then has one route assignment per method in
      declaration order, then `return m`; no other line registers a route. */
  lemma HandlerMapLayout(serviceName: string, ms: seq<MethodDesc>, typeName: string -> string)
    ensures var ls := HandlerMapLines(serviceName, ms, typeName);
      && |ls| == |ms| + 5
      && ls[2] == MakeMapLine && ls[|ms| + 3] == ReturnMapLine
      && (forall i :: 0 <= i < |ms| ==> ls[3 + i] == RouteLine(serviceName, ms[i], typeName))
      && (forall i :: 0 <= i < |ms| ==> RouteOf(ls[3 + i]) == Some(Pattern(serviceName, ms[i].name)))
      && (forall k :: 0 <= k < |ls| && !(3 <= k < |ms| + 3) ==> RouteOf(ls[k]).None?)
  {
    HandlerMapRouteLines(serviceName, ms, typeName);
    HandlerMapOtherLines(serviceName, ms, typeName);
  }

  lemma HandlerMapRouteLines(serviceName: string, ms: seq<MethodDesc>, typeName: string -> string)
    ensures var ls := HandlerMapLines(serviceName, ms, typeName);
      && |ls| == |ms| + 5
      && (forall i :: 0 <= i < |ms| ==> ls[3 + i] == RouteLine(serviceName, ms[i], typeName))
      && (forall i :: 0 <= i < |ms| ==> RouteOf(ls[3 + i]) == Some(Pattern(serviceName, ms[i].name)))
  {
    var routes := RouteLines(serviceName, ms, typeName);
    var ls := HandlerMapLines(serviceName, ms, typeName);
    assert ls == HandlerMapHead(serviceName) + routes + [ReturnMapLine, Line(0, [Str("}")])];
    forall i | 0 <= i < |ms|
      ensures ls[3 + i] == RouteLine(serviceName, ms[i], typeName)
      ensures RouteOf(ls[3 + i]) == Some(Pattern(serviceName, ms[i].name))
    {
      assert ls[3 + i] == routes[i];
      RouteOfRouteLine(serviceName, ms[i], typeName);
    }
  }

  lemma HandlerMapOtherLines(serviceName: string, ms: seq<MethodDesc>, typeName: string -> string)
    ensures var ls := HandlerMapLines(serviceName, ms, typeName);
      && |ls| == |ms| + 5
      && ls[2] == MakeMapLine && ls[|ms| + 3] == ReturnMapLine
      && (forall k :: 0 <= k < |ls| && !(3 <= k < |ms| + 3) ==> RouteOf(ls[k]).None?)
  {
    var head := HandlerMapHead(serviceName);
    var tail := [ReturnMapLine, Line(0, [Str("}")])];
    var ls := HandlerMapLines(serviceName, ms, typeName);
    assert ls == head + RouteLines(serviceName, ms, typeName) + tail;
    HandlerMapEndsNone(serviceName);
    forall k | 0 <= k < |ls| && !(3 <= k < |ms| + 3)
      ensures RouteOf(ls[k]).None?
    {
      if k < 3 {
        assert ls[k] == head[k];
      } else {
        assert ls[k] == tail[k - 3 - |ms|];
      }
    }
  }

  lemma HandlerMapEndsNone(serviceName: string)
    ensures forall k :: 0 <= k < 3 ==> RouteOf(HandlerMapHead(serviceName)[k]).None?
    ensures RouteOf(ReturnMapLine).None? && RouteOf(Line(0, [Str("}")])).None?
  {
    assert HandlerMapHead(serviceName)[1].args[0] == Str("func (h *");
  }

  /** Read back, the whole `HandlerMap` block registers exactly the methods' routes, in order. */
  lemma HandlerMapRoutes(serviceName: string, ms: seq<MethodDesc>, typeName: string -> string)
    ensures Routes(HandlerMapLines(serviceName, ms, typeName)) == Patterns(serviceName, ms)
    ensures Delegates(HandlerMapLines(serviceName, ms, typeName)) == []
  {
    var head := HandlerMapHead(serviceName);
    var routes := RouteLines(serviceName, ms, typeName);
    var tail := [ReturnMapLine, Line(0, [Str("}")])];
    RoutesAppend(head + routes, tail);
    RoutesAppend(head, routes);
    DelegatesAppend(head + routes, tail);
    DelegatesAppend(head, routes);
    HandlerMapHeadNone(serviceName);
    HandlerMapTailNone();
    RouteLinesRoutes(serviceName, ms, typeName);
  }

  /** A wrapper registers no route and delegates once, to its own method. */
  lemma WrapperDelegates(serviceName: string, m: MethodDesc, typeName: string -> string)
    ensures Routes(WrapperLines(serviceName, m, typeName)) == []
    ensures Delegates(WrapperLines(serviceName, m, typeName)) == [m.name]
  {
    var w := WrapperLines(serviceName, m, typeName);
    assert w[1].args[0] == Str("func (h *");
    RoutesNone(w);
    assert w == [w[0], w[1]] + [w[2]] + [w[3]];
    DelegatesAppend([w[0], w[1]] + [w[2]], [w[3]]);
    DelegatesAppend([w[0], w[1]], [w[2]]);
    DelegatesNone([w[0], w[1]]);
    DelegatesNone([w[3]]);
    assert [w[2]][..0] == [];
  }

  /** One wrapper per method, in declaration order: lines 4i..4i+3 are the wrapper of method
      i, which delegates to `h.srv.<method i>`; wrappers register no route. */
  lemma WrappersLayout(serviceName: string, ms: seq<MethodDesc>, typeName: string -> string)
    ensures var ls := WrappersLines(serviceName, ms, typeName);
      && (forall i :: 0 <= i < |ms| ==> ls[4 * i..4 * i + 4] == WrapperLines(serviceName, ms[i], typeName))
      && (forall i :: 0 <= i < |ms| ==> DelegateOf(ls[4 * i + 2]) == Some(ms[i].name))
      && Delegates(ls) == Names(ms)
      && Routes(ls) == []
  {
    WrappersSlices(serviceName, ms, typeName);
    WrappersDelegates(serviceName, ms, typeName);
    var ls := WrappersLines(serviceName, ms, typeName);
    forall i | 0 <= i < |ms|
      ensures DelegateOf(ls[4 * i + 2]) == Some(ms[i].name)
    {
      assert ls[4 * i + 2] == ls[4 * i..4 * i + 4][2];
      WrapperDelegateLine(serviceName, ms[i], typeName);
    }
  }

  lemma WrapperDelegateLine(serviceName: string, m: MethodDesc, typeName: string -> string)
    ensures DelegateOf(WrapperLines(serviceName, m, typeName)[2]) == Some(m.name)
  {
  }

  lemma {:induction false} WrappersSlices(serviceName: string, ms: seq<MethodDesc>, typeName: string -> string)
    ensures var ls := WrappersLines(serviceName, ms, typeName);
      forall i :: 0 <= i < |ms| ==> ls[4 * i..4 * i + 4] == WrapperLines(serviceName, ms[i], typeName)
    decreases |ms|
  {
    if ms != [] {
      var ms' := ms[..|ms| - 1];
      var w := WrapperLines(serviceName, ms[|ms| - 1], typeName);
      var prev := WrappersLines(serviceName, ms', typeName);
      var ls := WrappersLines(serviceName, ms, typeName);
      assert ls == prev + w;
      WrappersSlices(serviceName, ms', typeName);
      forall i | 0 <= i < |ms|
        ensures ls[4 * i..4 * i + 4] == WrapperLines(serviceName, ms[i], typeName)
      {
        if i < |ms| - 1 {
          assert ms'[i] == ms[i];
          assert ls[4 * i..4 * i + 4] == prev[4 * i..4 * i + 4];
        } else {
          assert ls[4 * i..4 * i + 4] == w;
        }
      }
    }
  }

  lemma {:induction false} WrappersDelegates(serviceName: string, ms: seq<MethodDesc>, typeName: string -> string)
    ensures Delegates(WrappersLines(serviceName, ms, typeName)) == Names(ms)
    ensures Routes(WrappersLines(serviceName, ms, typeName)) == []
    decreases |ms|
  {
    if ms != [] {
      var ms' := ms[..|ms| - 1];
      var w := WrapperLines(serviceName, ms[|ms| - 1], typeName);
      var prev := WrappersLines(serviceName, ms', typeName);
      WrappersDelegates(serviceName, ms', typeName);
      DelegatesAppend(prev, w);
      RoutesAppend(prev, w);
      WrapperDelegates(serviceName, ms[|ms| - 1], typeName);
    }
  }

  lemma StructureNone(serviceName: string)
    ensures Routes(StructureLines(serviceName)) == [] && Delegates(StructureLines(serviceName)) == []
  {
    var a := StructureLines(serviceName);
    RoutesNone(a);
    DelegatesNone(a);
  }

  lemma NewFuncNone(serviceName: string)
    ensures Routes(NewFuncLines(serviceName)) == [] && Delegates(NewFuncLines(serviceName)) == []
  {
    var b := NewFuncLines(serviceName);
    RoutesNone(b);
    DelegatesNone(b);
  }

  /** What a service contributes: its struct, constructor, route map and wrappers. The routes
      it registers are exactly its methods' routes, and it delegates to each method once. */
  lemma ServiceRoutes(serviceName: string, ms: seq<MethodDesc>, typeName: string -> string)
    ensures Routes(ServiceLines(serviceName, ms, typeName)) == Patterns(serviceName, ms)
    ensures Delegates(ServiceLines(serviceName, ms, typeName)) == Names(ms)
  {
    var a := StructureLines(serviceName);
    var b := NewFuncLines(serviceName);
    var c := HandlerMapLines(serviceName, ms, typeName);
    var d := WrappersLines(serviceName, ms, typeName);
    assert ServiceLines(serviceName, ms, typeName) == a + b + c + d;
    RoutesAppend(a + b + c, d);
    RoutesAppend(a + b, c);
    RoutesAppend(a, b);
    DelegatesAppend(a + b + c, d);
    DelegatesAppend(a + b, c);
    DelegatesAppend(a, b);
    StructureNone(serviceName);
    NewFuncNone(serviceName);
    HandlerMapRoutes(serviceName, ms, typeName);
    WrappersLayout(serviceName, ms, typeName);
  }

  /** The routes of all services of a file, service by service. */
  function ServicesPatterns(services: seq<ServiceDesc>, camelCase: string -> string): seq<string>
  {
    if services == [] then []
    else
      var s := services[|services| - 1];
      ServicesPatterns(services[..|services| - 1], camelCase) + Patterns(camelCase(s.name), s.methods)
  }

  lemma {:induction false} ServicesRoutes(services: seq<ServiceDesc>, typeName: string -> string, camelCase: string -> string)
    ensures Routes(ServicesLines(services, typeName, camelCase)) == ServicesPatterns(services, camelCase)
    decreases |services|
  {
    if services != [] {
      var s := services[|services| - 1];
      var rest := services[..|services| - 1];
      RoutesAppend(ServicesLines(rest, typeName, camelCase), ServiceLines(camelCase(s.name), s.methods, typeName));
      ServicesRoutes(rest, typeName, camelCase);
      ServiceRoutes(camelCase(s.name), s.methods, typeName);
    }
  }

  lemma FileHeadNone(pbPkgPath: string)
    ensures Routes(HeadLines(pbPkgPath)) == []
  {
    var a := ImportsLines(pbPkgPath);
    var b := MethodInterfaceLines();
    var c := MakeHandlerFuncLines();
    RoutesAppend(a + b, c);
    RoutesAppend(a, b);
    assert a[6].args[0] == Str("\"");
    RoutesNone(a);
    RoutesNone(b);
    RoutesNone(c);
  }

  /** A generated file registers one route per method of each service, service after service
      and method after method in declaration order, and nothing else. */
  lemma FileRoutes(f: ProtoFile, pbPkgPath: string, typeName: string -> string, camelCase: string -> string)
    ensures Routes(FileLines(f, pbPkgPath, typeName, camelCase)) == ServicesPatterns(f.services, camelCase)
  {
    var head := ImportsLines(pbPkgPath) + MethodInterfaceLines() + MakeHandlerFuncLines();
    RoutesAppend(head, ServicesLines(f.services, typeName, camelCase));
    FileHeadNone(pbPkgPath);
    ServicesRoutes(f.services, typeName, camelCase);
  }

  // ---------------------------------------------------------------- the emission methods

  /* Each emission method below ends with a call to a `...Written` lemma that composes the
     single lines its `P` calls appended into the block its contract names. */

  lemma ShiftBlocks(d: nat, w0: seq<Line>, w1: seq<Line>, w2: seq<Line>, a: seq<Line>, b: seq<Line>)
    requires w1 == w0 + Shift(d, a) && w2 == w1 + Shift(d, b)
    ensures w2 == w0 + Shift(d, a + b)
  {
    ShiftAppend(d, a, b);
  }

  lemma ImportsWritten(d: nat, pbPkgPath: string, w0: seq<Line>, w1: seq<Line>, w2: seq<Line>, w3: seq<Line>,
                       w4: seq<Line>, w5: seq<Line>, w6: seq<Line>, w7: seq<Line>, w8: seq<Line>, w9: seq<Line>)
    requires w1 == w0 + [Line(d, [Str("package http")])]
    requires w2 == w1 + [Line(d, [])]
    requires w3 == w2 + [Line(d, [Str("import (")])]
    requires w4 == w3 + [Line(d + 1, [Str("\"encoding/json\"")])]
    requires w5 == w4 + [Line(d + 1, [Str("\"net/http\"")])]
    requires w6 == w5 + [Line(d + 1, [])]
    requires w7 == w6 + [Line(d + 1, [Str("\""), Str(pbPkgPath), Str("\"")])]
    requires w8 == w7 + [Line(d + 1, [Str("context \"golang.org/x/net/context\"")])]
    requires w9 == w8 + [Line(d, [Str(")")])]
    ensures w9 == w0 + Shift(d, ImportsLines(pbPkgPath))
  {
  }

  method GenerateImports(g: Generator)
    requires g.Valid()
    modifies g
    ensures g.Valid() && g.indent == old(g.indent)
    ensures g.lines == old(g.lines) + Shift(|old(g.indent)|, ImportsLines(PbPkgPath(g.param)))
  {
    OutUndoesIn(g.indent);
    ghost var w0 := g.lines;
    g.P([Str("package http")]);
    ghost var w1 := g.lines;
    g.P([]);
    ghost var w2 := g.lines;
    g.P([Str("import (")]);
    ghost var w3 := g.lines;
    g.In();
    g.P([Str("\"encoding/json\"")]);
    ghost var w4 := g.lines;
    g.P([Str("\"net/http\"")]);
    ghost var w5 := g.lines;
    g.P([]);
    ghost var w6 := g.lines;
    g.P([Str("\""), Str(PbPkgPath(g.param)), Str("\"")]);
    ghost var w7 := g.lines;
    g.P([Str("context \"golang.org/x/net/context\"")]);
    ghost var w8 := g.lines;
    g.Out();
    g.P([Str(")")]);
    ImportsWritten(|old(g.indent)|, PbPkgPath(g.param), w0, w1, w2, w3, w4, w5, w6, w7, w8, g.lines);
  }

  method GenerateMethodInterface(g: Generator)
    requires g.Valid()
    modifies g
    ensures g.Valid() && g.indent == old(g.indent)
    ensures g.lines == old(g.lines) + Shift(|old(g.indent)|, MethodInterfaceLines())
  {
    g.P([]);
    g.P([Str("type Method func(context.Context, interface{}) (interface{}, error)")]);
  }

  method GenerateMakeHandlerFunc(g: Generator)
    requires g.Valid()
    modifies g
    ensures g.Valid() && g.indent == old(g.indent)
    ensures g.lines == old(g.lines) + Shift(|old(g.indent)|, MakeHandlerFuncLines())
  {
    g.P([]);
    g.P([Str(MakeHandlerSource)]);
  }

  lemma StructureWritten(d: nat, serviceName: string, w0: seq<Line>, w1: seq<Line>, w2: seq<Line>, w3: seq<Line>, w4: seq<Line>)
    requires w1 == w0 + [Line(d, [])]
    requires w2 == w1 + [Line(d, [Str("type "), Str(HttpServiceName(serviceName)), Str(" struct {")])]
    requires w3 == w2 + [Line(d + 1, [Str("srv pb."), Str(serviceName), Str("Server")])]
    requires w4 == w3 + [Line(d, [Str("}")])]
    ensures w4 == w0 + Shift(d, StructureLines(serviceName))
  {
  }

  method GenerateStructure(g: Generator, serviceName: string)
    requires g.Valid()
    modifies g
    ensures g.Valid() && g.indent == old(g.indent)
    ensures g.lines == old(g.lines) + Shift(|old(g.indent)|, StructureLines(serviceName))
  {
    OutUndoesIn(g.indent);
    ghost var w0 := g.lines;
    g.P([]);
    ghost var w1 := g.lines;
    g.P([Str("type "), Str(HttpServiceName(serviceName)), Str(" struct {")]);
    ghost var w2 := g.lines;
    g.In();
    g.P([Str("srv pb."), Str(serviceName), Str("Server")]);
    ghost var w3 := g.lines;
    g.Out();
    g.P([Str("}")]);
    StructureWritten(|old(g.indent)|, serviceName, w0, w1, w2, w3, g.lines);
  }

  lemma NewFuncWritten(d: nat, serviceName: string, w0: seq<Line>, w1: seq<Line>, w2: seq<Line>, w3: seq<Line>, w4: seq<Line>)
    requires w1 == w0 + [Line(d, [])]
    requires var h := HttpServiceName(serviceName);
      w2 == w1 + [Line(d, [Str("func New"), Str(h), Str("(srv pb."), Str(serviceName), Str("Server) *"), Str(h), Str(" {")])]
    requires w3 == w2 + [Line(d + 1, [Str("return &"), Str(HttpServiceName(serviceName)), Str("{srv: srv}")])]
    requires w4 == w3 + [Line(d, [Str("}")])]
    ensures w4 == w0 + Shift(d, NewFuncLines(serviceName))
  {
  }

  method GenerateNewFunc(g: Generator, serviceName: string)
    requires g.Valid()
    modifies g
    ensures g.Valid() && g.indent == old(g.indent)
    ensures g.lines == old(g.lines) + Shift(|old(g.indent)|, NewFuncLines(serviceName))
  {
    OutUndoesIn(g.indent);
    var httpServiceName := HttpServiceName(serviceName);
    ghost var w0 := g.lines;
    g.P([]);
    ghost var w1 := g.lines;
    g.P([Str("func New"), Str(httpServiceName), Str("(srv pb."), Str(serviceName), Str("Server) *"),
         Str(httpServiceName), Str(" {")]);
    ghost var w2 := g.lines;
    g.In();
    g.P([Str("return &"), Str(httpServiceName), Str("{srv: srv}")]);
    ghost var w3 := g.lines;
    g.Out();
    g.P([Str("}")]);
    NewFuncWritten(|old(g.indent)|, serviceName, w0, w1, w2, w3, g.lines);
  }

  lemma HandlerMapHeadWritten(d: nat, serviceName: string, w0: seq<Line>, w1: seq<Line>, w2: seq<Line>, w3: seq<Line>)
    requires w1 == w0 + [Line(d, [])]
    requires w2 == w1 + [Line(d, [Str("func (h *"), Str(HttpServiceName(serviceName)), Str(") HandlerMap() map[string]http.HandlerFunc {")])]
    requires w3 == w2 + [Line(d + 1, MakeMapLine.args)]
    ensures w3 == w0 + Shift(d, HandlerMapHead(serviceName))
  {
  }

  lemma RouteLinesSnoc(serviceName: string, ms: seq<MethodDesc>, i: nat, typeName: string -> string)
    requires i < |ms|
    ensures RouteLines(serviceName, ms[..i + 1], typeName)
         == RouteLines(serviceName, ms[..i], typeName) + [RouteLine(serviceName, ms[i], typeName)]
  {
    assert ms[..i + 1][..i] == ms[..i];
  }

  lemma RouteWritten(d: nat, serviceName: string, ms: seq<MethodDesc>, i: nat, typeName: string -> string,
                     w0: seq<Line>, head: seq<Line>, prev: seq<Line>, next: seq<Line>, pattern: string)
    requires i < |ms|
    requires prev == w0 + Shift(d, head + RouteLines(serviceName, ms[..i], typeName))
    requires pattern == Pattern(serviceName, ms[i].name)
    requires next == prev + [Line(d + 1, [RouteLead, Str(pattern), Str("\"] = "), Str("MakeHandler(h."), Str(ms[i].name),
                                          Str(", new(pb."), Str(typeName(ms[i].inputType)), Str("))")])]
    ensures next == w0 + Shift(d, head + RouteLines(serviceName, ms[..i + 1], typeName))
  {
    var l := RouteLine(serviceName, ms[i], typeName);
    assert next == prev + Shift(d, [l]);
    RouteLinesSnoc(serviceName, ms, i, typeName);
    SnocBlock(d, w0, head, RouteLines(serviceName, ms[..i], typeName), [l],
              RouteLines(serviceName, ms[..i + 1], typeName), prev, next);
  }

  lemma HandlerMapTailWritten(d: nat, serviceName: string, ms: seq<MethodDesc>, typeName: string -> string,
                              w0: seq<Line>, w1: seq<Line>, w2: seq<Line>, w3: seq<Line>)
    requires w1 == w0 + Shift(d, HandlerMapHead(serviceName) + RouteLines(serviceName, ms, typeName))
    requires w2 == w1 + [Line(d + 1, ReturnMapLine.args)]
    requires w3 == w2 + [Line(d, [Str("}")])]
    ensures w3 == w0 + Shift(d, HandlerMapLines(serviceName, ms, typeName))
  {
    ShiftAppend(d, HandlerMapHead(serviceName) + RouteLines(serviceName, ms, typeName), [ReturnMapLine, Line(0, [Str("}")])]);
  }

  /** Writes `HandlerMap`: one route assignment per method, in declaration order. */
  method GenerateHandlerMapMethod(g: Generator, serviceName: string, methods: seq<MethodDesc>)
    requires g.Valid()
    modifies g
    ensures g.Valid() && g.indent == old(g.indent)
    ensures g.lines == old(g.lines) + Shift(|old(g.indent)|, HandlerMapLines(serviceName, methods, g.typeName))
  {
    OutUndoesIn(g.indent);
    ghost var w0 := g.lines;
    ghost var d := |g.indent|;
    g.P([]);
    ghost var w1 := g.lines;
    g.P([Str("func (h *"), Str(HttpServiceName(serviceName)), Str(") HandlerMap() map[string]http.HandlerFunc {")]);
    ghost var w2 := g.lines;
    g.In();
    g.P(MakeMapLine.args);
    HandlerMapHeadWritten(d, serviceName, w0, w1, w2, g.lines);
    ghost var head := HandlerMapHead(serviceName);
    assert methods[..0] == [];
    var i := 0;
    while i < |methods|
      invariant 0 <= i <= |methods|
      invariant g.Valid() && g.indent == old(g.indent) + "\t"
      invariant g.lines == w0 + Shift(d, head + RouteLines(serviceName, methods[..i], g.typeName))
    {
      var inputTypeName := g.typeName(methods[i].inputType);
      var methodName := methods[i].name;
      var s := g.Underscore(serviceName);
      var m := g.Underscore(methodName);
      var pattern := "/" + s + "/" + m;
      ghost var prev := g.lines;
      g.P([RouteLead, Str(pattern), Str("\"] = "), Str("MakeHandler(h."), Str(methodName), Str(", new(pb."),
           Str(inputTypeName), Str("))")]);
      RouteWritten(d, serviceName, methods, i, g.typeName, w0, head, prev, g.lines, pattern);
      i := i + 1;
    }
    assert methods[..|methods|] == methods;
    ghost var w3 := g.lines;
    g.P(ReturnMapLine.args);
    ghost var w4 := g.lines;
    g.Out();
    g.P([Str("}")]);
    HandlerMapTailWritten(d, serviceName, methods, g.typeName, w0, w3, w4, g.lines);
  }

  lemma WrapperWritten(d: nat, serviceName: string, m: MethodDesc, typeName: string -> string,
                       w0: seq<Line>, w1: seq<Line>, w2: seq<Line>, w3: seq<Line>, w4: seq<Line>)
    requires w1 == w0 + [Line(d, [])]
    requires w2 == w1 + [Line(d, [Str("func (h *"), Str(HttpServiceName(serviceName)), Str(") "), StrRef(m.name),
                                  Str("(ctx context.Context, in interface{}) (interface{}, error) {")])]
    requires w3 == w2 + [Line(d + 1, [DelegateLead, StrRef(m.name), Str("(ctx, in.(*pb."), Str(typeName(m.inputType)), Str("))")])]
    requires w4 == w3 + [Line(d, [Str("}")])]
    ensures w4 == w0 + Shift(d, WrapperLines(serviceName, m, typeName))
  {
  }

  lemma WrappersStep(d: nat, serviceName: string, ms: seq<MethodDesc>, i: nat, typeName: string -> string,
                     w0: seq<Line>, prev: seq<Line>, next: seq<Line>)
    requires i < |ms|
    requires prev == w0 + Shift(d, WrappersLines(serviceName, ms[..i], typeName))
    requires next == prev + Shift(d, WrapperLines(serviceName, ms[i], typeName))
    ensures next == w0 + Shift(d, WrappersLines(serviceName, ms[..i + 1], typeName))
  {
    assert ms[..i + 1][..i] == ms[..i];
    ShiftAppend(d, WrappersLines(serviceName, ms[..i], typeName), WrapperLines(serviceName, ms[i], typeName));
  }

  /** Writes one wrapper per method, in declaration order. */
  method GenerateWrapperMethods(g: Generator, serviceName: string, methods: seq<MethodDesc>)
    requires g.Valid()
    modifies g
    ensures g.Valid() && g.indent == old(g.indent)
    ensures g.lines == old(g.lines) + Shift(|old(g.indent)|, WrappersLines(serviceName, methods, g.typeName))
  {
    OutUndoesIn(g.indent);
    ghost var w0 := g.lines;
    ghost var d := |g.indent|;
    assert methods[..0] == [];
    var i := 0;
    while i < |methods|
      invariant 0 <= i <= |methods|
      invariant g.Valid() && g.indent == old(g.indent)
      invariant g.lines == w0 + Shift(d, WrappersLines(serviceName, methods[..i], g.typeName))
    {
      var inputTypeName := g.typeName(methods[i].inputType);
      ghost var prev := g.lines;
      g.P([]);
      ghost var w1 := g.lines;
      g.P([Str("func (h *"), Str(HttpServiceName(serviceName)), Str(") "), StrRef(methods[i].name),
           Str("(ctx context.Context, in interface{}) (interface{}, error) {")]);
      ghost var w2 := g.lines;
      g.In();
      g.P([DelegateLead, StrRef(methods[i].name), Str("(ctx, in.(*pb."), Str(inputTypeName), Str("))")]);
      ghost var w3 := g.lines;
      g.Out();
      g.P([Str("}")]);
      WrapperWritten(d, serviceName, methods[i], g.typeName, prev, w1, w2, w3, g.lines);
      WrappersStep(d, serviceName, methods, i, g.typeName, w0, prev, g.lines);
      i := i + 1;
    }
    assert methods[..|methods|] == methods;
  }

  method GenerateHTTPService(g: Generator, serviceName: string, methods: seq<MethodDesc>)
    requires g.Valid()
    modifies g
    ensures g.Valid() && g.indent == old(g.indent)
    ensures g.lines == old(g.lines) + Shift(|old(g.indent)|, ServiceLines(serviceName, methods, g.typeName))
  {
    ghost var d := |g.indent|;
    ghost var w0 := g.lines;
    GenerateStructure(g, serviceName);
    ghost var w1 := g.lines;
    GenerateNewFunc(g, serviceName);
    ghost var w2 := g.lines;
    GenerateHandlerMapMethod(g, serviceName, methods);
    ghost var w3 := g.lines;
    GenerateWrapperMethods(g, serviceName, methods);
    ghost var a := StructureLines(serviceName);
    ghost var b := NewFuncLines(serviceName);
    ghost var c := HandlerMapLines(serviceName, methods, g.typeName);
    ShiftBlocks(d, w0, w1, w2, a, b);
    ShiftBlocks(d, w0, w2, w3, a + b, c);
    ShiftBlocks(d, w0, w3, g.lines, a + b + c, WrappersLines(serviceName, methods, g.typeName));
  }

  lemma SnocBlock(d: nat, w0: seq<Line>, head: seq<Line>, a: seq<Line>, b: seq<Line>, c: seq<Line>,
                  prev: seq<Line>, next: seq<Line>)
    requires prev == w0 + Shift(d, head + a) && next == prev + Shift(d, b) && c == a + b
    ensures next == w0 + Shift(d, head + c)
  {
    ShiftAppend(d, head + a, b);
    assert head + a + b == head + c;
  }

  lemma ServicesLinesSnoc(services: seq<ServiceDesc>, i: nat, typeName: string -> string, camelCase: string -> string)
    requires i < |services|
    ensures ServicesLines(services[..i + 1], typeName, camelCase)
         == ServicesLines(services[..i], typeName, camelCase)
            + ServiceLines(camelCase(services[i].name), services[i].methods, typeName)
  {
    assert services[..i + 1][..i] == services[..i];
  }

  lemma ServicesStep(d: nat, services: seq<ServiceDesc>, i: nat, typeName: string -> string, camelCase: string -> string,
                     w0: seq<Line>, prev: seq<Line>, next: seq<Line>)
    requires i < |services|
    requires prev == w0 + Shift(d, ServicesLines(services[..i], typeName, camelCase))
    requires next == prev + Shift(d, ServiceLines(camelCase(services[i].name), services[i].methods, typeName))
    ensures next == w0 + Shift(d, ServicesLines(services[..i + 1], typeName, camelCase))
  {
    ServicesLinesSnoc(services, i, typeName, camelCase);
    ShiftAppend(d, ServicesLines(services[..i], typeName, camelCase),
                ServiceLines(camelCase(services[i].name), services[i].methods, typeName));
  }

  /** The first three steps of `Make`. */
  method GenerateHead(g: Generator)
    requires g.Valid()
    modifies g
    ensures g.Valid() && g.indent == old(g.indent)
    ensures g.lines == old(g.lines) + Shift(|old(g.indent)|, HeadLines(PbPkgPath(g.param)))
  {
    ghost var d := |g.indent|;
    ghost var w0 := g.lines;
    GenerateImports(g);
    ghost var w1 := g.lines;
    GenerateMethodInterface(g);
    ghost var w2 := g.lines;
    GenerateMakeHandlerFunc(g);
    ghost var imports := ImportsLines(PbPkgPath(g.param));
    ShiftBlocks(d, w0, w1, w2, imports, MethodInterfaceLines());
    ShiftBlocks(d, w0, w2, g.lines, imports + MethodInterfaceLines(), MakeHandlerFuncLines());
  }

  /** The loop of `Make` over the file's services, in declaration order. */
  method GenerateServices(g: Generator, services: seq<ServiceDesc>)
    requires g.Valid()
    modifies g
    ensures g.Valid() && g.indent == old(g.indent)
    ensures g.lines == old(g.lines) + Shift(|old(g.indent)|, ServicesLines(services, g.typeName, g.camelCase))
  {
    ghost var d := |g.indent|;
    ghost var w0 := g.lines;
    assert services[..0] == [];
    var i := 0;
    while i < |services|
      invariant 0 <= i <= |services|
      invariant g.Valid() && g.indent == old(g.indent)
      invariant g.lines == w0 + Shift(d, ServicesLines(services[..i], g.typeName, g.camelCase))
    {
      var serviceName := g.camelCase(services[i].name);
      ghost var prev := g.lines;
      GenerateHTTPService(g, serviceName, services[i].methods);
      ServicesStep(d, services, i, g.typeName, g.camelCase, w0, prev, g.lines);
      i := i + 1;
    }
    assert services[..|services|] == services;
  }

  /** `validateParameters`: `pb_pkg_path` must be given. */
  function ValidateParameters(param: map<string, string>): (r: Option<Error>)
    ensures r.None? <==> PbPkgPathKey in param
    ensures r.Some? ==> r.value == MissingPbPkgPath
  {
    if PbPkgPathKey in param then None else Some(MissingPbPkgPath)
  }

  /** `Make`: fails without writing anything when `pb_pkg_path` is missing; otherwise writes
      the imports, the method type, `MakeHandler` and every service in declaration order, and
      returns a file named after the proto file holding the whole buffer. */
  method Make(g: Generator, protoFile: ProtoFile) returns (r: Result<File, Error>)
    requires g.Valid()
    modifies g
    ensures g.Valid() && g.indent == old(g.indent)
    ensures PbPkgPathKey !in g.param ==> r == Err(MissingPbPkgPath) && g.lines == old(g.lines)
    ensures PbPkgPathKey in g.param ==>
      && g.lines == old(g.lines) + Shift(|old(g.indent)|, FileLines(protoFile, PbPkgPath(g.param), g.typeName, g.camelCase))
      && r == Ok(File(GoFileName(protoFile.name), g.String()))
  {
    var invalid := ValidateParameters(g.param);
    if invalid.Some? {
      return Err(invalid.value);
    }
    ghost var d := |g.indent|;
    ghost var w0 := g.lines;
    GenerateHead(g);
    ghost var w1 := g.lines;
    GenerateServices(g, protoFile.services);
    ShiftBlocks(d, w0, w1, g.lines, HeadLines(PbPkgPath(g.param)), ServicesLines(protoFile.services, g.typeName, g.camelCase));
    return Ok(File(GoFileName(protoFile.name), g.String()));
  }

  // ---------------------------------------------------------------- the per-file loop

  lemma AllLinesSnoc(fs: seq<ProtoFile>, i: nat, file: ProtoFile -> seq<Line>)
    requires i < |fs|
    ensures AllLines(fs[..i + 1], file) == AllLines(fs[..i], file) + file(fs[i])
  {
    assert fs[..i + 1][..i] == fs[..i];
  }

  lemma {:induction false} AllLinesAppend(a: seq<ProtoFile>, b: seq<ProtoFile>, file: ProtoFile -> seq<Line>)
    ensures AllLines(a + b, file) == AllLines(a, file) + AllLines(b, file)
    decreases |b|
  {
    if b == [] {
      assert a + b == a;
    } else {
      var b' := b[..|b| - 1];
      assert (a + b)[..|a + b| - 1] == a + b';
      assert (a + b)[|a + b| - 1] == b[|b| - 1];
      AllLinesAppend(a, b', file);
    }
  }

  lemma OutputsSnoc(w0: seq<Line>, d: nat, fs: seq<ProtoFile>, i: nat, file: ProtoFile -> seq<Line>)
    requires i < |fs|
    ensures Outputs(w0, d, fs[..i + 1], file)
            == Outputs(w0, d, fs[..i], file) + [File(GoFileName(fs[i].name), Render(w0 + Shift(d, AllLines(fs[..i + 1], file))))]
  {
    assert fs[..i + 1][..i] == fs[..i];
  }

  lemma GenerateStep(d: nat, fs: seq<ProtoFile>, i: nat, file: ProtoFile -> seq<Line>,
                     w0: seq<Line>, prev: seq<Line>, next: seq<Line>)
    requires i < |fs|
    requires prev == w0 + Shift(d, AllLines(fs[..i], file))
    requires next == prev + Shift(d, file(fs[i]))
    ensures next == w0 + Shift(d, AllLines(fs[..i + 1], file))
  {
    AllLinesSnoc(fs, i, file);
    ShiftAppend(d, AllLines(fs[..i], file), file(fs[i]));
  }

  /** `generate`: `Make` on every proto file of the request, in order, collecting the files;
      the first error ends the loop and is returned with the files made so far. The only
      error `Make` has is the missing parameter, which stops the very first file. */
  method Generate(g: Generator, protoFiles: seq<ProtoFile>) returns (files: seq<File>, err: Option<Error>)
    requires g.Valid()
    modifies g
    ensures g.Valid() && g.indent == old(g.indent)
    ensures PbPkgPathKey !in g.param && protoFiles != [] ==>
      files == [] && err == Some(MissingPbPkgPath) && g.lines == old(g.lines)
    ensures PbPkgPathKey in g.param || protoFiles == [] ==>
      var file := FileOf(PbPkgPath(g.param), g.typeName, g.camelCase);
      && err == None
      && g.lines == old(g.lines) + Shift(|old(g.indent)|, AllLines(protoFiles, file))
      && files == Outputs(old(g.lines), |old(g.indent)|, protoFiles, file)
  {
    ghost var d := |g.indent|;
    ghost var w0 := g.lines;
    ghost var file := FileOf(PbPkgPath(g.param), g.typeName, g.camelCase);
    files := [];
    var i := 0;
    assert protoFiles[..0] == [];
    while i < |protoFiles|
      invariant 0 <= i <= |protoFiles|
      invariant g.Valid() && g.indent == old(g.indent)
      invariant i > 0 ==> PbPkgPathKey in g.param
      invariant g.lines == w0 + Shift(d, AllLines(protoFiles[..i], file))
      invariant files == Outputs(w0, d, protoFiles[..i], file)
    {
      ghost var prev := g.lines;
      var r := Make(g, protoFiles[i]);
      if r.Err? {
        return files, Some(r.error);
      }
      GenerateStep(d, protoFiles, i, file, w0, prev, g.lines);
      OutputsSnoc(w0, d, protoFiles, i, file);
      files := files + [r.value];
      i := i + 1;
    }
    assert protoFiles[..|protoFiles|] == protoFiles;
    return files, None;
  }

  /** One response file per proto file, in request order, each named after its proto file. */
  lemma OutputsNamed(w0: seq<Line>, d: nat, fs: seq<ProtoFile>, file: ProtoFile -> seq<Line>, i: nat)
    requires i < |fs|
    ensures var out := Outputs(w0, d, fs, file);
      && |out| == |fs|
      && out[i].name == GoFileName(fs[i].name)
      && out[i].name[|out[i].name| - |HttpGoSuffix|..] == HttpGoSuffix
  {
    OutputAt(w0, d, fs, file, i);
  }

  /** Since the buffer is never emptied between files, file j holds file i's text (i < j) and
      after it everything the files in between wrote. */
  lemma OutputsAccumulate(w0: seq<Line>, d: nat, fs: seq<ProtoFile>, file: ProtoFile -> seq<Line>, i: nat, j: nat)
    requires i < j < |fs|
    ensures var out := Outputs(w0, d, fs, file);
      out[j].content == out[i].content + Render(Shift(d, AllLines(fs[i + 1..j + 1], file)))
  {
    OutputAt(w0, d, fs, file, i);
    OutputAt(w0, d, fs, file, j);
    AllLinesSplit(fs, i, j, file);
    RenderGrows(w0, d, AllLines(fs[..i + 1], file), AllLines(fs[i + 1..j + 1], file));
  }

  /** What output file k is: named after proto file k, holding the buffer as it is after it. */
  lemma {:induction false} OutputAt(w0: seq<Line>, d: nat, fs: seq<ProtoFile>, file: ProtoFile -> seq<Line>, k: nat)
    requires k < |fs|
    ensures Outputs(w0, d, fs, file)[k] == File(GoFileName(fs[k].name), Render(w0 + Shift(d, AllLines(fs[..k + 1], file))))
    decreases |fs|
  {
    if k == |fs| - 1 {
      assert fs[..k + 1] == fs;
    } else {
      var fs' := fs[..|fs| - 1];
      OutputAt(w0, d, fs', file, k);
      assert fs'[..k + 1] == fs[..k + 1];
    }
  }

  /** The lines of the first j + 1 files are those of the first i + 1 and then of the rest. */
  lemma AllLinesSplit(fs: seq<ProtoFile>, i: nat, j: nat, file: ProtoFile -> seq<Line>)
    requires i < j < |fs|
    ensures AllLines(fs[..j + 1], file) == AllLines(fs[..i + 1], file) + AllLines(fs[i + 1..j + 1], file)
  {
    assert fs[..j + 1] == fs[..i + 1] + fs[i + 1..j + 1];
    AllLinesAppend(fs[..i + 1], fs[i + 1..j + 1], file);
  }

  /** Writing `y` after `x` at the same depth extends the text by `y`'s text. */
  lemma RenderGrows(w0: seq<Line>, d: nat, x: seq<Line>, y: seq<Line>)
    ensures Render(w0 + Shift(d, x + y)) == Render(w0 + Shift(d, x)) + Render(Shift(d, y))
  {
    ShiftAppend(d, x, y);
    assert w0 + Shift(d, x + y) == (w0 + Shift(d, x)) + Shift(d, y);
    RenderAppend(w0 + Shift(d, x), Shift(d, y));
  }

  /** From an empty buffer at no indent, the second of two files holds both files' text. */
  lemma SecondOutput(f0: ProtoFile, f1: ProtoFile, file: ProtoFile -> seq<Line>)
    ensures Outputs([], 0, [f0, f1], file)[1].content == Render(file(f0)) + Render(file(f1))
  {
    var fs := [f0, f1];
    OutputAt([], 0, fs, file, 1);
    assert fs[..2] == fs;
    assert AllLines([f0], file) == file(f0) by {
      assert [f0][..0] == [];
    }
    assert AllLines(fs, file) == file(f0) + file(f1) by {
      assert fs[..1] == [f0];
    }
    ShiftZero(file(f0) + file(f1));
    assert [] + Shift(0, AllLines(fs, file)) == file(f0) + file(f1);
    RenderAppend(file(f0), file(f1));
  }

  lemma RenderPackageLine()
    ensures RenderLine(PackageLine) == PackageClause
  {
    assert [Str("package http")][..0] == [];
  }

  /** Every file `Make` writes opens with the package clause. */
  lemma FileStartsWithPackage(f: ProtoFile, pbPkgPath: string, typeName: string -> string, camelCase: string -> string)
    ensures OpensPackage(Render(FileLines(f, pbPkgPath, typeName, camelCase)))
  {
    var ls := FileLines(f, pbPkgPath, typeName, camelCase);
    RenderStartsWith(ls);
    RenderPackageLine();
  }

  /** Opens with the package clause. */
  predicate OpensPackage(t: string)
  {
    |t| >= |PackageClause| && t[..|PackageClause|] == PackageClause
  }

  lemma SecondOutputRepeats(f0: ProtoFile, f1: ProtoFile, file: ProtoFile -> seq<Line>)
    requires OpensPackage(Render(file(f0))) && OpensPackage(Render(file(f1)))
    ensures var c := Outputs([], 0, [f0, f1], file)[1].content;
      var n := |Render(file(f0))|;
      && c == Render(file(f0)) + Render(file(f1))
      && OpensPackage(c) && OpensPackage(c[n..])
  {
    SecondOutput(f0, f1, file);
    var a := Render(file(f0));
    var b := Render(file(f1));
    PrefixOfAppend(a, b, |PackageClause|);
    assert (a + b)[|a|..] == b;
  }

  /** The second of two files made from a fresh generator holds two package clauses, the
      first file's and its own after it: it is not a valid Go source file. */
  lemma SecondFileRepeatsPackageClause(f0: ProtoFile, f1: ProtoFile, pbPkgPath: string,
                                       typeName: string -> string, camelCase: string -> string)
    ensures var file := FileOf(pbPkgPath, typeName, camelCase);
      var c := Outputs([], 0, [f0, f1], file)[1].content;
      var n := |Render(file(f0))|;
      && c == Render(file(f0)) + Render(file(f1))
      && OpensPackage(c) && OpensPackage(c[n..])
  {
    FileStartsWithPackage(f0, pbPkgPath, typeName, camelCase);
    FileStartsWithPackage(f1, pbPkgPath, typeName, camelCase);
    SecondOutputRepeats(f0, f1, FileOf(pbPkgPath, typeName, camelCase));
  }

  // ---------------------------------------------------------------- one buffer per file

  /** The files `generate` would return if the buffer were emptied before each `Make`: file i
      holds only what was written for proto file i. */
  function SeparateOutputs(d: nat, fs: seq<ProtoFile>, file: ProtoFile -> seq<Line>): (r: seq<File>)
    ensures |r| == |fs|
  {
    seq(|fs|, i requires 0 <= i < |fs| => File(GoFileName(fs[i].name), Render(Shift(d, file(fs[i])))))
  }

  /** Each file depends on its own proto file only: making a request in two parts gives the
      same files. */
  lemma SeparateOutputsAppend(d: nat, a: seq<ProtoFile>, b: seq<ProtoFile>, file: ProtoFile -> seq<Line>)
    ensures SeparateOutputs(d, a + b, file) == SeparateOutputs(d, a, file) + SeparateOutputs(d, b, file)
  {
    var l := SeparateOutputs(d, a + b, file);
    var r := SeparateOutputs(d, a, file) + SeparateOutputs(d, b, file);
    forall k | 0 <= k < |a + b|
      ensures l[k] == r[k]
    {
      if k < |a| {
        assert (a + b)[k] == a[k];
      } else {
        assert (a + b)[k] == b[k - |a|];
      }
    }
  }

  /** At no indent every file holds one package clause, at its start. */
  lemma SeparateOutputsOpenWithPackage(fs: seq<ProtoFile>, pbPkgPath: string,
                                       typeName: string -> string, camelCase: string -> string, i: nat)
    requires i < |fs|
    ensures OpensPackage(SeparateOutputs(0, fs, FileOf(pbPkgPath, typeName, camelCase))[i].content)
  {
    ShiftZero(FileLines(fs[i], pbPkgPath, typeName, camelCase));
    FileStartsWithPackage(fs[i], pbPkgPath, typeName, camelCase);
  }

  /** From a buffer reset as `sideEffect` leaves it, the first file is the same either way. */
  lemma FirstOutputAgrees(d: nat, fs: seq<ProtoFile>, file: ProtoFile -> seq<Line>)
    requires fs != []
    ensures Outputs([], d, fs, file)[0] == SeparateOutputs(d, fs, file)[0]
  {
    OutputAt([], d, fs, file, 0);
    assert fs[..1] == [fs[0]];
    assert [fs[0]][..0] == [];
    assert AllLines(fs[..1], file) == file(fs[0]);
    assert [] + Shift(d, file(fs[0])) == Shift(d, file(fs[0]));
  }

  lemma SeparateStep(d: nat, fs: seq<ProtoFile>, i: nat, file: ProtoFile -> seq<Line>, files: seq<File>, f: File)
    requires i < |fs|
    requires files == SeparateOutputs(d, fs[..i], file)
    requires f == File(GoFileName(fs[i].name), Render([] + Shift(d, file(fs[i]))))
    ensures files + [f] == SeparateOutputs(d, fs[..i + 1], file)
  {
    assert [] + Shift(d, file(fs[i])) == Shift(d, file(fs[i]));
    assert SeparateOutputs(d, [fs[i]], file) == [f];
    SeparateOutputsAppend(d, fs[..i], [fs[i]], file);
    assert fs[..i] + [fs[i]] == fs[..i + 1];
  }

  /** `generate` with the buffer emptied before every `Make`. */
  method GenerateSeparately(g: Generator, protoFiles: seq<ProtoFile>) returns (files: seq<File>, err: Option<Error>)
    requires g.Valid()
    modifies g
    ensures g.Valid() && g.indent == old(g.indent)
    ensures PbPkgPathKey !in g.param && protoFiles != [] ==> files == [] && err == Some(MissingPbPkgPath)
    ensures PbPkgPathKey in g.param || protoFiles == [] ==>
      err == None && files == SeparateOutputs(|old(g.indent)|, protoFiles, FileOf(PbPkgPath(g.param), g.typeName, g.camelCase))
  {
    ghost var d := |g.indent|;
    ghost var file := FileOf(PbPkgPath(g.param), g.typeName, g.camelCase);
    files := [];
    var i := 0;
    while i < |protoFiles|
      invariant 0 <= i <= |protoFiles|
      invariant g.Valid() && g.indent == old(g.indent)
      invariant i > 0 ==> PbPkgPathKey in g.param
      invariant files == SeparateOutputs(d, protoFiles[..i], file)
    {
      g.Reset();
      var r := Make(g, protoFiles[i]);
      if r.Err? {
        return files, Some(r.error);
      }
      SeparateStep(d, protoFiles, i, file, files, r.value);
      files := files + [r.value];
      i := i + 1;
    }
    assert protoFiles[..|protoFiles|] == protoFiles;
    return files, None;
  }
}
