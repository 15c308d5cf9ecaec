# protoc-gen-gohttp, modelled in Dafny

protoc-gen-gohttp is a `protoc` plugin. For every service of a proto file it writes a Go file
holding an HTTP gateway: a `<Service>HTTP` type, its constructor, and a `HandlerMap` with one
route per RPC method, at `"/" + Underscore(service) + "/" + Underscore(method)`. It also writes
one wrapper per method, which delegates to the gRPC server. This project models three parts of
the plugin and proves properties about each:

- **The shared base generator** (`Base`, `Camel`, `GoStd`).
  - The emitter state: an indent of tab stops and an output buffer. `P` writes one line,
    `In` and `Out` move the indent.
  - `Underscore`, which splits an identifier into words using the `camel` regular
    expression. `Camel` is a scanner that follows Go's leftmost-first regexp semantics and
    the match-dropping rules of `FindAllStringSubmatch`.
  - The `generate` loop over proto files.
- **The gohttp generator** (`GoHttp`).
  - Output file names, type names and routes.
  - Every block of lines it emits, stated as a value (`seq<Line>`), with the emission methods
    proved to append exactly those lines.
  - `validateParameters`, `Make`, and the per-file loop.
- **The generated gateway for the `Greeter` example** (`HelloworldHttp`).
  - The handler's status decision.
  - The interceptor-or-direct dispatch of `SayHello`.
  - The route map and its registration into the multiplexer.
  - `NewServer`'s limit of at most one interceptor.

The emitter is a class, `Base.Generator`. Its buffer is held as the lines written to it, one
`Line(depth, args)` per `P` call, and the bytes are `String() == Render(lines)`.
`Base.PWrites` spells out the bytes `P` appends: the indent, each argument in order, then a
newline.

Every emission method of `GoHttp` ensures
`g.lines == old(g.lines) + Shift(|old(g.indent)|, XLines(...))`, where `XLines` is the block
that step writes. The lemmas about these blocks read structure back out of the lines:

- `Routes` reads the `m["<route>"] = ...` assignments.
- `Delegates` reads the `return h.srv.<Method>(...)` calls.

So one route and one wrapper per method, in declaration order, is proved about the
generator's output itself.

Two behaviours of the code are surprising, and the model follows the code in both:

- `Underscore` can drop characters. A leading run of characters outside `[A-Z0-9]` is kept
  as group 1 of the first match only if group 2 can follow it, that is, if the first
  `[A-Z0-9]` after it is followed by a character that is not upper case (`"sayHello"` keeps
  `"say"`). When that character is the last one, or is followed by another upper-case
  letter, nothing matches at the start and the run is lost: `"aB"` gives `"b"` and `"a1"`
  gives `"1"`, so two method names can share one route (`GoHttp.PatternsCollide`).
- `generate` runs over every file of the request (`request.ProtoFile`), not only over those
  named in `FileToGenerate`. A file with no service still gets an output file.

## Model

| member | source | states |
|---|---|---|
| GoStd.ToLower | base/generator.go:135 | ASCII upper-case letters are lowered one for one; every other character is kept; the length does not change |
| GoStd.ToLowerNoUpper | base/generator.go:135 | the lowered text has no upper-case letter |
| GoStd.JoinChars | base/generator.go:135 | every character of a join is a character of the separator or of one of the pieces |
| GoStd.Ext | protoc-gen-gohttp/generator/generator.go:24 | `path.Ext` is a suffix of the name; when non-empty it begins with '.' and holds no other '.' or '/' |
| GoStd.ExtOfSuffix | protoc-gen-gohttp/generator/generator.go:24 | a final ".x" segment with no '.' or '/' after its dot is the extension, whatever precedes it |
| Camel.MatchAtSound | base/generator.go:18 | a match `MatchAt` finds at a position starts there and is a match of the expression: group 1 is a run of `[^A-Z0-9]` at the start of the text or a run of `[A-Z0-9]`; group 2 is one `[A-Z0-9]` and at least one character that is not upper case, or is empty at the end of the text |
| Camel.MatchAtPreferred | base/generator.go:18 | whenever the expression matches at a position, `MatchAt` finds a match there, and it is the one leftmost-first backtracking prefers: first alternative of group 1 before the second, then longer group 1, then longer group 2 |
| Camel.MatchAtComplete | base/generator.go:18 | `MatchAt` finds nothing exactly when no match of the expression starts at the position |
| Camel.Search | base/generator.go:18 | the match `MatchAt` finds at the first position, at or after the given one, where it finds one; it finds none before that |
| Camel.SearchLeftmost | base/generator.go:18 | no match of the expression starts between the position and the match `Search` returns |
| Camel.FindFrom | base/generator.go:126 | successive matches are well formed, non-overlapping and in increasing order |
| Camel.FindAll | base/generator.go:126 | `FindAllStringSubmatch(s, -1)`: matches are well formed and disjoint, in order |
| Camel.FindAllMatches | base/generator.go:126 | every reported match is a match of the expression |
| Camel.PiecesParts | base/generator.go:127-134 | the kept groups are all non-empty and made of characters of the input |
| Camel.UnderscoredNoUpper | base/generator.go:135 | the path segment has no ASCII upper-case letter |
| Camel.UnderscoredChars | base/generator.go:125-136 | every character of the segment is '_' or the lowered form of an input character |
| Camel.UnderscoredOfLower | base/generator.go:125-136 | an identifier with no upper-case letter and no digit is its own segment |
| Camel.UnderscoredIdempotent | base/generator.go:125-136 | without digits, mangling a segment again changes nothing |
| Camel.UnderscoreSayHello | base/generator.go:125-136 | `Underscore("SayHello") == "say_hello"` |
| Camel.UnderscoreSayHelloLower | base/generator.go:125-136 | `Underscore("sayHello") == "say_hello"` |
| Camel.UnderscoreHTTPServer | base/generator.go:125-136 | `Underscore("HTTPServer") == "http_server"` |
| Camel.UnderscoreGreeter | base/generator.go:125-136 | `Underscore("Greeter") == "greeter"` |
| Camel.FindAllLowerThenUpper | base/generator.go:18 | on "aB" the only reported match is "B": the leading "a" belongs to no match |
| Camel.FindAllLowerThenDigit | base/generator.go:18 | on "a1" the only reported match is "1" |
| Camel.FindAllSingleUpper | base/generator.go:18 | on "B" the single match covers "B" |
| Camel.UnderscoreDropsLowerPrefix | base/generator.go:125-136 | "aB" and "B" both give "b", and "a1" gives "1": input characters can be lost |
| Camel.UnderscoreLowerThenUpper | base/generator.go:125-136 | `Underscore("aB") == "b"` |
| Camel.UnderscoreSingleUpper | base/generator.go:125-136 | `Underscore("B") == "b"` |
| Camel.UnderscoreLowerThenDigit | base/generator.go:125-136 | `Underscore("a1") == "1"` |
| Base.Outdented | base/generator.go:76-80 | `Out` shortens a non-empty indent by one and leaves an empty one empty |
| Base.OutUndoesIn | base/generator.go:73-80 | on an indent of tabs, `Out` after `In` restores the indent, and `In` keeps it all tabs |
| Base.OutUndoesInOnlyOnTabs | base/generator.go:73-80 | conversely, if `Out` undoes `In` then the indent is all tabs (`Out` drops the first character, not the last) |
| Base.RenderAppend | base/generator.go:43-70 | the text of two blocks written one after the other is the two texts concatenated |
| Base.RenderShift | base/generator.go:43-70 | a block written d tab stops deeper is the same block with d tabs before each line |
| Base.RenderLineCount | base/generator.go:69 | each `P` call writes one newline of its own after the newlines its arguments hold, so the text holds the number of calls plus the arguments' newlines |
| Base.RenderLineCountPlain | base/generator.go:69 | when no argument holds a newline, the text has exactly one line per `P` call (the `MakeHandler` template is the one call whose argument has several lines) |
| Base.PWrites | base/generator.go:43-70 | one `P` call appends the indent, the arguments' text in order and '\n', and keeps what was there |
| Base.Generator.constructor | base/generator.go:33-39 | a new generator has no indent and an empty buffer |
| Base.Generator.Reset | base/generator.go:122 | the buffer is emptied |
| Base.Generator.P | base/generator.go:43-70 | appends exactly one line at the current indent; the indent is unchanged |
| Base.Generator.In | base/generator.go:73 | the indent gains one tab |
| Base.Generator.Out | base/generator.go:76-80 | the indent loses its first character when non-empty; it stays all tabs |
| Base.Generator.Underscore | base/generator.go:125-136 | the loop over matches returns `Camel.Underscored(s)`, with no upper-case letter, and touches no generator state |
| GoHttp.GoFileName | protoc-gen-gohttp/generator/generator.go:22-29 | the output name always ends in ".http.go" |
| GoHttp.GoFileNameOfProto | protoc-gen-gohttp/generator/generator.go:22-29 | "x.proto" and "x.protodevel" both become "x.http.go" |
| GoHttp.GoFileNameKeeps | protoc-gen-gohttp/generator/generator.go:22-29 | the name is kept whole if and only if its extension is neither of the two |
| GoHttp.GoFileNameHelloworld | protoc-gen-gohttp/generator/generator.go:22-29 | "helloworld.proto" becomes "helloworld.http.go" |
| GoHttp.GoFileNameOtherExtension | protoc-gen-gohttp/generator/generator.go:22-29 | only the last extension counts: "greeter.proto.bak" is kept whole, giving "greeter.proto.bak.http.go" |
| GoHttp.HttpServiceName | protoc-gen-gohttp/generator/generator.go:31-33 | the type name is the service name followed by "HTTP" |
| GoHttp.HttpServiceNameInjective | protoc-gen-gohttp/generator/generator.go:31-33 | distinct services get distinct type names |
| GoHttp.PatternShape | protoc-gen-gohttp/generator/generator.go:117 | a route starts with '/', has no upper-case letter, and has a second '/' right after the service's segment |
| GoHttp.PatternsCollide | protoc-gen-gohttp/generator/generator.go:117 | methods "aB" and "B" of one service get the same route "/greeter/b" |
| GoHttp.PatternSayHello | protoc-gen-gohttp/generator/generator.go:117 | Greeter.SayHello is routed at "/greeter/say_hello" |
| GoHttp.Patterns | protoc-gen-gohttp/generator/generator.go:114-119 | one route per method, in declaration order |
| GoHttp.ImportsLines | protoc-gen-gohttp/generator/generator.go:35-47 | the import block is nine lines and opens with the package clause |
| GoHttp.FileLines | protoc-gen-gohttp/generator/generator.go:144-153 | what `Make` writes for a file opens with the package clause |
| GoHttp.RouteLines | protoc-gen-gohttp/generator/generator.go:114-119 | one assignment line per method, line i for method i |
| GoHttp.RouteOfRouteLine | protoc-gen-gohttp/generator/generator.go:118 | the line for a method assigns that method's route, and delegates nothing |
| GoHttp.RouteLinesRoutes | protoc-gen-gohttp/generator/generator.go:114-119 | read back, the assignment lines register exactly the methods' routes, in order |
| GoHttp.HandlerMapLayout | protoc-gen-gohttp/generator/generator.go:108-124 | `HandlerMap` has the `make` line, then one route assignment per method in order, then `return m`; no other line assigns a route |
| GoHttp.HandlerMapRoutes | protoc-gen-gohttp/generator/generator.go:108-124 | the whole `HandlerMap` block registers exactly the methods' routes in order, and delegates nothing |
| GoHttp.WrapperDelegates | protoc-gen-gohttp/generator/generator.go:129-134 | a wrapper delegates exactly once, to its own method, and registers no route |
| GoHttp.WrappersLayout | protoc-gen-gohttp/generator/generator.go:126-136 | lines 4i..4i+3 are the wrapper of method i, whose delegation line calls `h.srv.<method i>`; all delegations in order are the method names; no route |
| GoHttp.ServiceRoutes | protoc-gen-gohttp/generator/generator.go:82-87 | a service's output registers exactly its routes and delegates to exactly its methods, in order |
| GoHttp.ServicesRoutes | protoc-gen-gohttp/generator/generator.go:150-153 | the services' output registers each service's routes, service after service |
| GoHttp.FileRoutes | protoc-gen-gohttp/generator/generator.go:144-153 | a generated file registers one route per method of each service in declaration order, and nothing else |
| GoHttp.GenerateImports | protoc-gen-gohttp/generator/generator.go:35-47 | appends exactly the import block, indented one stop inside `import (`; the indent is restored |
| GoHttp.GenerateMethodInterface | protoc-gen-gohttp/generator/generator.go:49-52 | appends exactly the `Method` type declaration |
| GoHttp.GenerateMakeHandlerFunc | protoc-gen-gohttp/generator/generator.go:54-80 | appends exactly the `MakeHandler` template |
| GoHttp.GenerateStructure | protoc-gen-gohttp/generator/generator.go:89-96 | appends exactly the `<Service>HTTP` struct |
| GoHttp.GenerateNewFunc | protoc-gen-gohttp/generator/generator.go:98-106 | appends exactly the `New<Service>HTTP` constructor |
| GoHttp.GenerateHandlerMapMethod | protoc-gen-gohttp/generator/generator.go:108-124 | the loop appends exactly `HandlerMapLines` for the methods in order, the routes built with `Underscore` |
| GoHttp.GenerateWrapperMethods | protoc-gen-gohttp/generator/generator.go:126-136 | the loop appends exactly one wrapper per method, in order |
| GoHttp.GenerateHTTPService | protoc-gen-gohttp/generator/generator.go:82-87 | appends struct, constructor, route map and wrappers, in that order |
| GoHttp.GenerateServices | protoc-gen-gohttp/generator/generator.go:150-153 | the loop appends each service's block in declaration order, each service named by `CamelCase` |
| GoHttp.ValidateParameters | protoc-gen-gohttp/generator/generator.go:138-142 | fails if and only if `pb_pkg_path` is absent, with the plugin's message |
| GoHttp.Make | protoc-gen-gohttp/generator/generator.go:144-159 | without `pb_pkg_path` it fails having written nothing; otherwise it appends `FileLines` and returns a file named `goFileName(name)` holding the whole buffer, never an error |
| GoHttp.Generate | base/generator.go:138-148 | one output file per proto file, in request order, while the buffer grows by each file's lines; without `pb_pkg_path` a non-empty request ends at the first file, with no files and the error |
| GoHttp.OutputsNamed | base/generator.go:138-148 | output file i is named after proto file i and ends in ".http.go" |
| GoHttp.OutputsAccumulate | base/generator.go:138-148 | for i < j, output file j's content is file i's content followed by everything written for files i+1..j |
| GoHttp.FileStartsWithPackage | protoc-gen-gohttp/generator/generator.go:36 | the text written for a file opens with "package http\n" |
| GoHttp.SecondFileRepeatsPackageClause | base/generator.go:138-148 | from a fresh generator, the second file's content is both files' text, so it holds two package clauses |
| GoHttp.SeparateOutputsAppend | base/generator.go:138-148 | corrected loop: the files of a request split in two are the files of each part |
| GoHttp.SeparateOutputsOpenWithPackage | base/generator.go:138-148 | corrected loop: every file opens with its own package clause |
| GoHttp.FirstOutputAgrees | base/generator.go:122 | from the buffer `sideEffect` leaves empty, the first file is the same under both loops |
| GoHttp.GenerateSeparately | base/generator.go:138-148 | corrected loop, buffer reset before each `Make`: file i holds only proto file i's text; the same error case |
| HelloworldHttp.Decide | examples/helloworld.http.go:23-48 | the method is called if and only if the request is a POST whose body decoded or was empty: non-POST gives 405, a decode error 400, a call error 500 with no content type; success gives 200 and "application/json"; a failed encoding gives 500 and "text/plain; charset=utf-8" |
| HelloworldHttp.EmptyBodyTolerated | examples/helloworld.http.go:29-34 | an empty body (`io.EOF`) is handled exactly as a decoded one |
| HelloworldHttp.NotInvokedIgnoresOutcomes | examples/helloworld.http.go:24-34 | a request refused before the call does not depend on what the call or the encoder would do |
| HelloworldHttp.TemplateDecide | protoc-gen-gohttp/generator/generator.go:56-78 | the generator's own template: any method is accepted, a call happens if and only if the body decoded (an empty body is a 400), failures give 500 with no content type |
| HelloworldHttp.TemplateAgreesOnDecodedPost | protoc-gen-gohttp/generator/generator.go:56-78 | on a decoded POST both handlers call the method with the same status; the content type differs only after an encoding failure |
| HelloworldHttp.TemplateDiffers | protoc-gen-gohttp/generator/generator.go:56-78 | the template calls the method on a non-POST request and refuses an empty body; the example handler does neither |
| HelloworldHttp.DecodeOf | examples/helloworld.http.go:29-34 | a JSON body decodes, an empty body is `io.EOF`, anything else is a decode error |
| HelloworldHttp.Respond | examples/helloworld.http.go:23-47 | 405 exactly for a non-POST request, 400 exactly for a POST whose body did not decode; 200 with "application/json" exactly when the method is called, returns a reply and the reply encodes; 500 with no content type exactly when the call returns an error; 500 with the text content type exactly when the reply does not encode; no content type when the method is not called |
| HelloworldHttp.Target | examples/helloworld.http.go:29 | a decoded POST body replaces the captured message; otherwise it keeps its contents |
| HelloworldHttp.Handler.constructor | examples/helloworld.http.go:62 | `MakeHandler(m, new(pb.HelloRequest))` captures the method and a zero message |
| HelloworldHttp.Handler.ServeHTTP | examples/helloworld.http.go:23-48 | serves a request by `Decide`, calls the method with the captured message when it decides to, and updates that message by `Target` |
| HelloworldHttp.EmptyBodyRepeatsLastRequest | examples/helloworld.http.go:29-36 | after a POST with a message m, a POST with an empty body calls the method with m again |
| HelloworldHttp.FreshTarget | examples/helloworld.http.go:29 | corrected handler: the message called with is what a new handler would use |
| HelloworldHttp.ServeFresh | examples/helloworld.http.go:23-48 | corrected handler: the same decision, and an empty body calls the method with the zero message |
| HelloworldHttp.PassThroughInterceptor | examples/helloworld.http.go:66-82 | an interceptor that only calls its continuation gives the same reply as none |
| HelloworldHttp.InterceptorArguments | examples/helloworld.http.go:70-80 | the interceptor receives the request, the full method name, the server and a continuation that calls the server |
| HelloworldHttp.SayHelloRouteIsPattern | examples/helloworld.http.go:62 | the route "/greeter/say_hello" is the generator's pattern for Greeter.SayHello |
| HelloworldHttp.HandlerMap | examples/helloworld.http.go:60-64 | exactly one route, served by a new handler around `SayHello` with a zero message |
| HelloworldHttp.SelectInterceptor | examples/helloworld.http.go:89-97 | no interceptor gives nil, one gives that one, two or more panic with the message |
| HelloworldHttp.Server.constructor | examples/helloworld.http.go:99-102 | a server starts with an empty multiplexer and the chosen interceptor |
| HelloworldHttp.Server.RegisterGreeterServer | examples/helloworld.http.go:105-109 | every route of the map becomes a route of the multiplexer, served by `SayHello` with the server's interceptor, and the other routes are kept; a route already present panics, with nothing registered |
| HelloworldHttp.NewServer | examples/helloworld.http.go:89-103 | a new server with an empty multiplexer and the interceptor `SelectInterceptor` chose; its panic otherwise |

## Left out

- Reading the request from stdin, unmarshalling and marshalling the protobuf envelope, and writing the response: these are I/O (base/generator.go:150-180). The `len(FileToGenerate) == 0` check it does first is left out with them.
- `Error` and `Fail` log and exit the process (base/generator.go:82-94): exiting is modelled as an error result, `Error.Fail` with the same message.
- `sideEffect`, `objectNamed`, `TypeName` and `gen.CamelCase` run protoc-gen-go's own generator (base/generator.go:96-123; protoc-gen-gohttp/generator/generator.go:151): that is foreign code. `TypeName` and `CamelCase` are uninterpreted function fields of the generator, and `sideEffect` appears only as the `Reset` it ends with.
- `fileMaker` is an interface (base/generator.go:20-22), and its only implementation is the gohttp generator, so `GoHttp.Generate` calls `GoHttp.Make` directly.
- GoStd.ToLower: only ASCII letters are lowered and the length is kept, while Go's `strings.ToLower` lowers all of Unicode and can change the length. This is exact for what `Underscore` is given, the service and method names of a proto file, which are ASCII identifiers.
- `P`'s `bool`, `int` and `float64` cases print through `fmt` (base/generator.go:51-64): that is library formatting with floating point. Only `string` and `*string` arguments are modelled, and with them the unknown-type `Fail` cannot happen.
- Base.Generator.P: the buffer is held as the list of lines written rather than as bytes, and the bytes are `String()`. `Base.PWrites` gives the bytes one call adds, and the per-argument write loop is folded into `Concat`.
- jsonpb and `encoding/json` are abstracted to outcomes (examples/helloworld.http.go:16-18): a decoded body, an empty body (`io.EOF`) or a decode error, a call that fails or returns a reply, and whether the reply can be encoded. The text of the JSON is not modelled.
- HelloworldHttp.Target: a decoded body replaces the whole captured message. jsonpb's merging of a body into a message that already holds fields, and a failed decode that has written part of the message, are not modelled.
- HelloworldHttp.Decide: the 200 status is the one `net/http` sends on the first write. A failed encoding after part of the body was written (when the 500 is too late to send) is not distinguished.
- `context.Context` is dropped from `Method`, from the server call and from the interceptor.
- The runtime panics of type assertions are not modelled. One of them matters in practice: `SayHello` turns the reply into `*pb.HelloReply` before it looks at the error (examples/helloworld.http.go:81). An interceptor that returns a nil reply with an error therefore panics, while the model returns the error.
- Concurrent serving is not modelled. Concurrent requests to one handler share its captured message, which is a data race.
- The order of Go map iteration in `RegisterGreeterServer` is not modelled: the loop takes the routes in any order. Of `http.ServeMux.Handle`'s panics, only the duplicate-pattern one is modelled, not those for an empty pattern or a nil handler.
- `Serve` and the listener (examples/helloworld.http.go:111-114) are network I/O.
- Behaviour the code does not have is not added: routes are not deduplicated, files without services are not skipped, and there are no interceptor chains.

## Findings

| source | as written | input that shows it | evidently intended | confidence | as-written member | corrected member |
|---|---|---|---|---|---|---|
| base/generator.go:138-148 | the buffer is emptied once, before generation (base/generator.go:122), and never between files, so `Make` returns the whole buffer each time | a request with two proto files and `pb_pkg_path` set: the second output file holds the first file's text, and then its own second `package http` clause | each output file holds only the text made for its own proto file | not executed; high, follows from the code alone | GoHttp.SecondFileRepeatsPackageClause | GoHttp.GenerateSeparately |
| examples/helloworld.http.go:29-36 | the handler decodes every request into the one message captured by `MakeHandler`, and an empty body leaves that message as it is | POST `{"name":"alice"}`, then a POST with an empty body: the second call is made with name "alice" | an empty body calls the method with an empty (zero-valued) request | not executed; medium, relies on jsonpb returning `io.EOF` before it writes to the message | HelloworldHttp.EmptyBodyRepeatsLastRequest | HelloworldHttp.ServeFresh |
