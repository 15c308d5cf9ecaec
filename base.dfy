/** The emitter of base/generator.go: a generator holds an indent of tab stops and an output
    buffer; `P` writes one line, `In` and `Out` move the indent. Lines are also described as
    values (`Line`, `Render`) so that what a whole generation step writes can be specified. */
module Base {
  import opened GoStd
  import Camel

  /** An argument of `P`. Only the `string` and `*string` cases are modelled; both write
      the same text. */
  datatype Arg = Str(s: string) | StrRef(p: string)

  function Text(a: Arg): string
  {
    match a
    case Str(s) => s
    case StrRef(p) => p
  }

  /** The arguments of one `P` call, written one after the other. */
  function Concat(args: seq<Arg>): string
  {
    if args == [] then "" else Concat(args[..|args| - 1]) + Text(args[|args| - 1])
  }

  predicate AllTabs(s: string) { forall i :: 0 <= i < |s| ==> s[i] == '\t' }

  function Tabs(n: nat): (t: string)
    ensures |t| == n && AllTabs(t)
  {
    if n == 0 then "" else Tabs(n - 1) + "\t"
  }

  /** The indent after `In`. */
  function Indented(indent: string): string { indent + "\t" }

  /** The indent after `Out`: the first character is dropped, unless there is none. */
  function Outdented(indent: string): (r: string)
    ensures |r| == if |indent| > 0 then |indent| - 1 else 0
  {
    if |indent| > 0 then indent[1..] else indent
  }

  /** On an indent made of tabs only, `Out` undoes `In`. */
  lemma OutUndoesIn(indent: string)
    requires AllTabs(indent)
    ensures Outdented(Indented(indent)) == indent
    ensures AllTabs(Indented(indent))
  {
    var r := Outdented(Indented(indent));
    assert |r| == |indent|;
    forall i | 0 <= i < |r| ensures r[i] == indent[i] {
      assert r[i] == Indented(indent)[i + 1];
    }
  }

  /** `In` can be undone only on an indent of tabs: on any other non-empty indent, the
      dropped character is not the tab `In` added. */
  lemma OutUndoesInOnlyOnTabs(indent: string)
    requires Outdented(Indented(indent)) == indent
    ensures AllTabs(indent)
  {
    var r := Outdented(Indented(indent));
    forall i | 0 <= i < |indent| ensures indent[i] == '\t' {
      IndentShift(indent, i);
    }
  }

  lemma {:induction false} IndentShift(indent: string, i: nat)
    requires Outdented(Indented(indent)) == indent
    requires i < |indent|
    ensures indent[i] == '\t'
    decreases |indent| - i
  {
    var r := Outdented(Indented(indent));
    assert r == indent[1..] + "\t";
    if i == |indent| - 1 {
      assert indent[i] == r[i];
    } else {
      assert indent[i] == r[i] == indent[i + 1];
      IndentShift(indent, i + 1);
    }
  }

  /** One call of `P`: the tab stops of the indent it was written at, and its arguments. */
  datatype Line = Line(depth: nat, args: seq<Arg>)

  /** The text `P` writes for a line. */
  function RenderLine(l: Line): string
  {
    Tabs(l.depth) + Concat(l.args) + "\n"
  }

  /** The text written by the lines `ls`, in order. */
  function Render(ls: seq<Line>): string
  {
    if ls == [] then "" else Render(ls[..|ls| - 1]) + RenderLine(ls[|ls| - 1])
  }

  lemma {:induction false} RenderAppend(a: seq<Line>, b: seq<Line>)
    ensures Render(a + b) == Render(a) + Render(b)
    decreases |b|
  {
    if b == [] {
      assert a + b == a;
    } else {
      var b' := b[..|b| - 1];
      var l := b[|b| - 1];
      assert (a + b)[..|a + b| - 1] == a + b';
      assert (a + b)[|a + b| - 1] == l;
      calc {
        Render(a + b);
        Render(a + b') + RenderLine(l);
        { RenderAppend(a, b'); }
        Render(a) + Render(b') + RenderLine(l);
      }
    }
  }

  /** A block written `d` tab stops deeper: what the generation steps below write is given
      relative to the indent they start at. */
  function Shift(d: nat, ls: seq<Line>): (r: seq<Line>)
    ensures |r| == |ls|
  {
    seq(|ls|, i requires 0 <= i < |ls| => Line(ls[i].depth + d, ls[i].args))
  }

  lemma ShiftAppend(d: nat, a: seq<Line>, b: seq<Line>)
    ensures Shift(d, a + b) == Shift(d, a) + Shift(d, b)
  {
  }

  lemma ShiftZero(ls: seq<Line>)
    ensures Shift(0, ls) == ls
  {
  }

  lemma ShiftSnoc(d: nat, ls: seq<Line>, l: Line)
    ensures Shift(d, ls + [l]) == Shift(d, ls) + [Line(l.depth + d, l.args)]
  {
  }

  /** The text of a block opens with the text of its first line. */
  lemma {:induction false} RenderStartsWith(ls: seq<Line>)
    requires |ls| > 0
    ensures var t := Render(ls); var h := RenderLine(ls[0]);
      |t| >= |h| && t[..|h|] == h
    decreases |ls|
  {
    if |ls| > 1 {
      var ls' := ls[..|ls| - 1];
      RenderStartsWith(ls');
      PrefixOfAppend(Render(ls'), RenderLine(ls[|ls| - 1]), |RenderLine(ls[0])|);
    } else {
      assert ls[..0] == [];
    }
  }

  /** Rendering a shifted block puts d more tabs in front of every line. */
  lemma {:induction false} RenderShift(d: nat, ls: seq<Line>)
    ensures Render(Shift(d, ls)) == PrefixLines(Tabs(d), ls)
    decreases |ls|
  {
    if ls != [] {
      var ls' := ls[..|ls| - 1];
      assert Shift(d, ls)[..|ls| - 1] == Shift(d, ls');
      RenderShift(d, ls');
      var l := ls[|ls| - 1];
      TabsAdd(d, l.depth);
    }
  }

  /** The lines of `ls`, each written after `indent`. */
  function PrefixLines(indent: string, ls: seq<Line>): string
  {
    if ls == [] then "" else PrefixLines(indent, ls[..|ls| - 1]) + indent + RenderLine(ls[|ls| - 1])
  }

  lemma {:induction false} TabsAdd(m: nat, n: nat)
    ensures Tabs(n + m) == Tabs(m) + Tabs(n)
    decreases n
  {
    if n > 0 {
      TabsAdd(m, n - 1);
    }
  }

  /** An indent of tabs only is the indent of its length. */
  lemma TabsOfAllTabs(s: string)
    requires AllTabs(s)
    ensures s == Tabs(|s|)
  {
  }

  /** The number of newlines in a text. */
  function LineCount(t: string): nat
  {
    if t == [] then 0 else LineCount(t[..|t| - 1]) + (if t[|t| - 1] == '\n' then 1 else 0)
  }

  predicate NoNewline(s: string) { forall i :: 0 <= i < |s| ==> s[i] != '\n' }

  lemma {:induction false} LineCountAppend(a: string, b: string)
    ensures LineCount(a + b) == LineCount(a) + LineCount(b)
    decreases |b|
  {
    if b == [] {
      assert a + b == a;
    } else {
      var b' := b[..|b| - 1];
      assert (a + b)[..|a + b| - 1] == a + b';
      LineCountAppend(a, b');
    }
  }

  lemma {:induction false} LineCountNone(s: string)
    requires NoNewline(s)
    ensures LineCount(s) == 0
    decreases |s|
  {
    if s != [] {
      LineCountNone(s[..|s| - 1]);
    }
  }

  /** The newlines the arguments of the lines hold themselves. */
  function ArgNewlines(ls: seq<Line>): nat
  {
    if ls == [] then 0 else ArgNewlines(ls[..|ls| - 1]) + LineCount(Concat(ls[|ls| - 1].args))
  }

  /** Each `P` call writes one newline of its own, after whatever newlines its arguments hold
      (the `MakeHandler` template is one argument of many lines). */
  lemma {:induction false} RenderLineCount(ls: seq<Line>)
    ensures LineCount(Render(ls)) == |ls| + ArgNewlines(ls)
    decreases |ls|
  {
    if ls != [] {
      var l := ls[|ls| - 1];
      RenderLineCount(ls[..|ls| - 1]);
      LineCountNone(Tabs(l.depth));
      LineCountAppend(Tabs(l.depth), Concat(l.args));
      LineCountAppend(Tabs(l.depth) + Concat(l.args), "\n");
      LineCountAppend(Render(ls[..|ls| - 1]), RenderLine(l));
    }
  }

  /** With no newline in any argument, the text has exactly one line per `P` call. */
  lemma {:induction false} RenderLineCountPlain(ls: seq<Line>)
    requires forall k :: 0 <= k < |ls| ==> NoNewline(Concat(ls[k].args))
    ensures LineCount(Render(ls)) == |ls|
  {
    RenderLineCount(ls);
    ArgNewlinesNone(ls);
  }

  lemma {:induction false} ArgNewlinesNone(ls: seq<Line>)
    requires forall k :: 0 <= k < |ls| ==> NoNewline(Concat(ls[k].args))
    ensures ArgNewlines(ls) == 0
    decreases |ls|
  {
    if ls != [] {
      ArgNewlinesNone(ls[..|ls| - 1]);
      LineCountNone(Concat(ls[|ls| - 1].args));
    }
  }

  /** What `P` writes: the indent, then each argument in order, then one newline; the text
      already in the buffer is kept as it is. */
  lemma PWrites(ls: seq<Line>, indent: string, args: seq<Arg>)
    requires AllTabs(indent)
    ensures Render(ls + [Line(|indent|, args)]) == Render(ls) + indent + Concat(args) + "\n"
  {
    TabsOfAllTabs(indent);
    assert (ls + [Line(|indent|, args)])[..|ls|] == ls;
  }

  class Generator {
    /** Tab stops written before every line. */
    var indent: string
    /** The output buffer, held as the lines written to it, one per `P` call; its bytes are
        `String()`. */
    var lines: seq<Line>
    /** Command-line parameters, `g.Param`. */
    const param: map<string, string>
    /** The type resolver, `TypeName`: proto type name to the name to print. */
    const typeName: string -> string
    /** `gen.CamelCase` of protoc-gen-go. */
    const camelCase: string -> string

    ghost predicate Valid()
      reads this
    {
      AllTabs(indent)
    }

    /** The buffer's contents. */
    function String(): string
      reads this
    {
      Render(lines)
    }

    /** A generator just after its buffer was reset: no indent, nothing written. */
    constructor (param: map<string, string>, typeName: string -> string, camelCase: string -> string)
      ensures Valid() && indent == "" && lines == [] && String() == ""
      ensures this.param == param && this.typeName == typeName && this.camelCase == camelCase
    {
      indent := "";
      lines := [];
      this.param := param;
      this.typeName := typeName;
      this.camelCase := camelCase;
    }

    /** Empties the buffer (`g.Reset()` of the embedded generator); the indent is kept. */
    method Reset()
      modifies this`lines
      ensures lines == [] && String() == ""
    {
      lines := [];
    }

    /** Writes one line: the indent, then each argument in order, then a newline (`PWrites`
        spells out the bytes). */
    method P(args: seq<Arg>)
      requires Valid()
      modifies this`lines
      ensures lines == old(lines) + [Line(|indent|, args)]
    {
      lines := lines + [Line(|indent|, args)];
    }

    /** One tab stop deeper. */
    method In()
      modifies this`indent
      ensures indent == Indented(old(indent))
      ensures old(Valid()) ==> Valid()
    {
      indent := indent + "\t";
    }

    /** One tab stop back; nothing happens at no indent. */
    method Out()
      modifies this`indent
      ensures indent == Outdented(old(indent))
      ensures old(Valid()) ==> Valid()
    {
      if |indent| > 0 {
        indent := indent[1..];
      }
    }

    /** The path segment for an identifier: the non-empty groups of the successive matches
        of the `camel` expression, joined with "_" and lower-cased. It neither reads nor
        changes the generator's state. */
    method Underscore(s: string) returns (r: string)
      ensures r == Camel.Underscored(s)
      ensures NoUpper(r)
    {
      var subs := Camel.FindAll(s);
      var a: seq<string> := [];
      var i := 0;
      ghost var taken: seq<Camel.Match> := [];
      while i < |subs|
        invariant 0 <= i <= |subs|
        invariant taken == subs[..i]
        invariant a == Camel.Pieces(s, taken)
      {
        var sub := subs[i];
        ghost var before := a;
        if Camel.Group1(s, sub) != "" {
          a := a + [Camel.Group1(s, sub)];
        }
        if Camel.Group2(s, sub) != "" {
          a := a + [Camel.Group2(s, sub)];
        }
        assert a == before + Camel.MatchPieces(s, sub);
        Camel.PiecesSnoc(s, taken, sub);
        taken := taken + [sub];
        i := i + 1;
      }
      assert taken == subs;
      r := ToLower(Join(a, "_"));
    }
  }
}
