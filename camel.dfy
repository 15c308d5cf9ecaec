/** The `camel` regular expression of base/generator.go,
      (^[^A-Z0-9]*|[A-Z0-9]*)([A-Z0-9][^A-Z]+|$)
    as a scanner over `string`, following Go's `regexp` package: a match is the leftmost one,
    and among the matches at that start the one a backtracking matcher prefers (leftmost-first
    alternation, greedy stars that give characters back). `FindAll` follows
    `FindAllStringSubmatch(s, -1)`, including the rule that an empty match abutting the previous
    match is dropped. `Underscored` is the value `Generator.Underscore` computes. */
module Camel {
  import opened Wrappers
  import opened GoStd

  /** The class [A-Z0-9]. */
  predicate UpperOrDigit(c: char) { IsUpper(c) || IsDigit(c) }

  /** End of the maximal run of [A-Z0-9] starting at i. */
  function UpperDigitEnd(s: string, i: nat): (j: nat)
    requires i <= |s|
    ensures i <= j <= |s|
    ensures forall k :: i <= k < j ==> UpperOrDigit(s[k])
    ensures j == |s| || !UpperOrDigit(s[j])
    decreases |s| - i
  {
    if i == |s| || !UpperOrDigit(s[i]) then i else UpperDigitEnd(s, i + 1)
  }

  /** End of the maximal run of [^A-Z0-9] starting at i. */
  function OtherEnd(s: string, i: nat): (j: nat)
    requires i <= |s|
    ensures i <= j <= |s|
    ensures forall k :: i <= k < j ==> !UpperOrDigit(s[k])
    ensures j == |s| || UpperOrDigit(s[j])
    decreases |s| - i
  {
    if i == |s| || UpperOrDigit(s[i]) then i else OtherEnd(s, i + 1)
  }

  /** End of the maximal run of [^A-Z] starting at i. */
  function NonUpperEnd(s: string, i: nat): (j: nat)
    requires i <= |s|
    ensures i <= j <= |s|
    ensures forall k :: i <= k < j ==> !IsUpper(s[k])
    ensures j == |s| || IsUpper(s[j])
    decreases |s| - i
  {
    if i == |s| || IsUpper(s[i]) then i else NonUpperEnd(s, i + 1)
  }

  /** One match: group 1 is s[start..mid], group 2 is s[mid..end]. */
  datatype Match = Match(start: nat, mid: nat, end: nat)

  predicate WellFormed(s: string, m: Match) { m.start <= m.mid <= m.end <= |s| }

  function Group1(s: string, m: Match): string
    requires WellFormed(s, m)
  {
    s[m.start..m.mid]
  }

  function Group2(s: string, m: Match): string
    requires WellFormed(s, m)
  {
    s[m.mid..m.end]
  }

  /** s[q..mid] is in the language of group 1: `^[^A-Z0-9]*`, which only matches at the start
      of the text, or `[A-Z0-9]*`. */
  predicate Group1Fits(s: string, q: nat, mid: nat)
    requires q <= mid <= |s|
  {
    (q == 0 && forall k :: q <= k < mid ==> !UpperOrDigit(s[k]))
    || (forall k :: q <= k < mid ==> UpperOrDigit(s[k]))
  }

  /** s[mid..end] is in the language of group 2: `[A-Z0-9][^A-Z]+`, or `$` (empty, at the end). */
  predicate Group2Fits(s: string, mid: nat, end: nat)
    requires mid <= end <= |s|
  {
    (mid + 2 <= end && UpperOrDigit(s[mid]) && forall k :: mid < k < end ==> !IsUpper(s[k]))
    || (mid == end && end == |s|)
  }

  /** The expression matches s[m.start..m.end], with these two groups. */
  predicate Matches(s: string, m: Match)
  {
    WellFormed(s, m) && Group1Fits(s, m.start, m.mid) && Group2Fits(s, m.mid, m.end)
  }

  /** Group 1 can be read as the first alternative, `^[^A-Z0-9]*`. */
  predicate FirstAlternative(s: string, m: Match)
    requires WellFormed(s, m)
  {
    m.start == 0 && forall k :: m.start <= k < m.mid ==> !UpperOrDigit(s[k])
  }

  /** Among matches at one start, a backtracking matcher reaches m no later than m2: the first
      alternative of group 1 before the second, then a longer group 1 (a greedy star), then a
      longer group 2 (`[A-Z0-9][^A-Z]+` is greedy and comes before `$`, which is shorter). */
  predicate PreferredTo(s: string, m: Match, m2: Match)
    requires WellFormed(s, m) && WellFormed(s, m2)
  {
    (FirstAlternative(s, m) && !FirstAlternative(s, m2))
    || (FirstAlternative(s, m) == FirstAlternative(s, m2)
        && (m2.mid < m.mid || (m2.mid == m.mid && m2.end <= m.end)))
  }

  /** Group 2 alone at position k: `[A-Z0-9][^A-Z]+` (greedy), else `$`. */
  function Tail(s: string, k: nat): (e: Option<nat>)
    requires k <= |s|
    ensures e.Some? ==> k <= e.value <= |s|
  {
    if k + 1 < |s| && UpperOrDigit(s[k]) && !IsUpper(s[k + 1]) then Some(NonUpperEnd(s, k + 1))
    else if k == |s| then Some(k)
    else None
  }

  /** The first alternative of group 1, `^[^A-Z0-9]*`, followed by group 2; only at 0.
      The star stops at the first [A-Z0-9]; giving characters back cannot help, since
      group 2 needs an [A-Z0-9] or the end right after it. */
  function Anchored(s: string): (m: Option<Match>)
    ensures m.Some? ==> WellFormed(s, m.value) && m.value.start == 0
  {
    var r := OtherEnd(s, 0);
    match Tail(s, r)
    case Some(e) => Some(Match(0, r, e))
    case None => None
  }

  /** The second alternative of group 1, `[A-Z0-9]*`, followed by group 2, at q. The star
      first takes the whole run [q, u); there only `$` can follow. Otherwise it gives back
      one character, which then starts `[A-Z0-9][^A-Z]+`: the character after the run is
      not upper case, so this always succeeds when the run is non-empty. */
  function Run(s: string, q: nat): (m: Option<Match>)
    requires q <= |s|
    ensures m.Some? ==> WellFormed(s, m.value) && m.value.start == q
  {
    var u := UpperDigitEnd(s, q);
    if u == |s| then Some(Match(q, u, u))
    else if q < u then
      match Tail(s, u - 1)
      case Some(e) => Some(Match(q, u - 1, e))
      case None => None
    else None
  }

  /** The match the regular expression prefers among those starting at q, if any. */
  function MatchAt(s: string, q: nat): (m: Option<Match>)
    requires q <= |s|
    ensures m.Some? ==> WellFormed(s, m.value) && m.value.start == q
  {
    if q == 0 && Anchored(s).Some? then Anchored(s) else Run(s, q)
  }

  lemma TailFits(s: string, k: nat)
    requires k <= |s| && Tail(s, k).Some?
    ensures Group2Fits(s, k, Tail(s, k).value)
  {
  }

  lemma AnchoredFits(s: string)
    requires Anchored(s).Some?
    ensures Matches(s, Anchored(s).value) && FirstAlternative(s, Anchored(s).value)
  {
    TailFits(s, OtherEnd(s, 0));
  }

  lemma RunFits(s: string, q: nat)
    requires q <= |s| && Run(s, q).Some?
    ensures Matches(s, Run(s, q).value)
  {
    var u := UpperDigitEnd(s, q);
    if u < |s| {
      TailFits(s, u - 1);
    }
  }

  /** A match `MatchAt` finds is a match of the expression, with its two groups. */
  lemma MatchAtSound(s: string, q: nat)
    requires q <= |s| && MatchAt(s, q).Some?
    ensures Matches(s, MatchAt(s, q).value) && MatchAt(s, q).value.start == q
  {
    if q == 0 && Anchored(s).Some? {
      AnchoredFits(s);
    } else {
      RunFits(s, q);
    }
  }

  /** Wherever group 2 fits at k, `Tail` finds it, and ends no earlier. */
  lemma TailGreatest(s: string, k: nat, end: nat)
    requires k <= end <= |s| && Group2Fits(s, k, end)
    ensures Tail(s, k).Some? && end <= Tail(s, k).value
  {
  }

  /** A match whose group 1 is the first alternative: group 1 must then be the whole run of
      [^A-Z0-9] at the start, which is what `Anchored` takes. */
  lemma PreferredFirst(s: string, m2: Match)
    requires m2.start == 0 && Matches(s, m2) && FirstAlternative(s, m2)
    ensures MatchAt(s, 0).Some? && PreferredTo(s, MatchAt(s, 0).value, m2)
  {
    TailGreatest(s, m2.mid, m2.end);
    assert m2.mid == OtherEnd(s, 0);
    AnchoredFits(s);
  }

  /** A match whose group 1 is the second alternative: group 1 lies within the run of
      [A-Z0-9] at q and stops short of its end unless the run reaches the end of the text. */
  lemma PreferredSecond(s: string, q: nat, m2: Match)
    requires q <= |s| && m2.start == q && Matches(s, m2)
    requires !(q == 0 && FirstAlternative(s, m2))
    ensures MatchAt(s, q).Some? && PreferredTo(s, MatchAt(s, q).value, m2)
  {
    TailGreatest(s, m2.mid, m2.end);
    if q == 0 && Anchored(s).Some? {
      AnchoredFits(s);
    }
    var u := UpperDigitEnd(s, q);
    assert m2.mid <= u;
    if u < |s| {
      assert m2.mid < u;
      TailGreatest(s, u - 1, u + 1);
    }
  }

  /** Whenever the expression matches at q, `MatchAt` gives a match there, and it is the one
      the matcher prefers over every other match at q. */
  lemma MatchAtPreferred(s: string, q: nat, m2: Match)
    requires q <= |s| && m2.start == q && Matches(s, m2)
    ensures MatchAt(s, q).Some? && PreferredTo(s, MatchAt(s, q).value, m2)
  {
    if q == 0 && FirstAlternative(s, m2) {
      PreferredFirst(s, m2);
    } else {
      PreferredSecond(s, q, m2);
    }
  }

  /** There is no match at q exactly when `MatchAt` finds none. */
  lemma MatchAtComplete(s: string, q: nat)
    requires q <= |s|
    ensures MatchAt(s, q).None? <==> forall mid, end :: q <= mid <= end <= |s| ==> !Matches(s, Match(q, mid, end))
  {
    if MatchAt(s, q).None? {
      forall mid, end | q <= mid <= end <= |s|
        ensures !Matches(s, Match(q, mid, end))
      {
        if Matches(s, Match(q, mid, end)) {
          MatchAtPreferred(s, q, Match(q, mid, end));
        }
      }
    } else {
      var m := MatchAt(s, q).value;
      MatchAtSound(s, q);
      assert m == Match(q, m.mid, m.end);
    }
  }

  lemma MatchAtEnd(s: string)
    ensures MatchAt(s, |s|) == Some(Match(|s|, |s|, |s|))
  {
  }

  /** The leftmost match starting at or after pos; there always is one, at |s| at the latest. */
  function Search(s: string, pos: nat): (m: Match)
    requires pos <= |s|
    ensures WellFormed(s, m) && pos <= m.start
    ensures MatchAt(s, m.start) == Some(m)
    ensures forall q :: pos <= q < m.start ==> MatchAt(s, q).None?
    decreases |s| - pos
  {
    match MatchAt(s, pos)
    case Some(m) => m
    case None =>
      MatchAtEnd(s);
      Search(s, pos + 1)
  }

  /** No match of the expression starts between pos and the match `Search` finds. */
  lemma SearchLeftmost(s: string, pos: nat, m2: Match)
    requires pos <= m2.start && Matches(s, m2)
    ensures Search(s, pos).start <= m2.start
  {
    if m2.start < Search(s, pos).start {
      MatchAtPreferred(s, m2.start, m2);
    }
  }

  /** Successive matches from pos, as `FindAllStringSubmatch` collects them: after an empty
      match the scan moves on one character, after a non-empty one it resumes at its end,
      and an empty match starting where the previous match ended is not reported. */
  function FindFrom(s: string, pos: nat, prevEnd: int): (ms: seq<Match>)
    requires pos <= |s| + 1
    requires prevEnd <= pos
    ensures forall i :: 0 <= i < |ms| ==> WellFormed(s, ms[i]) && pos <= ms[i].start
    ensures Ordered(ms)
    decreases |s| + 1 - pos
  {
    if pos > |s| then []
    else
      var m := Search(s, pos);
      var rest := FindFrom(s, if m.end == pos then pos + 1 else m.end, m.end);
      if m.end == pos && m.start == prevEnd then rest
      else
        OrderedCons(s, m, rest);
        [m] + rest
  }

  /** Matches in order: each ends before the next starts, and starts strictly earlier. */
  predicate Ordered(ms: seq<Match>)
  {
    forall i, j :: 0 <= i < j < |ms| ==> ms[i].end <= ms[j].start && ms[i].start < ms[j].start
  }

  lemma OrderedCons(s: string, m: Match, rest: seq<Match>)
    requires WellFormed(s, m) && Ordered(rest)
    requires forall j :: 0 <= j < |rest| ==> WellFormed(s, rest[j]) && m.end <= rest[j].start && m.start < rest[j].start
    ensures Ordered([m] + rest)
    ensures forall i :: 0 <= i < |[m] + rest| ==> WellFormed(s, ([m] + rest)[i])
  {
    var ms := [m] + rest;
    forall i, j | 0 <= i < j < |ms|
      ensures ms[i].end <= ms[j].start && ms[i].start < ms[j].start
    {
      assert ms[j] == rest[j - 1];
      if i > 0 {
        assert ms[i] == rest[i - 1];
      }
    }
    forall i | 0 <= i < |ms|
      ensures WellFormed(s, ms[i])
    {
      if i > 0 {
        assert ms[i] == rest[i - 1];
      }
    }
  }

  /** `camel.FindAllStringSubmatch(s, -1)`: the matches, disjoint and in order. */
  function FindAll(s: string): (ms: seq<Match>)
    ensures forall i :: 0 <= i < |ms| ==> WellFormed(s, ms[i])
    ensures forall i, j :: 0 <= i < j < |ms| ==> ms[i].end <= ms[j].start
  {
    FindFrom(s, 0, -1)
  }

  /** Every reported match is a match of the expression. */
  lemma FindAllMatches(s: string, i: nat)
    requires i < |FindAll(s)|
    ensures Matches(s, FindAll(s)[i])
  {
    FindFromMatches(s, 0, -1);
  }

  lemma {:induction false} FindFromMatches(s: string, pos: nat, prevEnd: int)
    requires pos <= |s| + 1 && prevEnd <= pos
    ensures forall i :: 0 <= i < |FindFrom(s, pos, prevEnd)| ==> Matches(s, FindFrom(s, pos, prevEnd)[i])
    decreases |s| + 1 - pos
  {
    if pos <= |s| {
      var m := Search(s, pos);
      MatchAtSound(s, m.start);
      var next := if m.end == pos then pos + 1 else m.end;
      FindFromMatches(s, next, m.end);
      var rest := FindFrom(s, next, m.end);
      var ms := FindFrom(s, pos, prevEnd);
      forall i | 0 <= i < |ms|
        ensures Matches(s, ms[i])
      {
        if !(m.end == pos && m.start == prevEnd) {
          assert ms == [m] + rest;
          if i > 0 {
            assert ms[i] == rest[i - 1];
          }
        }
      }
    }
  }

  /** The non-empty groups of one match, group 1 first. */
  function MatchPieces(s: string, m: Match): seq<string>
    requires WellFormed(s, m)
  {
    (if Group1(s, m) != "" then [Group1(s, m)] else []) + (if Group2(s, m) != "" then [Group2(s, m)] else [])
  }

  /** The slice `a` that `Underscore` collects: the non-empty groups, match by match. */
  function Pieces(s: string, ms: seq<Match>): seq<string>
    requires forall i :: 0 <= i < |ms| ==> WellFormed(s, ms[i])
  {
    if ms == [] then []
    else Pieces(s, ms[..|ms| - 1]) + MatchPieces(s, ms[|ms| - 1])
  }

  /** The kept groups are all non-empty and made of characters of the input. */
  lemma {:induction false} PiecesParts(s: string, ms: seq<Match>)
    requires forall i :: 0 <= i < |ms| ==> WellFormed(s, ms[i])
    ensures forall k :: 0 <= k < |Pieces(s, ms)| ==> Pieces(s, ms)[k] != ""
    ensures forall k, c :: 0 <= k < |Pieces(s, ms)| && c in Pieces(s, ms)[k] ==> c in s
  {
    if ms != [] {
      PiecesParts(s, ms[..|ms| - 1]);
      var m := ms[|ms| - 1];
      assert forall c :: c in Group1(s, m) ==> c in s;
      assert forall c :: c in Group2(s, m) ==> c in s;
    }
  }

  /** Collecting one more match adds its non-empty groups. */
  lemma PiecesSnoc(s: string, ms: seq<Match>, m: Match)
    requires forall k :: 0 <= k < |ms| ==> WellFormed(s, ms[k])
    requires WellFormed(s, m)
    ensures Pieces(s, ms + [m]) == Pieces(s, ms) + MatchPieces(s, m)
  {
    assert (ms + [m])[..|ms|] == ms;
  }

  /** The path segment `Underscore(s)` returns. */
  function Underscored(s: string): string
  {
    ToLower(Join(Pieces(s, FindAll(s)), "_"))
  }

  /** The result never holds an ASCII upper-case letter. */
  lemma UnderscoredNoUpper(s: string)
    ensures NoUpper(Underscored(s))
  {
    ToLowerNoUpper(Join(Pieces(s, FindAll(s)), "_"));
  }

  /** Every character of the result is '_' or the lower-case form of a character of s. */
  lemma UnderscoredChars(s: string, c: char)
    requires c in Underscored(s)
    ensures c == '_' || exists d :: d in s && c == LowerChar(d)
  {
    var a := Pieces(s, FindAll(s));
    PiecesParts(s, FindAll(s));
    var j := Join(a, "_");
    var i :| 0 <= i < |Underscored(s)| && Underscored(s)[i] == c;
    assert c == LowerChar(j[i]);
    JoinChars(a, "_", j[i]);
    if j[i] != '_' {
      var k :| 0 <= k < |a| && j[i] in a[k];
      assert j[i] in s;
    }
  }

  /** An identifier with no upper-case letter and no digit is its own path segment: the
      anchored alternative takes all of it and the final empty match is dropped. */
  lemma UnderscoredOfLower(s: string)
    requires forall i :: 0 <= i < |s| ==> !UpperOrDigit(s[i])
    ensures Underscored(s) == s
  {
    var n := |s|;
    assert OtherEnd(s, 0) == n;
    var m := Match(0, n, n);
    assert Search(s, 0) == m;
    if n == 0 {
      assert FindAll(s) == [m] + FindFrom(s, 1, 0);
      assert FindAll(s) == [m];
      assert Pieces(s, [m]) == [];
    } else {
      MatchAtEnd(s);
      assert Search(s, n) == Match(n, n, n);
      assert FindFrom(s, n, n) == [] + FindFrom(s, n + 1, n);
      assert FindAll(s) == [m];
      assert s[0..n] == s;
      assert Pieces(s, [m]) == Pieces(s, []) + MatchPieces(s, m);
      assert Pieces(s, [m]) == [s];
    }
    ToLowerOfLower(s);
  }

  /** On identifiers without digits, mangling twice is mangling once. (With a digit it is not:
      see `UnderscoreDropsLowerPrefix`.) */
  lemma UnderscoredIdempotent(s: string)
    requires forall i :: 0 <= i < |s| ==> !IsDigit(s[i])
    ensures Underscored(Underscored(s)) == Underscored(s)
  {
    var t := Underscored(s);
    forall i | 0 <= i < |t| ensures !UpperOrDigit(t[i]) {
      UnderscoredNoUpper(s);
      UnderscoredChars(s, t[i]);
      if t[i] != '_' {
        var d :| d in s && t[i] == LowerChar(d);
        assert !IsDigit(d);
      }
    }
    UnderscoredOfLower(t);
  }

  // The cases that fix the contract. Each is computed match by match.

  lemma FindAllSayHello()
    ensures FindAll("SayHello") == [Match(0, 0, 3), Match(3, 3, 8)]
  {
    var s := "SayHello";
    assert NonUpperEnd(s, 1) == 3;
    assert Search(s, 0) == Match(0, 0, 3);
    assert UpperDigitEnd(s, 3) == 4;
    assert NonUpperEnd(s, 4) == 8;
    assert Search(s, 3) == Match(3, 3, 8);
    MatchAtEnd(s);
    assert Search(s, 8) == Match(8, 8, 8);
    assert FindFrom(s, 8, 8) == [];
  }

  /** How a concrete case is assembled: matches, then pieces, then join, then lower-case. */
  lemma UnderscoredFrom(s: string, ms: seq<Match>, a: seq<string>, j: string)
    requires FindAll(s) == ms
    requires forall i :: 0 <= i < |ms| ==> WellFormed(s, ms[i])
    requires Pieces(s, ms) == a && Join(a, "_") == j
    ensures Underscored(s) == ToLower(j)
  {
  }

  lemma PiecesSayHello()
    ensures Pieces("SayHello", [Match(0, 0, 3), Match(3, 3, 8)]) == ["Say", "Hello"]
  {
    var s := "SayHello";
    var ms := [Match(0, 0, 3), Match(3, 3, 8)];
    assert s[0..3] == "Say" && s[3..8] == "Hello";
    assert MatchPieces(s, ms[0]) == ["Say"];
    assert MatchPieces(s, ms[1]) == ["Hello"];
    assert ms[..1] == [ms[0]];
    assert Pieces(s, ms[..1]) == ["Say"];
  }

  lemma JoinLowerSayHello()
    ensures Join(["Say", "Hello"], "_") == "Say_Hello"
    ensures ToLower("Say_Hello") == "say_hello"
  {
  }

  lemma UnderscoreSayHello()
    ensures Underscored("SayHello") == "say_hello"
  {
    FindAllSayHello();
    PiecesSayHello();
    JoinLowerSayHello();
    UnderscoredFrom("SayHello", [Match(0, 0, 3), Match(3, 3, 8)], ["Say", "Hello"], "Say_Hello");
  }

  lemma FindAllSayHelloLower()
    ensures FindAll("sayHello") == [Match(0, 3, 8)]
  {
    var s := "sayHello";
    assert OtherEnd(s, 0) == 3;
    assert NonUpperEnd(s, 4) == 8;
    assert Search(s, 0) == Match(0, 3, 8);
    MatchAtEnd(s);
    assert Search(s, 8) == Match(8, 8, 8);
    assert FindFrom(s, 8, 8) == [];
  }

  lemma PiecesSayHelloLower()
    ensures Pieces("sayHello", [Match(0, 3, 8)]) == ["say", "Hello"]
  {
    var s := "sayHello";
    var ms := [Match(0, 3, 8)];
    assert s[0..3] == "say" && s[3..8] == "Hello";
    assert MatchPieces(s, ms[0]) == ["say", "Hello"];
    assert Pieces(s, ms) == Pieces(s, []) + MatchPieces(s, ms[0]);
  }

  lemma UnderscoreSayHelloLower()
    ensures Underscored("sayHello") == "say_hello"
  {
    FindAllSayHelloLower();
    PiecesSayHelloLower();
    assert Join(["say", "Hello"], "_") == "say_Hello";
    UnderscoredFrom("sayHello", [Match(0, 3, 8)], ["say", "Hello"], "say_Hello");
    assert ToLower("say_Hello") == "say_hello";
  }

  lemma FindAllHTTPServer()
    ensures FindAll("HTTPServer") == [Match(0, 4, 10)]
  {
    var s := "HTTPServer";
    assert OtherEnd(s, 0) == 0;
    assert Anchored(s).None?;
    assert UpperDigitEnd(s, 0) == 5;
    assert NonUpperEnd(s, 5) == 10;
    assert Search(s, 0) == Match(0, 4, 10);
    MatchAtEnd(s);
    assert Search(s, 10) == Match(10, 10, 10);
    assert FindFrom(s, 10, 10) == [];
  }

  lemma PiecesHTTPServer()
    ensures Pieces("HTTPServer", [Match(0, 4, 10)]) == ["HTTP", "Server"]
  {
    var s := "HTTPServer";
    var ms := [Match(0, 4, 10)];
    assert s[0..4] == "HTTP" && s[4..10] == "Server";
    assert MatchPieces(s, ms[0]) == ["HTTP", "Server"];
    assert Pieces(s, ms) == Pieces(s, []) + MatchPieces(s, ms[0]);
  }

  lemma JoinLowerHTTPServer()
    ensures Join(["HTTP", "Server"], "_") == "HTTP_Server"
    ensures ToLower("HTTP_Server") == "http_server"
  {
  }

  lemma UnderscoreHTTPServer()
    ensures Underscored("HTTPServer") == "http_server"
  {
    FindAllHTTPServer();
    PiecesHTTPServer();
    JoinLowerHTTPServer();
    UnderscoredFrom("HTTPServer", [Match(0, 4, 10)], ["HTTP", "Server"], "HTTP_Server");
  }

  lemma UnderscoreGreeter()
    ensures Underscored("Greeter") == "greeter"
  {
    var s := "Greeter";
    assert OtherEnd(s, 0) == 0;
    assert NonUpperEnd(s, 1) == 7;
    assert Search(s, 0) == Match(0, 0, 7);
    MatchAtEnd(s);
    assert Search(s, 7) == Match(7, 7, 7);
    assert FindFrom(s, 7, 7) == [];
    var ms := [Match(0, 0, 7)];
    assert FindAll(s) == ms;
    assert s[0..7] == s;
    assert MatchPieces(s, ms[0]) == [s];
    assert Pieces(s, ms) == Pieces(s, []) + MatchPieces(s, ms[0]);
    assert ToLower(s) == "greeter";
  }

  /** "aB": neither alternative matches at 0 (group 2 needs a character after the 'B'),
      so the scan restarts at 1 and the 'a' is never part of a match. */
  lemma FindAllLowerThenUpper()
    ensures FindAll("aB") == [Match(1, 2, 2)]
  {
    var s := "aB";
    assert OtherEnd(s, 0) == 1;
    assert MatchAt(s, 0).None?;
    assert UpperDigitEnd(s, 1) == 2;
    assert Search(s, 0) == Match(1, 2, 2);
    MatchAtEnd(s);
    assert Search(s, 2) == Match(2, 2, 2);
    assert FindFrom(s, 2, 2) == [];
  }

  lemma FindAllLowerThenDigit()
    ensures FindAll("a1") == [Match(1, 2, 2)]
  {
    var s := "a1";
    assert OtherEnd(s, 0) == 1;
    assert MatchAt(s, 0).None?;
    assert UpperDigitEnd(s, 1) == 2;
    assert Search(s, 0) == Match(1, 2, 2);
    MatchAtEnd(s);
    assert Search(s, 2) == Match(2, 2, 2);
    assert FindFrom(s, 2, 2) == [];
  }

  lemma FindAllSingleUpper()
    ensures FindAll("B") == [Match(0, 1, 1)]
  {
    var b := "B";
    assert OtherEnd(b, 0) == 0;
    assert Anchored(b).None?;
    assert Search(b, 0) == Match(0, 1, 1);
    MatchAtEnd(b);
    assert Search(b, 1) == Match(1, 1, 1);
    assert FindFrom(b, 1, 1) == [];
  }

  /** A lower-case prefix is lost when a single upper-case letter or digit follows it at the
      end, so distinct method names can share a path segment. */
  lemma UnderscoreDropsLowerPrefix()
    ensures Underscored("aB") == "b" && Underscored("B") == "b"
    ensures Underscored("a1") == "1"
  {
    UnderscoreLowerThenUpper();
    UnderscoreSingleUpper();
    UnderscoreLowerThenDigit();
  }

  lemma UnderscoreLowerThenUpper()
    ensures Underscored("aB") == "b"
  {
    FindAllLowerThenUpper();
    assert "aB"[1..2] == "B";
    assert Pieces("aB", [Match(1, 2, 2)]) == Pieces("aB", []) + MatchPieces("aB", Match(1, 2, 2));
    UnderscoredFrom("aB", [Match(1, 2, 2)], ["B"], "B");
  }

  lemma UnderscoreSingleUpper()
    ensures Underscored("B") == "b"
  {
    FindAllSingleUpper();
    assert "B"[0..1] == "B";
    assert Pieces("B", [Match(0, 1, 1)]) == Pieces("B", []) + MatchPieces("B", Match(0, 1, 1));
    UnderscoredFrom("B", [Match(0, 1, 1)], ["B"], "B");
  }

  lemma UnderscoreLowerThenDigit()
    ensures Underscored("a1") == "1"
  {
    FindAllLowerThenDigit();
    assert "a1"[1..2] == "1";
    assert Pieces("a1", [Match(1, 2, 2)]) == Pieces("a1", []) + MatchPieces("a1", Match(1, 2, 2));
    UnderscoredFrom("a1", [Match(1, 2, 2)], ["1"], "1");
  }
}
