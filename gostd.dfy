/** The few functions of Go's standard library that the generator relies on:
    `strings.Join`, `strings.ToLower` (on ASCII letters) and `path.Ext`. */
module GoStd {

  predicate IsUpper(c: char) { 'A' <= c <= 'Z' }

  predicate IsDigit(c: char) { '0' <= c <= '9' }

  /** No ASCII upper-case letter anywhere in `s`. */
  predicate NoUpper(s: string) { forall i :: 0 <= i < |s| ==> !IsUpper(s[i]) }

  function LowerChar(c: char): (d: char)
    ensures !IsUpper(d)
    ensures IsDigit(d) <==> IsDigit(c)
    ensures !IsUpper(c) ==> d == c
  {
    if IsUpper(c) then (c as int + 32) as char else c
  }

  /** `strings.ToLower`, restricted to the ASCII letters. */
  function ToLower(s: string): (r: string)
    ensures |r| == |s|
    ensures forall i :: 0 <= i < |s| ==> r[i] == LowerChar(s[i])
  {
    if s == [] then [] else ToLower(s[..|s| - 1]) + [LowerChar(s[|s| - 1])]
  }

  lemma ToLowerNoUpper(s: string)
    ensures NoUpper(ToLower(s))
  {
  }

  lemma ToLowerOfLower(s: string)
    requires NoUpper(s)
    ensures ToLower(s) == s
  {
  }

  /** `strings.Join(a, sep)`: the elements of `a` separated by `sep`; "" for no elements. */
  function Join(a: seq<string>, sep: string): string
  {
    if |a| == 0 then ""
    else if |a| == 1 then a[0]
    else Join(a[..|a| - 1], sep) + sep + a[|a| - 1]
  }

  /** Every character of `Join(a, sep)` comes from an element of `a` or from `sep`. */
  lemma {:induction false} JoinChars(a: seq<string>, sep: string, c: char)
    requires c in Join(a, sep)
    ensures c in sep || exists k :: 0 <= k < |a| && c in a[k]
  {
    if |a| > 1 {
      var a' := a[..|a| - 1];
      var init := Join(a', sep);
      assert Join(a, sep) == init + sep + a[|a| - 1];
      if c in init {
        JoinChars(a', sep, c);
        if c !in sep {
          var k :| 0 <= k < |a'| && c in a'[k];
          assert a'[k] == a[k];
        }
      } else if c !in sep {
        assert c in a[|a| - 1];
      }
    }
  }

  /** `path.Ext`: the suffix of `p` from the last '.' of its final '/'-separated element,
      or "" when that element has no '.'. */
  function Ext(p: string): (e: string)
    ensures |e| <= |p| && e == p[|p| - |e|..]
    ensures e != "" ==> e[0] == '.' && forall i :: 1 <= i < |e| ==> e[i] != '.' && e[i] != '/'
  {
    if |p| == 0 || p[|p| - 1] == '/' then ""
    else if p[|p| - 1] == '.' then "."
    else
      var e := Ext(p[..|p| - 1]);
      if e == "" then "" else e + [p[|p| - 1]]
  }

  /** A suffix that starts at a '.' and has no further '.' or '/' is exactly the extension,
      whatever comes before it. */
  lemma {:induction false} ExtOfSuffix(base: string, x: string)
    requires |x| > 0 && x[0] == '.'
    requires forall i :: 1 <= i < |x| ==> x[i] != '.' && x[i] != '/'
    ensures Ext(base + x) == x
  {
    var p := base + x;
    if |x| > 1 {
      var x' := x[..|x| - 1];
      assert p[..|p| - 1] == base + x';
      ExtOfSuffix(base, x');
    }
  }

  lemma PrefixOfAppend(a: string, b: string, n: nat)
    requires n <= |a|
    ensures (a + b)[..n] == a[..n]
  {
  }

  /** A text `p` that opens `b` is found in `a + b` just after `a`. */
  lemma PrefixAt(a: string, b: string, p: string)
    requires |b| >= |p| && b[..|p|] == p
    ensures (a + b)[|a|..|a| + |p|] == p
  {
    assert (a + b)[|a|..|a| + |p|] == b[..|p|];
  }
}
