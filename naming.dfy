/**
 * The artifact namer, `get_file_name` in benchmark.py: the scenario's
 * function name, the runtime tag, then one `__key=value` segment per
 * configuration entry, in the order the keyword arguments were given.
 */
module Naming {
  import opened Values

  /** One configuration entry: option name and value. */
  type Param = (string, Value)

  /** The runtime tag used when the interpreter is PyPy. */
  const PyPyTag := "pypy3"

  /** `'pypy3' if pypy3 else py_current_version`. */
  function Suffix(isPyPy: bool, version: string): (s: string)
    ensures isPyPy ==> s == PyPyTag
    ensures !isPyPy ==> s == version
  {
    if isPyPy then PyPyTag else version
  }

  function Prefix(funcName: string, suffix: string): string {
    funcName + "__" + suffix
  }

  function Segment(p: Param): string {
    "__" + p.0 + "=" + Render(p.1)
  }

  /** All segments, first entry first. */
  function Segments(ps: seq<Param>): (r: string)
    ensures r == "" <==> ps == []
    ensures r != "" ==> r[0] == '_'
  {
    if ps == [] then "" else Segment(ps[0]) + Segments(ps[1..])
  }

  /** The closed form of the name `get_file_name` returns. */
  function FileName(funcName: string, isPyPy: bool, version: string, ps: seq<Param>): (r: string)
    ensures Prefix(funcName, Suffix(isPyPy, version)) <= r
    ensures r == Prefix(funcName, Suffix(isPyPy, version)) <==> ps == []
  {
    Prefix(funcName, Suffix(isPyPy, version)) + Segments(ps)
  }

  /** Σ (3 + |key| + |rendered value|) over the entries. */
  function SegmentsLength(ps: seq<Param>): nat {
    if ps == [] then 0 else 3 + |ps[0].0| + |Render(ps[0].1)| + SegmentsLength(ps[1..])
  }

  /** `get_file_name`: accumulates the name one entry at a time. */
  method GetFileName(funcName: string, isPyPy: bool, version: string, params: seq<Param>)
    returns (filename: string)
    ensures filename == FileName(funcName, isPyPy, version, params)
  {
    var suffix := if isPyPy then PyPyTag else version;
    filename := funcName + "__" + suffix;
    for i := 0 to |params|
      invariant filename == Prefix(funcName, suffix) + Segments(params[..i])
    {
      var (key, value) := params[i];
      var segment := "__" + key + "=" + Render(value);
      ExtendName(filename, Prefix(funcName, suffix), params, i);
      filename := filename + segment;
    }
    assert params[..|params|] == params;
  }

  /** The loop step of GetFileName: one more segment covers one more entry. */
  lemma ExtendName(acc: string, pre: string, ps: seq<Param>, i: nat)
    requires i < |ps| && acc == pre + Segments(ps[..i])
    ensures acc + ("__" + ps[i].0 + "=" + Render(ps[i].1)) == pre + Segments(ps[..i + 1])
  {
    assert ps[..i + 1] == ps[..i] + [ps[i]];
    SegmentsAppend(ps[..i], ps[i]);
    Associative(pre, Segments(ps[..i]), Segment(ps[i]));
  }

  lemma Associative(a: string, b: string, c: string)
    ensures (a + b) + c == a + (b + c)
  {
  }

  lemma {:induction false} SegmentsAppend(ps: seq<Param>, p: Param)
    ensures Segments(ps + [p]) == Segments(ps) + Segment(p)
  {
    if ps == [] {
      assert [] + [p] == [p];
    } else {
      assert (ps + [p])[1..] == ps[1..] + [p];
      SegmentsAppend(ps[1..], p);
    }
  }

  /** The name starts with the function name, `__` and the runtime tag. */
  lemma FileNameHasPrefix(funcName: string, isPyPy: bool, version: string, ps: seq<Param>)
    ensures var r := FileName(funcName, isPyPy, version, ps);
      var pre := funcName + "__" + (if isPyPy then "pypy3" else version);
      |pre| <= |r| && r[..|pre|] == pre
  {
  }

  /** With no configuration the name is exactly `func_name__suffix`. */
  lemma FileNameNoParams(funcName: string, isPyPy: bool, version: string)
    ensures FileName(funcName, isPyPy, version, []) == funcName + "__" + (if isPyPy then "pypy3" else version)
  {
  }

  /** One more entry adds exactly one `__key=value` segment at the end. */
  lemma FileNameAppend(funcName: string, isPyPy: bool, version: string, ps: seq<Param>, key: string, v: Value)
    ensures FileName(funcName, isPyPy, version, ps + [(key, v)])
         == FileName(funcName, isPyPy, version, ps) + "__" + key + "=" + Render(v)
  {
    SegmentsAppend(ps, (key, v));
  }

  lemma {:induction false} SegmentsLengthIs(ps: seq<Param>)
    ensures |Segments(ps)| == SegmentsLength(ps)
  {
    if ps != [] {
      SegmentsLengthIs(ps[1..]);
    }
  }

  lemma FileNameLength(funcName: string, isPyPy: bool, version: string, ps: seq<Param>)
    ensures |FileName(funcName, isPyPy, version, ps)|
         == |funcName| + 2 + |Suffix(isPyPy, version)| + SegmentsLength(ps)
  {
    SegmentsLengthIs(ps);
  }

  /** The length of the longest prefix of `x` that does not hold the character `c`. */
  function UntilChar(x: string, c: char): (n: nat)
    ensures n <= |x|
  {
    if x == "" || x[0] == c then 0 else 1 + UntilChar(x[1..], c)
  }

  lemma {:induction false} UntilCharOf(a: string, s: string, c: char)
    requires forall k :: 0 <= k < |a| ==> a[k] != c
    requires s == "" || s[0] == c
    ensures UntilChar(a + s, c) == |a|
  {
    if a == "" {
      assert a + s == s;
    } else {
      assert (a + s)[0] == a[0];
      assert (a + s)[1..] == a[1..] + s;
      UntilCharOf(a[1..], s, c);
    }
  }

  /**
   * Two texts that do not hold `c`, each followed by a rest that is empty or
   * starts with `c`, are told apart at the first `c`.
   */
  lemma SplitAtChar(a: string, s: string, b: string, t: string, c: char)
    requires forall k :: 0 <= k < |a| ==> a[k] != c
    requires forall k :: 0 <= k < |b| ==> b[k] != c
    requires s == "" || s[0] == c
    requires t == "" || t[0] == c
    requires a + s == b + t
    ensures a == b && s == t
  {
    UntilCharOf(a, s, c);
    UntilCharOf(b, t, c);
    assert a == (a + s)[..|a|] == (b + t)[..|b|] == b;
    assert s == (a + s)[|a|..] == (b + t)[|b|..] == t;
  }

  /** Predicate: the two configurations list the same option names in the same order. */
  predicate SameKeys(p1: seq<Param>, p2: seq<Param>) {
    |p1| == |p2| && forall k :: 0 <= k < |p1| ==> p1[k].0 == p2[k].0
  }

  lemma StripCommonPrefix(h: string, x: string, y: string)
    requires h + x == h + y
    ensures x == y
  {
    assert x == (h + x)[|h|..];
    assert y == (h + y)[|h|..];
  }

  /** Two segments under one key, each followed by further segments, agree when their texts do. */
  lemma SegmentsAgree(key: string, v1: Value, v2: Value, s1: string, s2: string)
    requires s1 == "" || s1[0] == '_'
    requires s2 == "" || s2[0] == '_'
    requires Segment((key, v1)) + s1 == Segment((key, v2)) + s2
    ensures v1 == v2 && s1 == s2
  {
    var h := "__" + key + "=";
    var r1, r2 := Render(v1), Render(v2);
    assert Segment((key, v1)) + s1 == h + (r1 + s1);
    assert Segment((key, v2)) + s2 == h + (r2 + s2);
    StripCommonPrefix(h, r1 + s1, r2 + s2);
    RenderHasNoSeparator(v1);
    RenderHasNoSeparator(v2);
    SplitAtChar(r1, s1, r2, s2, '_');
    RenderInjective(v1, v2);
  }

  lemma {:induction false} SegmentsInjectiveInValues(p1: seq<Param>, p2: seq<Param>)
    requires SameKeys(p1, p2)
    requires Segments(p1) == Segments(p2)
    ensures p1 == p2
  {
    if p1 != [] {
      assert p1[0].0 == p2[0].0;
      SegmentsAgree(p1[0].0, p1[0].1, p2[0].1, Segments(p1[1..]), Segments(p2[1..]));
      assert p1[0] == p2[0];
      assert SameKeys(p1[1..], p2[1..]);
      SegmentsInjectiveInValues(p1[1..], p2[1..]);
      assert p1 == [p1[0]] + p1[1..];
      assert p2 == [p2[0]] + p2[1..];
    }
  }

  /**
   * For one scenario and runtime, two configurations with the same option
   * names in the same order that differ in some value get different names.
   */
  lemma FileNameDistinguishesValues(funcName: string, isPyPy: bool, version: string, p1: seq<Param>, p2: seq<Param>)
    requires SameKeys(p1, p2) && p1 != p2
    ensures FileName(funcName, isPyPy, version, p1) != FileName(funcName, isPyPy, version, p2)
  {
    var pre := Prefix(funcName, Suffix(isPyPy, version));
    if FileName(funcName, isPyPy, version, p1) == FileName(funcName, isPyPy, version, p2) {
      assert Segments(p1) == (pre + Segments(p1))[|pre|..];
      assert Segments(p2) == (pre + Segments(p2))[|pre|..];
      SegmentsInjectiveInValues(p1, p2);
    }
  }

  lemma SegmentsOfThree(a: Param, b: Param, c: Param)
    ensures Segments([a, b, c]) == Segment(a) + Segment(b) + Segment(c)
  {
    assert [a, b, c][1..] == [b, c] && [b, c][1..] == [c] && [c][1..] == [];
    assert Segments([c]) == Segment(c);
    assert Segments([b, c]) == Segment(b) + Segment(c);
  }

  /** A name with three entries, from the texts of its segments. */
  lemma NameOfThree(funcName: string, isPyPy: bool, version: string, ps: seq<Param>, s0: string, s1: string, s2: string)
    requires |ps| == 3 && Segment(ps[0]) == s0 && Segment(ps[1]) == s1 && Segment(ps[2]) == s2
    ensures FileName(funcName, isPyPy, version, ps) == Prefix(funcName, Suffix(isPyPy, version)) + s0 + s1 + s2
  {
    assert ps == [ps[0], ps[1], ps[2]];
    SegmentsOfThree(ps[0], ps[1], ps[2]);
    assert Segments(ps) == s0 + s1 + s2;
    var pre := Prefix(funcName, Suffix(isPyPy, version));
    calc {
      FileName(funcName, isPyPy, version, ps);
      pre + Segments(ps);
      pre + (s0 + s1 + s2);
      { Associative(pre, s0 + s1, s2); Associative(pre, s0, s1); }
      pre + s0 + s1 + s2;
    }
  }

  /** Predicate: the option name holds no `=`, as every keyword argument name does. */
  predicate PlainKey(p: Param) {
    forall k :: 0 <= k < |p.0| ==> p.0[k] != '='
  }

  /** The segments of a non-empty configuration, grouped from the right. */
  lemma SegmentsShape(p: Param, rest: seq<Param>)
    ensures Segments([p] + rest) == "__" + (p.0 + ("=" + (Render(p.1) + Segments(rest))))
  {
    assert ([p] + rest)[0] == p && ([p] + rest)[1..] == rest;
  }

  /** Two names of entries swapped are equal only when the entries are. */
  lemma SwappedSegmentsEqual(p: Param, q: Param)
    requires PlainKey(p) && PlainKey(q)
    requires Segments([p, q]) == Segments([q, p])
    ensures p == q
  {
    assert [p, q] == [p] + [q] && [q, p] == [q] + [p];
    var rp, rq := Render(p.1), Render(q.1);
    var x, y := Segments([q]), Segments([p]);
    SegmentsShape(p, [q]);
    SegmentsShape(q, [p]);
    StripCommonPrefix("__", p.0 + ("=" + (rp + x)), q.0 + ("=" + (rq + y)));
    SplitAtChar(p.0, "=" + (rp + x), q.0, "=" + (rq + y), '=');
    StripCommonPrefix("=", rp + x, rq + y);
    RenderHasNoSeparator(p.1);
    RenderHasNoSeparator(q.1);
    SplitAtChar(rp, x, rq, y, '_');
    RenderInjective(p.1, q.1);
  }

  /**
   * Swapping two different entries whose option names hold no `=` changes
   * the name: entries are not sorted first.
   */
  lemma SwapChangesName(funcName: string, isPyPy: bool, version: string, p: Param, q: Param)
    requires PlainKey(p) && PlainKey(q) && p != q
    ensures FileName(funcName, isPyPy, version, [p, q]) != FileName(funcName, isPyPy, version, [q, p])
  {
    var pre := Prefix(funcName, Suffix(isPyPy, version));
    if FileName(funcName, isPyPy, version, [p, q]) == FileName(funcName, isPyPy, version, [q, p]) {
      StripCommonPrefix(pre, Segments([p, q]), Segments([q, p]));
      SwappedSegmentsEqual(p, q);
    }
  }

  /** The catalog's first two options, given in the other order, give another name. */
  lemma InsertionOrderIsSignificant(funcName: string, isPyPy: bool, version: string)
    ensures FileName(funcName, isPyPy, version, [("ignore_order", Bool(true)), ("cache_size", Int(500))])
         != FileName(funcName, isPyPy, version, [("cache_size", Int(500)), ("ignore_order", Bool(true))])
  {
    SwapChangesName(funcName, isPyPy, version, ("ignore_order", Bool(true)), ("cache_size", Int(500)));
  }
}
