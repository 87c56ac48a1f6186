/**
 * The scenario catalog of benchmark.py: each `benchmark_*` function's name
 * and the configuration it passes, in the order its `dict(...)` lists it.
 */
module Scenarios {
  import opened Values
  import opened Naming

  datatype Scenario = NumpyArray | ArrayNoNumpy | BigJsons | DeeplyNestedA | DeeplyNestedB

  /** Every scenario is a `benchmark_*` function. */
  function ScenarioName(s: Scenario): (r: string)
    ensures |r| > 10 && r[..10] == "benchmark_"
  {
    match s
    case NumpyArray => "benchmark_numpy_array"
    case ArrayNoNumpy => "benchmark_array_no_numpy"
    case BigJsons => "benchmark_big_jsons"
    case DeeplyNestedA => "benchmark_deeply_nested_a"
    case DeeplyNestedB => "benchmark_deeply_nested_b"
  }

  /** Every scenario compares with `ignore_order=True`, given first. */
  function ScenarioParams(s: Scenario): (r: seq<Param>)
    ensures |r| >= 3 && r[0] == ("ignore_order", Bool(true))
    ensures r[1].0 == "cache_size" && r[2].0 == "cache_tuning_sample_size"
  {
    match s
    case NumpyArray =>
      [("ignore_order", Bool(true)), ("cache_size", Int(5000)), ("cache_tuning_sample_size", Int(500))]
    case ArrayNoNumpy =>
      [("ignore_order", Bool(true)), ("cache_size", Int(10000)), ("cache_tuning_sample_size", Int(20000))]
    case BigJsons =>
      [("ignore_order", Bool(true)), ("cache_size", Int(0)), ("cache_tuning_sample_size", Int(0)),
       ("max_diffs", Int(300000)), ("max_passes", Int(40000))]
    case DeeplyNestedA =>
      [("ignore_order", Bool(true)), ("cache_size", Int(500)), ("cache_tuning_sample_size", Int(500))]
    case DeeplyNestedB =>
      [("ignore_order", Bool(true)), ("cache_size", Int(5000)), ("cache_tuning_sample_size", Int(0))]
  }

  /** Only the plain-list scenario runs the diff with numpy switched off. */
  function DisablesNumpy(s: Scenario): (b: bool)
    ensures b <==> ScenarioName(s) == "benchmark_array_no_numpy"
  {
    s == ArrayNoNumpy
  }

  predicate DistinctKeys(ps: seq<Param>) {
    forall i, j :: 0 <= i < j < |ps| ==> ps[i].0 != ps[j].0
  }

  /** Each configuration is a Python dict: no option name occurs twice. */
  lemma CatalogKeysDistinct(s: Scenario)
    ensures DistinctKeys(ScenarioParams(s))
    ensures |ScenarioParams(s)| == if s == BigJsons then 5 else 3
  {
  }

  /** Names that differ below their common length yield different file names. */
  lemma FileNamesDifferAt(n1: string, n2: string, i: nat, isPyPy: bool, version: string,
                          p1: seq<Param>, p2: seq<Param>)
    requires i < |n1| && i < |n2| && n1[i] != n2[i]
    ensures FileName(n1, isPyPy, version, p1) != FileName(n2, isPyPy, version, p2)
  {
    assert FileName(n1, isPyPy, version, p1)[i] == n1[i];
    assert FileName(n2, isPyPy, version, p2)[i] == n2[i];
  }

  /** Different scenarios never overwrite each other's artifacts on one runtime. */
  lemma ScenarioFileNamesDistinct(s1: Scenario, s2: Scenario, isPyPy: bool, version: string)
    requires s1 != s2
    ensures FileName(ScenarioName(s1), isPyPy, version, ScenarioParams(s1))
         != FileName(ScenarioName(s2), isPyPy, version, ScenarioParams(s2))
  {
    var n1, n2 := ScenarioName(s1), ScenarioName(s2);
    var i := if {s1, s2} == {DeeplyNestedA, DeeplyNestedB} then 24 else 10;
    FileNamesDifferAt(n1, n2, i, isPyPy, version, ScenarioParams(s1), ScenarioParams(s2));
  }

  /** The texts of the catalog entries the two example names are made of. */
  lemma IgnoreOrderSegment()
    ensures Segment(("ignore_order", Bool(true))) == "__ignore_order=True"
  {
  }

  lemma CacheSize500Segment()
    ensures Segment(("cache_size", Int(500))) == "__cache_size=500"
  {
    RenderExamples();
  }

  lemma CacheSize5000Segment()
    ensures Segment(("cache_size", Int(5000))) == "__cache_size=5000"
  {
    RenderExamples();
  }

  lemma CacheTuning500Segment()
    ensures Segment(("cache_tuning_sample_size", Int(500))) == "__cache_tuning_sample_size=500"
  {
    RenderExamples();
  }

  /** The artifact name of `benchmark_deeply_nested_a` on CPython, for any version string. */
  lemma DeeplyNestedAName(version: string)
    ensures FileName(ScenarioName(DeeplyNestedA), false, version, ScenarioParams(DeeplyNestedA))
         == "benchmark_deeply_nested_a" + "__" + version
            + "__ignore_order=True" + "__cache_size=500" + "__cache_tuning_sample_size=500"
  {
    IgnoreOrderSegment();
    CacheSize500Segment();
    CacheTuning500Segment();
    NameOfThree(ScenarioName(DeeplyNestedA), false, version, ScenarioParams(DeeplyNestedA),
                "__ignore_order=True", "__cache_size=500", "__cache_tuning_sample_size=500");
  }

  /** The artifact name of `benchmark_numpy_array` on PyPy, whatever the version string. */
  lemma NumpyArrayPyPyName(version: string)
    ensures FileName(ScenarioName(NumpyArray), true, version, ScenarioParams(NumpyArray))
         == "benchmark_numpy_array" + "__pypy3"
            + "__ignore_order=True" + "__cache_size=5000" + "__cache_tuning_sample_size=500"
  {
    IgnoreOrderSegment();
    CacheSize5000Segment();
    CacheTuning500Segment();
    NameOfThree(ScenarioName(NumpyArray), true, version, ScenarioParams(NumpyArray),
                "__ignore_order=True", "__cache_size=5000", "__cache_tuning_sample_size=500");
  }
}
