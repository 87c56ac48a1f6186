/**
 * Instrumentation routing in benchmark.py: the `if plot_usage: … elif
 * profile_usage: …` choice every scenario makes, the artifact paths the two
 * adapters write to, and the observable events each adapter causes.
 */
module Instrumentation {
  import opened Wrappers
  import opened Values
  import opened Naming

  datatype Mode = Plot | Profile | NoOp

  /** Plot wins over profile; with neither flag nothing is instrumented. */
  function SelectMode(plotUsage: bool, profileUsage: bool): (m: Mode)
    ensures m == Plot <==> plotUsage
    ensures m == Profile <==> !plotUsage && profileUsage
    ensures m == NoOp <==> !plotUsage && !profileUsage
  {
    if plotUsage then Plot else if profileUsage then Profile else NoOp
  }

  const ResultsDir := "results/"
  const ProfileExt := ".profile"
  const PlotExt := ".png"

  /** `f'results/{filename}.profile'`. */
  function ProfilePath(name: string): (r: string)
    ensures HasAffixes(r, ProfileExt) && r[|ResultsDir|..|r| - |ProfileExt|] == name
  {
    ResultsDir + name + ProfileExt
  }

  /** `f'results/{filename}.png'`. */
  function PlotPath(name: string): (r: string)
    ensures HasAffixes(r, PlotExt) && r[|ResultsDir|..|r| - |PlotExt|] == name
  {
    ResultsDir + name + PlotExt
  }

  /** The artifact a mode produces for a name; none when nothing is instrumented. */
  function ArtifactPath(name: string, mode: Mode): (r: Option<string>)
    ensures r == None <==> mode == NoOp
    ensures mode == Plot ==> HasAffixes(r.value, PlotExt)
    ensures mode == Profile ==> HasAffixes(r.value, ProfileExt)
  {
    match mode
    case Plot => Some(PlotPath(name))
    case Profile => Some(ProfilePath(name))
    case NoOp => None
  }

  predicate HasAffixes(path: string, ext: string) {
    |ResultsDir| + |ext| <= |path|
    && path[..|ResultsDir|] == ResultsDir
    && path[|path| - |ext|..] == ext
  }

  /** Recovers the artifact name and the mode from an artifact path. */
  function ParseArtifactPath(path: string): Option<(string, Mode)> {
    if HasAffixes(path, ProfileExt) then Some((path[|ResultsDir|..|path| - |ProfileExt|], Profile))
    else if HasAffixes(path, PlotExt) then Some((path[|ResultsDir|..|path| - |PlotExt|], Plot))
    else None
  }

  lemma AffixesOf(name: string, ext: string)
    ensures var path := ResultsDir + name + ext;
      HasAffixes(path, ext) && path[|ResultsDir|..|path| - |ext|] == name
  {
  }

  /** An artifact path determines the name and the mode it was built from. */
  lemma ArtifactPathRoundTrip(name: string, mode: Mode)
    ensures ArtifactPath(name, mode) == None <==> mode == NoOp
    ensures mode != NoOp ==> ParseArtifactPath(ArtifactPath(name, mode).value) == Some((name, mode))
  {
    match mode
    case Plot =>
      var path := PlotPath(name);
      AffixesOf(name, PlotExt);
      assert path[|path| - 1] == 'g';
      assert !HasAffixes(path, ProfileExt);
    case Profile =>
      AffixesOf(name, ProfileExt);
    case NoOp =>
  }

  lemma ArtifactPathInjective(n1: string, m1: Mode, n2: string, m2: Mode)
    requires ArtifactPath(n1, m1) == ArtifactPath(n2, m2) != None
    ensures n1 == n2 && m1 == m2
  {
    ArtifactPathRoundTrip(n1, m1);
    ArtifactPathRoundTrip(n2, m2);
  }

  /** What `deepdiff.diff.np` is bound to while a diff runs. */
  datatype NumpyBinding = NumpyModule | NoNumpy

  /** One call of the diff operation: its configuration, log interval and numpy binding. */
  datatype DiffCall = DiffCall(params: seq<Param>, logFrequencyInSec: nat, np: NumpyBinding)

  /** What an adapter does that can be observed from outside the process. */
  datatype Event =
    | SamplerLaunched(pid: string, interval: string, plotPath: string)
    | DiffInvoked(call: DiffCall)
    | ProfileWritten(path: string)

  datatype Outcome = Completed | Raised

  /** `log_frequency_in_sec=2`, passed on every diff call. */
  const LogFrequencyInSec := 2

  /** `freq='.1'`, the sampler's polling interval in every scenario. */
  const PlotInterval := ".1"

  function DiffEvent(params: seq<Param>, np: NumpyBinding): Event {
    DiffInvoked(DiffCall(params, LogFrequencyInSec, np))
  }

  /** `get_profile_of_usage`: one diff call, then the statistics file unless the call raised. */
  function ProfileEvents(filename: string, params: seq<Param>, np: NumpyBinding, raises: bool): (r: seq<Event>)
    ensures |r| == if raises then 1 else 2
    ensures r[0] == DiffInvoked(DiffCall(params, LogFrequencyInSec, np))
    ensures !raises ==> r[1] == ProfileWritten(ProfilePath(filename))
  {
    [DiffEvent(params, np)] + (if raises then [] else [ProfileWritten(ProfilePath(filename))])
  }

  /** `plot_resource_usage`: the sampler is launched, then the diff runs. */
  function PlotEvents(pid: string, interval: string, filename: string, params: seq<Param>, np: NumpyBinding): (r: seq<Event>)
    ensures |r| == 2
    ensures r[0] == SamplerLaunched(pid, interval, PlotPath(filename))
    ensures r[1] == DiffInvoked(DiffCall(params, LogFrequencyInSec, np))
  {
    [SamplerLaunched(pid, interval, PlotPath(filename)), DiffEvent(params, np)]
  }

  /** The events of the adapter the mode selects; none in no-op mode. */
  function RouteEvents(mode: Mode, pid: string, filename: string, params: seq<Param>, np: NumpyBinding, raises: bool): (r: seq<Event>)
    ensures r == [] <==> mode == NoOp
    ensures mode == Plot ==> r[0].SamplerLaunched? && r[0].plotPath == PlotPath(filename)
    ensures mode == Profile ==> r[0].DiffInvoked?
  {
    match mode
    case Plot => PlotEvents(pid, PlotInterval, filename, params, np)
    case Profile => ProfileEvents(filename, params, np, raises)
    case NoOp => []
  }

  /** An exception from the selected adapter leaves the dispatch; with no adapter nothing can raise. */
  function RouteOutcome(mode: Mode, raises: bool): (o: Outcome)
    ensures o == Raised <==> mode != NoOp && raises
  {
    if mode != NoOp && raises then Raised else Completed
  }

  /** Number of diff calls in a trace. */
  function DiffCount(t: seq<Event>): nat {
    if t == [] then 0 else (if t[0].DiffInvoked? then 1 else 0) + DiffCount(t[1..])
  }

  /** Paths of the artifacts a trace asks for: statistics files and sampler plots. */
  function Artifacts(t: seq<Event>): seq<string> {
    if t == [] then []
    else
      match t[0]
      case SamplerLaunched(_, _, p) => [p] + Artifacts(t[1..])
      case ProfileWritten(p) => [p] + Artifacts(t[1..])
      case DiffInvoked(_) => Artifacts(t[1..])
  }

  lemma {:induction false} DiffCountAppend(a: seq<Event>, b: seq<Event>)
    ensures DiffCount(a + b) == DiffCount(a) + DiffCount(b)
  {
    if a == [] {
      assert a + b == b;
    } else {
      assert (a + b)[1..] == a[1..] + b;
      DiffCountAppend(a[1..], b);
    }
  }

  /** Counts and artifacts of the traces one dispatch can produce. */
  lemma {:induction false} ShortTraces(mode: Mode, pid: string, filename: string, params: seq<Param>, np: NumpyBinding, raises: bool)
    ensures var t := RouteEvents(mode, pid, filename, params, np, raises);
      && DiffCount(t) == (if mode == NoOp then 0 else 1)
      && Artifacts(t) == (match mode
                          case Plot => [PlotPath(filename)]
                          case Profile => if raises then [] else [ProfilePath(filename)]
                          case NoOp => [])
  {
    var t := RouteEvents(mode, pid, filename, params, np, raises);
    var d := DiffEvent(params, np);
    match mode
    case Plot =>
      var l := SamplerLaunched(pid, PlotInterval, PlotPath(filename));
      assert t == [l, d] && t[1..] == [d] && [d][1..] == [];
      assert [d][0] == d && [d][1..] == [];
      assert Artifacts([d]) == Artifacts([]) == [];
      assert DiffCount([d]) == 1;
    case Profile =>
      if raises {
        assert t == [d] && t[1..] == [];
      } else {
        var w := ProfileWritten(ProfilePath(filename));
        assert t == [d, w] && t[1..] == [w] && [w][1..] == [];
        assert DiffCount([w]) == 0 && Artifacts([w]) == [w.path];
      }
    case NoOp =>
  }

  /** Neither flag set, exactly one diff call otherwise. */
  lemma DispatchDiffCount(plotUsage: bool, profileUsage: bool, pid: string, filename: string,
                          params: seq<Param>, np: NumpyBinding, raises: bool)
    ensures DiffCount(RouteEvents(SelectMode(plotUsage, profileUsage), pid, filename, params, np, raises))
         == if plotUsage || profileUsage then 1 else 0
  {
    ShortTraces(SelectMode(plotUsage, profileUsage), pid, filename, params, np, raises);
  }

  /** With neither flag set nothing happens at all. */
  lemma NoOpHasNoEffect(pid: string, filename: string, params: seq<Param>, np: NumpyBinding, raises: bool)
    ensures RouteEvents(SelectMode(false, false), pid, filename, params, np, raises) == []
    ensures RouteOutcome(SelectMode(false, false), raises) == Completed
  {
  }

  /**
   * The artifacts a dispatch asks for: the plot whenever `plot_usage` is set,
   * whatever `profile_usage` says; the statistics file only without
   * `plot_usage`, with `profile_usage`, and when the diff did not raise.
   */
  lemma DispatchArtifacts(plotUsage: bool, profileUsage: bool, pid: string, filename: string,
                          params: seq<Param>, np: NumpyBinding, raises: bool)
    ensures Artifacts(RouteEvents(SelectMode(plotUsage, profileUsage), pid, filename, params, np, raises))
         == if plotUsage then [PlotPath(filename)]
            else if profileUsage && !raises then [ProfilePath(filename)]
            else []
  {
    ShortTraces(SelectMode(plotUsage, profileUsage), pid, filename, params, np, raises);
  }

  /** Every artifact a dispatch asks for is at the path its mode assigns. */
  lemma ArtifactsAtModePath(mode: Mode, pid: string, filename: string, params: seq<Param>, np: NumpyBinding, raises: bool)
    ensures var arts := Artifacts(RouteEvents(mode, pid, filename, params, np, raises));
      |arts| <= 1 && (arts != [] ==> ArtifactPath(filename, mode) == Some(arts[0]))
  {
    ShortTraces(mode, pid, filename, params, np, raises);
  }

  /** In plot mode the sampler is launched before the diff call starts. */
  lemma SamplerStartsFirst(pid: string, filename: string, params: seq<Param>, np: NumpyBinding, raises: bool)
    ensures var t := RouteEvents(Plot, pid, filename, params, np, raises);
      |t| == 2 && t[0] == SamplerLaunched(pid, PlotInterval, PlotPath(filename)) && t[1].DiffInvoked?
  {
  }

  /** Every diff call of a dispatch gets the scenario's configuration and the current numpy binding. */
  lemma DiffCallsSeeBinding(mode: Mode, pid: string, filename: string, params: seq<Param>, np: NumpyBinding, raises: bool)
    ensures forall e <- RouteEvents(mode, pid, filename, params, np, raises) ::
      e.DiffInvoked? ==> e.call == DiffCall(params, LogFrequencyInSec, np)
  {
  }
}
