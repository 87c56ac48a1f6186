/**
 * The benchmark process as a state machine: the diff module's global `np`
 * binding and the trace of observable events (sampler launches, diff calls,
 * statistics files written). The `benchmark_*` functions of benchmark.py are
 * one method over the scenario catalog.
 */
module Benchmark {
  import opened Naming
  import opened Instrumentation
  import opened Scenarios

  class Harness {
    /** `current_pid`, the process identifier handed to the sampler. */
    const pid: string
    /** `deepdiff.diff.np`. */
    var diffNp: NumpyBinding
    /** Everything the process has done that can be observed, oldest first. */
    var trace: seq<Event>

    constructor (pid: string, diffNp: NumpyBinding)
      ensures this.pid == pid && this.diffNp == diffNp && trace == []
    {
      this.pid := pid;
      this.diffNp := diffNp;
      trace := [];
    }

    /** `DeepDiff(t1, t2, log_frequency_in_sec=2, **params)`; whether it raises is not ours to decide. */
    method Diff(params: seq<Param>, raises: bool) returns (o: Outcome)
      modifies this`trace
      ensures trace == old(trace) + [DiffEvent(params, diffNp)]
      ensures o == if raises then Raised else Completed
    {
      trace := trace + [DiffEvent(params, diffNp)];
      o := if raises then Raised else Completed;
    }

    /** `get_profile_of_usage`: an exception of the diff skips `dump_stats`. */
    method GetProfileOfUsage(filename: string, params: seq<Param>, raises: bool) returns (o: Outcome)
      modifies this`trace
      ensures trace == old(trace) + ProfileEvents(filename, params, diffNp, raises)
      ensures o == if raises then Raised else Completed
    {
      o := Diff(params, raises);
      if o == Completed {
        trace := trace + [ProfileWritten(ProfilePath(filename))];
      }
    }

    /** `plot_resource_usage`: the sampler is started before the diff is called. */
    method PlotResourceUsage(filename: string, freq: string, params: seq<Param>, raises: bool) returns (o: Outcome)
      modifies this`trace
      ensures trace == old(trace) + PlotEvents(pid, freq, filename, params, diffNp)
      ensures o == if raises then Raised else Completed
    {
      trace := trace + [SamplerLaunched(pid, freq, PlotPath(filename))];
      o := Diff(params, raises);
    }

    /** The `if plot_usage: … elif profile_usage: …` routing. */
    method Instrument(mode: Mode, filename: string, params: seq<Param>, raises: bool) returns (o: Outcome)
      modifies this`trace
      ensures trace == old(trace) + RouteEvents(mode, pid, filename, params, diffNp, raises)
      ensures DiffCount(trace) == DiffCount(old(trace)) + (if mode == NoOp then 0 else 1)
      ensures o == RouteOutcome(mode, raises)
    {
      DiffCountAppend(trace, RouteEvents(mode, pid, filename, params, diffNp, raises));
      ShortTraces(mode, pid, filename, params, diffNp, raises);
      match mode
      case Plot => o := PlotResourceUsage(filename, PlotInterval, params, raises);
      case Profile => o := GetProfileOfUsage(filename, params, raises);
      case NoOp => o := Completed;
    }

    /**
     * `benchmark_array_no_numpy`'s `try: diff.np = None … finally: diff.np = np`:
     * the diff runs without numpy and the binding is numpy again afterwards,
     * whether the diff completed or raised.
     */
    method InstrumentWithoutNumpy(mode: Mode, filename: string, params: seq<Param>, raises: bool) returns (o: Outcome)
      modifies this`trace, this`diffNp
      ensures trace == old(trace) + RouteEvents(mode, pid, filename, params, NoNumpy, raises)
      ensures DiffCount(trace) == DiffCount(old(trace)) + (if mode == NoOp then 0 else 1)
      ensures diffNp == NumpyModule
      ensures old(diffNp) == NumpyModule ==> diffNp == old(diffNp)
      ensures o == RouteOutcome(mode, raises)
    {
      diffNp := NoNumpy;
      o := Instrument(mode, filename, params, raises);
      diffNp := NumpyModule;
    }

    /** One `benchmark_*(plot_usage, profile_usage)` call on the runtime described by `isPyPy` and `version`. */
    method RunScenario(s: Scenario, plotUsage: bool, profileUsage: bool, isPyPy: bool, version: string, raises: bool)
      returns (filename: string, o: Outcome)
      modifies this`trace, this`diffNp
      ensures filename == FileName(ScenarioName(s), isPyPy, version, ScenarioParams(s))
      ensures trace == old(trace) + RouteEvents(SelectMode(plotUsage, profileUsage), pid, filename, ScenarioParams(s),
                                                if DisablesNumpy(s) then NoNumpy else old(diffNp), raises)
      ensures DiffCount(trace) == DiffCount(old(trace)) + (if plotUsage || profileUsage then 1 else 0)
      ensures diffNp == if DisablesNumpy(s) then NumpyModule else old(diffNp)
      ensures o == RouteOutcome(SelectMode(plotUsage, profileUsage), raises)
    {
      var params := ScenarioParams(s);
      filename := GetFileName(ScenarioName(s), isPyPy, version, params);
      var mode := SelectMode(plotUsage, profileUsage);
      if DisablesNumpy(s) {
        o := InstrumentWithoutNumpy(mode, filename, params, raises);
      } else {
        o := Instrument(mode, filename, params, raises);
      }
    }
  }
}
