# Benchmark harness for a structural diff: a Dafny model

This project models the orchestration core of a harness that benchmarks
DeepDiff (`benchmark.py`). It covers four things:

- the artifact namer `get_file_name`, which joins the scenario's function
  name, a runtime tag (`pypy3`, or the interpreter's version string) and one
  `__key=value` segment per configuration entry;
- the choice each scenario makes between resource plotting, profiling and
  doing nothing (`if plot_usage: … elif profile_usage: …`);
- the artifact paths `results/<name>.profile` and `results/<name>.png`;
- the `try: diff.np = None … finally: diff.np = np` override in
  `benchmark_array_no_numpy`.

The catalog of the five `benchmark_*` scenarios is constant data.

Modules, leaf first:

- `Wrappers` (wrappers.dfy): `Option`.
- `Values` (values.dfy): configuration values (`Bool` or `Int`) and their
  f-string text (`True`, `False`, decimal digits with a leading `-` for
  negative numbers). A parser recovers a value from its text, which proves
  that rendering is injective.
- `Naming` (naming.dfy): `GetFileName` is the imperative loop that builds the
  name. `FileName` is the closed form it is proved to equal, and the
  properties of the name are lemmas about `FileName`.
- `Instrumentation` (instrumentation.dfy): the dispatch `SelectMode` and the
  artifact paths with their inverse `ParseArtifactPath`. It also gives the
  events each adapter causes (sampler launched, diff invoked, statistics
  written) as functions of its inputs, with lemmas that count diff calls and
  artifacts.
- `Scenarios` (scenarios.dfy): each scenario's name and its ordered
  configuration. Lemmas give concrete names and show that different scenarios
  never share a name.
- `Benchmark` (harness.dfy): class `Harness`. It holds the diff module's `np`
  binding and the trace of observable events. Its methods are the two
  adapters, the dispatch, the numpy override and one method that runs a whole
  scenario.

The DeepDiff call is an opaque event. Whether it raises is a parameter
(`raises`), and an exception is the outcome `Raised`, which the adapters pass
on. The runtime identity (PyPy or not, the version string) and the process
identifier are parameters.

Points where the model makes the code's behaviour explicit:

- The `finally` block assigns the harness's own `np` (the numpy module) to
  `diff.np`. It does not assign the value saved on entry. So
  `InstrumentWithoutNumpy` ensures that the binding is numpy afterwards, on
  both paths. It equals the value on entry only when that value was numpy,
  which is the case when deepdiff imported numpy.
- Entries are joined in insertion order and nothing sorts them, so giving the
  same options in another order produces another name. `SwapChangesName`
  proves this for any two different entries whose option names contain no
  `=`. The restriction is needed: the entries `a=1__a` with value 1 and `a`
  with value 1 give `__a=1__a=1__a=1` in either order.
- Names are not injective over arbitrary configurations. Values containing
  `__b=` can shift text between segments. What the code does guarantee is
  proved in `FileNameDistinguishesValues`: with the same option names in the
  same order, and values that are booleans or integers (as in every
  scenario), configurations that differ in a value get different names.

## Model

| member | source | states |
|---|---|---|
| `Values.Render` | benchmark.py:33 | the f-string text of a value is never empty; a non-negative integer's text is its decimal digits, and a negative one's is `-` followed by digits |
| `Values.Decimal` | benchmark.py:33 | an integer's text is a non-empty string of decimal digits, and it starts with `0` exactly when the number is 0 (no leading zeros) |
| `Values.DecimalRoundTrip` | benchmark.py:33 | reading the decimal text of `n` back gives `n` |
| `Values.RenderRoundTrip` | benchmark.py:33 | parsing the f-string text of any boolean or integer value gives back that value |
| `Values.RenderInjective` | benchmark.py:33 | two values with the same text are the same value |
| `Values.RenderHasNoSeparator` | benchmark.py:33 | a rendered value is never empty and contains neither `_` nor `=` |
| `Naming.Suffix` | benchmark.py:30 | on PyPy the runtime tag is `pypy3` whatever the version, and otherwise it is the version string |
| `Naming.FileName` | benchmark.py:29-36 | the name begins with `func_name + "__" + suffix`, and is exactly that when the configuration is empty |
| `Naming.GetFileName` | benchmark.py:29-36 | the loop's result equals the closed form `FileName`: `func_name__suffix` followed by `__key=value` for each entry in order; the loop invariant is the prefix built from the first `i` entries |
| `Naming.SegmentsAppend` | benchmark.py:32-33 | the segments of `ps + [p]` are the segments of `ps` followed by the segment of `p` |
| `Naming.FileNameHasPrefix` | benchmark.py:30-31 | every name starts with `func_name + "__" + suffix`, where suffix is `pypy3` on PyPy and the version string otherwise |
| `Naming.FileNameNoParams` | benchmark.py:30-33 | with no configuration the name is exactly `func_name__suffix` |
| `Naming.FileNameAppend` | benchmark.py:32-33 | one more entry `(k, v)` appends exactly `"__" + k + "=" + render(v)` to the name |
| `Naming.SegmentsLengthIs` | benchmark.py:32-33 | the segments are Σ(3 + \|key\| + \|rendered value\|) characters long |
| `Naming.FileNameLength` | benchmark.py:31-33 | the name is \|func_name\| + 2 + \|suffix\| + Σ(3 + \|key\| + \|rendered value\|) characters long |
| `Naming.SegmentsInjectiveInValues` | benchmark.py:32-33 | with the same option names in the same order, equal segment texts mean equal configurations |
| `Naming.FileNameDistinguishesValues` | benchmark.py:29-36 | for one function name and runtime, configurations with the same option names in the same order that differ in some value get different names |
| `Naming.SwappedSegmentsEqual` | benchmark.py:32-33 | if two entries whose option names contain no `=` give the same segments in either order, they are the same entry |
| `Naming.SwapChangesName` | benchmark.py:29-36 | two different entries whose option names contain no `=` give different names when given in the other order |
| `Naming.InsertionOrderIsSignificant` | benchmark.py:32-33 | a concrete instance of `SwapChangesName`: `ignore_order=True` then `cache_size=500` gives a different name from the same two options in the other order |
| `Instrumentation.SelectMode` | benchmark.py:53-56 | the plot path is chosen whenever `plot_usage` is set, the profile path exactly when `plot_usage` is unset and `profile_usage` is set, and nothing when both are unset |
| `Instrumentation.ProfilePath` | benchmark.py:21 | the statistics path lies under `results/`, ends in `.profile`, and holds the name between the two |
| `Instrumentation.PlotPath` | benchmark.py:25 | the plot path lies under `results/`, ends in `.png`, and holds the name between the two |
| `Instrumentation.ArtifactPath` | benchmark.py:21-25 | only the no-op mode has no artifact; plot mode's artifact ends in `.png` and profile mode's in `.profile` |
| `Instrumentation.ArtifactPathRoundTrip` | benchmark.py:21-25 | no mode but no-op yields an artifact, and the path `results/<name>.profile` or `results/<name>.png` gives back both the name and the mode |
| `Instrumentation.ArtifactPathInjective` | benchmark.py:21-25 | two artifacts at the same path come from the same name and the same mode |
| `Instrumentation.ProfileEvents` | benchmark.py:16-21 | the profile adapter makes one diff call first, with the configuration, `log_frequency_in_sec=2` and the current binding; the statistics file is written after it, and only when the call did not raise |
| `Instrumentation.PlotEvents` | benchmark.py:24-26 | the plot adapter makes exactly two events: the sampler launch with the process, the interval and the `.png` path, then the diff call |
| `Instrumentation.RouteEvents` | benchmark.py:53-56 | a dispatch does nothing exactly in no-op mode; in plot mode it starts with the sampler launch for the `.png`, and in profile mode with the diff call |
| `Instrumentation.RouteOutcome` | benchmark.py:53-56 | an exception leaves the dispatch exactly when an adapter is selected and the diff raises; with neither flag set the scenario always completes |
| `Instrumentation.ShortTraces` | benchmark.py:16-26 | one dispatch makes no diff call in no-op mode and one otherwise; the plot adapter asks for the `.png`, and the profile adapter writes the `.profile` only when the diff did not raise |
| `Instrumentation.DiffCountAppend` | benchmark.py:18-26 | the diff calls of two traces run one after the other add up |
| `Instrumentation.DispatchDiffCount` | benchmark.py:53-56 | with both flags unset no diff call happens, and otherwise exactly one |
| `Instrumentation.NoOpHasNoEffect` | benchmark.py:53-56 | with both flags unset there are no events at all and the scenario completes |
| `Instrumentation.DispatchArtifacts` | benchmark.py:16-56 | with `plot_usage` set the only artifact is the plot, whatever `profile_usage` says; otherwise, with `profile_usage` set, the `.profile` file, and only if the diff did not raise; otherwise none |
| `Instrumentation.ArtifactsAtModePath` | benchmark.py:16-26 | a dispatch produces at most one artifact, and that artifact is at the path its mode assigns to the name |
| `Instrumentation.SamplerStartsFirst` | benchmark.py:24-26 | in plot mode the sampler is launched, with the process identifier, the `.1` interval and the `.png` path, before the diff call |
| `Instrumentation.DiffCallsSeeBinding` | benchmark.py:16-26 | every diff call receives the scenario's configuration, `log_frequency_in_sec=2` and the current `np` binding |
| `Scenarios.ScenarioName` | benchmark.py:51-128 | every scenario's name begins with `benchmark_` |
| `Scenarios.ScenarioParams` | benchmark.py:46-126 | every configuration has at least three entries: `ignore_order=True` first, then `cache_size`, then `cache_tuning_sample_size` |
| `Scenarios.DisablesNumpy` | benchmark.py:73-80 | numpy is switched off exactly in the scenario named `benchmark_array_no_numpy` |
| `Scenarios.CatalogKeysDistinct` | benchmark.py:46-127 | no scenario's configuration names an option twice; big-JSON has five entries and the others three |
| `Scenarios.ScenarioFileNamesDistinct` | benchmark.py:51-128 | on one runtime, two different scenarios never get the same artifact name |
| `Scenarios.DeeplyNestedAName` | benchmark.py:105-111 | on CPython the deeply-nested-a name is `benchmark_deeply_nested_a__<version>__ignore_order=True__cache_size=500__cache_tuning_sample_size=500` |
| `Scenarios.NumpyArrayPyPyName` | benchmark.py:46-51 | on PyPy the numpy-array name is `benchmark_numpy_array__pypy3__ignore_order=True__cache_size=5000__cache_tuning_sample_size=500` |
| `Benchmark.Harness.constructor` | benchmark.py:5-13 | a harness starts with the process identifier `current_pid`, the given `diff.np` binding and no events |
| `Benchmark.Harness.Diff` | benchmark.py:17-18 | one diff call is recorded with the configuration, the log interval and the current `np` binding; the outcome is `Raised` exactly when the diff raises |
| `Benchmark.Harness.GetProfileOfUsage` | benchmark.py:16-21 | the diff runs once, and `results/<name>.profile` is written after it only if it did not raise; the exception is passed on |
| `Benchmark.Harness.PlotResourceUsage` | benchmark.py:24-26 | the sampler is launched on the process with the given interval and `results/<name>.png`, and then the diff runs once |
| `Benchmark.Harness.Instrument` | benchmark.py:53-56 | the new trace is the old one followed by the events of the selected adapter; the number of diff calls grows by 0 in no-op mode and by 1 otherwise; the outcome is `Raised` exactly when an adapter runs and the diff raises |
| `Benchmark.Harness.InstrumentWithoutNumpy` | benchmark.py:73-80 | the adapter runs with `np` unbound, and afterwards the binding is numpy again whether the diff completed or raised; that is the value on entry whenever the value on entry was numpy |
| `Benchmark.Harness.RunScenario` | benchmark.py:39-136 | the method returns the name it computes (the `benchmark_*` functions discard it) so that the contract can state it: it is the name `FileName` gives for its function name, runtime and configuration; it dispatches on the two flags, makes one diff call unless both are unset, and leaves `np` as it found it except in the no-numpy scenario, which leaves it numpy |

## Left out

- Loading the workloads (`np.loadtxt`, `.tolist()`, `json.load`): this is file parsing in libraries outside the model and involves floats. The diff's two inputs do not appear in the model.
- The DeepDiff algorithm: each call is one opaque event, and whether it raises is a parameter.
- cProfile's sampling and the contents of the statistics file: only the file's path and whether it is written are modelled.
- The psrecord child process: its start-up race with the diff call, its lifetime and its plotting. The model records only its launch, with its arguments, before the diff call. The `.png` counts as requested at launch, whether or not the child finishes writing it.
- The existence of the `results/` directory, and failures to launch the sampler or write a file, which the code does not handle.
- `print` and `logging` output, and the hard-coded toggles and scenario choice under `__main__`: these are I/O and fixed entry-point settings.
- How `py_current_version` and `pypy3` are computed inside deepdiff: they are the parameters `version` and `isPyPy`.
- Values.Render: does not model the limit on converting an integer of more than 4300 digits to text, where recent CPython releases raise `ValueError` inside the f-string; `Render` gives the digits of every integer. The largest value in any scenario is 300000.
- Configuration values other than booleans and integers: no scenario uses one.
- The five `benchmark_*` functions are one method, `Benchmark.Harness.RunScenario`, over the scenario catalog. When a workload is loaded relative to naming (before it in three scenarios, after it in two) is not modelled, because loading is left out.
- General injectivity of names over arbitrary configurations: the code does not guarantee it. Only the same-keys, boolean-or-integer case is proved.
- That the name is a pure function of its inputs is not stated as a lemma, because every Dafny function is deterministic by construction.
