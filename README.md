# tuxrun core, modelled in Dafny

tuxrun runs a kernel under QEMU or an FVP model by rendering a job definition and
handing it to an execution engine. This project models the parts of it that are
sequential logic once the inputs are decoded:

- **Test descriptors and their render step.** `MMTests` is one benchmark test
  type with a constant table of 37 variants. `V4L2` is a single descriptor,
  `V4L2.Desc`: device patterns "qemu-*" then "fvp-aemva", name "v4l2",
  timeout 25, and it needs a test definition. `render` overwrites a few keys of the caller's keyword bag with the
  descriptor's own fields, then calls one fixed template. The template call
  itself is an uninterpreted record of (template name, bag), `Tests.TemplateCall`.
  Both `Render` methods are imperative: they update the bag one key at a time,
  as the source does.
- **The result aggregator** (`Results.Results`). It is a class that reads the
  engine's structured log one line at a time. It keeps every test-case result
  it sees, and `Ret` gives the exit status: 0 when every result is a pass, 1
  otherwise.
- **The device registry** (`Devices.Select`). This is an exact name lookup
  over 20 device names: the 19 that test/unit/test_device.py uses, and
  qemu-mips64el, which test/unit/test_main.py:453 lists. An unknown name fails with
  `InvalidArgument`.
- **How a rendered job refers to things.** A local artefact appears as
  `file://<dir>/<file>`, and the container name and network namespace are
  both the run directory's base name.
- **The entry point** (`TuxRun`). It builds the run options from a request:
  - a `--tuxmake` build directory supplies the kernel, the modules and the
    device;
  - `--timeouts` pairs become a map, later pairs winning;
  - a trailing command adds the `command` test.

  It also covers consuming the engine's standard-error stream (blank lines
  skipped, records persisted to the log when one is requested) and the exit
  status. A ready-made device dictionary and job definition
  (`--device-dict` with `--definition`) are dispatched as given. A request
  refused while its job is built exits 2 without dispatching.

The production code for the aggregator, the registry and the entry point is not
part of this model. Those parts are modelled from the behaviour their unit
tests pin down, so the rows below cite the tests. tuxrun/results.py,
tuxrun/__main__.py, tuxrun/devices/ and tuxrun/tests/__init__.py are not part
of this model.

Modelling choices:

- **Variant table.** The 37 MMTests variants are stored as (suffix, iterations,
  timeout) rows. Each row's `name` is built as `"mmtests-" + suffix` and its
  `configfile` as `"configs/config-" + suffix`. This matches every row of the
  source. `MMTests.Variants` proves the correspondence and the other table
  invariants over the built table.
- **Definition of `Ret`.** The aggregator's implementation is not modelled.
  `Ret` is 1 as soon as any recorded result is not `"pass"`, and 0 otherwise
  (including when nothing was parsed). The three aggregator tests pin down
  only the all-pass, the empty and the pass-then-fail cases.
- **Request validation.** A request is either a ready-made job
  (`--device-dict` with `--definition`, dispatched as given) or one whose
  job is generated from its options. Only some validation is modelled,
  and all of it exits 2:
  - `--device-dict` without `--definition`, or the reverse;
  - either of them together with a device, whether given by `--device` or
    implied by `--tuxmake`;
  - a generated job without a device (neither `--device` nor `--tuxmake`);
  - an unregistered device name;
  - a build directory without `metadata.json` or without a kernel artefact.

  The usage tests fix the exit status 2 for `--device` with
  `--device-dict`, for either of the pair alone, and for no device at all.
  Refusing `--device-dict` with `--tuxmake`, and refusing a build directory
  whose metadata lists no kernel artefact, are modelling choices: no test
  covers those cases. The error values that name the offending options are
  modelling choices too.

  The test for the missing `metadata.json` fixes only that the program
  exits (SystemExit) and that standard error names the file. That this
  exit status is 2 is a modelling choice.
- **Option precedence.** When both a build directory and explicit
  `--kernel`/`--modules`/`--device` options are given, the explicit options
  win. The tests do not exercise this combination.
- **Local paths.** Option building takes the working directory, an
  absolute path, as a parameter. A build directory or an explicit
  `--kernel`/`--modules` value that is not a URL is resolved against it:
  an absolute path is kept, "." is the working directory itself, and any
  other relative path lies below it. Explicit local artefacts then become
  `file://` URIs in the options. The tests show this URI for build
  directories (test/unit/test_main.py:329) and, in the rendered job, for
  explicit files (test/unit/test_device.py:116, 508-509). The model performs
  the conversion when the options are built. Values starting with
  `http://`, `https://` or `file://` count as URLs and are kept as given.
- **The command test.** It is appended after the requested tests. Its
  descriptor (name `command`) is a parameter, because its class is not part
  of this model.

## Model

| member | source | states |
|---|---|---|
| Tests.OverridesUnique | tuxrun/tests/mmtests.py:16-20 | the bag after a render's key updates is fully determined: the written keys carry the descriptor's values and every other caller key is unchanged |
| Tests.OverridesIdempotent | tuxrun/tests/mmtests.py:16-20 | applying the same key updates to an already-updated bag leaves it unchanged (render's update is idempotent) |
| MMTests.SuffixesDistinct | tuxrun/tests/mmtests.py:24-280 | the 37 variant suffixes are pairwise distinct |
| MMTests.EntriesBounded | tuxrun/tests/mmtests.py:24-280 | every variant has timeout 90 and iterations 10, 15, 20 or 30 |
| MMTests.Variants | tuxrun/tests/mmtests.py:10-280 | the table has 37 variants with pairwise distinct names; each name is "mmtests-" + s and its configfile "configs/config-" + s for the same s; each supports exactly qemu-arm64 and qemu-x86_64, needs a test definition, has timeout 90 and iterations in {10, 15, 20, 30} |
| MMTests.VariantsOverrideDefaults | tuxrun/tests/mmtests.py:12-13 | every variant replaces the base defaults: its configfile is not "" and its iterations are positive, unlike the base's 0 |
| MMTests.Find | tuxrun/tests/mmtests.py:24-280 | a name lookup in a table returns a variant with that name exactly when one exists, and none otherwise |
| MMTests.ByNameFindsEachVariant | tuxrun/tests/mmtests.py:24-280 | looking up any variant's name in the table returns that very variant (names identify variants) |
| MMTests.Render | tuxrun/tests/mmtests.py:16-21 | the template is always "mmtests.yaml.jinja2"; the bag gains exactly the keys name, configfile, iterations, timeout, set to the variant's values and overriding the caller's; every other key is unchanged |
| V4L2.Render | tuxrun/tests/v4l2.py:16-20 | the template is always "v4l2.yaml.jinja2"; the bag gains exactly name and timeout, set to the descriptor's values; every other key is unchanged |
| V4L2.DescAttributes | tuxrun/tests/v4l2.py:10-14 | the V4L2 descriptor is named "v4l2" with timeout 25, declares the device patterns "qemu-*" then "fvp-aemva", and needs the test-definition bundle |
| V4L2.RenderDescBag | tuxrun/tests/v4l2.py:12-20 | for the V4L2 descriptor, render sets name "v4l2" and timeout 25, and configfile/iterations are present only if the caller supplied them, with the caller's values |
| Results.Verdict | test/unit/test_results.py:4-24 | the status of a list of results is 0 or 1, and 0 exactly when every result is "pass" |
| Results.VerdictAppend | test/unit/test_results.py:13-24 | the status of two lists of results read one after the other is 1 exactly when either list alone has status 1 |
| Results.Results.constructor | test/unit/test_results.py:4-6 | a fresh aggregator has seen no results |
| Results.Results.Parse | test/unit/test_results.py:9-17 | parsing one line appends its result exactly when it is a results-level record with definition, case and result; the status stays consistent with the results seen |
| Results.Results.Ret | test/unit/test_results.py:4-24 | ret() is 0 or 1, and 0 exactly when every parsed result is "pass" |
| Results.ReturnsZeroByDefault | test/unit/test_results.py:4-6 | with nothing parsed, ret() is 0 |
| Results.ReturnsZeroWithNoFailures | test/unit/test_results.py:13-17 | after two passing results, ret() is 0 |
| Results.ReturnsOneOnFailure | test/unit/test_results.py:20-24 | after a pass then a fail in the same suite, ret() is 1 |
| Devices.Select | test/unit/test_device.py:17-22 | select succeeds only with a device of exactly that name; it fails exactly when no device has that name, with InvalidArgument naming it |
| Devices.RegistryComplete | test/unit/test_device.py:17-22 | every device class is in the registry select searches |
| Devices.NameInjective | test/unit/test_device.py:17-22 | no two device classes share a name, so select has at most one answer for any name |
| Devices.SelectName | test/unit/test_device.py:17-19 | selecting any registered device's name returns that device |
| Devices.SelectQemuArmv5 | test/unit/test_device.py:18 | select("qemu-armv5") is QemuArmv5 |
| Devices.SelectFVPMorelloAndroid | test/unit/test_device.py:19 | select("fvp-morello-android") is FVPMorelloAndroid |
| Devices.SelectUnknown | test/unit/test_device.py:21-22 | select("Hello") fails with InvalidArgument("Hello") |
| Devices.FileUri | test/unit/test_device.py:508-509 | for an absolute directory, a local artefact's reference starts with "file://" followed by the directory, "/" and the file name, and the path it carries is absolute |
| Devices.PathOfFileUri | test/unit/test_device.py:508-509 | reading the path back out of an artefact's file URI gives dir + "/" + filename |
| Devices.Resolve | test/unit/test_device.py:491-509 | a path resolved against an absolute working directory is absolute: an absolute path is kept, "." is the working directory, any other relative path lies below it |
| Devices.ResolveIdempotent | test/unit/test_device.py:491-509 | resolving an already resolved path again, against any working directory, changes nothing |
| Devices.ArtefactUri | test/unit/test_device.py:116-117 | an explicit artefact reaches the job as a URL: a URL is kept as given, and a local path becomes the file URI of that path resolved against the working directory |
| Devices.ArtefactUriOfFileName | test/unit/test_device.py:508-509 | a bare local file name gives the same URI as a file of that name in the working directory |
| Devices.BaseName | test/unit/test_device.py:510-515 | the base name of a path holds no "/", is a suffix of the path, and is preceded by "/" when it is not the whole path |
| Devices.ExecutionIdentity | test/unit/test_device.py:510-515 | container_name and network_from are both the base name of the run directory |
| TuxRun.RecordsAppend | test/unit/test_main.py:287-299 | the log persisted from a stream read in two pieces is the two pieces' logs concatenated |
| TuxRun.ResultsOfAppend | test/unit/test_main.py:302-308 | the results collected from a stream read in two pieces are the two pieces' results concatenated |
| TuxRun.BlankLineIgnored | test/unit/test_main.py:277-299 | inserting a blank line anywhere in the stream changes neither the log, nor the results, nor the exit status |
| TuxRun.ConsumeLine | test/unit/test_main.py:277-299 | one line of the stream appends its result (if any) to the aggregator and counts it if malformed; it yields its record for the log exactly when logging and the line is a record, and a blank line changes nothing |
| TuxRun.Consume | test/unit/test_main.py:277-299 | consuming a stream appends all of its results to the aggregator, counts its malformed lines, and returns the log of its records in arrival order when logging (none otherwise) |
| TuxRun.Run | test/unit/test_main.py:302-308 | the exit status is the aggregator's ret() over the stream: 0 exactly when every result is a pass |
| TuxRun.IgnoresEmptyLine | test/unit/test_main.py:277-299 | two info records with an empty line between them exit 0 and are logged as exactly those two records, in order |
| TuxRun.FromTuxmake | test/unit/test_main.py:311-360 | a build directory without metadata.json fails naming that file; it succeeds exactly when metadata has a kernel; the kernel and modules are file URIs to the first artefact of each inside the directory, resolved against the working directory; modules are absent exactly when metadata lists none; the device is "qemu-" + target_arch |
| TuxRun.TimeoutsMap | test/unit/test_main.py:474-493 | the timeout map holds exactly the keys given, each with the value of its last occurrence |
| TuxRun.Instantiate | test/unit/test_main.py:474-493 | an instantiated test keeps its name and devices; its timeout is the --timeouts entry for its name when there is one, its default otherwise |
| TuxRun.BuildTests | test/unit/test_main.py:397-493 | the requested tests come in order, followed by the command test exactly when a command was given; each carries its effective timeout |
| TuxRun.MakeOptions | test/unit/test_main.py:124-493 | building options fails with the build directory's own error (a missing metadata.json or kernel), fails with no device, and fails on an unregistered device name. Without a build directory it succeeds exactly when the given device is registered; with a valid one, exactly when the explicit device, or else the directory's, is registered. On success: the timeouts, tests and command follow the rules above; explicit artefacts become their URIs and an explicit device is kept; the device, kernel and modules the command line leaves unset come from the build directory, or are absent without one |
| TuxRun.TuxmakeDirectory | test/unit/test_main.py:311-330 | a build of bzImage and modules for x86_64 gives kernel file://<dir>/bzImage and device qemu-x86_64 |
| TuxRun.TuxmakeWorkingDirectory | test/unit/test_device.py:57-70 | `--tuxmake .` in a working directory holding an arm64 build gives kernel and modules as file URIs inside the working directory, and device qemu-arm64 |
| TuxRun.LocalKernelResolved | test/unit/test_device.py:116-117 | `--kernel zImage.xz` gives kernel file://<cwd>/zImage.xz and device qemu-armv7 |
| TuxRun.TuxmakeWithoutModules | test/unit/test_main.py:333-351 | metadata without a modules artefact gives modules None and no error |
| TuxRun.InvalidTuxmakeDirectory | test/unit/test_main.py:354-360 | a build directory without metadata.json is refused with an error naming metadata.json |
| TuxRun.TimeoutsReachTests | test/unit/test_main.py:474-493 | --timeouts boot=1 ltp-smoke=12 gives the map {boot: 1, ltp-smoke: 12} and the single ltp-smoke test timeout 12 |
| TuxRun.CustomCommand | test/unit/test_main.py:397-407 | a trailing command gives exactly one test, named "command", and passes the command words unchanged |
| TuxRun.MakeJob | test/unit/test_main.py:46-134 | a request is a ready-made job exactly when it gives both --device-dict and --definition and no device of either kind, and that job carries the two files given; either of the pair alone, or either with a device, is refused; with neither, the job is generated and succeeds or fails exactly as MakeOptions does; a request with no device of either kind is accepted exactly when it is a ready-made job |
| TuxRun.PreparedJob | test/unit/test_main.py:46-49 | --device-dict device.yaml --definition job.yaml with no device is accepted as the ready-made job of those two files |
| TuxRun.CommandLineErrors | test/unit/test_main.py:124-134 | no arguments, --device with --device-dict, --kernel without a device, and --device-dict or --definition alone are each refused |
| TuxRun.Execute | test/unit/test_main.py:96-308 | a request refused while building its job exits 2 and never dispatches; any other request, ready-made or generated, dispatches and exits with ret() over the engine's stream |

## Left out

- tuxrun/requests.py: an HTTP session with retry and backoff settings. It is network plumbing over a library that is not part of this model.
- Jinja2 template expansion and the byte-exact comparison of rendered YAML against reference files. `_render` is an uninterpreted record of its template name and bag.
- Wildcard matching of device patterns such as "qemu-*". V4L2's patterns are kept as the declared strings, and no matching semantics are given to them.
- Devices outside those 20 names, such as "fvp-aemva" in V4L2's declared patterns, and everything the device classes do beyond their names.
- Spawning the engine, choosing a container runtime, temporary-directory handling, and downloading and caching artefacts. These are I/O. The engine's standard-error lines are an input parameter, and the run directory is a path parameter.
- Argument parsing, usage and help text, and the output of --list-devices, --list-tests and --update-cache. These are presentation.
- JSON and YAML decoding of log lines and metadata. Lines arrive as `Blank`, `Malformed` or decoded `Record` values, and metadata as a datatype.
- Echoing log messages to standard output, and writing the --results JSON file.
- The bind-mount arguments built for --modules and --overlay artefacts.
- TuxRun.MakeJob: a ready-made job carries only its two files. Other options given with it, such as `--tests` or `--timeouts`, are ignored rather than refused or merged into the job, and neither file is read.
- TuxRun.MakeOptions: does not model validation of device artefact slots, of test parameters such as BIONIC_TEST_TYPE, or of whether the requested tests support the requested device (a test's declared device patterns are never consulted). The slot and parameter tables and the pattern matching are not part of this model. Only the request errors listed above exit 2.
- Devices.BaseName: does not model path normalisation of trailing slashes or "." segments; the run directory is taken as an already normal absolute path.
- Devices.Resolve: normalises only a path that is exactly "."; "." and ".." segments inside a longer relative path or inside an absolute path, repeated or trailing slashes, and symbolic links are kept as written. The empty path resolves to the working directory followed by "/", and a build directory given as "build/" gives file URIs with a doubled slash.
- Results.Results.Ret: treats every result other than "pass" as a failure. The tests pin down only pass and fail, so the treatment of other outcomes such as "skip" is a modelling choice.
