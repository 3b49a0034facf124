/** The entry point's logic once arguments, metadata and log lines are
    decoded: building the run options from a request, consuming the
    execution engine's log stream, and deriving the exit status. */
module TuxRun {
  import opened Wrappers
  import opened Tests
  import R = Results
  import D = Devices

  // ---------------------------------------------------------------------
  // Consuming the log stream

  /** What the log file receives from a stream: every decoded record, in
      arrival order; blank and malformed lines produce no entry. */
  function Records(lines: seq<R.StreamLine>): seq<R.LogRecord> {
    if |lines| == 0 then []
    else
      var last := lines[|lines| - 1];
      Records(lines[..|lines| - 1]) + (if last.Record? then [last.record] else [])
  }

  /** Every test-case result a stream carries, in arrival order. */
  function ResultsOf(lines: seq<R.StreamLine>): seq<R.CaseResult> {
    if |lines| == 0 then []
    else ResultsOf(lines[..|lines| - 1]) + R.ResultsIn(lines[|lines| - 1])
  }

  /** How many lines of a stream are not structured records. */
  function MalformedCount(lines: seq<R.StreamLine>): nat {
    if |lines| == 0 then 0
    else MalformedCount(lines[..|lines| - 1]) + (if lines[|lines| - 1].Malformed? then 1 else 0)
  }

  /** Reading a stream in two pieces persists the same log as reading it
      whole: nothing is lost or written twice at the seam. */
  lemma {:induction false} RecordsAppend(a: seq<R.StreamLine>, b: seq<R.StreamLine>)
    ensures Records(a + b) == Records(a) + Records(b)
  {
    if |b| == 0 {
      assert a + b == a;
    } else {
      var b' := b[..|b| - 1];
      assert (a + b)[..|a + b| - 1] == a + b';
      RecordsAppend(a, b');
    }
  }

  /** Likewise for the test-case results. */
  lemma {:induction false} ResultsOfAppend(a: seq<R.StreamLine>, b: seq<R.StreamLine>)
    ensures ResultsOf(a + b) == ResultsOf(a) + ResultsOf(b)
  {
    if |b| == 0 {
      assert a + b == a;
    } else {
      var b' := b[..|b| - 1];
      assert (a + b)[..|a + b| - 1] == a + b';
      ResultsOfAppend(a, b');
    }
  }

  /** A blank line anywhere in the stream changes neither the log nor the
      results, hence not the exit status either. */
  lemma BlankLineIgnored(a: seq<R.StreamLine>, b: seq<R.StreamLine>)
    ensures Records(a + [R.Blank] + b) == Records(a + b)
    ensures ResultsOf(a + [R.Blank] + b) == ResultsOf(a + b)
    ensures R.Verdict(ResultsOf(a + [R.Blank] + b)) == R.Verdict(ResultsOf(a + b))
  {
    RecordsAppend(a + [R.Blank], b);
    ResultsOfAppend(a + [R.Blank], b);
    Snoc(a, R.Blank);
    RecordsAppend(a, b);
    ResultsOfAppend(a, b);
  }

  /** Appending one line to a stream extends each of its summaries by that
      line's contribution. */
  lemma Snoc(lines: seq<R.StreamLine>, line: R.StreamLine)
    ensures Records(lines + [line]) == Records(lines) + (if line.Record? then [line.record] else [])
    ensures ResultsOf(lines + [line]) == ResultsOf(lines) + R.ResultsIn(line)
    ensures MalformedCount(lines + [line]) == MalformedCount(lines) + (if line.Malformed? then 1 else 0)
  {
    assert (lines + [line])[..|lines|] == lines;
  }

  lemma AppendAssoc<T>(a: seq<T>, b: seq<T>, c: seq<T>)
    ensures (a + b) + c == a + (b + c)
  {
  }

  /** Handles one line of the stream: a blank line is skipped; any other
      goes to the aggregator and, when logging, a decoded record is also
      returned for the log. */
  method ConsumeLine(line: R.StreamLine, results: R.Results, logging: bool) returns (entry: seq<R.LogRecord>)
    requires results.Valid()
    modifies results
    ensures results.Valid()
    ensures results.results == old(results.results) + R.ResultsIn(line)
    ensures results.anomalies == old(results.anomalies) + (if line.Malformed? then 1 else 0)
    ensures entry == if logging && line.Record? then [line.record] else []
  {
    entry := [];
    if line != R.Blank {
      if logging && line.Record? {
        entry := [line.record];
      }
      results.Parse(line);
    }
  }

  /** Reads the engine's standard-error lines one after another, handing
      each to `ConsumeLine` and appending what it returns to the log. */
  method Consume(stderr: seq<R.StreamLine>, results: R.Results, logging: bool) returns (log: seq<R.LogRecord>)
    requires results.Valid()
    modifies results
    ensures results.Valid()
    ensures results.results == old(results.results) + ResultsOf(stderr)
    ensures results.anomalies == old(results.anomalies) + MalformedCount(stderr)
    ensures log == if logging then Records(stderr) else []
  {
    log := [];
    var i := 0;
    ghost var seen: seq<R.StreamLine> := [];
    while i < |stderr|
      invariant 0 <= i <= |stderr|
      invariant seen == stderr[..i]
      invariant results.Valid()
      invariant results.results == old(results.results) + ResultsOf(seen)
      invariant results.anomalies == old(results.anomalies) + MalformedCount(seen)
      invariant log == if logging then Records(seen) else []
    {
      var line := stderr[i];
      var entry := ConsumeLine(line, results, logging);
      log := log + entry;
      Snoc(seen, line);
      AppendAssoc(old(results.results), ResultsOf(seen), R.ResultsIn(line));
      seen := seen + [line];
      i := i + 1;
      assert seen == stderr[..i];
    }
    assert seen == stderr;
  }

  /** Supervising one run: a fresh aggregator consumes the whole stream and
      the process exits with its `ret()`. */
  method Run(stderr: seq<R.StreamLine>, logging: bool) returns (exitcode: int, log: seq<R.LogRecord>)
    ensures exitcode == R.Verdict(ResultsOf(stderr))
    ensures exitcode == 0 <==> R.AllPass(ResultsOf(stderr))
    ensures log == if logging then Records(stderr) else []
  {
    var results := new R.Results();
    log := Consume(stderr, results, logging);
    exitcode := results.Ret();
    assert results.results == ResultsOf(stderr);
    assert exitcode == results.status;
  }

  /** Two records below the results level with an empty line between them:
      the run exits 0 and the log holds exactly the two records, in order. */
  method IgnoresEmptyLine(first: R.LogRecord, second: R.LogRecord) returns (exitcode: int, log: seq<R.LogRecord>)
    requires first.lvl != R.ResultsLevel && second.lvl != R.ResultsLevel
    ensures exitcode == 0
    ensures log == [first, second]
  {
    var one := [R.Record(first)];
    var two := one + [R.Blank];
    var stderr := two + [R.Record(second)];
    Snoc([], R.Record(first));
    assert [] + [R.Record(first)] == one;
    Snoc(one, R.Blank);
    Snoc(two, R.Record(second));
    assert R.ResultsIn(R.Record(first)) == [] && R.ResultsIn(R.Record(second)) == [];
    exitcode, log := Run(stderr, true);
  }

  // ---------------------------------------------------------------------
  // Building the run options

  /** Decoded `metadata.json` of a build directory: the artefacts by kind and
      the target architecture. */
  datatype Metadata = Metadata(artifacts: map<string, seq<string>>, targetArch: string)

  /** A build directory: its path, absolute or relative to the working
      directory, and its metadata, None when the directory holds no
      `metadata.json`. */
  datatype BuildDir = BuildDir(path: string, metadata: Option<Metadata>)

  const MetadataFile := "metadata.json"
  const UsageExit := 2

  /** Why a request is refused before anything is dispatched. */
  datatype Error =
    | MissingDevice
    | UnknownDevice(cause: D.Error)
    | InvalidBuild(dir: string, missing: string)
    | Unpaired(option: string, needed: string)
    | Conflict(option: string, other: string)

  /** What a build directory contributes to the options. */
  datatype BuildInfo = BuildInfo(kernel: string, modules: Option<string>, deviceName: string)

  predicate HasArtifact(md: Metadata, kind: string) {
    kind in md.artifacts && |md.artifacts[kind]| > 0
  }

  /** Reading a build directory, given as a path that may be relative to
      the working directory `cwd`: the first kernel artefact, as a file URI
      inside the resolved directory, becomes the kernel; the first modules
      artefact, when there is one, the modules; the QEMU device of the target
      architecture the device. A directory without `metadata.json` is an
      error naming that file; metadata without a kernel is an error too. */
  function FromTuxmake(cwd: string, dir: BuildDir): (r: Result<BuildInfo, Error>)
    requires D.IsAbsolute(cwd)
    ensures dir.metadata.None? ==> r == Failure(InvalidBuild(dir.path, MetadataFile))
    ensures r.Success? <==> dir.metadata.Some? && HasArtifact(dir.metadata.value, "kernel")
    ensures r.Success? ==>
      var md := dir.metadata.value;
      var base := D.Resolve(cwd, dir.path);
      && D.PathOf(r.value.kernel) == Some(base + "/" + md.artifacts["kernel"][0])
      && (r.value.modules.Some? <==> HasArtifact(md, "modules"))
      && (r.value.modules.Some? ==> D.PathOf(r.value.modules.value) == Some(base + "/" + md.artifacts["modules"][0]))
      && "qemu-" <= r.value.deviceName && r.value.deviceName[5..] == md.targetArch
  {
    match dir.metadata
    case None => Failure(InvalidBuild(dir.path, MetadataFile))
    case Some(md) =>
      if !HasArtifact(md, "kernel") then Failure(InvalidBuild(dir.path, "kernel"))
      else
        var base := D.Resolve(cwd, dir.path);
        var kernel := D.FileUri(base, md.artifacts["kernel"][0]);
        var modules := if HasArtifact(md, "modules") then Some(D.FileUri(base, md.artifacts["modules"][0])) else None;
        D.PathOfFileUri(base, md.artifacts["kernel"][0]);
        if HasArtifact(md, "modules") then
          D.PathOfFileUri(base, md.artifacts["modules"][0]);
          Success(BuildInfo(kernel, modules, "qemu-" + md.targetArch))
        else
          Success(BuildInfo(kernel, modules, "qemu-" + md.targetArch))
  }

  /** Pair `i` is the last one given for its key. */
  predicate LastOccurrence(pairs: seq<(string, nat)>, i: nat)
    requires i < |pairs|
  {
    forall j | i < j < |pairs| :: pairs[j].0 != pairs[i].0
  }

  /** The `--timeouts` map from its `key=value` pairs in command-line order:
      every key given is present, with the value of its last occurrence. */
  function TimeoutsMap(pairs: seq<(string, nat)>): (m: map<string, nat>)
    ensures m.Keys == set i | 0 <= i < |pairs| :: pairs[i].0
    ensures forall i | 0 <= i < |pairs| && LastOccurrence(pairs, i) :: m[pairs[i].0] == pairs[i].1
  {
    if |pairs| == 0 then map[]
    else
      var last := pairs[|pairs| - 1];
      PairsSnoc(pairs);
      TimeoutsMap(pairs[..|pairs| - 1])[last.0 := last.1]
  }

  /** How the key set and the last occurrences of a pair list relate to
      those of the list without its final pair. */
  lemma PairsSnoc(pairs: seq<(string, nat)>)
    requires |pairs| > 0
    ensures
      var init := pairs[..|pairs| - 1];
      && (set i | 0 <= i < |pairs| :: pairs[i].0) == (set i | 0 <= i < |init| :: init[i].0) + {pairs[|pairs| - 1].0}
      && forall i | 0 <= i < |init| && LastOccurrence(pairs, i) ::
           init[i] == pairs[i] && pairs[i].0 != pairs[|pairs| - 1].0 && LastOccurrence(init, i)
  {
    var init := pairs[..|pairs| - 1];
    var all := set i | 0 <= i < |pairs| :: pairs[i].0;
    var front := set i | 0 <= i < |init| :: init[i].0;
    forall k | k in all
      ensures k in front + {pairs[|pairs| - 1].0}
    {
      var i :| 0 <= i < |pairs| && pairs[i].0 == k;
      if i < |init| {
        assert init[i].0 == k;
      }
    }
    forall k | k in front
      ensures k in all
    {
      var i :| 0 <= i < |init| && init[i].0 == k;
      assert pairs[i].0 == k;
    }
    assert pairs[|pairs| - 1].0 in all;
  }

  /** A test instance's timeout: its `--timeouts` entry if it has one, its
      class default otherwise. */
  function Instantiate(t: TestDesc, timeouts: map<string, nat>): (i: TestDesc)
    ensures i.name == t.name && i.devices == t.devices && i.needTestDefinition == t.needTestDefinition
    ensures t.name in timeouts ==> i.timeout == timeouts[t.name]
    ensures t.name !in timeouts ==> i.timeout == t.timeout
  {
    t.(timeout := if t.name in timeouts then timeouts[t.name] else t.timeout)
  }

  const CommandTestName := "command"

  /** The test list of a run: the requested tests in the order given, then,
      when a trailing command was given, the command test; each with its
      effective timeout. */
  function BuildTests(requested: seq<TestDesc>, command: seq<string>, commandTest: TestDesc,
                      timeouts: map<string, nat>): (tests: seq<TestDesc>)
    requires commandTest.name == CommandTestName
    ensures |tests| == |requested| + (if |command| > 0 then 1 else 0)
    ensures forall i | 0 <= i < |requested| ::
      tests[i].name == requested[i].name && tests[i].devices == requested[i].devices
    ensures |command| > 0 ==> tests[|tests| - 1].name == CommandTestName
    ensures forall i | 0 <= i < |tests| ::
      tests[i].timeout == if tests[i].name in timeouts then timeouts[tests[i].name]
                          else if i < |requested| then requested[i].timeout else commandTest.timeout
  {
    var all := requested + (if |command| > 0 then [commandTest] else []);
    seq(|all|, i requires 0 <= i < |all| => Instantiate(all[i], timeouts))
  }

  /** A request as the command line gives it, with artefacts and metadata
      already decoded. `deviceDict` and `definition` are the paths of a
      ready-made device dictionary and job definition. */
  datatype Request = Request(
    device: Option<string>,
    kernel: Option<string>,
    modules: Option<string>,
    tuxmake: Option<BuildDir>,
    tests: seq<TestDesc>,
    timeouts: seq<(string, nat)>,
    command: seq<string>,
    deviceDict: Option<string>,
    definition: Option<string>)

  /** The options handed to `run`. */
  datatype Options = Options(
    device: D.Device,
    kernel: Option<string>,
    modules: Option<string>,
    tests: seq<TestDesc>,
    timeouts: map<string, nat>,
    command: seq<string>)

  function Or<T>(given: Option<T>, fallback: Option<T>): Option<T> {
    if given.Some? then given else fallback
  }

  /** The device name a request asks for: the one given explicitly, else
      the one its build directory implies. */
  function RequestedDevice(req: Request, info: Option<BuildInfo>): Option<string> {
    Or(req.device, if info.Some? then Some(info.value.deviceName) else None)
  }

  /** Building the options in working directory `cwd`: a build directory
      supplies the kernel, modules and device the command line leaves unset;
      explicit artefacts are turned into URIs; the device name must be
      registered; the test list and the timeout map follow the rules above. */
  function MakeOptions(req: Request, cwd: string, commandTest: TestDesc): (r: Result<Options, Error>)
    requires D.IsAbsolute(cwd) && commandTest.name == CommandTestName
    // Refusals.
    ensures req.tuxmake.Some? && req.tuxmake.value.metadata.None? ==>
      r == Failure(InvalidBuild(req.tuxmake.value.path, MetadataFile))
    ensures req.tuxmake.Some? && FromTuxmake(cwd, req.tuxmake.value).Failure? ==>
      r == Failure(FromTuxmake(cwd, req.tuxmake.value).error)
    ensures req.tuxmake.None? && req.device.None? ==> r == Failure(MissingDevice)
    ensures req.device.Some? && D.Select(req.device.value).Failure? ==>
      r.Failure? && (req.tuxmake.None? ==> r == Failure(UnknownDevice(D.InvalidArgument(req.device.value))))
    // When building succeeds.
    ensures req.tuxmake.None? ==>
      (r.Success? <==> req.device.Some? && D.Select(req.device.value).Success?)
    ensures req.tuxmake.Some? && FromTuxmake(cwd, req.tuxmake.value).Success? ==>
      var info := FromTuxmake(cwd, req.tuxmake.value).value;
      var name := if req.device.Some? then req.device.value else info.deviceName;
      (r.Success? <==> D.Select(name).Success?)
    // What the options hold.
    ensures r.Success? ==>
      && r.value.timeouts == TimeoutsMap(req.timeouts)
      && r.value.command == req.command
      && r.value.tests == BuildTests(req.tests, req.command, commandTest, r.value.timeouts)
      && (req.device.Some? ==> D.Name(r.value.device) == req.device.value)
      && (req.kernel.Some? ==> r.value.kernel == Some(D.ArtefactUri(cwd, req.kernel.value)))
      && (req.modules.Some? ==> r.value.modules == Some(D.ArtefactUri(cwd, req.modules.value)))
      && (req.tuxmake.None? && req.kernel.None? ==> r.value.kernel == None)
      && (req.tuxmake.None? && req.modules.None? ==> r.value.modules == None)
    ensures req.tuxmake.Some? && FromTuxmake(cwd, req.tuxmake.value).Success? && r.Success? ==>
      var info := FromTuxmake(cwd, req.tuxmake.value).value;
      && (req.device.None? ==> D.Name(r.value.device) == info.deviceName)
      && (req.kernel.None? ==> r.value.kernel == Some(info.kernel))
      && (req.modules.None? ==> r.value.modules == info.modules)
  {
    var build: Result<Option<BuildInfo>, Error> :=
      match req.tuxmake
      case None => Success(None)
      case Some(dir) =>
        match FromTuxmake(cwd, dir)
        case Success(info) => Success(Some(info))
        case Failure(e) => Failure(e);
    match build
    case Failure(e) => Failure(e)
    case Success(info) =>
      var deviceName := RequestedDevice(req, info);
      if deviceName.None? then Failure(MissingDevice)
      else
        match D.Select(deviceName.value)
        case Failure(e) => Failure(UnknownDevice(e))
        case Success(device) =>
          var kernel := if req.kernel.Some? then Some(D.ArtefactUri(cwd, req.kernel.value))
                        else if info.Some? then Some(info.value.kernel) else None;
          var modules := if req.modules.Some? then Some(D.ArtefactUri(cwd, req.modules.value))
                         else if info.Some? then info.value.modules else None;
          var timeouts := TimeoutsMap(req.timeouts);
          Success(Options(device, kernel, modules, BuildTests(req.tests, req.command, commandTest, timeouts),
                          timeouts, req.command))
  }

  /** `--tuxmake` on a build of bzImage and modules for x86_64, given by its
      absolute path: the kernel is the directory's bzImage as a file URI and
      the device is qemu-x86_64. */
  lemma TuxmakeDirectory(cwd: string, path: string, commandTest: TestDesc)
    requires D.IsAbsolute(cwd) && D.IsAbsolute(path) && commandTest.name == CommandTestName
    ensures
      var md := Metadata(map["kernel" := ["bzImage"], "modules" := ["modules.tar.xz"]], "x86_64");
      var r := MakeOptions(Request(None, None, None, Some(BuildDir(path, Some(md))), [], [], [], None, None), cwd, commandTest);
      && r.Success?
      && r.value.kernel == Some(D.FileUri(path, "bzImage"))
      && r.value.modules == Some(D.FileUri(path, "modules.tar.xz"))
      && r.value.device == D.QemuX86_64
  {
    assert "qemu-" + "x86_64" == D.Name(D.QemuX86_64);
    D.SelectName(D.QemuX86_64);
  }

  /** The same build without a modules artefact leaves the modules unset. */
  lemma TuxmakeWithoutModules(cwd: string, path: string, commandTest: TestDesc)
    requires D.IsAbsolute(cwd) && D.IsAbsolute(path) && commandTest.name == CommandTestName
    ensures
      var md := Metadata(map["kernel" := ["bzImage"]], "x86_64");
      var r := MakeOptions(Request(None, None, None, Some(BuildDir(path, Some(md))), [], [], [], None, None), cwd, commandTest);
      r.Success? && r.value.modules == None
  {
    assert "qemu-" + "x86_64" == D.Name(D.QemuX86_64);
    D.SelectName(D.QemuX86_64);
  }

  /** `--tuxmake .` in a directory holding an arm64 build of bzImage.gz and
      modules.tar.xz: both artefacts become file URIs inside the working
      directory and the device is qemu-arm64. */
  lemma TuxmakeWorkingDirectory(cwd: string, commandTest: TestDesc)
    requires D.IsAbsolute(cwd) && commandTest.name == CommandTestName
    ensures
      var md := Metadata(map["kernel" := ["bzImage.gz"], "modules" := ["modules.tar.xz"]], "arm64");
      var r := MakeOptions(Request(None, None, None, Some(BuildDir(".", Some(md))), [], [], [], None, None), cwd, commandTest);
      && r.Success?
      && r.value.kernel == Some(D.FileUri(cwd, "bzImage.gz"))
      && r.value.modules == Some(D.FileUri(cwd, "modules.tar.xz"))
      && r.value.device == D.QemuArm64
  {
    assert D.Resolve(cwd, ".") == cwd;
    assert "qemu-" + "arm64" == D.Name(D.QemuArm64);
    D.SelectName(D.QemuArm64);
  }

  /** `--device qemu-armv7 --kernel zImage.xz`: the local kernel reaches the
      options as the file URI of zImage.xz in the working directory. */
  lemma LocalKernelResolved(cwd: string, commandTest: TestDesc)
    requires D.IsAbsolute(cwd) && commandTest.name == CommandTestName
    ensures
      var r := MakeOptions(Request(Some("qemu-armv7"), Some("zImage.xz"), None, None, [], [], [], None, None), cwd, commandTest);
      && r.Success?
      && r.value.kernel == Some(D.FileUri(cwd, "zImage.xz"))
      && r.value.device == D.QemuArmv7
  {
    var file := "zImage.xz";
    assert file[0] == 'z' && |file| > 1;
    assert !D.IsUrl(file) && !D.IsAbsolute(file) && file != ".";
    D.ArtefactUriOfFileName(cwd, file);
    var name := D.Name(D.QemuArmv7);
    assert name == "qemu-armv7";
    D.SelectName(D.QemuArmv7);
  }

  /** `--device=qemu-x86_64 --tests ltp-smoke --timeouts boot=1 ltp-smoke=12`:
      one test, ltp-smoke, whose timeout is 12, and the timeout map holds
      both entries. */
  lemma TimeoutsReachTests(cwd: string, ltpSmoke: TestDesc, commandTest: TestDesc)
    requires D.IsAbsolute(cwd) && ltpSmoke.name == "ltp-smoke" && commandTest.name == CommandTestName
    ensures
      var r := MakeOptions(Request(Some("qemu-x86_64"), None, None, None, [ltpSmoke],
                                   [("boot", 1), ("ltp-smoke", 12)], [], None, None), cwd, commandTest);
      && r.Success?
      && |r.value.tests| == 1
      && r.value.tests[0].name == "ltp-smoke"
      && r.value.tests[0].timeout == 12
      && r.value.timeouts == map["boot" := 1, "ltp-smoke" := 12]
  {
    var name := D.Name(D.QemuX86_64);
    assert name == "qemu-x86_64";
    D.SelectName(D.QemuX86_64);
    var pairs: seq<(string, nat)> := [("boot", 1), ("ltp-smoke", 12)];
    var first: seq<(string, nat)> := [("boot", 1)];
    assert pairs[..1] == first && first[..0] == [];
    var timeouts := TimeoutsMap(pairs);
    assert timeouts == map["boot" := 1, "ltp-smoke" := 12];
    var req := Request(Some(name), None, None, None, [ltpSmoke], pairs, [], None, None);
    var r := MakeOptions(req, cwd, commandTest);
    assert r.Success?;
    assert |BuildTests([ltpSmoke], [], commandTest, timeouts)| == 1;
  }

  /** A trailing command with no `--tests`: the only test is the command
      test and the command reaches the options unchanged. */
  lemma CustomCommand(cwd: string, commandTest: TestDesc)
    requires D.IsAbsolute(cwd) && commandTest.name == CommandTestName
    ensures
      var r := MakeOptions(Request(Some("qemu-x86_64"), Some("bzImage"), None, None, [], [],
                                   ["cat", "/etc/hostname"], None, None), cwd, commandTest);
      && r.Success?
      && |r.value.tests| == 1
      && r.value.tests[0].name == CommandTestName
      && r.value.command == ["cat", "/etc/hostname"]
  {
    var name := D.Name(D.QemuX86_64);
    assert name == "qemu-x86_64";
    D.SelectName(D.QemuX86_64);
    var command := ["cat", "/etc/hostname"];
    var req := Request(Some(name), Some("bzImage"), None, None, [], [], command, None, None);
    var r := MakeOptions(req, cwd, commandTest);
    assert r.Success?;
    assert |BuildTests([], command, commandTest, map[])| == 1;
  }

  /** `--tuxmake` on a directory without `metadata.json` is refused with an
      error naming that file, before anything runs. */
  lemma InvalidTuxmakeDirectory(cwd: string, path: string, commandTest: TestDesc)
    requires D.IsAbsolute(cwd) && commandTest.name == CommandTestName
    ensures MakeOptions(Request(None, None, None, Some(BuildDir(path, None)), [], [], [], None, None), cwd, commandTest)
            == Failure(InvalidBuild(path, MetadataFile))
  {
  }

  /** What is handed to `run`: a job generated from the options, or a
      ready-made device dictionary and job definition used as given. */
  datatype Job =
    | Generated(options: Options)
    | Prepared(deviceDict: string, definition: string)

  /** The job a request asks for. `--device-dict` and `--definition` go
      together, and neither goes with a device, whether given by `--device`
      or implied by `--tuxmake`; together they are the job. A request with
      neither is built by `MakeOptions`. */
  function MakeJob(req: Request, cwd: string, commandTest: TestDesc): (r: Result<Job, Error>)
    requires D.IsAbsolute(cwd) && commandTest.name == CommandTestName
    ensures (r.Success? && r.value.Prepared?) <==>
      req.deviceDict.Some? && req.definition.Some? && req.device.None? && req.tuxmake.None?
    ensures r.Success? && r.value.Prepared? ==>
      r.value.deviceDict == req.deviceDict.value && r.value.definition == req.definition.value
    ensures req.deviceDict.Some? != req.definition.Some? ==> r.Failure?
    ensures (req.deviceDict.Some? || req.definition.Some?) && (req.device.Some? || req.tuxmake.Some?) ==>
      r.Failure?
    ensures req.deviceDict.None? && req.definition.None? ==>
      var built := MakeOptions(req, cwd, commandTest);
      && (r.Success? <==> built.Success?)
      && (r.Success? ==> r.value == Generated(built.value))
      && (r.Failure? ==> r.error == built.error)
    // Without a device of either kind, only a ready-made job is accepted.
    ensures req.device.None? && req.tuxmake.None? ==>
      (r.Success? <==> req.deviceDict.Some? && req.definition.Some?)
  {
    if req.deviceDict.Some? || req.definition.Some? then
      if req.deviceDict.None? then Failure(Unpaired("--definition", "--device-dict"))
      else if req.definition.None? then Failure(Unpaired("--device-dict", "--definition"))
      else if req.device.Some? then Failure(Conflict("--device-dict", "--device"))
      else if req.tuxmake.Some? then Failure(Conflict("--device-dict", "--tuxmake"))
      else Success(Prepared(req.deviceDict.value, req.definition.value))
    else
      match MakeOptions(req, cwd, commandTest)
      case Success(options) => Success(Generated(options))
      case Failure(e) => Failure(e)
  }

  /** `--device-dict device.yaml --definition job.yaml`, with no device: the
      two files are the job. */
  lemma PreparedJob(cwd: string, deviceDict: string, definition: string, commandTest: TestDesc)
    requires D.IsAbsolute(cwd) && commandTest.name == CommandTestName
    ensures MakeJob(Request(None, None, None, None, [], [], [], Some(deviceDict), Some(definition)), cwd, commandTest)
            == Success(Prepared(deviceDict, definition))
  {
  }

  /** Command lines refused before anything runs: no arguments at all,
      `--device` with `--device-dict`, `--kernel` without a device, and
      `--device-dict` or `--definition` alone. */
  lemma CommandLineErrors(cwd: string, commandTest: TestDesc)
    requires D.IsAbsolute(cwd) && commandTest.name == CommandTestName
    ensures MakeJob(Request(None, None, None, None, [], [], [], None, None), cwd, commandTest).Failure?
    ensures MakeJob(Request(Some("qemu-armv7"), None, None, None, [], [], [], Some("device.yaml"), None),
                    cwd, commandTest).Failure?
    ensures MakeJob(Request(None, Some("https://storage.tuxboot.com/i386/bzImage"), None, None, [], [], [], None, None),
                    cwd, commandTest).Failure?
    ensures MakeJob(Request(None, None, None, None, [], [], [], Some("device.yaml"), None), cwd, commandTest).Failure?
    ensures MakeJob(Request(None, None, None, None, [], [], [], None, Some("definition.yaml")), cwd, commandTest).Failure?
  {
  }

  /** The whole entry point: a request refused while building its job exits
      with the usage status and never dispatches; any other is dispatched and
      exits with the aggregator's verdict on the stream the engine produced. */
  method Execute(req: Request, cwd: string, commandTest: TestDesc, stderr: seq<R.StreamLine>, logging: bool)
    returns (exitcode: int, dispatched: bool, log: seq<R.LogRecord>)
    requires D.IsAbsolute(cwd) && commandTest.name == CommandTestName
    ensures MakeJob(req, cwd, commandTest).Failure? ==> exitcode == UsageExit && !dispatched && log == []
    ensures MakeJob(req, cwd, commandTest).Success? ==>
      dispatched && exitcode == R.Verdict(ResultsOf(stderr)) &&
      log == (if logging then Records(stderr) else [])
  {
    var job := MakeJob(req, cwd, commandTest);
    if job.Failure? {
      exitcode, dispatched, log := UsageExit, false, [];
    } else {
      exitcode, log := Run(stderr, logging);
      dispatched := true;
    }
  }
}
