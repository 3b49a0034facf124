/** The device registry, and how local artefacts and the run's execution
    identity appear in a rendered job. */
module Devices {
  import opened Wrappers

  /** The registered device variants (one per device class). */
  datatype Device =
    | QemuArm64 | QemuArmv5 | QemuArmv7 | QemuI386
    | QemuMips32 | QemuMips32el | QemuMips64 | QemuMips64el
    | QemuPpc32 | QemuPpc64 | QemuPpc64le | QemuRiscv64
    | QemuS390 | QemuSh4 | QemuSparc64 | QemuX86_64
    | FVPMorelloAndroid | FVPMorelloBusybox | FVPMorelloOe | FVPMorelloUbuntu

  /** The registry name each device class declares. */
  function Name(d: Device): string {
    match d
    case QemuArm64 => "qemu-arm64"
    case QemuArmv5 => "qemu-armv5"
    case QemuArmv7 => "qemu-armv7"
    case QemuI386 => "qemu-i386"
    case QemuMips32 => "qemu-mips32"
    case QemuMips32el => "qemu-mips32el"
    case QemuMips64 => "qemu-mips64"
    case QemuMips64el => "qemu-mips64el"
    case QemuPpc32 => "qemu-ppc32"
    case QemuPpc64 => "qemu-ppc64"
    case QemuPpc64le => "qemu-ppc64le"
    case QemuRiscv64 => "qemu-riscv64"
    case QemuS390 => "qemu-s390"
    case QemuSh4 => "qemu-sh4"
    case QemuSparc64 => "qemu-sparc64"
    case QemuX86_64 => "qemu-x86_64"
    case FVPMorelloAndroid => "fvp-morello-android"
    case FVPMorelloBusybox => "fvp-morello-busybox"
    case FVPMorelloOe => "fvp-morello-oe"
    case FVPMorelloUbuntu => "fvp-morello-ubuntu"
  }

  /** The registry in listing order. */
  const Registry: seq<Device> := [
    QemuArm64, QemuArmv5, QemuArmv7, QemuI386,
    QemuMips32, QemuMips32el, QemuMips64, QemuMips64el,
    QemuPpc32, QemuPpc64, QemuPpc64le, QemuRiscv64,
    QemuS390, QemuSh4, QemuSparc64, QemuX86_64,
    FVPMorelloAndroid, FVPMorelloBusybox, FVPMorelloOe, FVPMorelloUbuntu
  ]

  /** The error `select` raises. */
  datatype Error = InvalidArgument(name: string)

  /** Every device class is registered. */
  lemma RegistryComplete(d: Device)
    ensures d in Registry
  {
  }

  /** No two device classes declare the same name. */
  lemma NameInjective(d: Device, e: Device)
    requires Name(d) == Name(e)
    ensures d == e
  {
  }

  /** The registry as a map from name to device, built from the list. */
  function ByName(): map<string, Device> {
    NamesInjective();
    map d | d in Registry :: Name(d) := d
  }

  lemma NamesInjective()
    ensures forall d, e | d in Registry && e in Registry && Name(d) == Name(e) :: d == e
  {
    forall d, e | d in Registry && e in Registry && Name(d) == Name(e) ensures d == e {
      NameInjective(d, e);
    }
  }

  /** `Device.select`: exact lookup by registry name; an unregistered name
      raises InvalidArgument carrying that name, with no fallback. */
  function Select(name: string): (r: Result<Device, Error>)
    ensures r.Success? ==> Name(r.value) == name
    ensures r.Failure? <==> forall d: Device :: Name(d) != name
    ensures r.Failure? ==> r.error == InvalidArgument(name)
  {
    if name in ByName() then
      Success(ByName()[name])
    else
      assert forall d: Device :: Name(d) != name by {
        forall d: Device ensures Name(d) != name {
          RegistryComplete(d);
        }
      }
      Failure(InvalidArgument(name))
  }

  /** Selecting a device by its own name returns that device: `select` is
      total on the registry and `Name` is its inverse. */
  lemma SelectName(d: Device)
    ensures Select(Name(d)) == Success(d)
  {
    RegistryComplete(d);
    var r := Select(Name(d));
    NameInjective(r.value, d);
  }

  /** The lookups the registry test performs. */
  lemma SelectQemuArmv5()
    ensures Select("qemu-armv5") == Success(QemuArmv5)
  {
    var name := Name(QemuArmv5);
    assert name == "qemu-armv5";
    SelectName(QemuArmv5);
    assert Select(name) == Success(QemuArmv5);
  }

  lemma SelectFVPMorelloAndroid()
    ensures Select("fvp-morello-android") == Success(FVPMorelloAndroid)
  {
    var name := Name(FVPMorelloAndroid);
    assert name == "fvp-morello-android";
    SelectName(FVPMorelloAndroid);
    assert Select(name) == Success(FVPMorelloAndroid);
  }

  lemma SelectUnknown()
    ensures Select("Hello") == Failure(InvalidArgument("Hello"))
  {
    forall d: Device ensures |Name(d)| > 5 { }
  }

  const FileScheme := "file://"

  /** A path that starts at the file-system root. */
  predicate IsAbsolute(path: string) {
    "/" <= path
  }

  /** How a local artefact appears in the rendered job: a file URI made of
      the absolute directory and the file name. */
  function FileUri(dir: string, filename: string): (uri: string)
    requires IsAbsolute(dir)
    ensures FileScheme <= uri
    ensures uri[|FileScheme|..] == dir + "/" + filename
    ensures IsAbsolute(uri[|FileScheme|..])
  {
    FileScheme + dir + "/" + filename
  }

  /** The local path a file URI designates, if `uri` is one. */
  function PathOf(uri: string): Option<string> {
    if FileScheme <= uri then Some(uri[|FileScheme|..]) else None
  }

  lemma PathOfFileUri(dir: string, filename: string)
    requires IsAbsolute(dir)
    ensures PathOf(FileUri(dir, filename)) == Some(dir + "/" + filename)
  {
  }

  /** A path as a process working in `cwd` designates it: an absolute path
      as given, "." as the working directory itself, any other relative
      path below the working directory. */
  function Resolve(cwd: string, path: string): (abs: string)
    requires IsAbsolute(cwd)
    ensures IsAbsolute(abs)
    ensures IsAbsolute(path) ==> abs == path
    ensures path == "." ==> abs == cwd
    ensures !IsAbsolute(path) && path != "." ==> abs == cwd + "/" + path
  {
    if path == "." then
      assert !IsAbsolute(path) by { assert path[0] != '/'; }
      cwd
    else if IsAbsolute(path) then path
    else cwd + "/" + path
  }

  /** Resolving an already resolved path changes nothing, whatever the
      working directory. */
  lemma ResolveIdempotent(cwd: string, other: string, path: string)
    requires IsAbsolute(cwd) && IsAbsolute(other)
    ensures Resolve(other, Resolve(cwd, path)) == Resolve(cwd, path)
  {
  }

  /** Whether an artefact value is already a URL rather than a local path. */
  predicate IsUrl(value: string) {
    "http://" <= value || "https://" <= value || FileScheme <= value
  }

  /** An artefact given on the command line as it reaches the job: a URL
      is kept as given; a local path becomes the file URI of that path
      resolved against the working directory. */
  function ArtefactUri(cwd: string, value: string): (uri: string)
    requires IsAbsolute(cwd)
    ensures IsUrl(uri)
    ensures IsUrl(value) ==> uri == value
    ensures !IsUrl(value) ==> PathOf(uri) == Some(Resolve(cwd, value))
  {
    if IsUrl(value) then value
    else
      var uri := FileScheme + Resolve(cwd, value);
      assert uri[..|FileScheme|] == FileScheme && uri[|FileScheme|..] == Resolve(cwd, value);
      uri
  }

  /** A relative file name resolves to the same URI a file in the working
      directory gets in the job. */
  lemma ArtefactUriOfFileName(cwd: string, filename: string)
    requires IsAbsolute(cwd) && !IsUrl(filename) && !IsAbsolute(filename) && filename != "."
    ensures ArtefactUri(cwd, filename) == FileUri(cwd, filename)
  {
    assert FileScheme + (cwd + "/" + filename) == FileScheme + cwd + "/" + filename;
  }

  /** The last component of a path: what follows its final separator. */
  function BaseName(path: string): (name: string)
    ensures '/' !in name
    ensures |name| <= |path| && name == path[|path| - |name|..]
    ensures |name| < |path| ==> path[|path| - |name| - 1] == '/'
  {
    if |path| == 0 || path[|path| - 1] == '/' then ""
    else BaseName(path[..|path| - 1]) + [path[|path| - 1]]
  }

  /** The execution identity of a run. */
  datatype Identity = Identity(containerName: string, networkFrom: string)

  /** The identity of a run whose temporary directory is `runDir`: the
      container name and the network to join are both that directory's name. */
  function ExecutionIdentity(runDir: string): (id: Identity)
    ensures id.containerName == id.networkFrom
    ensures id.containerName == BaseName(runDir)
  {
    var name := BaseName(runDir);
    Identity(name, name)
  }
}
