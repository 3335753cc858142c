/**
 * Preparation of a workload container's OCI runtime spec by the Linux guest
 * agent (internal/runtime/hcsv2/workload_container.go): sandbox mount
 * sources rewritten under the sandbox's mounts directory, default
 * /etc/hostname, /etc/hosts and /etc/resolv.conf bind mounts, the host's
 * devices for a privileged container, and the Windows section cleared.
 */
module WorkloadContainer {
  import opened Wrappers
  import opened Strings
  import UnixPath

  datatype Mount = Mount(destination: string, mountType: string, source: string, options: seq<string>)

  /** oci.LinuxDevice; the UID and GID are pointers in the spec, so they may be absent. */
  datatype LinuxDevice = LinuxDevice(path: string, deviceType: string, major: int, minor: int,
                                     uid: Option<nat>, gid: Option<nat>)

  /** A device of the guest as runc's devices.HostDevices lists it; the type is one character. */
  datatype HostDevice = HostDevice(path: string, deviceType: char, major: int, minor: int, uid: nat, gid: nat)

  /** oci.LinuxDeviceCgroup */
  datatype DeviceCgroup = DeviceCgroup(allow: bool, deviceType: Option<string>, major: Option<int>,
                                       minor: Option<int>, access: string)

  /** The Windows section of the spec; only whether it is present matters here. */
  datatype WindowsSection = WindowsSection(layerFolders: seq<string>)

  datatype Error =
    | HostnameNotAllowed(hostname: string)
    | MountNotInSandbox(sandboxSource: string, source: string)
    | MkdirFailed(path: string, message: string)
    | SandboxMountsFailed(id: string, sandboxId: string, cause: Error)
    | HostDevicesFailed(message: string)
    | SetUserStrFailed(message: string)

  const SandboxMountPrefix := "sandbox://"
  const PrivilegedAnnotation := "io.microsoft.virtualmachine.lcow.privileged"
  const UserStrAnnotation := "io.microsoft.lcow.userstr"

  /** The paths that getSandboxMountsDir, getSandboxHostnamePath, ... give for the sandbox id. */
  datatype SandboxPaths = SandboxPaths(mountsDir: string, hostnamePath: string, hostsPath: string,
                                       resolvPath: string)

  /**
   * What the helpers outside this model report: isInMounts, isRootReadonly
   * for this spec, the result of devices.HostDevices, and setUserStr's error.
   */
  datatype Helpers = Helpers(
    isInMounts: (string, seq<Mount>) -> bool,
    isRootReadonly: bool,
    hostDevices: Result<seq<HostDevice>, string>,
    setUserStr: string -> Option<string>)

  /** The parts of an oci.Spec that setupWorkloadContainerSpec reads or changes. */
  class Spec {
    var hostname: string
    var mounts: seq<Mount>
    var annotations: map<string, string>
    var devices: seq<LinuxDevice>         // spec.Linux.Devices
    var cgroupDevices: seq<DeviceCgroup>  // spec.Linux.Resources.Devices
    var windows: Option<WindowsSection>

    constructor (hostname: string, mounts: seq<Mount>, annotations: map<string, string>,
                 devices: seq<LinuxDevice>, cgroupDevices: seq<DeviceCgroup>, windows: Option<WindowsSection>)
      ensures this.hostname == hostname && this.mounts == mounts && this.annotations == annotations
      ensures this.devices == devices && this.cgroupDevices == cgroupDevices && this.windows == windows
    {
      this.hostname, this.mounts, this.annotations := hostname, mounts, annotations;
      this.devices, this.cgroupDevices, this.windows := devices, cgroupDevices, windows;
    }
  }

  /** The guest's directories, as os.Stat and os.MkdirAll see and change them. */
  class GuestFs {
    var dirs: set<string>
    /** The error MkdirAll would give for a path, if any. */
    const mkdirAll: string -> Option<string>

    constructor (dirs: set<string>, mkdirAll: string -> Option<string>)
      ensures this.dirs == dirs && this.mkdirAll == mkdirAll
    {
      this.dirs, this.mkdirAll := dirs, mkdirAll;
    }

    /** os.IsNotExist of os.Stat's error. */
    method StatNotExist(path: string) returns (notExist: bool)
      ensures notExist <==> path !in dirs
    {
      notExist := path !in dirs;
    }

    method MkdirAll(path: string) returns (err: Option<string>)
      modifies this`dirs
      ensures err == mkdirAll(path)
      ensures dirs == if err.Some? then old(dirs) else old(dirs) + {path}
    {
      err := mkdirAll(path);
      if err.None? {
        dirs := dirs + {path};
      }
    }
  }

  // ---------------------------------------------------------------------
  // updateSandboxMounts

  predicate IsSandboxMount(m: Mount)
  {
    HasPrefix(m.source, SandboxMountPrefix)
  }

  /** The source a sandbox mount is given: its sub-path joined to the mounts directory. */
  function SandboxSource(mountsDir: string, source: string): string
  {
    UnixPath.Join(mountsDir, TrimPrefix(source, SandboxMountPrefix))
  }

  /** The check of the source: the joined path must start with the mounts directory, as a string. */
  predicate InMountsDir(mountsDir: string, source: string)
  {
    HasPrefix(SandboxSource(mountsDir, source), mountsDir)
  }

  /** A mount with its source rewritten when it is a sandbox mount. */
  function Rewrite(m: Mount, mountsDir: string): Mount
  {
    if IsSandboxMount(m) then m.(source := SandboxSource(mountsDir, m.source)) else m
  }

  /** `ms` with the mounts at indices lo until hi rewritten. */
  function RewriteRange(ms: seq<Mount>, mountsDir: string, lo: nat, hi: nat): (r: seq<Mount>)
    ensures |r| == |ms|
  {
    seq(|ms|, j requires 0 <= j < |ms| => if lo <= j < hi then Rewrite(ms[j], mountsDir) else ms[j])
  }

  datatype MountsUpdate = MountsUpdate(mounts: seq<Mount>, dirs: set<string>, err: Option<Error>)

  /** The mounts, the guest's directories and the error after the loop has run from index i. */
  function UpdateFrom(ms: seq<Mount>, i: nat, mountsDir: string, dirs: set<string>,
                      mkdirAll: string -> Option<string>): MountsUpdate
    requires i <= |ms|
    decreases |ms| - i
  {
    if i == |ms| then MountsUpdate(ms, dirs, None)
    else if !IsSandboxMount(ms[i]) then UpdateFrom(ms, i + 1, mountsDir, dirs, mkdirAll)
    else
      var s := SandboxSource(mountsDir, ms[i].source);
      if !HasPrefix(s, mountsDir) then MountsUpdate(ms, dirs, Some(MountNotInSandbox(s, ms[i].source)))
      else
        var ms' := ms[i := ms[i].(source := s)];
        if s in dirs then UpdateFrom(ms', i + 1, mountsDir, dirs, mkdirAll)
        else
          match mkdirAll(s)
          case Some(e) => MountsUpdate(ms', dirs, Some(MkdirFailed(s, e)))
          case None => UpdateFrom(ms', i + 1, mountsDir, dirs + {s}, mkdirAll)
  }

  /**
   * updateSandboxMounts: every mount whose source starts with "sandbox://"
   * gets the source joined under the mounts directory, in place, and the joined
   * source is created as a directory when missing; the first source outside the mounts
   * directory, or the first failed MkdirAll, stops the loop with an error.
   */
  method UpdateSandboxMounts(mountsDir: string, spec: Spec, fs: GuestFs) returns (err: Option<Error>)
    modifies spec`mounts, fs`dirs
    ensures var u := UpdateFrom(old(spec.mounts), 0, mountsDir, old(fs.dirs), fs.mkdirAll);
            spec.mounts == u.mounts && fs.dirs == u.dirs && err == u.err
  {
    var i := 0;
    while i < |spec.mounts|
      invariant 0 <= i <= |spec.mounts|
      invariant UpdateFrom(spec.mounts, i, mountsDir, fs.dirs, fs.mkdirAll) ==
                UpdateFrom(old(spec.mounts), 0, mountsDir, old(fs.dirs), fs.mkdirAll)
      decreases |spec.mounts| - i
    {
      var m := spec.mounts[i];
      if HasPrefix(m.source, SandboxMountPrefix) {
        var subPath := TrimPrefix(m.source, SandboxMountPrefix);
        var sandboxSource := UnixPath.Join(mountsDir, subPath);
        if !HasPrefix(sandboxSource, mountsDir) {
          return Some(MountNotInSandbox(sandboxSource, m.source));
        }
        spec.mounts := spec.mounts[i := spec.mounts[i].(source := sandboxSource)];
        var notExist := fs.StatNotExist(sandboxSource);
        if notExist {
          var mkdirErr := fs.MkdirAll(sandboxSource);
          if mkdirErr.Some? {
            return Some(MkdirFailed(sandboxSource, mkdirErr.value));
          }
        }
      }
      i := i + 1;
    }
    return None;
  }

  /**
   * How the loop ended, for the mounts from index i on: it rewrote the mounts
   * from i until k, each of their rewritten sources passed the check and is a
   * directory afterwards, and either it went through all mounts, or mount k
   * failed the check (and kept its source), or mount k was rewritten and its
   * MkdirAll failed.
   */
  ghost predicate UpdateEndedAt(ms: seq<Mount>, i: nat, mountsDir: string, mkdirAll: string -> Option<string>,
                                r: MountsUpdate, k: nat)
  {
    && i <= k <= |ms|
    && (forall j :: i <= j < k && IsSandboxMount(ms[j]) ==>
          InMountsDir(mountsDir, ms[j].source) && SandboxSource(mountsDir, ms[j].source) in r.dirs)
    && ((r.err.None? && k == |ms| && r.mounts == RewriteRange(ms, mountsDir, i, k))
        || (k < |ms| && IsSandboxMount(ms[k]) && !InMountsDir(mountsDir, ms[k].source)
            && r.err == Some(MountNotInSandbox(SandboxSource(mountsDir, ms[k].source), ms[k].source))
            && r.mounts == RewriteRange(ms, mountsDir, i, k))
        || (k < |ms| && IsSandboxMount(ms[k]) && InMountsDir(mountsDir, ms[k].source)
            && mkdirAll(SandboxSource(mountsDir, ms[k].source)).Some?
            && r.err == Some(MkdirFailed(SandboxSource(mountsDir, ms[k].source),
                                         mkdirAll(SandboxSource(mountsDir, ms[k].source)).value))
            && r.mounts == RewriteRange(ms, mountsDir, i, k + 1)))
  }

  /** The outcome of the loop from index i, stated by where it ended. */
  lemma {:induction false} UpdateFromEnds(ms: seq<Mount>, i: nat, mountsDir: string, dirs: set<string>,
                                          mkdirAll: string -> Option<string>) returns (k: nat)
    requires i <= |ms|
    ensures UpdateEndedAt(ms, i, mountsDir, mkdirAll, UpdateFrom(ms, i, mountsDir, dirs, mkdirAll), k)
    ensures dirs <= UpdateFrom(ms, i, mountsDir, dirs, mkdirAll).dirs
    decreases |ms| - i
  {
    var r := UpdateFrom(ms, i, mountsDir, dirs, mkdirAll);
    if i == |ms| {
      k := i;
      assert RewriteRange(ms, mountsDir, i, k) == ms;
    } else if !IsSandboxMount(ms[i]) {
      k := UpdateFromEnds(ms, i + 1, mountsDir, dirs, mkdirAll);
      assert ms[i := Rewrite(ms[i], mountsDir)] == ms;
      EndedAtExtends(ms, i, mountsDir, mkdirAll, r, k);
    } else {
      var s := SandboxSource(mountsDir, ms[i].source);
      if !HasPrefix(s, mountsDir) {
        k := i;
        assert RewriteRange(ms, mountsDir, i, k) == ms;
      } else {
        var ms' := ms[i := ms[i].(source := s)];
        var dirs' := if s in dirs then dirs else dirs + {s};
        if s !in dirs && mkdirAll(s).Some? {
          k := i;
          assert RewriteRange(ms, mountsDir, i, i + 1) == ms';
        } else {
          k := UpdateFromEnds(ms', i + 1, mountsDir, dirs', mkdirAll);
          assert r == UpdateFrom(ms', i + 1, mountsDir, dirs', mkdirAll);
          EndedAtExtends(ms, i, mountsDir, mkdirAll, r, k);
        }
      }
    }
  }

  /** Where the loop ended from i + 1, after mount i was rewritten, is also where it ended from i. */
  lemma EndedAtExtends(ms: seq<Mount>, i: nat, mountsDir: string, mkdirAll: string -> Option<string>,
                        r: MountsUpdate, k: nat)
    requires i < |ms|
    requires UpdateEndedAt(ms[i := Rewrite(ms[i], mountsDir)], i + 1, mountsDir, mkdirAll, r, k)
    requires IsSandboxMount(ms[i]) ==>
               InMountsDir(mountsDir, ms[i].source) && SandboxSource(mountsDir, ms[i].source) in r.dirs
    ensures UpdateEndedAt(ms, i, mountsDir, mkdirAll, r, k)
  {
    var ms' := ms[i := Rewrite(ms[i], mountsDir)];
    assert forall j :: 0 <= j < |ms| && j != i ==> ms'[j] == ms[j];
    RewriteRangeStep(ms, mountsDir, i, k);
    RewriteRangeStep(ms, mountsDir, i, k + 1);
  }

  lemma RewriteRangeStep(ms: seq<Mount>, mountsDir: string, i: nat, k: nat)
    requires i < |ms| && i < k
    ensures RewriteRange(ms[i := Rewrite(ms[i], mountsDir)], mountsDir, i + 1, k) == RewriteRange(ms, mountsDir, i, k)
  {
  }

  /**
   * updateSandboxMounts keeps the number and order of the mounts: each mount
   * keeps its destination, type and options, a mount that is not a sandbox
   * mount is unchanged, and a sandbox mount either keeps its source or gets
   * the joined one.
   */
  lemma UpdateKeepsMounts(ms: seq<Mount>, mountsDir: string, dirs: set<string>, mkdirAll: string -> Option<string>)
    ensures var r := UpdateFrom(ms, 0, mountsDir, dirs, mkdirAll).mounts;
            && |r| == |ms|
            && (forall j :: 0 <= j < |ms| ==> r[j] == ms[j] || r[j] == Rewrite(ms[j], mountsDir))
            && (forall j :: 0 <= j < |ms| && !IsSandboxMount(ms[j]) ==> r[j] == ms[j])
            && (forall j :: 0 <= j < |ms| ==> r[j].destination == ms[j].destination &&
                                              r[j].mountType == ms[j].mountType && r[j].options == ms[j].options)
  {
    var k := UpdateFromEnds(ms, 0, mountsDir, dirs, mkdirAll);
  }

  /**
   * updateSandboxMounts succeeds exactly when every sandbox mount passes the
   * check and every missing directory can be made; then every sandbox mount
   * has the joined source, and that source is a directory.
   */
  lemma UpdateSuccess(ms: seq<Mount>, mountsDir: string, dirs: set<string>, mkdirAll: string -> Option<string>)
    ensures var r := UpdateFrom(ms, 0, mountsDir, dirs, mkdirAll);
            r.err.None? <==>
              forall j :: 0 <= j < |ms| && IsSandboxMount(ms[j]) ==>
                InMountsDir(mountsDir, ms[j].source) &&
                (SandboxSource(mountsDir, ms[j].source) in r.dirs)
    ensures var r := UpdateFrom(ms, 0, mountsDir, dirs, mkdirAll);
            r.err.None? ==>
              && r.mounts == RewriteRange(ms, mountsDir, 0, |ms|)
              && forall j :: 0 <= j < |ms| ==> r.mounts[j] == Rewrite(ms[j], mountsDir)
  {
    var k := UpdateFromEnds(ms, 0, mountsDir, dirs, mkdirAll);
    var r := UpdateFrom(ms, 0, mountsDir, dirs, mkdirAll);
    if r.err.Some? {
      assert k < |ms| && IsSandboxMount(ms[k]);
      if InMountsDir(mountsDir, ms[k].source) {
        MkdirFailureLeavesDirMissing(ms, 0, mountsDir, dirs, mkdirAll);
      }
    }
  }

  /** When MkdirAll fails, the directory it could not make is not among the guest's directories. */
  lemma {:induction false} MkdirFailureLeavesDirMissing(ms: seq<Mount>, i: nat, mountsDir: string, dirs: set<string>,
                                                        mkdirAll: string -> Option<string>)
    requires i <= |ms|
    ensures var r := UpdateFrom(ms, i, mountsDir, dirs, mkdirAll);
            r.err.Some? && r.err.value.MkdirFailed? ==> r.err.value.path !in r.dirs
    decreases |ms| - i
  {
    if i < |ms| && IsSandboxMount(ms[i]) {
      var s := SandboxSource(mountsDir, ms[i].source);
      if HasPrefix(s, mountsDir) {
        var ms' := ms[i := ms[i].(source := s)];
        var dirs' := if s in dirs then dirs else dirs + {s};
        if !(s !in dirs && mkdirAll(s).Some?) {
          MkdirFailureLeavesDirMissing(ms', i + 1, mountsDir, dirs', mkdirAll);
        }
      }
    } else if i < |ms| {
      MkdirFailureLeavesDirMissing(ms, i + 1, mountsDir, dirs, mkdirAll);
    }
  }

  /**
   * On an error at mount k the update stops there: the mounts before k keep
   * their rewritten sources, mount k keeps its source when it failed the
   * check (and has the rewritten one when MkdirAll failed), and the mounts
   * after k are untouched.
   */
  lemma UpdateErrorStopsAtMount(ms: seq<Mount>, mountsDir: string, dirs: set<string>, mkdirAll: string -> Option<string>)
    requires UpdateFrom(ms, 0, mountsDir, dirs, mkdirAll).err.Some?
    ensures var r := UpdateFrom(ms, 0, mountsDir, dirs, mkdirAll);
            |r.mounts| == |ms| &&
            exists k :: 0 <= k < |ms| && IsSandboxMount(ms[k]) &&
              (forall j :: 0 <= j < k ==> r.mounts[j] == Rewrite(ms[j], mountsDir)) &&
              (forall j :: k < j < |ms| ==> r.mounts[j] == ms[j]) &&
              (r.err.value.MountNotInSandbox? ==> !InMountsDir(mountsDir, ms[k].source) && r.mounts[k] == ms[k]) &&
              (r.err.value.MkdirFailed? ==> InMountsDir(mountsDir, ms[k].source) && r.mounts[k] == Rewrite(ms[k], mountsDir))
  {
    var k := UpdateFromEnds(ms, 0, mountsDir, dirs, mkdirAll);
    var r := UpdateFrom(ms, 0, mountsDir, dirs, mkdirAll);
    assert 0 <= k < |ms| && IsSandboxMount(ms[k]);
  }

  // ---------------------------------------------------------------------
  // Examples of the string prefix check, with the mounts directory "/m"

  /** A name that is a single path component other than "." and "..". */
  predicate IsPlainName(name: string)
  {
    name != [] && name != "." && name != ".." && forall i :: 0 <= i < |name| ==> name[i] != '/'
  }

  /**
   * A sub-path "../name" under the mounts directory "/dir" climbs to the
   * sibling "/name", and the check lets it through exactly when the
   * sibling's name begins with the mounts directory's name: the check
   * compares strings, not path elements.
   */
  lemma ClimbToSibling(dir: string, name: string)
    requires IsPlainName(dir) && IsPlainName(name)
    ensures SandboxSource("/" + dir, SandboxMountPrefix + "../" + name) == "/" + name
    ensures InMountsDir("/" + dir, SandboxMountPrefix + "../" + name) <==> HasPrefix(name, dir)
  {
    var source := SandboxMountPrefix + "../" + name;
    assert source[..|SandboxMountPrefix|] == SandboxMountPrefix;
    assert TrimPrefix(source, SandboxMountPrefix) == "../" + name;
    CleanOfClimb(dir, name);
    RootedPrefix(dir, name);
  }

  lemma CleanOfClimb(dir: string, name: string)
    requires IsPlainName(dir) && IsPlainName(name)
    ensures UnixPath.Join("/" + dir, "../" + name) == "/" + name
  {
    var p := "/" + dir + "/" + ("../" + name);
    ComponentsOfClimb(dir, name);
    var cs := UnixPath.Components(p);
    assert cs[1..] == ["..", name];
    assert cs[1..][1..] == [name];
    assert UnixPath.Step([], dir, true) == [dir];
    assert UnixPath.Step([dir], "..", true) == [];
    assert UnixPath.Step([], name, true) == [name];
    assert UnixPath.Resolve([], cs, true) == UnixPath.Resolve([dir], cs[1..], true);
    assert UnixPath.Resolve([dir], cs[1..], true) == UnixPath.Resolve([], [name], true);
    assert UnixPath.Resolve([], [name], true) == UnixPath.Resolve([name], [], true);
  }

  lemma ComponentsOfClimb(dir: string, name: string)
    requires IsPlainName(dir) && IsPlainName(name)
    ensures UnixPath.Components("/" + dir + "/" + ("../" + name)) == [dir, "..", name]
  {
    UnixPath.ComponentsOfJoin("/" + dir, "../" + name);
    assert ("/" + dir)[1..] == dir;
    UnixPath.ComponentsOfName(dir);
    assert "../" + name == ".." + "/" + name;
    UnixPath.ComponentsOfJoin("..", name);
    UnixPath.ComponentsOfName("..");
    UnixPath.ComponentsOfName(name);
  }

  lemma RootedPrefix(dir: string, name: string)
    ensures HasPrefix("/" + name, "/" + dir) <==> HasPrefix(name, dir)
  {
    if HasPrefix(name, dir) {
      assert ("/" + name)[..|dir| + 1] == "/" + name[..|dir|];
    }
    if HasPrefix("/" + name, "/" + dir) {
      assert name[..|dir|] == ("/" + name)[1..|dir| + 1];
      assert ("/" + name)[1..|dir| + 1] == ("/" + dir)[1..];
    }
  }

  /** With the mounts directory "/m", "sandbox://../x" is rejected: it would be "/x". */
  lemma DotDotEscapeIsRejected()
    ensures SandboxSource("/m", "sandbox://../x") == "/x"
    ensures !InMountsDir("/m", "sandbox://../x")
  {
    ClimbToSibling("m", "x");
    assert "/" + "m" == "/m" && "/" + "x" == "/x";
    assert SandboxMountPrefix + "../" + "x" == "sandbox://../x";
    assert "x"[..1] != "m";
  }

  /** With the mounts directory "/m", "sandbox://../mX" is accepted, though "/mX" lies outside "/m". */
  lemma SiblingDirectoryPassesCheck()
    ensures SandboxSource("/m", "sandbox://../mX") == "/mX"
    ensures InMountsDir("/m", "sandbox://../mX")
    ensures !HasPrefix(SandboxSource("/m", "sandbox://../mX"), "/m/")
  {
    ClimbToSibling("m", "mX");
    assert "/" + "m" == "/m" && "/" + "mX" == "/mX";
    assert SandboxMountPrefix + "../" + "mX" == "sandbox://../mX";
    assert "mX"[..1] == "m";
    assert "/mX"[..3][2] != "/m/"[2];
  }

  /** A sandbox sub-path with no ".." component always passes the check, for a clean rooted mounts directory. */
  lemma SubPathWithoutDotDotPasses(mountsDir: string, source: string)
    requires UnixPath.IsCleanRooted(mountsDir)
    requires UnixPath.NoDotDot(TrimPrefix(source, SandboxMountPrefix))
    ensures InMountsDir(mountsDir, source)
  {
    UnixPath.JoinWithoutDotDotStaysUnder(mountsDir, TrimPrefix(source, SandboxMountPrefix));
  }

  // ---------------------------------------------------------------------
  // Default mounts

  /** The bind mount added for a file of the sandbox, read-only when the root is. */
  function DefaultMount(destination: string, source: string, rootReadonly: bool): Mount
  {
    Mount(destination, "bind", source, if rootReadonly then ["bind", "ro"] else ["bind"])
  }

  function AddIfAbsent(ms: seq<Mount>, destination: string, source: string, h: Helpers): seq<Mount>
  {
    if h.isInMounts(destination, ms) then ms else ms + [DefaultMount(destination, source, h.isRootReadonly)]
  }

  /** The mounts after the three default mounts were added where missing, in this order. */
  function WithDefaultMounts(ms: seq<Mount>, paths: SandboxPaths, h: Helpers): seq<Mount>
  {
    var m1 := AddIfAbsent(ms, "/etc/hostname", paths.hostnamePath, h);
    var m2 := AddIfAbsent(m1, "/etc/hosts", paths.hostsPath, h);
    AddIfAbsent(m2, "/etc/resolv.conf", paths.resolvPath, h)
  }

  method AddDefaultMount(spec: Spec, destination: string, source: string, h: Helpers)
    modifies spec`mounts
    ensures spec.mounts == AddIfAbsent(old(spec.mounts), destination, source, h)
  {
    if !h.isInMounts(destination, spec.mounts) {
      var mt := Mount(destination, "bind", source, ["bind"]);
      if h.isRootReadonly {
        mt := mt.(options := mt.options + ["ro"]);
        assert mt.options == ["bind", "ro"];
      }
      spec.mounts := spec.mounts + [mt];
    }
  }

  /**
   * The default mounts are only appended: the existing mounts stay as they
   * are in front, and what follows is, in order, the hostname, hosts and
   * resolv.conf bind mounts that isInMounts reported absent, each with the
   * options "bind" and, when the root is read-only, "ro".
   */
  lemma DefaultMountsAppended(ms: seq<Mount>, paths: SandboxPaths, h: Helpers)
    ensures var r := WithDefaultMounts(ms, paths, h);
            var m1 := AddIfAbsent(ms, "/etc/hostname", paths.hostnamePath, h);
            var m2 := AddIfAbsent(m1, "/etc/hosts", paths.hostsPath, h);
            && |ms| <= |r| <= |ms| + 3
            && r[..|ms|] == ms
            && r == ms + (if h.isInMounts("/etc/hostname", ms) then [] else [DefaultMount("/etc/hostname", paths.hostnamePath, h.isRootReadonly)])
                        + (if h.isInMounts("/etc/hosts", m1) then [] else [DefaultMount("/etc/hosts", paths.hostsPath, h.isRootReadonly)])
                        + (if h.isInMounts("/etc/resolv.conf", m2) then [] else [DefaultMount("/etc/resolv.conf", paths.resolvPath, h.isRootReadonly)])
            && forall j :: |ms| <= j < |r| ==>
                 && r[j].mountType == "bind"
                 && r[j].options == (if h.isRootReadonly then ["bind", "ro"] else ["bind"])
                 && r[j].destination in {"/etc/hostname", "/etc/hosts", "/etc/resolv.conf"}
  {
    var m1 := AddIfAbsent(ms, "/etc/hostname", paths.hostnamePath, h);
    var m2 := AddIfAbsent(m1, "/etc/hosts", paths.hostsPath, h);
    var r := WithDefaultMounts(ms, paths, h);
    assert m1[..|ms|] == ms;
    assert m2[..|m1|] == m1;
    assert r[..|m2|] == m2;
  }

  // ---------------------------------------------------------------------
  // Host devices of a privileged container

  predicate IsNullDevice(hd: HostDevice)
  {
    hd.major == 0 && hd.minor == 0
  }

  /**
   * The spec device made for host device `hd`. Its UID and GID point at the
   * host device's own: the list holds pointers to distinct devices.
   */
  function DeviceFor(hd: HostDevice): LinuxDevice
  {
    LinuxDevice(hd.path, [hd.deviceType], hd.major, hd.minor, Some(hd.uid), Some(hd.gid))
  }

  /** The index of the first device with `path`, or |devs| when there is none. */
  function FirstWithPath(devs: seq<LinuxDevice>, path: string): (k: nat)
    ensures k <= |devs|
    ensures forall j :: 0 <= j < k ==> devs[j].path != path
    ensures k < |devs| ==> devs[k].path == path
  {
    if devs == [] then 0
    else if devs[0].path == path then 0
    else 1 + FirstWithPath(devs[1..], path)
  }

  /** `rd` in place of the first device with its path, or appended when there is none. */
  function Placed(devs: seq<LinuxDevice>, rd: LinuxDevice): seq<LinuxDevice>
  {
    var k := FirstWithPath(devs, rd.path);
    if k < |devs| then devs[k := rd] else devs + [rd]
  }

  /** The device list after the host devices from index i on were merged in. */
  function MergeFrom(devs: seq<LinuxDevice>, hds: seq<HostDevice>, i: nat): seq<LinuxDevice>
    requires i <= |hds|
    decreases |hds| - i
  {
    if i == |hds| then devs
    else if IsNullDevice(hds[i]) then MergeFrom(devs, hds, i + 1)
    else MergeFrom(Placed(devs, DeviceFor(hds[i])), hds, i + 1)
  }

  /** The inner loop: overwrite the first device with the same path, else append. */
  method PlaceDevice(spec: Spec, rd: LinuxDevice)
    modifies spec`devices
    ensures spec.devices == Placed(old(spec.devices), rd)
  {
    var found := false;
    var i := 0;
    while i < |spec.devices|
      invariant 0 <= i <= |spec.devices|
      invariant spec.devices == old(spec.devices)
      invariant forall j :: 0 <= j < i ==> spec.devices[j].path != rd.path
    {
      if spec.devices[i].path == rd.path {
        found := true;
        spec.devices := spec.devices[i := rd];
        break;
      }
      i := i + 1;
    }
    if !found {
      spec.devices := spec.devices + [rd];
    }
  }

  /** The device loop of setupWorkloadContainerSpec: every host device that is not 0:0, placed in turn. */
  method MergeHostDevices(spec: Spec, hostDevices: seq<HostDevice>)
    modifies spec`devices
    ensures spec.devices == MergeFrom(old(spec.devices), hostDevices, 0)
  {
    for i := 0 to |hostDevices|
      invariant MergeFrom(spec.devices, hostDevices, i) == MergeFrom(old(spec.devices), hostDevices, 0)
    {
      var hostDevice := hostDevices[i];
      var rd := DeviceFor(hostDevice);
      if hostDevice.major == 0 && hostDevice.minor == 0 {
        continue;
      }
      PlaceDevice(spec, rd);
    }
  }

  /** Placing a device keeps every device path at its index, and adds rd's path at the end when it was missing. */
  lemma PlacedKeepsPaths(devs: seq<LinuxDevice>, rd: LinuxDevice)
    ensures var r := Placed(devs, rd);
            && |devs| <= |r| <= |devs| + 1
            && (forall j :: 0 <= j < |devs| ==> r[j].path == devs[j].path && (r[j] == devs[j] || r[j] == rd))
            && (|r| > |devs| ==> r[|devs|] == rd && forall j :: 0 <= j < |devs| ==> devs[j].path != rd.path)
            && r[FirstWithPath(r, rd.path)] == rd
  {
  }

  /** A host device that could have been merged: not 0:0, with this spec entry. */
  ghost predicate FromHostDevice(x: LinuxDevice, hds: seq<HostDevice>, i: nat)
  {
    exists n :: i <= n < |hds| && !IsNullDevice(hds[n]) && x == DeviceFor(hds[n])
  }

  /**
   * The merge keeps every existing device path at its index and only
   * overwrites a device with an entry made from a host device; every other
   * entry it adds also comes from a host device that is not 0:0.
   */
  lemma {:induction false} MergeKeepsDevices(devs: seq<LinuxDevice>, hds: seq<HostDevice>, i: nat)
    requires i <= |hds|
    ensures var r := MergeFrom(devs, hds, i);
            && |devs| <= |r|
            && (forall j :: 0 <= j < |devs| ==>
                  (r[j].path == devs[j].path && (r[j] == devs[j] || FromHostDevice(r[j], hds, i))))
            && (forall j :: |devs| <= j < |r| ==> FromHostDevice(r[j], hds, i))
    decreases |hds| - i
  {
    if i < |hds| {
      if IsNullDevice(hds[i]) {
        MergeKeepsDevices(devs, hds, i + 1);
        FromHostDeviceLater(hds, i);
      } else {
        var rd := DeviceFor(hds[i]);
        var p := Placed(devs, rd);
        PlacedKeepsPaths(devs, rd);
        MergeKeepsDevices(p, hds, i + 1);
        FromHostDeviceLater(hds, i);
        assert FromHostDevice(rd, hds, i);
      }
    }
  }

  lemma FromHostDeviceLater(hds: seq<HostDevice>, i: nat)
    requires i < |hds|
    ensures forall x :: FromHostDevice(x, hds, i + 1) ==> FromHostDevice(x, hds, i)
  {
  }

  /**
   * Every host device that is not 0:0 and is the last one with its path
   * ends up as the first device with that path.
   */
  lemma {:induction false} MergeCoversHostDevices(devs: seq<LinuxDevice>, hds: seq<HostDevice>, i: nat, n: nat)
    requires i <= n < |hds| && !IsNullDevice(hds[n])
    requires forall m :: n < m < |hds| && !IsNullDevice(hds[m]) ==> hds[m].path != hds[n].path
    ensures var r := MergeFrom(devs, hds, i);
            FirstWithPath(r, hds[n].path) < |r| &&
            r[FirstWithPath(r, hds[n].path)] == DeviceFor(hds[n])
    decreases |hds| - i
  {
    if IsNullDevice(hds[i]) {
      MergeCoversHostDevices(devs, hds, i + 1, n);
    } else {
      var p := Placed(devs, DeviceFor(hds[i]));
      if i == n {
        PlacedKeepsPaths(devs, DeviceFor(hds[i]));
        MergeKeepsFirst(p, hds, i + 1, hds[n].path);
      } else {
        MergeCoversHostDevices(p, hds, i + 1, n);
      }
    }
  }

  /** Merging host devices none of which has `path` leaves the first device with `path` alone. */
  lemma {:induction false} MergeKeepsFirst(devs: seq<LinuxDevice>, hds: seq<HostDevice>, i: nat,
                                           path: string)
    requires i <= |hds|
    requires FirstWithPath(devs, path) < |devs|
    requires forall m :: i <= m < |hds| && !IsNullDevice(hds[m]) ==> hds[m].path != path
    ensures var r := MergeFrom(devs, hds, i);
            FirstWithPath(r, path) == FirstWithPath(devs, path) && FirstWithPath(devs, path) < |r| &&
            r[FirstWithPath(devs, path)] == devs[FirstWithPath(devs, path)]
    decreases |hds| - i
  {
    if i < |hds| {
      if IsNullDevice(hds[i]) {
        MergeKeepsFirst(devs, hds, i + 1, path);
      } else {
        var rd := DeviceFor(hds[i]);
        var p := Placed(devs, rd);
        PlacedKeepsPaths(devs, rd);
        var k := FirstWithPath(devs, path);
        assert p[k] == devs[k];
        FirstWithPathOfSamePaths(devs, p, path);
        MergeKeepsFirst(p, hds, i + 1, path);
      }
    }
  }

  /** Two device lists that agree on the paths of a prefix agree on the first index of a path found there. */
  lemma {:induction false} FirstWithPathOfSamePaths(a: seq<LinuxDevice>, b: seq<LinuxDevice>, path: string)
    requires |a| <= |b|
    requires forall j :: 0 <= j < |a| ==> a[j].path == b[j].path
    requires FirstWithPath(a, path) < |a|
    ensures FirstWithPath(b, path) == FirstWithPath(a, path)
    decreases |a|
  {
    if a[0].path != path {
      FirstWithPathOfSamePaths(a[1..], b[1..], path);
    }
  }

  /**
   * Every device the merge writes in place of an old one, or appends, is
   * made from a host device that is not 0:0 and carries that device's own
   * path, type, numbers, UID and GID.
   */
  lemma MergedDevicesComeFromHost(devs: seq<LinuxDevice>, hds: seq<HostDevice>)
    ensures var r := MergeFrom(devs, hds, 0);
            forall j :: 0 <= j < |r| && (j >= |devs| || r[j] != devs[j]) ==>
              exists n :: 0 <= n < |hds| && !IsNullDevice(hds[n]) && r[j].path == hds[n].path &&
                          r[j].deviceType == [hds[n].deviceType] &&
                          r[j].major == hds[n].major && r[j].minor == hds[n].minor &&
                          r[j].uid == Some(hds[n].uid) && r[j].gid == Some(hds[n].gid)
  {
    MergeKeepsDevices(devs, hds, 0);
  }

  /** The single cgroup rule a privileged container gets: every device, read, write and mknod. */
  const AllowAllDevices := DeviceCgroup(true, None, None, None, "rwm")

  predicate IsPrivileged(annotations: map<string, string>)
  {
    PrivilegedAnnotation in annotations && annotations[PrivilegedAnnotation] == "true"
  }

  // ---------------------------------------------------------------------
  // setupWorkloadContainerSpec

  /**
   * setupWorkloadContainerSpec. A hostname fails before anything changes.
   * A failed mount update is returned wrapped, with the mounts as far as the
   * update got. Then the default mounts are added; for a privileged
   * container the host devices are merged and the device cgroup allows
   * everything; then the user string annotation is applied; and on success
   * the Windows section is cleared. The annotations and hostname never change.
   */
  method SetupWorkloadContainerSpec(sbid: string, id: string, paths: SandboxPaths, h: Helpers,
                                    spec: Spec, fs: GuestFs) returns (err: Option<Error>)
    modifies spec`mounts, spec`devices, spec`cgroupDevices, spec`windows, fs`dirs
    ensures old(spec.hostname) != "" ==>
              err == Some(HostnameNotAllowed(old(spec.hostname))) && unchanged(spec) && unchanged(fs)
    ensures old(spec.hostname) == "" ==>
              var u := UpdateFrom(old(spec.mounts), 0, paths.mountsDir, old(fs.dirs), fs.mkdirAll);
              var privileged := IsPrivileged(spec.annotations);
              var devicesFailed := privileged && h.hostDevices.Err?;
              var userFailed := UserStrAnnotation in spec.annotations && h.setUserStr(spec.annotations[UserStrAnnotation]).Some?;
              && fs.dirs == u.dirs
              && (u.err.Some? ==>
                    && err == Some(SandboxMountsFailed(id, sbid, u.err.value))
                    && spec.mounts == u.mounts
                    && spec.devices == old(spec.devices) && spec.cgroupDevices == old(spec.cgroupDevices)
                    && spec.windows == old(spec.windows))
              && (u.err.None? ==>
                    && spec.mounts == WithDefaultMounts(u.mounts, paths, h)
                    && (!privileged ==> spec.devices == old(spec.devices) && spec.cgroupDevices == old(spec.cgroupDevices))
                    && (devicesFailed ==>
                          && err == Some(HostDevicesFailed(h.hostDevices.error))
                          && spec.devices == old(spec.devices) && spec.cgroupDevices == old(spec.cgroupDevices))
                    && (privileged && h.hostDevices.Ok? ==>
                          && spec.devices == MergeFrom(old(spec.devices), h.hostDevices.value, 0)
                          && spec.cgroupDevices == [AllowAllDevices])
                    && (!devicesFailed && userFailed ==>
                          err == Some(SetUserStrFailed(h.setUserStr(spec.annotations[UserStrAnnotation]).value)))
                    && (devicesFailed || userFailed ==> spec.windows == old(spec.windows))
                    && (!devicesFailed && !userFailed ==> err.None? && spec.windows.None?))
    ensures spec.hostname == old(spec.hostname) && spec.annotations == old(spec.annotations)
  {
    if spec.hostname != "" {
      return Some(HostnameNotAllowed(spec.hostname));
    }
    var mountsErr := UpdateSandboxMounts(paths.mountsDir, spec, fs);
    if mountsErr.Some? {
      return Some(SandboxMountsFailed(id, sbid, mountsErr.value));
    }
    AddDefaultMount(spec, "/etc/hostname", paths.hostnamePath, h);
    AddDefaultMount(spec, "/etc/hosts", paths.hostsPath, h);
    AddDefaultMount(spec, "/etc/resolv.conf", paths.resolvPath, h);
    if PrivilegedAnnotation in spec.annotations && spec.annotations[PrivilegedAnnotation] == "true" {
      if h.hostDevices.Err? {
        return Some(HostDevicesFailed(h.hostDevices.error));
      }
      MergeHostDevices(spec, h.hostDevices.value);
      spec.cgroupDevices := [DeviceCgroup(true, None, None, None, "rwm")];
    }
    if UserStrAnnotation in spec.annotations {
      var userErr := h.setUserStr(spec.annotations[UserStrAnnotation]);
      if userErr.Some? {
        return Some(SetUserStrFailed(userErr.value));
      }
    }
    spec.windows := None;
    return None;
  }
}
