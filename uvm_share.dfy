/**
 * UtilityVM.Share (test/vendor/github.com/Microsoft/hcsshim/internal/uvm/share.go):
 * making a host path visible inside a utility VM, through a VSMB share and a
 * guest request for a Windows guest, or through a Plan9 share for a Linux guest.
 *
 * The host-side operations are given as functions of the share state they
 * are called in; the model keeps the live shares as multisets (an add is one
 * more reference, a release one fewer) and the guest requests the guest accepted.
 */
module UvmShare {
  import opened Wrappers
  import WindowsPath
  import Strings

  datatype GuestOs = WindowsGuest | LinuxGuest

  datatype Error =
    | Error(text: string)
    | CouldNotOpen(path: string, cause: Error)  // the error returned when os.Stat fails

  function Message(e: Error): string
  {
    match e
    case Error(t) => t
    case CouldNotOpen(p, cause) => "could not open '" + p + "' path on host: " + Message(cause)
  }

  /** DefaultVSMBOptions(readOnly), of which only the access mode is modelled. */
  datatype VsmbOptions = VsmbOptions(readOnly: bool)

  datatype VsmbShare = VsmbShare(hostPath: string, options: VsmbOptions)

  datatype Plan9Share = Plan9Share(hostPath: string, uvmPath: string, readOnly: bool,
                                   restrictAccess: bool, allowedNames: seq<string>)

  datatype ResourceType = MappedDirectoryResource
  /** The request types Share sends; only an add is sent. */
  datatype RequestType = Add

  /** hcsschema.MappedDirectory */
  datatype MappedDirectory = MappedDirectory(hostPath: string, containerPath: string, readOnly: bool)

  datatype GuestRequest = GuestRequest(resourceType: ResourceType, requestType: RequestType,
                                       settings: MappedDirectory)

  datatype FileInfo = FileInfo(isDir: bool)

  /** Live VSMB and Plan9 shares, and the guest requests the guest accepted, oldest first. */
  datatype HostState = HostState(vsmb: multiset<VsmbShare>, plan9: multiset<Plan9Share>,
                                 guestRequests: seq<GuestRequest>)

  /**
   * The outcomes of the operations Share calls: AddVSMB, GetVSMBUvmPath,
   * GuestRequest, AddPlan9 (each given the state it is called in) and os.Stat.
   */
  datatype Host = Host(
    addVsmb: (HostState, string, VsmbOptions) -> Option<Error>,
    getVsmbUvmPath: (HostState, string, bool) -> Result<string, Error>,
    guestRequest: (HostState, GuestRequest) -> Option<Error>,
    addPlan9: (HostState, string, string, bool, bool, seq<string>) -> Option<Error>,
    stat: string -> Result<FileInfo, Error>)

  /** The guest request that maps a VSMB share at `sharePath` to `uvmPath`. */
  function MapDirectoryRequest(sharePath: string, uvmPath: string, readOnly: bool): GuestRequest
  {
    GuestRequest(MappedDirectoryResource, Add, MappedDirectory(sharePath, uvmPath, readOnly))
  }

  /** The Plan9 share made for a Linux guest: a directory as it is, a file through its parent. */
  function Plan9ShareFor(reqHostPath: string, reqUvmPath: string, readOnly: bool, info: FileInfo): Plan9Share
  {
    if !info.isDir then
      var (hostPath, fileName) := WindowsPath.Split(reqHostPath);
      Plan9Share(hostPath, reqUvmPath, readOnly, true, [fileName])
    else
      Plan9Share(reqHostPath, reqUvmPath, readOnly, false, [])
  }

  /**
   * The net effect of Share as written: the new state and the returned error.
   * `rollbackOnGuestFailure` false is the code as written (the error of the
   * guest request is a separate variable, so the deferred release does not
   * run); true is the code with that error assigned to the block's `err`.
   */
  function ShareEffect(s: HostState, os: GuestOs, host: Host, reqHostPath: string, reqUvmPath: string,
                       readOnly: bool, rollbackOnGuestFailure: bool): (HostState, Option<Error>)
  {
    match os
    case WindowsGuest =>
      var options := VsmbOptions(readOnly);
      var share := VsmbShare(reqHostPath, options);
      (match host.addVsmb(s, reqHostPath, options)
       case Some(e) => (s, Some(e))
       case None =>
         var s1 := s.(vsmb := s.vsmb + multiset{share});
         match host.getVsmbUvmPath(s1, reqHostPath, readOnly)
         case Err(e) => (s1.(vsmb := s1.vsmb - multiset{share}), Some(e))
         case Ok(sharePath) =>
           var req := MapDirectoryRequest(sharePath, reqUvmPath, readOnly);
           match host.guestRequest(s1, req)
           case Some(e) =>
             if rollbackOnGuestFailure then (s1.(vsmb := s1.vsmb - multiset{share}), Some(e))
             else (s1, Some(e))
           case None => (s1.(guestRequests := s1.guestRequests + [req]), None))
    case LinuxGuest =>
      match host.stat(reqHostPath)
      case Err(e) => (s, Some(CouldNotOpen(reqHostPath, e)))
      case Ok(info) =>
        var p := Plan9ShareFor(reqHostPath, reqUvmPath, readOnly, info);
        match host.addPlan9(s, p.hostPath, p.uvmPath, p.readOnly, p.restrictAccess, p.allowedNames)
        case Some(e) => (s, Some(e))
        case None => (s.(plan9 := s.plan9 + multiset{p}), None)
  }

  /** The utility VM, as far as Share reads and changes it. */
  class UtilityVM {
    const os: GuestOs
    const host: Host
    var vsmbShares: multiset<VsmbShare>
    var plan9Shares: multiset<Plan9Share>
    var guestRequests: seq<GuestRequest>

    function State(): HostState
      reads this
    {
      HostState(vsmbShares, plan9Shares, guestRequests)
    }

    constructor (os: GuestOs, host: Host)
      ensures this.os == os && this.host == host
      ensures State() == HostState(multiset{}, multiset{}, [])
    {
      this.os := os;
      this.host := host;
      vsmbShares, plan9Shares, guestRequests := multiset{}, multiset{}, [];
    }

    /** AddVSMB: on success one more reference to the share of `hostPath`. */
    method AddVsmb(hostPath: string, options: VsmbOptions) returns (share: VsmbShare, err: Option<Error>)
      modifies this
      ensures share == VsmbShare(hostPath, options)
      ensures err == host.addVsmb(old(State()), hostPath, options)
      ensures State() == if err.Some? then old(State())
                         else old(State()).(vsmb := old(vsmbShares) + multiset{share})
    {
      share := VsmbShare(hostPath, options);
      err := host.addVsmb(State(), hostPath, options);
      if err.None? {
        vsmbShares := vsmbShares + multiset{share};
      }
    }

    /** The deferred closure of the Windows branch: release the share if the block's `err` is set. */
    method DeferredVsmbRelease(blockErr: Option<Error>, share: VsmbShare)
      modifies this
      ensures State() == if blockErr.Some? then old(State()).(vsmb := old(vsmbShares) - multiset{share})
                         else old(State())
    {
      if blockErr.Some? {
        vsmbShares := vsmbShares - multiset{share};
      }
    }

    /** GetVSMBUvmPath: the guest-side path of the share, or an error and "". */
    method GetVsmbUvmPath(hostPath: string, readOnly: bool) returns (sharePath: string, err: Option<Error>)
      ensures host.getVsmbUvmPath(State(), hostPath, readOnly).Ok? ==>
                err.None? && sharePath == host.getVsmbUvmPath(State(), hostPath, readOnly).value
      ensures host.getVsmbUvmPath(State(), hostPath, readOnly).Err? ==>
                err == Some(host.getVsmbUvmPath(State(), hostPath, readOnly).error) && sharePath == ""
    {
      match host.getVsmbUvmPath(State(), hostPath, readOnly)
      case Ok(p) => sharePath, err := p, None;
      case Err(e) => sharePath, err := "", Some(e);
    }

    /** GuestRequest: on success the guest holds the request. */
    method SendGuestRequest(req: GuestRequest) returns (err: Option<Error>)
      modifies this
      ensures err == host.guestRequest(old(State()), req)
      ensures State() == if err.Some? then old(State())
                         else old(State()).(guestRequests := old(guestRequests) + [req])
    {
      err := host.guestRequest(State(), req);
      if err.None? {
        guestRequests := guestRequests + [req];
      }
    }

    /** os.Stat */
    method Stat(path: string) returns (info: FileInfo, err: Option<Error>)
      ensures host.stat(path).Ok? ==> err.None? && info == host.stat(path).value
      ensures host.stat(path).Err? ==> err == Some(host.stat(path).error)
    {
      match host.stat(path)
      case Ok(i) => info, err := i, None;
      case Err(e) => info, err := FileInfo(false), Some(e);
    }

    /** AddPlan9: on success one more Plan9 share with exactly these parameters. */
    method AddPlan9(hostPath: string, uvmPath: string, readOnly: bool, restrictAccess: bool,
                    allowedNames: seq<string>) returns (share: Plan9Share, err: Option<Error>)
      modifies this
      ensures share == Plan9Share(hostPath, uvmPath, readOnly, restrictAccess, allowedNames)
      ensures err == host.addPlan9(old(State()), hostPath, uvmPath, readOnly, restrictAccess, allowedNames)
      ensures State() == if err.Some? then old(State())
                         else old(State()).(plan9 := old(plan9Shares) + multiset{share})
    {
      share := Plan9Share(hostPath, uvmPath, readOnly, restrictAccess, allowedNames);
      err := host.addPlan9(State(), hostPath, uvmPath, readOnly, restrictAccess, allowedNames);
      if err.None? {
        plan9Shares := plan9Shares + multiset{share};
      }
    }

    /** The deferred closure of the Linux branch: release the share if the block's `err` is set. */
    method DeferredPlan9Release(blockErr: Option<Error>, share: Plan9Share)
      modifies this
      ensures State() == if blockErr.Some? then old(State()).(plan9 := old(plan9Shares) - multiset{share})
                         else old(State())
    {
      if blockErr.Some? {
        plan9Shares := plan9Shares - multiset{share};
      }
    }

    /**
     * Share, as written. Each branch block has its own `err` (declared by
     * `:=`, hiding the named result), and its deferred release tests that
     * block variable when the function returns. In the Windows branch the
     * guest request's error lives in a third variable.
     */
    method Share(reqHostPath: string, reqUvmPath: string, readOnly: bool) returns (err: Option<Error>)
      modifies this
      ensures (State(), err) == ShareEffect(old(State()), os, host, reqHostPath, reqUvmPath, readOnly, false)
    {
      if os == WindowsGuest {
        var options := VsmbOptions(readOnly);
        var vsmbShare, blockErr := AddVsmb(reqHostPath, options);
        if blockErr.Some? {
          return blockErr;
        }
        // defer: DeferredVsmbRelease(blockErr, vsmbShare) when returning
        var sharePath;
        sharePath, blockErr := GetVsmbUvmPath(reqHostPath, readOnly);
        if blockErr.Some? {
          err := blockErr;
          DeferredVsmbRelease(blockErr, vsmbShare);
          return;
        }
        var guestReq := MapDirectoryRequest(sharePath, reqUvmPath, readOnly);
        var requestErr := SendGuestRequest(guestReq);
        if requestErr.Some? {
          err := requestErr;
          DeferredVsmbRelease(blockErr, vsmbShare);
          return;
        }
        DeferredVsmbRelease(blockErr, vsmbShare);
      } else {
        var st, blockErr := Stat(reqHostPath);
        if blockErr.Some? {
          return Some(CouldNotOpen(reqHostPath, blockErr.value));
        }
        var hostPath, restrictAccess, fileName, allowedNames := reqHostPath, false, "", [];
        if !st.isDir {
          hostPath, fileName := WindowsPath.Split(hostPath).0, WindowsPath.Split(hostPath).1;
          allowedNames := allowedNames + [fileName];
          restrictAccess := true;
        }
        assert Plan9Share(hostPath, reqUvmPath, readOnly, restrictAccess, allowedNames) ==
               Plan9ShareFor(reqHostPath, reqUvmPath, readOnly, st);
        var plan9Share;
        plan9Share, blockErr := AddPlan9(hostPath, reqUvmPath, readOnly, restrictAccess, allowedNames);
        if blockErr.Some? {
          return blockErr;
        }
        // defer: DeferredPlan9Release(blockErr, plan9Share) when returning
        DeferredPlan9Release(blockErr, plan9Share);
      }
      return None;
    }

    /**
     * Share with the guest request's error assigned to the Windows block's
     * `err` (`if err = uvm.GuestRequest(...)`), so that the deferred release
     * also runs when the guest refuses the mapping.
     */
    method ShareWithRollback(reqHostPath: string, reqUvmPath: string, readOnly: bool) returns (err: Option<Error>)
      modifies this
      ensures (State(), err) == ShareEffect(old(State()), os, host, reqHostPath, reqUvmPath, readOnly, true)
    {
      if os == WindowsGuest {
        var options := VsmbOptions(readOnly);
        var vsmbShare, blockErr := AddVsmb(reqHostPath, options);
        if blockErr.Some? {
          return blockErr;
        }
        var sharePath;
        sharePath, blockErr := GetVsmbUvmPath(reqHostPath, readOnly);
        if blockErr.Some? {
          err := blockErr;
          DeferredVsmbRelease(blockErr, vsmbShare);
          return;
        }
        var guestReq := MapDirectoryRequest(sharePath, reqUvmPath, readOnly);
        blockErr := SendGuestRequest(guestReq);
        if blockErr.Some? {
          err := blockErr;
          DeferredVsmbRelease(blockErr, vsmbShare);
          return;
        }
        DeferredVsmbRelease(blockErr, vsmbShare);
        err := None;
      } else {
        err := Share(reqHostPath, reqUvmPath, readOnly);
      }
    }
  }

  // ---------------------------------------------------------------------
  // Properties of Share

  /** Hosts that agree on the VSMB and guest request operations. */
  ghost predicate SameWindowsOps(h1: Host, h2: Host)
  {
    h1.addVsmb == h2.addVsmb && h1.getVsmbUvmPath == h2.getVsmbUvmPath && h1.guestRequest == h2.guestRequest
  }

  /** Hosts that agree on os.Stat and AddPlan9. */
  ghost predicate SameLinuxOps(h1: Host, h2: Host)
  {
    h1.stat == h2.stat && h1.addPlan9 == h2.addPlan9
  }

  /**
   * Exactly one mechanism is used: for a Windows guest the outcome does not
   * depend on the Plan9 operations and no Plan9 share changes; for a Linux
   * guest it does not depend on the VSMB operations and neither the VSMB
   * shares nor the guest requests change.
   */
  lemma ShareUsesOneMechanism(s: HostState, os: GuestOs, h1: Host, h2: Host, hp: string, up: string,
                              ro: bool, rollback: bool)
    ensures os == WindowsGuest && SameWindowsOps(h1, h2) ==>
              ShareEffect(s, os, h1, hp, up, ro, rollback) == ShareEffect(s, os, h2, hp, up, ro, rollback)
    ensures os == WindowsGuest ==> ShareEffect(s, os, h1, hp, up, ro, rollback).0.plan9 == s.plan9
    ensures os == LinuxGuest && SameLinuxOps(h1, h2) ==>
              ShareEffect(s, os, h1, hp, up, ro, rollback) == ShareEffect(s, os, h2, hp, up, ro, rollback)
    ensures os == LinuxGuest ==>
              var s' := ShareEffect(s, os, h1, hp, up, ro, rollback).0;
              s'.vsmb == s.vsmb && s'.guestRequests == s.guestRequests
  {
  }

  /** Windows: a failed AddVSMB is returned and nothing is allocated. */
  lemma AddVsmbFailureAllocatesNothing(s: HostState, host: Host, hp: string, up: string, ro: bool, rollback: bool)
    requires host.addVsmb(s, hp, VsmbOptions(ro)).Some?
    ensures ShareEffect(s, WindowsGuest, host, hp, up, ro, rollback) ==
              (s, host.addVsmb(s, hp, VsmbOptions(ro)))
  {
  }

  /** The state after a successful AddVSMB for this request. */
  function WithVsmb(s: HostState, hp: string, ro: bool): HostState
  {
    s.(vsmb := s.vsmb + multiset{VsmbShare(hp, VsmbOptions(ro))})
  }

  /** Windows: a failed GetVSMBUvmPath releases the share just added, leaving the state as it was. */
  lemma GetVsmbUvmPathFailureReleases(s: HostState, host: Host, hp: string, up: string, ro: bool, rollback: bool)
    requires host.addVsmb(s, hp, VsmbOptions(ro)).None?
    requires host.getVsmbUvmPath(WithVsmb(s, hp, ro), hp, ro).Err?
    ensures ShareEffect(s, WindowsGuest, host, hp, up, ro, rollback) ==
              (s, Some(host.getVsmbUvmPath(WithVsmb(s, hp, ro), hp, ro).error))
  {
    var share := VsmbShare(hp, VsmbOptions(ro));
    assert s.vsmb + multiset{share} - multiset{share} == s.vsmb;
  }

  /**
   * Windows: on success the guest has accepted exactly one new request, a
   * MappedDirectory Add of the share's guest path to the requested path with
   * the requested access mode, and one more reference to the share is live.
   */
  lemma WindowsShareSuccess(s: HostState, host: Host, hp: string, up: string, ro: bool, rollback: bool)
    requires ShareEffect(s, WindowsGuest, host, hp, up, ro, rollback).1.None?
    ensures host.addVsmb(s, hp, VsmbOptions(ro)).None?
    ensures host.getVsmbUvmPath(WithVsmb(s, hp, ro), hp, ro).Ok?
    ensures var s' := ShareEffect(s, WindowsGuest, host, hp, up, ro, rollback).0;
            var sharePath := host.getVsmbUvmPath(WithVsmb(s, hp, ro), hp, ro).value;
            && s'.guestRequests == s.guestRequests +
                 [GuestRequest(MappedDirectoryResource, Add, MappedDirectory(sharePath, up, ro))]
            && s'.vsmb == s.vsmb + multiset{VsmbShare(hp, VsmbOptions(ro))}
            && s'.plan9 == s.plan9
  {
  }

  /**
   * As written, a guest request that fails leaves the VSMB share allocated:
   * the error is returned but one more reference to the share stays live.
   */
  lemma GuestRequestFailureLeaksVsmbShare(s: HostState, host: Host, hp: string, up: string, ro: bool)
    requires host.addVsmb(s, hp, VsmbOptions(ro)).None?
    requires host.getVsmbUvmPath(WithVsmb(s, hp, ro), hp, ro).Ok?
    requires var sharePath := host.getVsmbUvmPath(WithVsmb(s, hp, ro), hp, ro).value;
             host.guestRequest(WithVsmb(s, hp, ro), MapDirectoryRequest(sharePath, up, ro)).Some?
    ensures var sharePath := host.getVsmbUvmPath(WithVsmb(s, hp, ro), hp, ro).value;
            ShareEffect(s, WindowsGuest, host, hp, up, ro, false) ==
              (WithVsmb(s, hp, ro), host.guestRequest(WithVsmb(s, hp, ro), MapDirectoryRequest(sharePath, up, ro)))
    ensures WithVsmb(s, hp, ro).vsmb != s.vsmb
  {
    var share := VsmbShare(hp, VsmbOptions(ro));
    assert share in WithVsmb(s, hp, ro).vsmb;
  }

  /** A host whose guest refuses every request, and an input for which Share as written leaks. */
  lemma LeakExample()
    ensures var host := Host((s, p, o) => None, (s, p, r) => Ok("\\\\?\\VMSMB\\VSMB-{0}\\s1"),
                             (s, q) => Some(Error("guest refused")), (s, a, b, c, d, e) => None,
                             p => Ok(FileInfo(true)));
            var empty := HostState(multiset{}, multiset{}, []);
            var (s', err) := ShareEffect(empty, WindowsGuest, host, "C:\\data", "C:\\mnt", true, false);
            err.Some? && VsmbShare("C:\\data", VsmbOptions(true)) in s'.vsmb
  {
  }

  /**
   * With the rollback, an error from Share leaves no share behind: the VSMB
   * and Plan9 shares are those before the call, and the guest holds no new request.
   */
  lemma {:induction false} ShareWithRollbackLeavesNoShareOnError(s: HostState, os: GuestOs, host: Host,
                                                                 hp: string, up: string, ro: bool)
    requires ShareEffect(s, os, host, hp, up, ro, true).1.Some?
    ensures ShareEffect(s, os, host, hp, up, ro, true).0 == s
  {
    var share := VsmbShare(hp, VsmbOptions(ro));
    assert s.vsmb + multiset{share} - multiset{share} == s.vsmb;
  }

  /** The guest request of a Windows share failed after AddVSMB and GetVSMBUvmPath succeeded. */
  predicate GuestRequestFailed(s: HostState, os: GuestOs, host: Host, hp: string, up: string, ro: bool)
  {
    && os == WindowsGuest
    && host.addVsmb(s, hp, VsmbOptions(ro)).None?
    && host.getVsmbUvmPath(WithVsmb(s, hp, ro), hp, ro).Ok?
    && var sharePath := host.getVsmbUvmPath(WithVsmb(s, hp, ro), hp, ro).value;
       host.guestRequest(WithVsmb(s, hp, ro), MapDirectoryRequest(sharePath, up, ro)).Some?
  }

  /**
   * The rollback changes nothing but the outcome of a failed guest request:
   * the error is always the same, the state is the same in every other
   * case, and after a failed guest request it is the state before the call.
   */
  lemma RollbackOnlyChangesGuestFailure(s: HostState, host: Host, os: GuestOs, hp: string, up: string, ro: bool)
    ensures ShareEffect(s, os, host, hp, up, ro, true).1 == ShareEffect(s, os, host, hp, up, ro, false).1
    ensures !GuestRequestFailed(s, os, host, hp, up, ro) ==>
              ShareEffect(s, os, host, hp, up, ro, true) == ShareEffect(s, os, host, hp, up, ro, false)
    ensures GuestRequestFailed(s, os, host, hp, up, ro) ==>
              ShareEffect(s, os, host, hp, up, ro, true).0 == s &&
              ShareEffect(s, os, host, hp, up, ro, false).0 == WithVsmb(s, hp, ro)
  {
    var share := VsmbShare(hp, VsmbOptions(ro));
    assert s.vsmb + multiset{share} - multiset{share} == s.vsmb;
  }

  /** Linux: a failed os.Stat is reported with a message naming the path, and adds no share. */
  lemma StatFailureNamesPath(s: HostState, host: Host, hp: string, up: string, ro: bool, rollback: bool)
    requires host.stat(hp).Err?
    ensures ShareEffect(s, LinuxGuest, host, hp, up, ro, rollback) == (s, Some(CouldNotOpen(hp, host.stat(hp).error)))
    ensures Strings.Contains(Message(CouldNotOpen(hp, host.stat(hp).error)), hp)
  {
    var rest := "' path on host: " + Message(host.stat(hp).error);
    assert Message(CouldNotOpen(hp, host.stat(hp).error)) == "could not open '" + hp + rest;
    Strings.ContainsPart("could not open '", hp, rest);
  }

  /**
   * Linux: a directory is shared as it is, with no restriction; a file is
   * shared through the directory part of its path, with access restricted
   * to its own name, so that directory part and name give back the path.
   */
  lemma Plan9ShareParameters(hp: string, up: string, ro: bool, info: FileInfo)
    ensures var p := Plan9ShareFor(hp, up, ro, info);
            && p.uvmPath == up && p.readOnly == ro
            && (info.isDir ==> p.hostPath == hp && !p.restrictAccess && p.allowedNames == [])
            && (!info.isDir ==> p.restrictAccess && |p.allowedNames| == 1 &&
                                p.hostPath + p.allowedNames[0] == hp &&
                                forall j :: 0 <= j < |p.allowedNames[0]| ==> !WindowsPath.IsSeparator(p.allowedNames[0][j]))
  {
  }

  /** Linux: on success exactly that Plan9 share is added; the deferred release never runs. */
  lemma LinuxShareSuccess(s: HostState, host: Host, hp: string, up: string, ro: bool, rollback: bool)
    requires ShareEffect(s, LinuxGuest, host, hp, up, ro, rollback).1.None?
    ensures host.stat(hp).Ok?
    ensures ShareEffect(s, LinuxGuest, host, hp, up, ro, rollback).0 ==
              s.(plan9 := s.plan9 + multiset{Plan9ShareFor(hp, up, ro, host.stat(hp).value)})
  {
  }
}
