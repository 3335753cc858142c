# hcsshim core, modelled in Dafny

This project models four pieces of hcsshim, the Go library and shims that run containers in Windows and Linux utility VMs (UVMs):

- the Linux guest agent's preparation of a workload container's OCI spec (`workload_container.go`):
  - `sandbox://` mount sources are rewritten under the sandbox's mounts directory, and each rewritten source is created as a directory when missing;
  - the default `/etc/hostname`, `/etc/hosts` and `/etc/resolv.conf` bind mounts are added;
  - a privileged container gets the host's devices and an allow-all device cgroup;
  - the Windows section is cleared;
- the compute agent of a utility VM (`computeagent.go`): its named-pipe address, the classification of its serve error, and the `AddNIC`/`DeleteNIC` handlers;
- the conversion of parent layer paths into `WC_LAYER_DESCRIPTOR`s (`layerutils.go`), with UTF-16 encoding by section 2.1 of RFC 2781;
- `UtilityVM.Share` (`share.go`): a VSMB share plus a guest request for a Windows guest, or a Plan9 share for a Linux guest.

Go operations outside these files are modelled in two ways. Where the source depends on their exact behaviour, they are written out as their own modules:

- `filepath.Join` and `filepath.Clean` on Unix (`UnixPath`);
- `filepath.Split` on Windows (`WindowsPath`);
- `strings.HasPrefix`, `TrimPrefix` and `Contains` (`Strings`).

Everything else enters as a parameter: operations whose outcome the model cannot know (HNS endpoint lookup, `NameToGuid`, the UVM's VSMB, Plan9 and guest-request calls, `os.Stat`, `os.MkdirAll`, `devices.HostDevices`, `isInMounts`, `isRootReadonly`, `setUserStr`).

Stateful code is modelled as classes:

- each class has the fields the source mutates: `Spec`, `GuestFs`, `ComputeAgent.ComputeAgent` and `UvmShare.UtilityVM`;
- each method's ensures gives its whole new state, through a reference function where the code loops or branches (`UpdateFrom`, `MergeFrom`, `AddIfAbsent`, `Placed`, `ShareEffect`);
- the properties are proved as lemmas about those functions.

Line numbers below are per file, relative to each file's own first line.

## Model

| member | source | states |
|---|---|---|
| Strings.HasPrefixIffConcat | internal/runtime/hcsv2/workload_container.go:24 | `strings.HasPrefix` as modelled holds iff the string is the prefix followed by some rest |
| Strings.TrimPrefix | internal/runtime/hcsv2/workload_container.go:26 | With the prefix present, prefix plus result gives the string back; without it, the string is unchanged |
| Strings.ContainsIffOccurs | internal/uvm/computeagent.go:92 | `strings.Contains` as a left-to-right scan holds iff the substring occurs at some position |
| UnixPath.ComponentsOfJoin | internal/runtime/hcsv2/workload_container.go:27 | The components of `a + "/" + b`, which `filepath.Join` cleans, are those of `a` followed by those of `b` |
| UnixPath.Clean | internal/runtime/hcsv2/workload_container.go:27 | `filepath.Clean`: "." for an empty path; otherwise the path's components reduced ("." dropped, ".." removes its parent or is dropped at the root) and joined by single separators, behind "/" when rooted. Its contract: the result is never empty, and a rooted path stays rooted; further properties are stated by `UnixPath.JoinWithoutDotDotStaysUnder` and `WorkloadContainer.ClimbToSibling` |
| UnixPath.Join | internal/runtime/hcsv2/workload_container.go:27 | `filepath.Join` of two elements: the cleaned join from the first non-empty element on. Its contract: the result is "" iff both elements are, and a rooted directory gives a rooted result; further properties are stated by `UnixPath.JoinWithoutDotDotStaysUnder` and `WorkloadContainer.ClimbToSibling` |
| WorkloadContainer.UpdateSandboxMounts | internal/runtime/hcsv2/workload_container.go:21-44 | Loop over mounts that leaves the mounts, the guest's directories and the error exactly as the reference function `UpdateFrom` gives them |
| WorkloadContainer.GuestFs.StatNotExist | internal/runtime/hcsv2/workload_container.go:35-36 | A path is reported missing iff it is not one of the guest's directories |
| WorkloadContainer.GuestFs.MkdirAll | internal/runtime/hcsv2/workload_container.go:37-39 | Returns MkdirAll's error; on success the path is added to the directories, on failure nothing changes |
| WorkloadContainer.UpdateFromEnds | internal/runtime/hcsv2/workload_container.go:23-43 | The loop from index i ends at some k: every mount from i to before k is rewritten, passed the check and is a directory afterwards. Then either all mounts were done with no error, or mount k failed the prefix check and kept its source, or mount k was rewritten, MkdirAll failed on its joined source, and the error is `MkdirFailed` with that path and MkdirAll's own error |
| WorkloadContainer.UpdateKeepsMounts | internal/runtime/hcsv2/workload_container.go:23-33 | Same number and order of mounts; destination, type and options never change; non-sandbox mounts are untouched; a sandbox mount's source is either kept or the joined one |
| WorkloadContainer.UpdateSuccess | internal/runtime/hcsv2/workload_container.go:24-43 | No error iff every sandbox mount's joined source starts with the mounts directory and is a directory afterwards; on success every sandbox mount has the joined source |
| WorkloadContainer.MkdirFailureLeavesDirMissing | internal/runtime/hcsv2/workload_container.go:36-39 | When MkdirAll fails, the path it named is not a directory afterwards |
| WorkloadContainer.UpdateErrorStopsAtMount | internal/runtime/hcsv2/workload_container.go:29-39 | On error there is a sandbox mount k: mounts before k are rewritten and mounts after k untouched. Mount k keeps its source on a prefix error, and already has the joined source on a MkdirAll error |
| WorkloadContainer.ClimbToSibling | internal/runtime/hcsv2/workload_container.go:26-29 | `sandbox://../name` under `/dir` joins to `/name`, and passes the check iff `name` starts with `dir` |
| WorkloadContainer.DotDotEscapeIsRejected | internal/runtime/hcsv2/workload_container.go:27-31 | Under `/m`, `sandbox://../x` joins to `/x` and is rejected |
| WorkloadContainer.SiblingDirectoryPassesCheck | internal/runtime/hcsv2/workload_container.go:27-33 | Under `/m`, `sandbox://../mX` joins to `/mX`; it passes the check although it is not under `/m/` |
| WorkloadContainer.SubPathWithoutDotDotPasses | internal/runtime/hcsv2/workload_container.go:26-29 | For a clean rooted mounts directory, a sub-path with no `..` component always passes the check |
| UnixPath.JoinWithoutDotDotStaysUnder | internal/runtime/hcsv2/workload_container.go:27-29 | Joining a clean rooted directory with a path that has no `..` component gives a path that starts with the directory |
| WorkloadContainer.AddDefaultMount | internal/runtime/hcsv2/workload_container.go:64-104 | Appends the bind mount, with "ro" added iff the root is read-only, exactly when isInMounts reports the destination absent |
| WorkloadContainer.DefaultMountsAppended | internal/runtime/hcsv2/workload_container.go:64-104 | Existing mounts stay in front. At most three mounts follow, in the order hostname, hosts, resolv.conf, each present iff absent at its own check, each of type "bind" with options ["bind"] or ["bind","ro"] |
| WorkloadContainer.FirstWithPath | internal/runtime/hcsv2/workload_container.go:133-138 | Index of the first device with the path: all earlier devices have other paths, and the device at the index has it; the length of the list when there is none |
| WorkloadContainer.PlaceDevice | internal/runtime/hcsv2/workload_container.go:132-145 | Loop that overwrites the first device with the same path, or appends the device when none matches |
| WorkloadContainer.MergeHostDevices | internal/runtime/hcsv2/workload_container.go:119-146 | Loop that leaves the device list exactly as the reference fold `MergeFrom` gives it, with 0:0 devices skipped |
| WorkloadContainer.PlacedKeepsPaths | internal/runtime/hcsv2/workload_container.go:132-145 | Placing a device keeps every path at its index, changes at most one entry or appends one new-path entry, and the device then is the first with its path |
| WorkloadContainer.MergeKeepsDevices | internal/runtime/hcsv2/workload_container.go:119-146 | The merge keeps every existing path at its index; every overwritten or added entry is made from a host device that is not 0:0 |
| WorkloadContainer.MergeCoversHostDevices | internal/runtime/hcsv2/workload_container.go:119-146 | A host device that is not 0:0 and is the last with its path ends up as the first device with that path |
| WorkloadContainer.MergeKeepsFirst | internal/runtime/hcsv2/workload_container.go:133-138 | Host devices with other paths leave the first device with a given path where and as it was |
| WorkloadContainer.MergedDevicesComeFromHost | internal/runtime/hcsv2/workload_container.go:120-131 | Every written entry carries one non-0:0 host device's path, one-character type, major, minor, UID and GID |
| WorkloadContainer.SetupWorkloadContainerSpec | internal/runtime/hcsv2/workload_container.go:46-167 | Hostname error with nothing changed; a wrapped mount-update error; default mounts; for privileged specs the HostDevices error, or merged devices plus the single "rwm" allow rule; the setUserStr error; Windows cleared only on success; annotations and hostname never change |
| ComputeAgent.ComputeAgentAddr | internal/uvm/computeagent.go:21 | The address is the `\\.\pipe\computeagent-` prefix followed by exactly the VM id |
| ComputeAgent.ComputeAgentAddrInjective | internal/uvm/computeagent.go:21 | Distinct VM ids give distinct addresses |
| ComputeAgent.TrapClosedConnErr | internal/uvm/computeagent.go:91-96 | No error iff the input is none or its message contains "use of closed network connection"; otherwise the same error |
| ComputeAgent.TrapClosedConnErrIdempotent | internal/uvm/computeagent.go:91-96 | Applying the classifier twice equals applying it once |
| ComputeAgent.WrappedClosedConnectionIsTrapped | internal/uvm/computeagent.go:92 | An error wrapping the closed-connection error is trapped too, since the match is on the message text |
| ComputeAgent.LookupError | internal/uvm/computeagent.go:41 | The lookup error wraps the cause, and its message contains the endpoint name |
| ComputeAgent.ComputeAgent.AddNic | internal/uvm/computeagent.go:32-47 | A failed lookup returns the wrapped error and makes no UVM call. Otherwise exactly one AddEndpointToNSWithID call is made with the endpoint's namespace id, the requested NIC id and the endpoint, and its error is returned unchanged |
| ComputeAgent.ComputeAgent.DeleteNic | internal/uvm/computeagent.go:50-66 | Same lookup handling; then exactly one RemoveEndpointFromNS call with the namespace id and the endpoint, without the NIC id, and its error is returned unchanged |
| LayerUtils.DecodeEncode | internal/wclayer/layerutils.go:86 | Decoding the UTF-16 encoding of a string gives the string back |
| LayerUtils.EncodeHasZeroIffNul | internal/wclayer/layerutils.go:86 | The encoding holds a zero unit iff the string holds a NUL |
| LayerUtils.Utf16FromString | internal/wclayer/layerutils.go:86-90 | EINVAL iff the string holds a NUL; otherwise a zero-terminated unit sequence with no earlier zero, whose body decodes to the string |
| LayerUtils.Descriptor | internal/wclayer/layerutils.go:79-96 | For one path: error order GUID then path; the descriptor has the GUID of the folder name, flags 0, and a NUL-terminated path that decodes to the input |
| LayerUtils.LayerPathsToDescriptors | internal/wclayer/layerutils.go:72-100 | Ok iff every path converts; then one descriptor per path, in order. On error, the error of the first path that fails |
| WindowsPath.Split | internal/wclayer/layerutils.go:79 | The two parts concatenate to the path; the file part has no separator; the directory part is the volume name or ends with a separator |
| WindowsPath.SplitFileIsLastElement | internal/wclayer/layerutils.go:79 | A directory ending in a separator, followed by a separator-free name, splits back into that directory and name |
| WindowsPath.SplitTrailingSeparator | internal/wclayer/layerutils.go:79 | A path ending in a separator has an empty folder name |
| UvmShare.UtilityVM.DeferredVsmbRelease | test/vendor/github.com/Microsoft/hcsshim/internal/uvm/share.go:23-27 | The deferred closure removes one reference to the VSMB share iff the block's `err` is set, and changes nothing otherwise |
| UvmShare.UtilityVM.DeferredPlan9Release | test/vendor/github.com/Microsoft/hcsshim/internal/uvm/share.go:65-69 | The deferred closure removes one reference to the Plan9 share iff the block's `err` is set, and changes nothing otherwise |
| UvmShare.UtilityVM.Share | test/vendor/github.com/Microsoft/hcsshim/internal/uvm/share.go:16-72 | The method with its block-scoped `err` and deferred releases gives exactly the state and error of `ShareEffect` as written |
| UvmShare.UtilityVM.ShareWithRollback | test/vendor/github.com/Microsoft/hcsshim/internal/uvm/share.go:23-44 | The same with the guest request's error assigned to the block's `err` gives `ShareEffect` with rollback |
| UvmShare.ShareUsesOneMechanism | test/vendor/github.com/Microsoft/hcsshim/internal/uvm/share.go:17-70 | A Windows guest's outcome depends only on the VSMB and guest-request operations and no Plan9 share changes; a Linux guest's depends only on Stat and AddPlan9, and no VSMB share or guest request changes |
| UvmShare.AddVsmbFailureAllocatesNothing | test/vendor/github.com/Microsoft/hcsshim/internal/uvm/share.go:19-22 | A failed AddVSMB is returned with the state unchanged |
| UvmShare.GetVsmbUvmPathFailureReleases | test/vendor/github.com/Microsoft/hcsshim/internal/uvm/share.go:23-32 | A failed GetVSMBUvmPath is returned and the deferred release leaves the shares as before |
| UvmShare.WindowsShareSuccess | test/vendor/github.com/Microsoft/hcsshim/internal/uvm/share.go:18-44 | On success there is one more VSMB reference and exactly one new MappedDirectory Add request, carrying the share path, the UVM path and the access mode |
| UvmShare.GuestRequestFailureLeaksVsmbShare | test/vendor/github.com/Microsoft/hcsshim/internal/uvm/share.go:42-44 | As written, a failed guest request returns the guest request's own error, with the state that of a successful AddVSMB: one more VSMB reference live, Plan9 shares and guest requests unchanged |
| UvmShare.LeakExample | test/vendor/github.com/Microsoft/hcsshim/internal/uvm/share.go:42-44 | A concrete host whose guest refuses requests: Share returns an error and the share is still live |
| UvmShare.ShareWithRollbackLeavesNoShareOnError | test/vendor/github.com/Microsoft/hcsshim/internal/uvm/share.go:23-44 | With the rollback, any error leaves the shares and guest requests exactly as before |
| UvmShare.RollbackOnlyChangesGuestFailure | test/vendor/github.com/Microsoft/hcsshim/internal/uvm/share.go:42-44 | The rollback never changes the returned error. It changes the state only when, on a Windows guest, AddVSMB and GetVSMBUvmPath succeed and the guest request fails: then the state is the one before the call instead of one with the share still added |
| UvmShare.StatFailureNamesPath | test/vendor/github.com/Microsoft/hcsshim/internal/uvm/share.go:46-49 | A failed os.Stat gives the "could not open" error carrying the path and its cause, whose message contains the path, with nothing shared |
| UvmShare.Plan9ShareParameters | test/vendor/github.com/Microsoft/hcsshim/internal/uvm/share.go:50-61 | A directory is shared unrestricted. A file is shared through its directory part, restricted to exactly its separator-free name, and directory part plus name give back the path |
| UvmShare.LinuxShareSuccess | test/vendor/github.com/Microsoft/hcsshim/internal/uvm/share.go:46-71 | On success exactly that Plan9 share is added and never released |

## Left out

- Tracing spans, span status and logging, including the warning about repeated device numbers (workload_container.go:139-141), are not modelled; they do not change the spec.
- getSandboxMountsDir, getSandboxHostnamePath, getSandboxHostsPath and getSandboxResolvPath are not part of this model. Their results for the sandbox id are inputs (`SandboxPaths`).
- isInMounts, isRootReadonly, setUserStr and devices.HostDevices are not part of this model. Their answers are inputs (`Helpers`). The effect of setUserStr on the process user is not modelled; only its error is.
- WorkloadContainer.GuestFs.StatNotExist: a Stat error other than "does not exist" (permission denied, for example) is not modelled; every path is either a directory or missing.
- WorkloadContainer.GuestFs.MkdirAll: the parent directories MkdirAll also creates, the 0755 mode, and partial creation before a failure are not modelled.
- WorkloadContainer.SetupWorkloadContainerSpec: a nil spec.Linux or spec.Linux.Resources is not modelled; the device lists are always present. Error messages are datatype values, not formatted text.
- devices.HostDevices returns pointers to distinct devices, so each written UID/GID is taken to be the device's own.
- setupAndServe (computeagent.go:68-89) is not modelled. It is a named pipe listener, a ttrpc server and a goroutine; only trapClosedConnErr, which it calls, is modelled. Its call site and the fatal log on a serve failure are not.
- ComputeAgent.LookupError: `%q` quoting is modelled as plain double quotes, without Go's escaping of special characters.
- ComputeAgent.ComputeAgent.AddNic: the endpoint's namespace is assumed present. Lines 43 and 62 dereference `endpoint.Namespace.ID` without a check, so a namespace-less endpoint panics in the source. The same holds for ComputeAgent.ComputeAgent.DeleteNic.
- HNS endpoint lookup and the UVM's AddEndpointToNSWithID/RemoveEndpointFromNS are not part of this model. Each is an input; the UVM calls answer as a function of the calls made before.
- NameToGuid is not part of this model; it is an input from folder name to GUID or error.
- LayerUtils.Utf16FromString: strings are sequences of Unicode scalar values, so the replacement of invalid UTF-8 by U+FFFD does not arise.
- WC_LAYER_DESCRIPTOR's `Pathp` pointer is modelled as the unit sequence it points to.
- WindowsPath.Split: UNC volume names (`\\host\share`) are not modelled; only drive letters are.
- UvmShare.UtilityVM.Share: `Release` is an infallible removal of one reference, since its error is ignored. DefaultVSMBOptions is reduced to the read-only flag, and the `ctx` arguments are dropped.
- UvmShare.UtilityVM.Share: the check on `uvm.OS()` is modelled as a two-valued guest OS.

## Findings

| source | as written | input that shows it | evidently intended | confidence | as-written member | corrected member |
|---|---|---|---|---|---|---|
| test/vendor/github.com/Microsoft/hcsshim/internal/uvm/share.go:42-44 | `if err := uvm.GuestRequest(...)` declares a new `err`. The deferred closure at lines 23-27 tests the block's `err`, which is still nil, so the VSMB share is not released when the guest request fails | Windows guest; AddVSMB and GetVSMBUvmPath succeed; GuestRequest returns an error; Share returns that error and the share stays referenced | the share added at line 19 is released whenever Share returns an error after it | not executed | UvmShare.GuestRequestFailureLeaksVsmbShare | UvmShare.ShareWithRollbackLeavesNoShareOnError |
