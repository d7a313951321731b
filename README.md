# kubev, modelled in Dafny

kubev deploys a Kubernetes cluster of Photon OS virtual machines on vSphere
(vCenter or a single ESX host). It can later scale the cluster's workers up or
down. This project models kubev's core and proves properties of it:

- **The join token and the address check** (`token.dfy`). The token is the
  master's address encoded as standard padded base64. `Is_ipv4` is a dot-split
  with Go `strconv.Atoi` semantics.
- **The path and URL builders** (`constants.dfy`). The home directory, GOOS and
  GOARCH are parameters. `path.Join` and `strings.Split` are in `gostrings.dfy`.
- **The lifecycle orchestration against an abstract platform** (`platform.dfy`).
  - The platform holds the vSphere inventory (VM path to power state and
    managed-object reference), the local files, and the trace of every call
    made.
  - Whether a call succeeds, and what it answers, is decided by an oracle that
    sees the calls made before it.
  - The orchestration itself:
    - importing the OVA and creating VMs (`operate_vsphere.dfy`);
    - first contact with a guest (`operate_vm.dfy`);
    - SSH copies (`ssh_runner.dfy`);
    - preparing and joining a worker (`deploy_worker.dfy`);
    - deploying a whole cluster (`deploy_nodes.dfy`);
    - the `kubev scale` loops (`scale.dfy`).

Objects the Go code mutates in place are Dafny classes:

- `K8sNode` and `K8sNodes` (`model.dfy`);
- the `World`, whose `now` state each call advances;
- `SshRunner`.

Each imperative operation is a method proved against a specification function
of the world state it starts from. The properties the code promises are lemmas
about those functions.

## Model

| member | source | states |
|---|---|---|
| Token.FromToBytes | pkg/kubev/utils/utils.go:164-176 | `string([]byte(s)) == s` for every string of byte-sized characters |
| Token.EncodeSextet | pkg/kubev/utils/utils.go:167 | a six-bit value is written as a character of the standard base64 alphabet |
| Token.DecodeSextet | pkg/kubev/utils/utils.go:171 | an alphabet character is read back as the sextet that encodes to it |
| Token.SextetRoundTrip | pkg/kubev/utils/utils.go:164-176 | decoding the character of a sextet gives the sextet back |
| Token.BytesOfSextets | pkg/kubev/utils/utils.go:164-176 | regrouping the four sextets of three bytes gives the three bytes back |
| Token.EncodeGroup | pkg/kubev/utils/utils.go:167 | three bytes encode to exactly four alphabet characters |
| Token.GroupRoundTrip | pkg/kubev/utils/utils.go:164-176 | a full quantum decodes to the three bytes it encodes |
| Token.StripNewlines | pkg/kubev/utils/utils.go:171 | the decoder's view of its input holds no carriage return or line feed |
| Token.NoNewlinesStripped | pkg/kubev/utils/utils.go:171 | input without line breaks is decoded as it is |
| Token.EncodeLength | pkg/kubev/utils/utils.go:164-168 | the encoding of n bytes is 4·⌈n/3⌉ characters long |
| Token.EncodeWellFormed | pkg/kubev/utils/utils.go:164-168 | every encoding is well-formed padded base64: whole quanta, alphabet characters, at most two trailing `=` |
| Token.WellFormedAlphabet | pkg/kubev/utils/utils.go:164-168 | well-formed text uses only the alphabet and `=` |
| Token.DecodeEncode | pkg/kubev/utils/utils.go:164-176 | decoding the encoding of any bytes gives those bytes back |
| Token.FinalAcceptsWellFormed | pkg/kubev/utils/utils.go:171-174 | a last quantum decodes exactly when it is well-formed on its own |
| Token.DecodeAcceptsWellFormed | pkg/kubev/utils/utils.go:171-174 | decoding succeeds if and only if the text is well-formed base64 |
| Token.DecodeToken | pkg/kubev/utils/utils.go:170-176 | the error is returned exactly for input that is not well-formed base64 once line breaks are skipped; with it the address is `""` and the message is "Invalide token" |
| Token.TokenRoundTrip | pkg/kubev/utils/utils.go:164-176 | `DecodeToken(EncodeToken(ip)) == (ip, nil)` for every address |
| Token.TokenShape | pkg/kubev/utils/utils.go:164-168 | a token is 4·⌈len(ip)/3⌉ characters of the alphabet and `=` |
| Token.EncodeToken | pkg/kubev/utils/utils.go:164-168 | the token is well-formed padded base64, four characters per started group of three bytes |
| Token.Atoi | pkg/kubev/utils/utils.go:186 | a parsed value lies in the 64-bit range; out-of-range input is an error |
| Token.AtoiItoa | pkg/kubev/utils/utils.go:186 | the decimal rendering of any number in the 64-bit range parses back to it |
| Token.AllOctetsEach | pkg/kubev/utils/utils.go:184-195 | the loop with early `return false` accepts exactly when every group parses to a value in 0..255 |
| Token.IsIpv4Exactly | pkg/kubev/utils/utils.go:178-196 | `Is_ipv4` holds if and only if there are at least four dot-separated groups and each parses to a value in 0..255 |
| Token.IsIpv4 | pkg/kubev/utils/utils.go:178-196 | the check itself: at least four dot-separated groups, each an octet (what that means is `IsIpv4Exactly`) |
| Token.OctetsAccepted | pkg/kubev/utils/utils.go:178-196 | any four or more dot-free octets joined by dots are accepted |
| Token.QuadAccepted | pkg/kubev/utils/utils.go:178-196 | four dot-free octets `a.b.c.d` are accepted |
| Token.DottedQuadAccepted | pkg/kubev/utils/utils.go:178-196 | every dotted quad of decimal numbers 0..255 is accepted |
| Token.SignedGroupsAccepted | pkg/kubev/utils/utils.go:185-190 | Atoi's signs are let through: "+1.-0.2.3" is accepted |
| Token.ExtraGroupsAccepted | pkg/kubev/utils/utils.go:181-195 | only a lower bound is placed on the number of groups: "1.2.3.4.5" is accepted |
| GoStrings.Itoa | pkg/kubev/deployer/deploy_nodes.go:41 | `%d` of a natural number is a non-empty digit string whose decimal value is the number |
| GoStrings.ItoaInjective | pkg/kubev/deployer/deploy_nodes.go:41 | different numbers print differently |
| GoStrings.Split | pkg/kubev/utils/utils.go:179 | `strings.Split` gives at least one part, and no part holds the separator |
| GoStrings.SplitCount | pkg/kubev/utils/utils.go:179 | there is one part more than there are separators |
| GoStrings.JoinSplit | pkg/kubev/utils/utils.go:179 | joining the parts with the separator gives the string back |
| GoStrings.SplitJoin | pkg/kubev/utils/utils.go:179 | splitting separator-free pieces joined by the separator gives the pieces back |
| GoStrings.JoinFourSegments | pkg/kubev/constants/constants.go:120-122 | `path.Join` of a clean directory and three clean segments is their `/`-concatenation |
| GoStrings.JoinSegment | pkg/kubev/constants/constants.go:124-126 | `path.Join` of a clean directory and one segment is `dir + "/" + name` |
| GoStrings.DirBase | pkg/kubev/deployer/deploy_worker.go:36-37 | the directory and base name of a joined target path are its two halves |
| Constants.HomeFolderShape | pkg/kubev/constants/constants.go:112-114 | kubev's folder is `<home>/.kubev` |
| Constants.K8sNodesConfigFilePath | pkg/kubev/constants/constants.go:116-118 | `config.json` in kubev's folder (its shape is `ConfigFileShape`) |
| Constants.LocalK8sKitPath | pkg/kubev/constants/constants.go:120-122 | `cache/<name>/<version>` in kubev's folder (its shape is `KitPathShape`) |
| Constants.VMPrivateKeyPath | pkg/kubev/constants/constants.go:124-126 | `id_rsa` in kubev's folder (its shape is `KeyPaths`) |
| Constants.K8sKitReleaseURL | pkg/kubev/constants/constants.go:139-159 | the download URL, branch by branch in the source's order (stated by `KubectlURL`, `FixedURLs`, `MirrorlessURL`, `MirrorURL`) |
| Constants.KubernetesReleaseURL | pkg/kubev/constants/constants.go:161-163 | the Aliyun mirror URL for a Linux binary (stated by `MirrorURL`) |
| Constants.KeyPaths | pkg/kubev/constants/constants.go:124-130 | the private key is `<home>/.kubev/id_rsa`, the public key the same path plus `.pub` |
| Constants.ConfigFileShape | pkg/kubev/constants/constants.go:116-118 | the inventory file is `<home>/.kubev/config.json` |
| Constants.KitPathShape | pkg/kubev/constants/constants.go:120-122 | a cached kit lives in `<home>/.kubev/cache/<name>/<version>` |
| Constants.KitFileBesideKit | pkg/kubev/constants/constants.go:132-137 | for any name but docker the kit file is the kit path joined with the name |
| Constants.DockerFileShape | pkg/kubev/constants/constants.go:132-135 | for docker the kit file is one `docker` level deeper |
| Constants.DockerFileEnding | pkg/kubev/constants/constants.go:132-135 | the docker kit file ends in `docker/<version>/docker/docker` |
| Constants.KubectlURL | pkg/kubev/constants/constants.go:139-141 | kubectl always comes from googleapis with the given version and GOOS, before any other branch |
| Constants.FixedURLs | pkg/kubev/constants/constants.go:142-150 | the OVA, crictl, CNI and docker URLs are fixed and independent of the version |
| Constants.MirrorlessURL | pkg/kubev/constants/constants.go:151-157 | for v1.13.0 other names come from googleapis linux/GOARCH, with kubectl.guest renamed kubectl |
| Constants.MirrorURL | pkg/kubev/constants/constants.go:158-163 | every other name and version falls through to the Aliyun mirror with the name unchanged |
| Platform.Step | pkg/kubev/deployer/operate_vsphere.go:440-455 | every call is recorded; a refused call changes neither the VMs nor the files |
| Platform.Run | pkg/kubev/deployer/ssh_runner.go:80-84 | calls made in order until one fails: on success exactly the calls were made, on failure the last call made is the refused one and is the error |
| Platform.RunAppend | pkg/kubev/deployer/deploy_worker.go:76-108 | two scripts in a row behave as the first followed, only if it succeeded, by the second |
| Platform.NotReached | pkg/kubev/deployer/deploy_worker.go:76-81 | a call after a failing prefix is never made |
| Platform.World.Call | pkg/kubev/deployer/operate_vsphere.go:440-443 | one call whose refusal is the returned error |
| Platform.World.Ask | pkg/kubev/deployer/operate_vsphere.go:342-345 | one call and its answer, or `""` when it failed |
| Platform.RunCons | pkg/kubev/deployer/ssh_runner.go:80-84 | a script runs its first call, and the rest only if that call succeeded |
| Platform.SucceededTrace | pkg/kubev/deployer/ssh_runner.go:80-112 | a script that succeeded made exactly its calls |
| Platform.ThenInert | pkg/kubev/deployer/deploy_nodes.go:96-118 | a call that touches no VM, made after earlier steps, leaves the VMs as they were, only extends the history and adds no new kind of error |
| Platform.World.Issue | pkg/kubev/deployer/operate_vsphere.go:440-443 | one call is recorded, and whether it succeeded is returned |
| Platform.World.constructor | pkg/kubev/deployer/deploy_nodes.go:26 | a world starts from the given state and oracle |
| Model.K8sNode.constructor | pkg/kubev/deployer/deploy_nodes.go:39-43 | a new node has its name and role, is not ready, and every other field is empty |
| Model.K8sNode.Place | pkg/kubev/deployer/operate_vsphere.go:347-351 | the five fields `CreateVM` fills in change and nothing else |
| Model.K8sNodes.SetWorkers | cmd/scale.go:118 | the worker list is replaced, master and join command kept |
| Model.K8sNodes.constructor | pkg/kubev/deployer/deploy_nodes.go:51-58 | a new cluster holds the given master and workers and no join command |
| Model.RecordsAppend | cmd/scale.go:101-113 | the records of two lists joined are the two record lists joined |
| Model.RecordsPrefix | cmd/scale.go:77 | the records of a list's prefix are the prefix of its records |
| OperateVsphere.FolderShape | pkg/kubev/deployer/operate_vsphere.go:492-494 | `getVMFolder` is `/<datacenter>/vm/<folder>` |
| OperateVsphere.VMFolder | pkg/kubev/deployer/operate_vsphere.go:492-494 | `getVMFolder` (its shape is `FolderShape`) |
| OperateVsphere.TemplateVMPath | pkg/kubev/deployer/operate_vsphere.go:484-490 | `getTemplateVMPath` (its shape is `TemplatePathShape`, `EsxTemplateIsNode`) |
| OperateVsphere.TemplatePathShape | pkg/kubev/deployer/operate_vsphere.go:484-490 | the template is `<folder>/kube-template` on vCenter and `<folder>/<VMName>` on ESX |
| OperateVsphere.EsxTemplateIsNode | pkg/kubev/deployer/operate_vsphere.go:484-490 | on ESX the template path is the node's own VM path |
| OperateVsphere.CleanupOnlyTemplate | pkg/kubev/deployer/operate_vsphere.go:397-426 | the template clean-up touches no VM but the template |
| OperateVsphere.CleanupRemovesRunningTemplate | pkg/kubev/deployer/operate_vsphere.go:398-419 | on vCenter a template not powered off is gone after a clean-up without error |
| OperateVsphere.TemplateCleanup | pkg/kubev/deployer/operate_vsphere.go:397-426 | the trace only grows; the only errors are a refused power-off or destroy of the template on vCenter, so a missing template or a failed power query is no error |
| OperateVsphere.DeployOvaOutcome | pkg/kubev/deployer/operate_vsphere.go:39-178 | the trace only grows; every error is a refused call or the missing cached OVA (the VM lookups by path are reads of the inventory, see "## Left out") |
| OperateVsphere.DeployOvaInstalls | pkg/kubev/deployer/operate_vsphere.go:39-178 | a `DeployOVA` without error leaves a VM at the target path |
| OperateVsphere.DeployOvaKeepsExisting | pkg/kubev/deployer/operate_vsphere.go:65-68 | on ESX an existing target VM is returned after the session, datacenter and datastore lookups, and no VM changes; the VM itself is read from the inventory, so the source's lookup of it is no call here |
| OperateVsphere.DeployOva | pkg/kubev/deployer/operate_vsphere.go:39-178 | the calls and result of `DeployOVA` are those of its specification |
| OperateVsphere.DeleteTemplateVmIfPoweredOn | pkg/kubev/deployer/operate_vsphere.go:397-426 | the calls and result of the template clean-up are those of its specification |
| OperateVsphere.Locate | pkg/kubev/deployer/operate_vsphere.go:198-299 | when the lookup or clone succeeds the VM it names exists |
| OperateVsphere.PowerCycleOrder | pkg/kubev/deployer/operate_vsphere.go:301-345 | power state query, power-off only if not already off, reconfigure, power-on, wait for IP, in that order; the VM ends powered on |
| OperateVsphere.PowerCycle | pkg/kubev/deployer/operate_vsphere.go:301-345 | the trace only grows; on error there is no IP and the error is a refused call; on success the wait for the IP was the last call |
| OperateVsphere.FoundDatacenter | pkg/kubev/deployer/operate_vsphere.go:203-206 | the datacenter name recorded on a node is the finder's answer to the session's datacenter lookup (used by `CreatedNodeRunning`) |
| OperateVsphere.FoundDatastore | pkg/kubev/deployer/operate_vsphere.go:208-212 | the datastore name recorded on a node is the finder's answer to the session's datastore lookup (used by `CreatedNodeRunning`) |
| OperateVsphere.CreateVmOutcome | pkg/kubev/deployer/operate_vsphere.go:180-353 | on any error the node record is unchanged; the record always keeps the node's name, role and readiness |
| OperateVsphere.CreatedNodeRunning | pkg/kubev/deployer/operate_vsphere.go:301-353 | after success the node records a running VM and its reference, the datacenter and datastore names the finder answered, and keeps name, role and readiness |
| OperateVsphere.WorkerOnVCenterNoImport | pkg/kubev/deployer/operate_vsphere.go:181-193 | a vCenter worker never triggers an OVA import: the trace only grows, and no call after the start imports one |
| OperateVsphere.EsxNodeIsImported | pkg/kubev/deployer/operate_vsphere.go:181-186 | on ESX the node's VM is the one `DeployOVA` just imported |
| OperateVsphere.ImportsOva | pkg/kubev/deployer/operate_vsphere.go:181-193 | the nodes `CreateVM` imports the OVA for: every node on ESX, the master on vCenter (stated by `ImportingNodeDeploysOva`, `WorkerOnVCenterNoImport`) |
| OperateVsphere.ImportingNodeDeploysOva | pkg/kubev/deployer/operate_vsphere.go:180-193 | for a node that imports, `CreateVM` starts with `DeployOVA` to the template path; a failed import is its result, and a successful one leaves a VM at the template path |
| OperateVsphere.SessionKeepsVms | pkg/kubev/deployer/operate_vsphere.go:198-229 | the session and lookups change no VM |
| OperateVsphere.CreateVm | pkg/kubev/deployer/operate_vsphere.go:180-354 | the calls, result and new node record of `CreateVM` are those of its specification |
| OperateVsphere.StartVm | pkg/kubev/deployer/operate_vsphere.go:301-345 | the power cycle and the IP it returns are those of its specification |
| OperateVsphere.LocateVm | pkg/kubev/deployer/operate_vsphere.go:195-299 | the lookup or clone and the path it returns are those of its specification, with the finder's datacenter and datastore names |
| OperateVsphere.OpenNodeSession | pkg/kubev/deployer/operate_vsphere.go:198-229 | the client and the finder lookups are those of their specification; on success it returns the datacenter and datastore names the finder answered |
| OperateVsphere.SessionNoImport | pkg/kubev/deployer/operate_vsphere.go:198-229 | the session and its lookups import no OVA |
| OperateVsphere.LocateNoImport | pkg/kubev/deployer/operate_vsphere.go:230-299 | finding or cloning the VM imports no OVA |
| OperateVsphere.PowerCycleNoImport | pkg/kubev/deployer/operate_vsphere.go:301-345 | the power cycle imports no OVA |
| OperateVsphere.DeleteNodesKeepGone | pkg/kubev/deployer/operate_vsphere.go:370-377 | deleting the workers brings back no VM that was gone |
| OperateVsphere.ParseMoExact | pkg/kubev/deployer/operate_vsphere.go:429-432 | a reference parses if and only if it holds exactly one `:`, and then it is `type:value` |
| OperateVsphere.ParseMo | pkg/kubev/deployer/operate_vsphere.go:429-432 | the split of a reference on `:` (stated by `ParseMoExact`, `ParseMoRoundTrip`) |
| OperateVsphere.ParseMoRoundTrip | pkg/kubev/deployer/operate_vsphere.go:429-437 | `type:value` parses back to its two parts |
| OperateVsphere.BadReferenceNoCall | pkg/kubev/deployer/operate_vsphere.go:429-432 | a malformed reference is an error and no call is made |
| OperateVsphere.DeleteOutcome | pkg/kubev/deployer/operate_vsphere.go:428-458 | the trace only grows; the error is a bad reference exactly when the reference does not parse, and otherwise any error is a refused call |
| OperateVsphere.DeleteNodes | pkg/kubev/deployer/operate_vsphere.go:370-377 | the trace only grows; every error is a refused call or a bad reference |
| OperateVsphere.DestroyOutcome | pkg/kubev/deployer/operate_vsphere.go:356-378 | the first call is the session; every error is a refused call or a bad reference |
| OperateVsphere.DeleteRemoves | pkg/kubev/deployer/operate_vsphere.go:428-458 | a `delete` without error leaves no VM with that reference |
| OperateVsphere.DeleteKeepsGone | pkg/kubev/deployer/operate_vsphere.go:428-458 | a `delete` brings back no VM that was gone |
| OperateVsphere.DeleteNodesSucceeded | pkg/kubev/deployer/operate_vsphere.go:370-377 | when the worker loop returns nil every worker had a valid reference and is gone |
| OperateVsphere.DestroySucceeded | pkg/kubev/deployer/operate_vsphere.go:356-378 | `Destory` returns nil only when the master and every worker were deleted |
| OperateVsphere.SingleIsCluster | pkg/kubev/deployer/operate_vsphere.go:380-395 | `DestorySingle` of a node is `Destory` of a cluster with that node as master and no workers |
| OperateVsphere.Delete | pkg/kubev/deployer/operate_vsphere.go:428-458 | the calls and result of `delete` are those of its specification |
| OperateVsphere.Destory | pkg/kubev/deployer/operate_vsphere.go:356-378 | master first, then workers in list order, stopping at the first failure |
| OperateVsphere.DestorySingle | pkg/kubev/deployer/operate_vsphere.go:380-395 | the calls and result of `DestorySingle` are those of its specification |
| OperateVsphere.FoundMasterNamed | pkg/kubev/deployer/operate_vsphere.go:496-558 | a found master is named "kubev-vc-master" on vCenter, else "kubev-esx-master"; the only error then is that it is not powered on, and without error its IP is the answer of the final IP wait |
| OperateVsphere.NoMasterNoError | pkg/kubev/deployer/operate_vsphere.go:517-531 | when no VM has the master's name the result is (nil, nil) |
| OperateVsphere.FindMasterOutcome | pkg/kubev/deployer/operate_vsphere.go:496-558 | the trace only grows; every error is a refused call or the master not being powered on |
| OperateVsphere.MasterPowerCheck | pkg/kubev/deployer/operate_vsphere.go:537-557 | once a match is found and its power queried: it is returned by name with the not-powered-on error exactly when it is not powered on; otherwise the IP wait is the last call, and a master is returned exactly when that wait succeeded |
| OperateVsphere.FindMasterNode | pkg/kubev/deployer/operate_vsphere.go:496-558 | the calls and result of `FindMasterNode` are those of its specification |
| SshRunners.ScpRoundTrip | pkg/kubev/deployer/ssh_runner.go:102-105 | the stream `C<perm> <len> <name>\n`, content, NUL is read back to mode, name and content |
| SshRunners.ScpLength | pkg/kubev/deployer/ssh_runner.go:102-105 | the header announces exactly the content's length, followed by one NUL byte |
| SshRunners.ScpStream | pkg/kubev/deployer/ssh_runner.go:102-105 | the header, content and NUL byte written to the scp sink (read back by `ScpRoundTrip`) |
| SshRunners.ParseScp | pkg/kubev/deployer/ssh_runner.go:102-105 | the receiving side of the framing, an independent reference for `ScpRoundTrip` |
| SshRunners.CopyScript | pkg/kubev/deployer/ssh_runner.go:78-112 | the three calls of `Copy` (their order and stopping is `CopyOrder`) |
| SshRunners.CopyOrder | pkg/kubev/deployer/ssh_runner.go:78-112 | `rm -f <dir>/<name>`, then `mkdir -p <dir>`, then `scp -t <dir>` fed the stream |
| SshRunners.NoScpAfterFailure | pkg/kubev/deployer/ssh_runner.go:80-84 | if either preparatory command fails no scp session is started |
| SshRunners.RemoveIsNotForced | pkg/kubev/deployer/ssh_runner.go:118-120 | `Remove` runs `rm <dir>/<name>` without `-f`, not `Copy`'s removal |
| SshRunners.DeleteFileCommand | pkg/kubev/deployer/ssh_runner.go:118-120 | `rm` without `-f` (stated by `RemoveIsNotForced`) |
| SshRunners.SshRunner.Run | pkg/kubev/deployer/ssh_runner.go:40-47 | one command, whose failure is the error |
| SshRunners.SshRunner.CombinedOutput | pkg/kubev/deployer/ssh_runner.go:62-74 | `""` and the error on failure, the command's full output otherwise |
| SshRunners.SshRunner.Remove | pkg/kubev/deployer/ssh_runner.go:29-37 | the delete command runs, and its failure is the error |
| SshRunners.SshRunner.Copy | pkg/kubev/deployer/ssh_runner.go:77-116 | the calls and result of `Copy` are those of its script |
| SshRunners.SshRunner.constructor | pkg/kubev/deployer/ssh_runner.go:24-26 | a runner for the given address |
| OperateVm.Converse | pkg/kubev/deployer/operate_vm.go:63-92 | a dialogue only awaits prompts and sends lines |
| OperateVm.Transcript | pkg/kubev/deployer/operate_vm.go:63-92 | a dialogue of n prompts and replies is 2n calls |
| OperateVm.ConverseTrace | pkg/kubev/deployer/operate_vm.go:63-92 | the exchange is a prefix of the transcript: all of it on success; otherwise up to the prompt that did not come, whose absence is the error |
| OperateVm.PasswordTranscript | pkg/kubev/deployer/operate_vm.go:64-92 | host-key prompt→"yes", four "assword:" prompts→"changeme", "changeme", "kubernetes", "kubernetes", then "#"→"exit" |
| OperateVm.PasswordChange | pkg/kubev/deployer/operate_vm.go:49-96 | the rotation makes at least one call and never logs in with a password |
| OperateVm.KeyInstall | pkg/kubev/deployer/operate_vm.go:98-115 | the key install only adds calls to the history |
| OperateVm.ConfigVmOutcome | pkg/kubev/deployer/operate_vm.go:19-39 | configuring a guest makes at least one call, the probe |
| OperateVm.PurgeFirst | pkg/kubev/deployer/operate_vm.go:51-53 | the rotation first purges known_hosts for the IP, and a purge error aborts |
| OperateVm.KeyCommandShape | pkg/kubev/deployer/operate_vm.go:109 | pins the literal text of the key install: `echo '<key>' > /root/.ssh/authorized_keys` |
| OperateVm.AuthorizeKeyCommand | pkg/kubev/deployer/operate_vm.go:109 | the command that makes the key root's only authorized key (its text is `KeyCommandShape`) |
| OperateVm.SkipWhenRotated | pkg/kubev/deployer/operate_vm.go:21-24 | when the probe logs in, neither rotation nor key install happens |
| OperateVm.NoKeyAfterFailedRotation | pkg/kubev/deployer/operate_vm.go:26-29 | a failed rotation returns its error before any key install |
| OperateVm.NeedConfigPhoton | pkg/kubev/deployer/operate_vm.go:41-47 | true if and only if `echo` as root with password "kubernetes" fails |
| OperateVm.Probe | pkg/kubev/deployer/operate_vm.go:41-47 | the `echo` as root with the rotated password (its use is `SkipWhenRotated`) |
| OperateVm.ChangePhotonDefaultPassword | pkg/kubev/deployer/operate_vm.go:49-96 | the calls and result of the rotation are those of its specification |
| OperateVm.Answer | pkg/kubev/deployer/operate_vm.go:78-91 | one expect and reply: on failure the dialogue stops with this error, otherwise the rest of the dialogue follows |
| OperateVm.ConfigSshInVm | pkg/kubev/deployer/operate_vm.go:98-115 | the key install reads the public key, then runs the command as root with password "kubernetes" |
| OperateVm.ConfigVm | pkg/kubev/deployer/operate_vm.go:19-39 | probe, then rotation, then key install, each failure returned |
| DeployWorker.BinaryPlans | pkg/kubev/deployer/deploy_worker.go:41-47 | one asset per binary, in order |
| DeployWorker.CniPlans | pkg/kubev/deployer/deploy_worker.go:58-66 | one asset per plugin, in order |
| DeployWorker.Load | pkg/kubev/deployer/deploy_worker.go:42 | an opened asset keeps its target directory, name and mode |
| DeployWorker.Gather | pkg/kubev/deployer/deploy_worker.go:35-66 | when every file opens there is one asset per planned file |
| DeployWorker.GatherOpened | pkg/kubev/deployer/deploy_worker.go:41-66 | the assets open exactly when every file is present, each loaded from its own plan |
| DeployWorker.GatherMissing | pkg/kubev/deployer/deploy_worker.go:41-66 | a failure names the first file that is missing |
| DeployWorker.GatherNext | pkg/kubev/deployer/deploy_worker.go:41-66 | one more file: its asset is appended, or the first missing path is kept, or this file's path becomes the error |
| DeployWorker.GatherStops | pkg/kubev/deployer/deploy_worker.go:41-66 | once a file is missing the later files do not change the result |
| DeployWorker.PlanSize | pkg/kubev/deployer/deploy_worker.go:35-66 | pins the plan's literal length: 19 assets |
| DeployWorker.NodePlan | pkg/kubev/deployer/deploy_worker.go:35-66 | every file a node receives, in copy order (stated by `PlanSize`, `PlanUnits`, `PlanHead`, `PlanBinaries`, `PlanKubectl`, `PlanCni`) |
| DeployWorker.UnitSplit | pkg/kubev/deployer/deploy_worker.go:35-39 | the unit files go to the kubelet service and drop-in paths, split into directory and name, mode "0640" |
| DeployWorker.ServiceTarget | pkg/kubev/deployer/deploy_worker.go:35-36 | the kubelet unit goes to /etc/systemd/system as kubelet.service |
| DeployWorker.DropInTarget | pkg/kubev/deployer/deploy_worker.go:37-38 | the drop-in goes to /etc/systemd/system/kubelet.service.d as 10-kubeadm.conf |
| DeployWorker.PlanUnits | pkg/kubev/deployer/deploy_worker.go:35-39 | pins the literal head of the plan: the kubelet unit first, the drop-in second |
| DeployWorker.PlanHead | pkg/kubev/deployer/deploy_worker.go:35-54 | pins the literal positions: the two unit files open the list, and kubectl.guest is the sixth entry |
| DeployWorker.PlanBinaries | pkg/kubev/deployer/deploy_worker.go:41-47 | then kubeadm, kubelet, crictl to /usr/bin with "0750" |
| DeployWorker.PlanKubectl | pkg/kubev/deployer/deploy_worker.go:50-54 | then kubectl.guest installed as kubectl in /usr/bin with "0750" |
| DeployWorker.PlanCni | pkg/kubev/deployer/deploy_worker.go:58-66 | then the 13 CNI plugins in order to /opt/cni/bin/ with "0750" |
| DeployWorker.PlanBinaryAt | pkg/kubev/deployer/deploy_worker.go:41-47 | the j-th binary is the (j+3)-th asset |
| DeployWorker.PlanCniAt | pkg/kubev/deployer/deploy_worker.go:58-66 | the j-th CNI plugin is the (j+7)-th asset |
| DeployWorker.CopyAllAppend | pkg/kubev/deployer/deploy_worker.go:76-81 | copying two lists is copying the first, then the second |
| DeployWorker.CopyAllSplit | pkg/kubev/deployer/deploy_worker.go:76-81 | copying a list is copying a prefix, then the rest |
| DeployWorker.CopyAll | pkg/kubev/deployer/deploy_worker.go:76-81 | the copies of all files, one after the other (stated by `CopyAllAppend`, `CopyAllSplit`, `CopyFailureStops`) |
| DeployWorker.ConfigureCommands | pkg/kubev/deployer/deploy_worker.go:83-109 | the firewall policy, the host name and the services, in that order (their place in the trace is `PrepareTrace`) |
| DeployWorker.MissingBeforeAnyCall | pkg/kubev/deployer/deploy_worker.go:41-71 | a missing cache file is returned before the guest is dialled, and no call is made |
| DeployWorker.PrepareTrace | pkg/kubev/deployer/deploy_worker.go:68-109 | a successful preparation dials, copies every asset in order, then runs iptables, `hostname <VMName>` and the systemctl block, and nothing else |
| DeployWorker.CopyFailureStops | pkg/kubev/deployer/deploy_worker.go:76-81 | a failed copy returns before any remote configuration command |
| DeployWorker.UpdateOutcome | pkg/kubev/deployer/deploy_worker.go:112-135 | a successful update ends with the join command, run verbatim |
| DeployWorker.Dialled | pkg/kubev/deployer/deploy_worker.go:137-165 | dialling only adds calls to the history |
| DeployWorker.PrepareOutcome | pkg/kubev/deployer/deploy_worker.go:30-110 | preparing a guest only adds calls to the history |
| DeployWorker.ResetIgnored | pkg/kubev/deployer/deploy_worker.go:122-131 | the `kubeadm reset -f` result is ignored: the outcome is the join command's |
| DeployWorker.GetSshRunner | pkg/kubev/deployer/deploy_worker.go:137-165 | the private key must be on disk, then the guest is dialled; the runner is for that address |
| DeployWorker.NodeAssets | pkg/kubev/deployer/deploy_worker.go:35-66 | the assets built with appends in three loops are exactly the plan's, or the first missing file |
| DeployWorker.PrepareVm | pkg/kubev/deployer/deploy_worker.go:30-110 | the calls and result of `PrepareVM` are those of its specification |
| DeployWorker.CopyFiles | pkg/kubev/deployer/deploy_worker.go:76-81 | copies in list order, stopping at the first failure |
| DeployWorker.UpdateWorkerNode | pkg/kubev/deployer/deploy_worker.go:112-135 | the calls and result of `UpdateWorkerNode` are those of its specification |
| DeployNodes.Redacted | pkg/kubev/deployer/deploy_nodes.go:151-166 | username and password become "github.com/jeffwubj/kubev"; every other field is copied unchanged |
| DeployNodes.WorkerSpecs | pkg/kubev/deployer/deploy_nodes.go:31-44 | exactly `WorkerNodes` specs (none below one) named `<prefix>-1`…`<prefix>-N`, not master, not ready |
| DeployNodes.WorkerNamesDistinct | pkg/kubev/deployer/deploy_nodes.go:33-41 | two worker names are equal if and only if their indices are |
| DeployNodes.WorkerIsNotMaster | pkg/kubev/deployer/deploy_nodes.go:33-48 | no worker is named like the master |
| DeployNodes.PlannedNamesDistinct | pkg/kubev/deployer/deploy_nodes.go:38-44 | the planned workers have pairwise distinct names |
| DeployNodes.PlannedNotMaster | pkg/kubev/deployer/deploy_nodes.go:38-58 | no planned worker has the master's name |
| DeployNodes.KeysPresent | pkg/kubev/deployer/deploy_nodes.go:27-29 | once key generation returns nil both halves of the key pair are on disk |
| DeployNodes.KeysOutcome | pkg/kubev/deployer/deploy_nodes.go:27-29 | key generation touches no VM, and its only error is the refused generation |
| DeployNodes.ProvisionKeepsIdentity | pkg/kubev/deployer/deploy_nodes.go:60-69 | a provisioned node keeps name, role and readiness and records the datacenter name the finder answered |
| DeployNodes.ProvisionOutcome | pkg/kubev/deployer/deploy_nodes.go:60-69 | the node keeps name, role and readiness; a failed `CreateVM` is the result |
| DeployNodes.WorkerOutcome | pkg/kubev/deployer/deploy_nodes.go:123-137 | the worker keeps name, role and readiness; a failed provisioning is the result |
| DeployNodes.MasterOutcome | pkg/kubev/deployer/deploy_nodes.go:60-76 | the master keeps name, role and readiness; without a successful initialisation there is no join command |
| DeployNodes.WorkerStepOrder | pkg/kubev/deployer/deploy_nodes.go:123-137 | `CreateVM` first; its error stops everything; otherwise the known_hosts purge comes next |
| DeployNodes.WorkerEndsJoined | pkg/kubev/deployer/deploy_nodes.go:123-137 | a deployed worker's last call is its join command |
| DeployNodes.WorkersOutcome | pkg/kubev/deployer/deploy_nodes.go:79-83 | when the loop succeeds one record per worker remains; after a failure none is returned |
| DeployNodes.FleetNext | pkg/kubev/deployer/deploy_nodes.go:79-83 | one pass of the worker loop: stop at this worker's error, or go on with it deployed |
| DeployNodes.WorkersKeepNames | pkg/kubev/deployer/deploy_nodes.go:79-83 | the deployed workers keep the names, roles and order of the plan |
| DeployNodes.WorkerPlacesNodes | pkg/kubev/deployer/deploy_nodes.go:123-137 | each worker deployment that succeeds returns the node placed as planned |
| DeployNodes.AllReady | pkg/kubev/deployer/deploy_nodes.go:87-89 | every record is kept, with `Ready` set |
| DeployNodes.UploadsKeepVms | pkg/kubev/deployer/deploy_nodes.go:101-118 | the scratch file is written first and deleted last, no VM is touched, and the only error is a refused upload to the master |
| DeployNodes.PublishKeepsCluster | pkg/kubev/deployer/deploy_nodes.go:91-118 | the inventory is saved first, no VM changes, and the only error is a refused upload to the master |
| DeployNodes.PublishRedactsAndCleansUp | pkg/kubev/deployer/deploy_nodes.go:101-104 | the configuration is written redacted, and the scratch file is deleted on the way out |
| DeployNodes.PublishOutcome | pkg/kubev/deployer/deploy_nodes.go:91-118 | the publishing steps (stated by `PublishKeepsCluster`, `PublishRedactsAndCleansUp`) |
| DeployNodes.UploadsOutcome | pkg/kubev/deployer/deploy_nodes.go:101-118 | the uploads from the scratch file on (stated by `UploadsKeepVms`) |
| DeployNodes.DeployFailureStops | pkg/kubev/deployer/deploy_nodes.go:26-91 | no cluster is returned exactly when key generation, the master or a worker failed, and then the first such error is returned, before readiness or saving |
| DeployNodes.DeployedCluster | pkg/kubev/deployer/deploy_nodes.go:26-91 | a returned cluster has the named master and N workers named `<prefix>-1`…`<prefix>-N`, all ready, with the master's join command |
| DeployNodes.DeployNodesOutcome | pkg/kubev/deployer/deploy_nodes.go:26-121 | `DeployNodes` (stated by `DeployFailureStops`, `DeployedCluster`, `UploadFailureKeepsCluster`) |
| DeployNodes.ClusterShape | pkg/kubev/deployer/deploy_nodes.go:85-89 | a master and workers placed as planned make a ready cluster of the planned shape |
| DeployNodes.UploadFailureKeepsCluster | pkg/kubev/deployer/deploy_nodes.go:96-118 | upload failures return the cluster with the error; the deployed VMs stay |
| DeployNodes.KubevImplements | pkg/kubev/deployer/deploy_nodes.go:26-121 | pins, by definition, that the step functions the methods are proved against are those of the cluster deployment |
| DeployNodes.RemovalOnMaster | pkg/kubev/deployer/deploy_nodes.go:139-149 | removal needs the private key, dials the master and runs the delete command for the node's name |
| DeployNodes.RemovalOutcome | pkg/kubev/deployer/deploy_nodes.go:139-149 | the removal on the master (stated by `RemovalOnMaster`) |
| DeployNodes.GenerateSshKey | pkg/kubev/deployer/deploy_nodes.go:27 | the calls and result of key generation are those of its specification |
| DeployNodes.PlanWorkers | pkg/kubev/deployer/deploy_nodes.go:31-44 | the loop's fresh, distinct nodes record exactly the planned worker specs |
| DeployNodes.Provision | pkg/kubev/deployer/deploy_nodes.go:60-69 | `CreateVM`, the purge (its result ignored), then `ConfigVM` |
| DeployNodes.DeployWorkderNode | pkg/kubev/deployer/deploy_nodes.go:123-137 | the calls, result and node record are those of its specification |
| DeployNodes.DeployNext | pkg/kubev/deployer/deploy_nodes.go:80-82 | one pass of the worker loop, as the step it is proved against |
| DeployNodes.UpdateMasterNode | pkg/kubev/deployer/deploy_nodes.go:71-76 | the master's initialisation; on success its answer becomes the join command |
| DeployNodes.DeployMaster | pkg/kubev/deployer/deploy_nodes.go:60-76 | the master's steps, as its specification |
| DeployNodes.DeployWorkers | pkg/kubev/deployer/deploy_nodes.go:78-83 | the workers in list order, each updated in place, stopping at the first error |
| DeployNodes.MarkReady | pkg/kubev/deployer/deploy_nodes.go:85-89 | the master and every worker become ready, and nothing else changes |
| DeployNodes.Publish | pkg/kubev/deployer/deploy_nodes.go:91-118 | the calls and result of the publishing steps are those of their specification |
| DeployNodes.Uploads | pkg/kubev/deployer/deploy_nodes.go:101-118 | the calls and result of the uploads are those of their specification |
| DeployNodes.PlanCluster | pkg/kubev/deployer/deploy_nodes.go:31-58 | the planned master and workers, all distinct fresh objects |
| DeployNodes.BuildCluster | pkg/kubev/deployer/deploy_nodes.go:60-83 | master then workers, as their specification |
| DeployNodes.PublishCluster | pkg/kubev/deployer/deploy_nodes.go:85-118 | readiness set in place, then the publishing steps for the ready cluster |
| DeployNodes.DeployNodes | pkg/kubev/deployer/deploy_nodes.go:26-121 | the calls, error and returned cluster of `DeployNodes` are those of its specification |
| DeployNodes.DeployPlanned | pkg/kubev/deployer/deploy_nodes.go:26-121 | the deployment against any steps that implement its calls |
| DeployNodes.DeleteWorkerNodeFromKubenretes | pkg/kubev/deployer/deploy_nodes.go:139-149 | the calls and result are those of the removal's specification |
| Scale.Chosen | cmd/scale.go:59-68 | an accepted count is between 1 and 1000 |
| Scale.ChosenFirst | cmd/scale.go:59-68 | the prompt settles on n exactly when some reply gives n in 1..1000 and every earlier reply was rejected |
| Scale.NeverChosen | cmd/scale.go:65-68 | without a reply in 1..1000 the prompt keeps asking |
| Scale.AskWorkerCount | cmd/scale.go:59-68 | the re-asking loop returns the count the prompt settles on |
| Scale.NewWorkerName | cmd/scale.go:97-104 | for a non-negative index the name is `<prefix>-<index>` as `DeployNodes` names workers |
| Scale.ScalerImplements | cmd/scale.go:70-120 | pins, by definition, that the step functions the methods are proved against are those of the scaling as written |
| Scale.ScalerPlaces | cmd/scale.go:102-107 | each added worker is placed as planned |
| Scale.GrowStep | cmd/scale.go:101-113 | one pass of the add loop: stop at a failed worker, or continue with it appended and counted |
| Scale.AsWrittenIndices | cmd/scale.go:101-113 | one index per new worker |
| Scale.AsWrittenSkipsAndRepeats | cmd/scale.go:101-113 | as written, growing 1→3 names workers 2 and 4, and growing 3→4 names worker 4 again |
| Scale.AsWrittenNamer | cmd/scale.go:104 | the names the loop as written gives: pass `i` with count `count` gets index `i + count + 1` |
| Scale.IntendedNamer | cmd/scale.go:104 | the corrected naming: the next index after the current count |
| Scale.AsWrittenGrowNames | cmd/scale.go:101-113 | as written, growing n workers names the k-th worker of the list with index 2k - n + 1, and counts every worker it appends |
| Scale.AsWrittenLeavesGap | cmd/scale.go:101-113 | as written, growing a cluster numbered 1..n by two or more never names a worker n + 2 |
| Scale.ShrinkFromTail | cmd/scale.go:72-87 | workers are only taken off the tail; between 0 and `todo` are counted off; a worker whose destroy or removal failed is popped but not counted |
| Scale.ShrinkOutcome | cmd/scale.go:72-87 | the remove loop (stated by `ShrinkFromTail`) |
| Scale.GrowAppends | cmd/scale.go:101-114 | the add loop only appends, between 0 and `toadd` workers, each counted |
| Scale.GrowOutcome | cmd/scale.go:96-114 | the add loop (stated by `GrowAppends`, `GrowNames`, `GrowKeepsNumbering`, `AsWrittenGrowNames`) |
| Scale.GrowNames | cmd/scale.go:101-113 | the k-th appended worker is a not-ready worker named by the namer for pass i + k and count + k |
| Scale.GrowKeepsNumbering | cmd/scale.go:96-114 | with the corrected index (`IntendedNamer`), a cluster numbered 1..n stays numbered 1..count without gaps or repeats |
| Scale.SameCountSavesAsIs | cmd/scale.go:70-71 | an equal count changes nothing and saves the list and configuration as they were |
| Scale.SaveOutcome | cmd/scale.go:118-120 | the two saves, whatever they return (stated by `SameCountSavesAsIs`, `ScaleSavesLoopResult`) |
| Scale.GrowScaling | cmd/scale.go:89-120 | the add branch panics exactly without a master, fails exactly when the join command is refused, and otherwise saves the same master |
| Scale.JoinFailureSavesNothing | cmd/scale.go:89-93 | a failed join-command fetch returns without saving |
| Scale.ScaleSavesLoopResult | cmd/scale.go:118-120 | when saving, the last two calls save the list and the answers the loops left, also after a partial failure |
| Scale.RunScaleOutcome | cmd/scale.go:40-121 | `runScale` never gets past the prompt exactly when no reply is between 1 and 1000 |
| Scale.RemoveWorker | cmd/scale.go:76-86 | one pass of the remove loop, popping before the destroy |
| Scale.AddWorker | cmd/scale.go:101-113 | one pass of the add loop, naming the worker with index `i + count + 1` as written |
| Scale.Shrink | cmd/scale.go:72-87 | the remove loop: the list left is a prefix of the list, as the loop's specification |
| Scale.Grow | cmd/scale.go:96-114 | the add loop as written: the new workers named with index `i + count + 1`, appended and counted, as its specification |
| Scale.Save | cmd/scale.go:118-120 | the list is stored in place, then inventory and answers are saved |
| Scale.ScaleDown | cmd/scale.go:72-87 | the remove branch then the saves, as their specification |
| Scale.ScaleUp | cmd/scale.go:89-114 | the join command, the add branch with the naming as written, then the saves, as their specification |
| Scale.ScaleTo | cmd/scale.go:70-120 | the equal, remove and add branches, as `runScale` dispatches them |
| Scale.RunScale | cmd/scale.go:40-121 | the prompt, then the scaling, as their specification |

## Left out

- The vSphere SDK's sessions, finder lookups of the datacenter, datastore, folder, resource pool, network and host, OVF import leases and uploads, and task waits are one abstract call per request. The oracle decides each call's success and answer.
- OperateVsphere.DeployOvaOutcome and OperateVsphere.Locate: a VM lookup by path (`finder.VirtualMachine`, pkg/kubev/deployer/operate_vsphere.go:65, 231, 235, 293, 399) is a read of the inventory, not a call; it records nothing in the trace, and the only failure it can give is the VM's absence. The lookups after the import (operate_vsphere.go:160-163) and after the clone (operate_vsphere.go:288-291) are omitted, so their errors cannot occur in the model. The same read serves `TemplateCleanup` (operate_vsphere.go:399), and `FindMasterNode` reads the power state it queries from the inventory.
- DeployOvaKeepsExisting: the lookup of the existing VM at operate_vsphere.go:65 is a read of the inventory. An SDK failure of that lookup, which sends the source down the import path with the VM present, is not modelled.
- GoStrings.Join: `path.Join` without `path.Clean`. It only avoids doubling a trailing `/` and skips empty elements. The builders that rely on clean arguments are `KubeVHomeFolder`, `K8sNodesConfigFilePath`, `VMPrivateKeyPath`, `LocalK8sKitPath`, `LocalK8sKitFilePath`, `VMFolder`, `TemplateVMPath`, `NodeVMPath` and the CNI paths of `NodePlan`; their shape lemmas require a clean home directory (`Directory`) and plain components (`Segment`, `CleanLocation`).
- SSH dialling, sessions, the SCP goroutine and its WaitGroup are not modelled. The stream is a value, and each session is one call.
- Driving `ssh` through expect keeps only the prompt/response sequence. Timeouts are refusals of an `Expect` call.
- Printing is left out. It has no effect on the results.
- Reading the inventory and the configuration (`readConfig`, `ReadK8sNodes`, the config-file check of `runScale`) is not modelled. Their results are inputs.
- `modify_known_hosts`, `generateSSHKey`, `CopyLocalFileToRemote`, `GetKubeAdmJoinCommand` and `UpdateMasterNode` are not part of this model. Each is one call whose effect is decided by the oracle.
- `constants.DeleteWorkNode` and the `GetRemote*Path`/`GetTmpKubeVConfigFilePath` helpers are not part of this model. They are opaque values.
- The private key's text and its parsing are not modelled. The key must be present on disk.
- Go's 64-bit `int` is modelled only where it matters: `strconv.Atoi`'s range. Worker counts and indices are unbounded.
- Panics are modelled as a `Panicked` outcome: popping an empty worker list, or removing a node while the master is nil.
- Scale.GrowScaling: a nil master in the add branch is taken as a panic. The join-command helper that would dereference it is not part of this model.
- OperateVsphere.Destory: requires a master. With a nil master the source dereferences nil.
- DeployNodes.UpdateMasterNode: requires a master, which `DeployNodes` always has.
- Scale.Grow: returns the new workers, and the caller appends them to the list. The source appends inside the loop. The list saved is the same.
- Token.DecodeToken: takes a character string and decodes bytes only up to 255 per character. `IsByteString` restricts `EncodeToken`'s input to such strings, as Go strings are bytes.
- The stale `deploy_master.go`, `cacher.go`, `operate_host.go` and the commands other than `scale` are not part of this model.

## Findings

| source | as written | input that shows it | evidently intended | confidence | as-written member | corrected member |
|---|---|---|---|---|---|---|
| cmd/scale.go:101-113 | the new worker's index is `i + answers.WorkerNodes + 1`, while `answers.WorkerNodes` is also raised after every successful add, so the index grows by two per worker | growing a cluster of 1 worker to 3 names the new workers `-2` and `-4`; growing it to 4 then names a new worker `-4` again, a duplicate VM name | index `answers.WorkerNodes + 1`, giving the next number after the current count: `-2`, `-3`, then `-4`. The methods follow the code as written; the corrected naming is `IntendedNamer`, proved on the same loop | not executed | Scale.AsWrittenLeavesGap | Scale.GrowKeepsNumbering |
