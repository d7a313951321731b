/**
 * The vSphere side of kubev (pkg/kubev/deployer/operate_vsphere.go): importing
 * the Photon OVA, creating a node's VM from it, deleting VMs by managed-object
 * reference, and finding an existing master. The SDK's finder lookups, tasks
 * and the OVF lease are calls to the world; looking a VM up by inventory path
 * reads the world's inventory.
 */
module OperateVsphere {

  import opened Wrappers
  import opened GoStrings
  import opened Constants
  import opened Model
  import opened Platform

  // ------------------------------------------------------------------ paths

  /** `getVMFolder`: the datacenter's VM folder for the configured folder. */
  function VMFolder(a: Answers): string
  {
    "/" + JoinAll([a.datacenter, "vm", a.folder])
  }

  /**
   * `getTemplateVMPath`: on vCenter the shared template VM; on a bare ESX host
   * the OVA is imported straight under the node's own name.
   */
  function TemplateVMPath(a: Answers, vmName: string): string
  {
    "/" + JoinAll([a.datacenter, "vm", a.folder, if a.isVCenter then DefaultVMTemplateName else vmName])
  }

  /** Where a node's own VM lives: `path.Join(getVMFolder(answers), VMName)`. */
  function NodeVMPath(a: Answers, vmName: string): string
  {
    Join(VMFolder(a), vmName)
  }

  /** The configured datacenter and folder are plain path components. */
  predicate CleanLocation(a: Answers) {
    Segment(a.datacenter) && Segment(a.folder)
  }

  lemma SegmentIsDirectory(s: string)
    requires Segment(s)
    ensures Directory(s)
  {
    assert s[|s| - 1] in s;
  }

  /** The VM folder is `/<datacenter>/vm/<folder>`. */
  lemma FolderShape(a: Answers)
    requires CleanLocation(a)
    ensures VMFolder(a) == "/" + a.datacenter + "/vm/" + a.folder
    ensures Directory(VMFolder(a)) && VMFolder(a)[0] == '/'
  {
    var parts := [a.datacenter, "vm", a.folder];
    SegmentIsDirectory(a.datacenter);
    assert parts[..2] == [a.datacenter, "vm"];
    assert [a.datacenter, "vm"][..1] == [a.datacenter];
    assert [a.datacenter][..0] == [];
    assert JoinAll([a.datacenter]) == a.datacenter;
    JoinSegment(a.datacenter, "vm");
    assert JoinAll([a.datacenter, "vm"]) == a.datacenter + "/vm";
    JoinSegment(a.datacenter + "/vm", a.folder);
  }

  /**
   * The template path is one level below the VM folder: `kube-template` on
   * vCenter, the node's name on ESX.
   */
  lemma TemplatePathShape(a: Answers, vmName: string)
    requires CleanLocation(a) && Segment(vmName)
    ensures TemplateVMPath(a, vmName) ==
      VMFolder(a) + "/" + (if a.isVCenter then "kube-template" else vmName)
    ensures Dir(TemplateVMPath(a, vmName)) == VMFolder(a)
    ensures Base(TemplateVMPath(a, vmName)) == if a.isVCenter then "kube-template" else vmName
  {
    var last := if a.isVCenter then DefaultVMTemplateName else vmName;
    SegmentIsDirectory(a.datacenter);
    JoinFourSegments(a.datacenter, "vm", a.folder, last);
    FolderShape(a);
    var folder := VMFolder(a);
    assert TemplateVMPath(a, vmName) == VMFolder(a) + "/" + last by {
      assert folder == "/" + a.datacenter + "/vm/" + a.folder;
      assert TemplateVMPath(a, vmName) == "/" + (a.datacenter + "/" + "vm" + "/" + a.folder + "/" + last);
    }
    SplitPath(TemplateVMPath(a, vmName), VMFolder(a), last);
  }

  /** On ESX the template path is the node's own VM path. */
  lemma EsxTemplateIsNode(a: Answers, vmName: string)
    requires CleanLocation(a) && Segment(vmName) && !a.isVCenter
    ensures TemplateVMPath(a, vmName) == NodeVMPath(a, vmName)
  {
    TemplatePathShape(a, vmName);
    FolderShape(a);
    JoinSegment(VMFolder(a), vmName);
  }

  // ------------------------------------------------------------- DeployOVA

  /**
   * `deleteTemplateVMIfPoweredOn`: on vCenter a template that is not powered
   * off is powered off and destroyed; a missing template or a failed power
   * query is not an error.
   */
  function TemplateCleanup(env: Env, s: State, a: Answers): (o: Outcome)
    ensures s.trace <= o.state.trace
    ensures o.err.Some? ==>
      a.isVCenter &&
      (o.err == Some(Refused(PowerOff(TemplateVMPath(a, "")))) ||
       o.err == Some(Refused(Destroy(TemplateVMPath(a, "")))))
  {
    var t := TemplateVMPath(a, "");
    if !a.isVCenter || t !in s.vms then Outcome(s, None)
    else
      var probe := Do(env, s, GetPowerState(t));
      if probe.err.Some? || s.vms[t].power == PoweredOff then Outcome(probe.state, None)
      else Then(env, Do(env, probe.state, PowerOff(t)), Destroy(t))
  }

  /** The resource pool lookup of `DeployOVA`. */
  function OvaPool(a: Answers): Call
  {
    if a.isVCenter then Lookup(ResourcePool, a.resourcePool) else Lookup(DefaultResourcePool, "")
  }

  /**
   * `DeployOVA`: open a session, clean up the template, and import the cached
   * OVA to `target` unless a VM is already there; the imported VM gets the
   * configured CPUs and memory. Whether a VM is at `target` is read from the
   * inventory; the lookup of the imported VM before its reconfiguration is
   * not modelled.
   */
  function DeployOvaOutcome(env: Env, s: State, h: Host, a: Answers, target: string): (o: Outcome)
    ensures s.trace <= o.state.trace
    ensures o.err.Some? ==>
      o.err.value.Refused? || o.err == Some(MissingFile(LocalK8sKitFilePath(h, PhotonOVAName, DefaultPhotonVersion)))
  {
    var session := Then(env, Do(env, s, Connect), Lookup(Datacenter, a.datacenter));
    var cleaned := if session.err.Some? then session else TemplateCleanup(env, session.state, a);
    var stored := Then(env, cleaned, Lookup(Datastore, a.datastore));
    if stored.err.Some? || target in stored.state.vms then stored
    else
      var placed := Then(env, Then(env, stored, OvaPool(a)), Lookup(Folder, VMFolder(a)));
      var ova := LocalK8sKitFilePath(h, PhotonOVAName, DefaultPhotonVersion);
      if placed.err.Some? then placed
      else if ova !in placed.state.files then Outcome(placed.state, Some(MissingFile(ova)))
      else
        var network := Do(env, placed.state, Lookup(Network, a.network));
        Then(env, Then(env, network, ImportOva(target)), Reconfigure(target, a.cpu, a.memory))
  }

  /** The template clean-up touches no VM but the template. */
  lemma CleanupOnlyTemplate(env: Env, s: State, a: Answers, p: string)
    requires p != TemplateVMPath(a, "")
    ensures var o := TemplateCleanup(env, s, a);
      (p in o.state.vms <==> p in s.vms) && (p in s.vms ==> o.state.vms[p] == s.vms[p])
  {
  }

  /** On vCenter a template that is not powered off is gone once the clean-up succeeds. */
  lemma CleanupRemovesRunningTemplate(env: Env, s: State, a: Answers)
    requires a.isVCenter && TemplateVMPath(a, "") in s.vms
    requires s.vms[TemplateVMPath(a, "")].power != PoweredOff
    requires env.accepts(s.trace, GetPowerState(TemplateVMPath(a, "")))
    requires TemplateCleanup(env, s, a).err.None?
    ensures TemplateVMPath(a, "") !in TemplateCleanup(env, s, a).state.vms
  {
  }

  /** A `DeployOVA` that returns no error leaves a VM at the target path. */
  lemma DeployOvaInstalls(env: Env, s: State, h: Host, a: Answers, target: string)
    requires DeployOvaOutcome(env, s, h, a, target).err.None?
    ensures target in DeployOvaOutcome(env, s, h, a, target).state.vms
  {
  }

  /**
   * On ESX an existing VM at the target path is returned as is: only the
   * session, datacenter and datastore lookups are made, and the inventory is
   * unchanged. The VM itself is read from the inventory, so the source's
   * lookup of it is no call here.
   */
  lemma DeployOvaKeepsExisting(env: Env, s: State, h: Host, a: Answers, target: string)
    requires !a.isVCenter && target in s.vms
    ensures DeployOvaOutcome(env, s, h, a, target) ==
      Run(env, s, [Connect, Lookup(Datacenter, a.datacenter), Lookup(Datastore, a.datastore)])
    ensures DeployOvaOutcome(env, s, h, a, target).state.vms == s.vms
  {
    var s1 := Step(env, s, Connect);
    var s2 := Step(env, s1, Lookup(Datacenter, a.datacenter));
    RunCons(env, s, Connect, [Lookup(Datacenter, a.datacenter), Lookup(Datastore, a.datastore)]);
    RunCons(env, s1, Lookup(Datacenter, a.datacenter), [Lookup(Datastore, a.datastore)]);
    RunOne(env, s2, Lookup(Datastore, a.datastore));
  }

  method DeployOva(world: World, h: Host, a: Answers, target: string) returns (err: Option<Error>)
    modifies world
    ensures Outcome(world.now, err) == DeployOvaOutcome(world.env, old(world.now), h, a, target)
  {
    err := world.Call(Connect);
    if err.Some? { return; }
    err := world.Call(Lookup(Datacenter, a.datacenter));
    if err.Some? { return; }
    err := DeleteTemplateVmIfPoweredOn(world, a);
    if err.Some? { return; }
    err := world.Call(Lookup(Datastore, a.datastore));
    if err.Some? { return; }
    if target in world.now.vms {
      return None;
    }
    err := world.Call(OvaPool(a));
    if err.Some? { return; }
    err := world.Call(Lookup(Folder, VMFolder(a)));
    if err.Some? { return; }
    var ova := LocalK8sKitFilePath(h, PhotonOVAName, DefaultPhotonVersion);
    if ova !in world.now.files {
      return Some(MissingFile(ova));
    }
    err := world.Call(Lookup(Network, a.network));
    if err.Some? { return; }
    err := world.Call(ImportOva(target));
    if err.Some? { return; }
    err := world.Call(Reconfigure(target, a.cpu, a.memory));
  }

  method DeleteTemplateVmIfPoweredOn(world: World, a: Answers) returns (err: Option<Error>)
    modifies world
    ensures Outcome(world.now, err) == TemplateCleanup(world.env, old(world.now), a)
  {
    var t := TemplateVMPath(a, "");
    if !a.isVCenter || t !in world.now.vms {
      return None;
    }
    var power := world.now.vms[t].power;
    err := world.Call(GetPowerState(t));
    if err.Some? || power == PoweredOff {
      return None;
    }
    err := world.Call(PowerOff(t));
    if err.Some? { return; }
    err := world.Call(Destroy(t));
  }

  // -------------------------------------------------------------- CreateVM

  /** `CreateVM` imports the OVA first always on ESX, and on vCenter only for the master. */
  predicate ImportsOva(a: Answers, n: NodeRecord) {
    !a.isVCenter || n.masterNode
  }

  /** A step of `CreateVM` that ends at a VM path. */
  datatype Located = Located(o: Outcome, path: string)

  /** The session, datastore and resource-pool lookups of `CreateVM`. */
  function NodeSession(env: Env, s: State, a: Answers): (o: Outcome)
  {
    var stored := Then(env, Then(env, Do(env, s, Connect), Lookup(Datacenter, a.datacenter)), Lookup(Datastore, a.datastore));
    if a.isVCenter then Then(env, stored, Lookup(ResourcePool, a.resourcePool))
    else Then(env, Then(env, stored, Lookup(DefaultHost, "")), Lookup(HostResourcePool, ""))
  }

  /**
   * `datacenter.Name()` for a session opened on `s`: the name of the object
   * the finder answered for the configured datacenter.
   */
  function FoundDatacenter(env: Env, s: State, a: Answers): string
  {
    env.reply(s.trace + [Connect], Lookup(Datacenter, a.datacenter))
  }

  /** `datastore.Name()` for a session opened on `s`. */
  function FoundDatastore(env: Env, s: State, a: Answers): string
  {
    env.reply(s.trace + [Connect, Lookup(Datacenter, a.datacenter)], Lookup(Datastore, a.datastore))
  }

  /**
   * Lines 198-299 of `CreateVM`: the session, then the node's VM, which on
   * vCenter is cloned from the template when missing and on ESX is the
   * template path itself. The VMs are looked up by reading the inventory;
   * the lookup of the clone after it is made is not modelled.
   */
  function Locate(env: Env, s: State, a: Answers, vmName: string): (l: Located)
    ensures l.o.err.None? ==> l.path in l.o.state.vms
  {
    var pooled := NodeSession(env, s, a);
    var vmPath := NodeVMPath(a, vmName);
    var t := TemplateVMPath(a, vmName);
    if pooled.err.Some? then Located(pooled, "")
    else if vmPath in pooled.state.vms then Located(pooled, vmPath)
    else if t !in pooled.state.vms then Located(Outcome(pooled.state, Some(NoVm(t))), "")
    else if !a.isVCenter then Located(pooled, t)
    else
      var cloned := Then(env, Do(env, pooled.state, Lookup(Folder, VMFolder(a))), Clone(t, vmPath));
      Located(cloned, if cloned.err.None? then vmPath else "")
  }

  /** A step of `CreateVM` that ends with an IP address. */
  datatype Started = Started(o: Outcome, ip: string)

  /**
   * Lines 301-345 of `CreateVM`: power off unless already off, reconfigure,
   * power on, wait for the IP.
   */
  function PowerCycle(env: Env, s: State, a: Answers, p: string): (r: Started)
    requires p in s.vms
    ensures s.trace <= r.o.state.trace
    ensures r.o.err.Some? ==> r.ip == "" && r.o.err.value.Refused?
    ensures r.o.err.None? ==> |r.o.state.trace| > 0 && Last(r.o.state.trace) == WaitForIp(p)
  {
    var probe := Do(env, s, GetPowerState(p));
    var off := if s.vms[p].power != PoweredOff then Then(env, probe, PowerOff(p)) else probe;
    var up := Then(env, Then(env, off, Reconfigure(p, a.cpu, a.memory)), PowerOn(p));
    var waited := Then(env, up, WaitForIp(p));
    Started(waited, if waited.err.None? then env.reply(up.state.trace, WaitForIp(p)) else "")
  }

  /**
   * A power cycle that succeeds queries the power state, powers off exactly
   * when the VM was not off, then reconfigures, powers on and waits for the
   * IP; the VM ends up powered on and otherwise as it was.
   */
  lemma PowerCycleOrder(env: Env, s: State, a: Answers, p: string)
    requires p in s.vms && PowerCycle(env, s, a, p).o.err.None?
    ensures PowerCycle(env, s, a, p).o.state.trace ==
      s.trace + [GetPowerState(p)] + (if s.vms[p].power != PoweredOff then [PowerOff(p)] else [])
      + [Reconfigure(p, a.cpu, a.memory), PowerOn(p), WaitForIp(p)]
    ensures p in PowerCycle(env, s, a, p).o.state.vms
    ensures PowerCycle(env, s, a, p).o.state.vms[p] == s.vms[p].(power := PoweredOn)
  {
    var probe := Do(env, s, GetPowerState(p));
    var off := if s.vms[p].power != PoweredOff then Then(env, probe, PowerOff(p)) else probe;
    assert off.state.vms[p] == s.vms[p].(power := if s.vms[p].power != PoweredOff then PoweredOff else s.vms[p].power);
  }

  /** The result of `CreateVM`: where the world is, and the node record after it. */
  datatype Created = Created(o: Outcome, node: NodeRecord)

  /** The OVA import `CreateVM` starts with, when it does. */
  function Deployed(env: Env, s: State, h: Host, a: Answers, n: NodeRecord): (o: Outcome)
  {
    if ImportsOva(a, n) then DeployOvaOutcome(env, s, h, a, TemplateVMPath(a, n.vmName)) else Outcome(s, None)
  }

  /**
   * `CreateVM`: on success the node learns its datacenter, datastore, VM path,
   * IP and managed-object reference; on any error it is left as it was.
   */
  function CreateVmOutcome(env: Env, s: State, h: Host, a: Answers, n: NodeRecord): (c: Created)
    ensures c.o.err.Some? ==> c.node == n
    ensures c.node.vmName == n.vmName && c.node.masterNode == n.masterNode && c.node.ready == n.ready
  {
    var deployed := Deployed(env, s, h, a, n);
    if deployed.err.Some? then Created(deployed, n)
    else
      var l := Locate(env, deployed.state, a, n.vmName);
      if l.o.err.Some? then Created(l.o, n)
      else
        var started := PowerCycle(env, l.o.state, a, l.path);
        if started.o.err.Some? then Created(started.o, n)
        else
          Created(started.o, n.(datacenterName := FoundDatacenter(env, deployed.state, a),
            datastoreName := FoundDatastore(env, deployed.state, a),
            folderPath := l.path, ip := started.ip, mo := l.o.state.vms[l.path].mo))
  }

  /**
   * A created node's record names a VM of the inventory that is powered on and
   * carries the recorded managed-object reference; the datacenter and
   * datastore it records are the names the finder answered when the node's
   * session was opened; its name and role are kept.
   */
  lemma CreatedNodeRunning(env: Env, s: State, h: Host, a: Answers, n: NodeRecord)
    requires CreateVmOutcome(env, s, h, a, n).o.err.None?
    ensures var c := CreateVmOutcome(env, s, h, a, n);
      c.node.folderPath in c.o.state.vms &&
      c.o.state.vms[c.node.folderPath].power == PoweredOn &&
      c.o.state.vms[c.node.folderPath].mo == c.node.mo &&
      c.node.datacenterName == FoundDatacenter(env, Deployed(env, s, h, a, n).state, a) &&
      c.node.datastoreName == FoundDatastore(env, Deployed(env, s, h, a, n).state, a) &&
      c.node.vmName == n.vmName && c.node.masterNode == n.masterNode && c.node.ready == n.ready
  {
    var deployed := Deployed(env, s, h, a, n);
    var l := Locate(env, deployed.state, a, n.vmName);
    PowerCycleOrder(env, l.o.state, a, l.path);
  }

  /** The trace extends `t0`, and no call made after `t0` imports an OVA. */
  ghost predicate NoImportAfter(t0: seq<Call>, t: seq<Call>) {
    t0 <= t && forall i | |t0| <= i < |t| :: !t[i].ImportOva?
  }

  /** A call that is not an import keeps a trace free of imports. */
  lemma ThenNoImport(env: Env, t0: seq<Call>, o: Outcome, c: Call)
    requires NoImportAfter(t0, o.state.trace) && !c.ImportOva?
    ensures NoImportAfter(t0, Then(env, o, c).state.trace)
  {
  }

  lemma SessionNoImport(env: Env, s: State, a: Answers)
    ensures NoImportAfter(s.trace, NodeSession(env, s, a).state.trace)
  {
    var o0 := Outcome(s, None);
    assert NoImportAfter(s.trace, s.trace);
    ThenNoImport(env, s.trace, o0, Connect);
    var o1 := Then(env, o0, Connect);
    ThenNoImport(env, s.trace, o1, Lookup(Datacenter, a.datacenter));
    var o2 := Then(env, o1, Lookup(Datacenter, a.datacenter));
    ThenNoImport(env, s.trace, o2, Lookup(Datastore, a.datastore));
    var o3 := Then(env, o2, Lookup(Datastore, a.datastore));
    ThenNoImport(env, s.trace, o3, Lookup(ResourcePool, a.resourcePool));
    ThenNoImport(env, s.trace, o3, Lookup(DefaultHost, ""));
    ThenNoImport(env, s.trace, Then(env, o3, Lookup(DefaultHost, "")), Lookup(HostResourcePool, ""));
  }

  lemma LocateNoImport(env: Env, s: State, a: Answers, vmName: string)
    ensures NoImportAfter(s.trace, Locate(env, s, a, vmName).o.state.trace)
  {
    var pooled := NodeSession(env, s, a);
    SessionNoImport(env, s, a);
    ThenNoImport(env, s.trace, pooled, Lookup(Folder, VMFolder(a)));
    var folder := Then(env, pooled, Lookup(Folder, VMFolder(a)));
    ThenNoImport(env, s.trace, folder, Clone(TemplateVMPath(a, vmName), NodeVMPath(a, vmName)));
  }

  lemma PowerCycleNoImport(env: Env, s: State, a: Answers, p: string)
    requires p in s.vms
    ensures NoImportAfter(s.trace, PowerCycle(env, s, a, p).o.state.trace)
  {
  }

  /** A vCenter worker is cloned from the template: `CreateVM` never imports the OVA for it. */
  lemma WorkerOnVCenterNoImport(env: Env, s: State, h: Host, a: Answers, n: NodeRecord)
    requires a.isVCenter && !n.masterNode
    ensures NoImportAfter(s.trace, CreateVmOutcome(env, s, h, a, n).o.state.trace)
  {
    var l := Locate(env, s, a, n.vmName);
    LocateNoImport(env, s, a, n.vmName);
    if l.o.err.None? {
      PowerCycleNoImport(env, l.o.state, a, l.path);
    }
  }

  /** `CreateVM`'s session lookups change no VM. */
  lemma SessionKeepsVms(env: Env, s: State, a: Answers)
    ensures NodeSession(env, s, a).state.vms == s.vms
  {
  }

  /**
   * An ESX node, or the master on vCenter, starts with `DeployOVA` of its
   * template path: its calls come first, its error ends `CreateVM` with the
   * node unchanged, and when it succeeds the template VM exists.
   */
  lemma ImportingNodeDeploysOva(env: Env, s: State, h: Host, a: Answers, n: NodeRecord)
    requires ImportsOva(a, n)
    ensures var d := DeployOvaOutcome(env, s, h, a, TemplateVMPath(a, n.vmName));
      var c := CreateVmOutcome(env, s, h, a, n);
      d.state.trace <= c.o.state.trace &&
      (d.err.Some? ==> c == Created(d, n)) &&
      (d.err.None? ==> TemplateVMPath(a, n.vmName) in d.state.vms)
  {
    var d := DeployOvaOutcome(env, s, h, a, TemplateVMPath(a, n.vmName));
    if d.err.None? {
      DeployOvaInstalls(env, s, h, a, TemplateVMPath(a, n.vmName));
      var l := Locate(env, d.state, a, n.vmName);
      LocateNoImport(env, d.state, a, n.vmName);
      if l.o.err.None? {
        PowerCycleNoImport(env, l.o.state, a, l.path);
      }
    }
  }

  /**
   * On ESX the node's VM is the OVA just imported: once the import succeeded,
   * the VM is found at the node's own path and nothing is cloned.
   */
  lemma EsxNodeIsImported(env: Env, s: State, h: Host, a: Answers, n: NodeRecord)
    requires !a.isVCenter && CleanLocation(a) && Segment(n.vmName)
    requires Deployed(env, s, h, a, n).err.None?
    requires NodeSession(env, Deployed(env, s, h, a, n).state, a).err.None?
    ensures Locate(env, Deployed(env, s, h, a, n).state, a, n.vmName) ==
      Located(NodeSession(env, Deployed(env, s, h, a, n).state, a), NodeVMPath(a, n.vmName))
  {
    var deployed := Deployed(env, s, h, a, n);
    DeployOvaInstalls(env, s, h, a, TemplateVMPath(a, n.vmName));
    EsxTemplateIsNode(a, n.vmName);
    SessionKeepsVms(env, deployed.state, a);
  }

  method CreateVm(world: World, h: Host, a: Answers, node: K8sNode) returns (err: Option<Error>)
    modifies world, node
    ensures Created(Outcome(world.now, err), node.Record()) ==
      CreateVmOutcome(world.env, old(world.now), h, a, old(node.Record()))
  {
    ghost var n := node.Record();
    ghost var s0 := world.now;
    if !a.isVCenter || node.masterNode {
      err := DeployOva(world, h, a, TemplateVMPath(a, node.vmName));
      if err.Some? { return; }
    }
    assert Deployed(world.env, s0, h, a, n) == Outcome(world.now, None);
    ghost var l := Locate(world.env, world.now, a, n.vmName);
    var path, datacenter, datastore;
    path, datacenter, datastore, err := LocateVm(world, a, node.vmName);
    assert l == Located(Outcome(world.now, err), path);
    if err.Some? {
      assert CreateVmOutcome(world.env, s0, h, a, n) == Created(l.o, n);
      return;
    }
    var mo := world.now.vms[path].mo;
    ghost var started := PowerCycle(world.env, world.now, a, path);
    var ip;
    ip, err := StartVm(world, a, path);
    assert started == Started(Outcome(world.now, err), ip);
    if err.Some? {
      assert CreateVmOutcome(world.env, s0, h, a, n) == Created(started.o, n);
      return;
    }
    ghost var created := n.(datacenterName := datacenter, datastoreName := datastore,
      folderPath := path, ip := ip, mo := mo);
    assert CreateVmOutcome(world.env, s0, h, a, n) == Created(Outcome(world.now, None), created);
    node.Place(datacenter, datastore, path, ip, mo);
  }

  method LocateVm(world: World, a: Answers, vmName: string)
    returns (path: string, datacenter: string, datastore: string, err: Option<Error>)
    modifies world
    ensures Located(Outcome(world.now, err), path) == Locate(world.env, old(world.now), a, vmName)
    ensures err.None? ==>
      datacenter == FoundDatacenter(world.env, old(world.now), a) &&
      datastore == FoundDatastore(world.env, old(world.now), a)
  {
    datacenter, datastore, err := OpenNodeSession(world, a);
    if err.Some? { return "", datacenter, datastore, err; }
    var vmPath := Join(VMFolder(a), vmName);
    if vmPath in world.now.vms {
      return vmPath, datacenter, datastore, None;
    }
    var t := TemplateVMPath(a, vmName);
    if t !in world.now.vms {
      return "", datacenter, datastore, Some(NoVm(t));
    }
    if !a.isVCenter {
      return t, datacenter, datastore, None;
    }
    err := world.Call(Lookup(Folder, VMFolder(a)));
    if err.Some? { return "", datacenter, datastore, err; }
    err := world.Call(Clone(t, vmPath));
    if err.Some? { return "", datacenter, datastore, err; }
    path := vmPath;
  }

  method OpenNodeSession(world: World, a: Answers) returns (datacenter: string, datastore: string, err: Option<Error>)
    modifies world
    ensures Outcome(world.now, err) == NodeSession(world.env, old(world.now), a)
    ensures err.None? ==>
      datacenter == FoundDatacenter(world.env, old(world.now), a) &&
      datastore == FoundDatastore(world.env, old(world.now), a)
  {
    datacenter, datastore := "", "";
    ghost var s0 := world.now;
    err := world.Call(Connect);
    if err.Some? { return; }
    var ok;
    ok, datacenter := world.Ask(Lookup(Datacenter, a.datacenter));
    if !ok { return datacenter, datastore, Some(Refused(Lookup(Datacenter, a.datacenter))); }
    assert world.now.trace == s0.trace + [Connect, Lookup(Datacenter, a.datacenter)];
    ok, datastore := world.Ask(Lookup(Datastore, a.datastore));
    if !ok { return datacenter, datastore, Some(Refused(Lookup(Datastore, a.datastore))); }
    if a.isVCenter {
      err := world.Call(Lookup(ResourcePool, a.resourcePool));
    } else {
      err := world.Call(Lookup(DefaultHost, ""));
      if err.Some? { return; }
      err := world.Call(Lookup(HostResourcePool, ""));
    }
  }

  method StartVm(world: World, a: Answers, p: string) returns (ip: string, err: Option<Error>)
    requires p in world.now.vms
    modifies world
    ensures Started(Outcome(world.now, err), ip) == PowerCycle(world.env, old(world.now), a, p)
  {
    var power := world.now.vms[p].power;
    err := world.Call(GetPowerState(p));
    if err.Some? { return "", err; }
    if power != PoweredOff {
      err := world.Call(PowerOff(p));
      if err.Some? { return "", err; }
    }
    err := world.Call(Reconfigure(p, a.cpu, a.memory));
    if err.Some? { return "", err; }
    err := world.Call(PowerOn(p));
    if err.Some? { return "", err; }
    var ok;
    ok, ip := world.Ask(WaitForIp(p));
    if !ok {
      return "", Some(Refused(WaitForIp(p)));
    }
    err := None;
  }

  // ------------------------------------------------------- delete, Destory

  /**
   * `delete`'s parse of a managed-object reference `Type:Value`: it must split
   * on `:` into exactly two parts.
   */
  function ParseMo(mo: string): (r: Option<(string, string)>)
  {
    var parts := Split(mo, ':');
    if |parts| != 2 then None else Some((parts[0], parts[1]))
  }

  /** A reference parses iff it holds exactly one `:`, and then it is `Type:Value`. */
  lemma ParseMoExact(mo: string)
    ensures ParseMo(mo).Some? <==> Count(mo, ':') == 1
    ensures ParseMo(mo).Some? ==>
      mo == ParseMo(mo).value.0 + ":" + ParseMo(mo).value.1 &&
      ':' !in ParseMo(mo).value.0 && ':' !in ParseMo(mo).value.1
  {
    SplitCount(mo, ':');
    JoinSplit(mo, ':');
    var parts := Split(mo, ':');
    if |parts| == 2 {
      assert parts[1..] == [parts[1]];
      assert JoinWith(parts, ':') == parts[0] + [':'] + parts[1];
    }
  }

  /** The reference the SDK prints parses back to its type and value. */
  lemma ParseMoRoundTrip(t: string, v: string)
    requires ':' !in t && ':' !in v
    ensures ParseMo(t + ":" + v) == Some((t, v))
  {
    SplitJoin([t, v], ':');
    assert [t, v][1..] == [v];
    assert JoinWith([t, v], ':') == t + ":" + v;
  }

  /** `delete`: power off then destroy the VM the reference names. */
  function DeleteOutcome(env: Env, s: State, mo: string): (o: Outcome)
    ensures s.trace <= o.state.trace
    ensures o.err == Some(BadReference(mo)) <==> ParseMo(mo).None?
    ensures ParseMo(mo).Some? && o.err.Some? ==> o.err.value.Refused?
  {
    match ParseMo(mo)
    case None => Outcome(s, Some(BadReference(mo)))
    case Some((t, v)) => Then(env, Do(env, s, PowerOffRef(t, v)), DestroyRef(t, v))
  }

  /** A reference without exactly one `:` is refused before any call is made. */
  lemma BadReferenceNoCall(env: Env, s: State, mo: string)
    requires Count(mo, ':') != 1
    ensures DeleteOutcome(env, s, mo) == Outcome(s, Some(BadReference(mo)))
  {
    ParseMoExact(mo);
  }

  /** No VM of the inventory carries the reference. */
  predicate Gone(vms: map<string, Vm>, mo: string) {
    forall p | p in vms :: vms[p].mo != mo
  }

  /** A `delete` that returns nil leaves no VM with that reference. */
  lemma DeleteRemoves(env: Env, s: State, mo: string)
    requires DeleteOutcome(env, s, mo).err.None?
    ensures Gone(DeleteOutcome(env, s, mo).state.vms, mo)
  {
    ParseMoExact(mo);
  }

  /** A reference that is gone stays gone: `delete` never brings a VM back. */
  lemma DeleteKeepsGone(env: Env, s: State, mo: string, other: string)
    requires Gone(s.vms, other)
    ensures Gone(DeleteOutcome(env, s, mo).state.vms, other)
  {
    if ParseMo(mo).Some? {
      var (t, v) := ParseMo(mo).value;
      assert Gone(Step(env, s, PowerOffRef(t, v)).vms, other);
    }
  }

  /** `delete` for each node in order, stopping at the first error. */
  function DeleteNodes(env: Env, s: State, nodes: seq<NodeRecord>): (o: Outcome)
    ensures s.trace <= o.state.trace
    ensures o.err.Some? ==> o.err.value.Refused? || o.err.value.BadReference?
    decreases |nodes|
  {
    if nodes == [] then Outcome(s, None)
    else
      var d := DeleteOutcome(env, s, nodes[0].mo);
      if d.err.Some? then d else DeleteNodes(env, d.state, nodes[1..])
  }

  /**
   * Deletions that all return nil leave every node's reference well formed
   * and no VM with any of them.
   */
  lemma {:induction false} DeleteNodesSucceeded(env: Env, s: State, nodes: seq<NodeRecord>)
    requires DeleteNodes(env, s, nodes).err.None?
    ensures forall k | 0 <= k < |nodes| :: Count(nodes[k].mo, ':') == 1
    ensures forall k | 0 <= k < |nodes| :: Gone(DeleteNodes(env, s, nodes).state.vms, nodes[k].mo)
    decreases |nodes|
  {
    if nodes != [] {
      var d := DeleteOutcome(env, s, nodes[0].mo);
      var rest := nodes[1..];
      DeleteRemoves(env, s, nodes[0].mo);
      ParseMoExact(nodes[0].mo);
      DeleteNodesSucceeded(env, d.state, rest);
      DeleteNodesKeepGone(env, d.state, rest, nodes[0].mo);
      forall k | 1 <= k < |nodes|
        ensures Count(nodes[k].mo, ':') == 1 && Gone(DeleteNodes(env, s, nodes).state.vms, nodes[k].mo)
      {
        assert nodes[k] == rest[k - 1];
      }
    }
  }

  lemma {:induction false} DeleteNodesKeepGone(env: Env, s: State, nodes: seq<NodeRecord>, other: string)
    requires Gone(s.vms, other)
    ensures Gone(DeleteNodes(env, s, nodes).state.vms, other)
    decreases |nodes|
  {
    if nodes != [] {
      var d := DeleteOutcome(env, s, nodes[0].mo);
      DeleteKeepsGone(env, s, nodes[0].mo, other);
      if d.err.None? {
        DeleteNodesKeepGone(env, d.state, nodes[1..], other);
      }
    }
  }

  /** `Destory`: a session, then the master, then the workers in list order. */
  function DestroyOutcome(env: Env, s: State, master: NodeRecord, workers: seq<NodeRecord>): (o: Outcome)
    ensures |s.trace| < |o.state.trace| && o.state.trace[..|s.trace| + 1] == s.trace + [Connect]
    ensures o.err.Some? ==> o.err.value.Refused? || o.err.value.BadReference?
  {
    var c := Do(env, s, Connect);
    if c.err.Some? then c else DeleteNodes(env, c.state, [master] + workers)
  }

  /** `DestorySingle`: a session, then one node. */
  function DestroySingleOutcome(env: Env, s: State, n: NodeRecord): (o: Outcome)
  {
    var c := Do(env, s, Connect);
    if c.err.Some? then c else DeleteOutcome(env, c.state, n.mo)
  }

  /** Destroying one node is destroying a cluster of that master and no workers. */
  lemma SingleIsCluster(env: Env, s: State, n: NodeRecord)
    ensures DestroySingleOutcome(env, s, n) == DestroyOutcome(env, s, n, [])
  {
    var c := Do(env, s, Connect);
    assert [n] + [] == [n];
    assert [n][1..] == [];
    var d := DeleteOutcome(env, c.state, n.mo);
    assert DeleteNodes(env, c.state, [n]) == (if d.err.Some? then d else DeleteNodes(env, d.state, []));
  }

  /**
   * `Destory` returns nil only when the master and every worker were deleted:
   * all their references were well formed and none is left in the inventory.
   * The converse holds by the definition of `DestroyOutcome`: a deletion that
   * fails stops the run with its error.
   */
  lemma DestroySucceeded(env: Env, s: State, master: NodeRecord, workers: seq<NodeRecord>)
    requires DestroyOutcome(env, s, master, workers).err.None?
    ensures Count(master.mo, ':') == 1
    ensures Gone(DestroyOutcome(env, s, master, workers).state.vms, master.mo)
    ensures forall k | 0 <= k < |workers| ::
      Count(workers[k].mo, ':') == 1 && Gone(DestroyOutcome(env, s, master, workers).state.vms, workers[k].mo)
  {
    var c := Do(env, s, Connect);
    var all := [master] + workers;
    DeleteNodesSucceeded(env, c.state, all);
    assert all[0] == master;
    forall k | 0 <= k < |workers|
      ensures Count(workers[k].mo, ':') == 1 && Gone(DestroyOutcome(env, s, master, workers).state.vms, workers[k].mo)
    {
      assert all[k + 1] == workers[k];
    }
  }

  method Delete(world: World, node: K8sNode) returns (err: Option<Error>)
    modifies world
    ensures Outcome(world.now, err) == DeleteOutcome(world.env, old(world.now), node.mo)
  {
    var mos := Split(node.mo, ':');
    if |mos| != 2 {
      return Some(BadReference(node.mo));
    }
    err := world.Call(PowerOffRef(mos[0], mos[1]));
    if err.Some? { return; }
    err := world.Call(DestroyRef(mos[0], mos[1]));
  }

  method Destory(world: World, nodes: K8sNodes) returns (err: Option<Error>)
    requires nodes.masterNode != null
    modifies world
    ensures Outcome(world.now, err) ==
      DestroyOutcome(world.env, old(world.now), old(nodes.masterNode.Record()), old(Records(nodes.workerNodes)))
  {
    ghost var workers := Records(nodes.workerNodes);
    ghost var all := [nodes.masterNode.Record()] + workers;
    err := world.Call(Connect);
    if err.Some? { return; }
    ghost var c := world.now;
    err := Delete(world, nodes.masterNode);
    if err.Some? { return; }
    assert all[1..] == workers;
    for i := 0 to |nodes.workerNodes|
      invariant DeleteNodes(world.env, c, all) == DeleteNodes(world.env, world.now, workers[i..])
    {
      assert workers[i..][1..] == workers[i + 1..];
      err := Delete(world, nodes.workerNodes[i]);
      if err.Some? { return; }
    }
    err := None;
  }

  method DestorySingle(world: World, node: K8sNode) returns (err: Option<Error>)
    modifies world
    ensures Outcome(world.now, err) == DestroySingleOutcome(world.env, old(world.now), node.Record())
  {
    err := world.Call(Connect);
    if err.Some? { return; }
    err := Delete(world, node);
  }

  // --------------------------------------------------------- FindMasterNode

  /** The name the master VM is given. */
  function MasterName(a: Answers): string
  {
    if a.isVCenter then "kubev-vc-master" else "kubev-esx-master"
  }

  /** The result of `FindMasterNode`: the world, and the node it returns, if any. */
  datatype Found = Found(o: Outcome, master: Option<NodeRecord>)

  /** `&model.K8sNode{VMName: name, IP: ip}`. */
  function NamedNode(name: string, ip: string): NodeRecord
  {
    NodeRecord(name, ip, "", "", "", "", false, false)
  }

  /**
   * `FindMasterNode`: search the datacenter's VMs for the master's name. A
   * failed search or no match is "no master" without an error; a match that
   * is not powered on is returned by name with an error; a running one is
   * returned with its IP. The search answers the inventory path of its first
   * match, or "" for none.
   */
  function FindMasterOutcome(env: Env, s: State, a: Answers): (f: Found)
    ensures s.trace <= f.o.state.trace
    ensures f.o.err.Some? ==> f.o.err.value.Refused? || f.o.err == Some(NotPoweredOn(MasterName(a)))
  {
    var session := Then(env, Do(env, s, Connect), Lookup(Datacenter, a.datacenter));
    var name := MasterName(a);
    if session.err.Some? then Found(session, None)
    else
      var search := Do(env, session.state, FindByName(name));
      var p := env.reply(session.state.trace, FindByName(name));
      if search.err.Some? || p == "" then Found(Outcome(search.state, None), None)
      else
        var probe := Do(env, search.state, GetPowerState(p));
        if probe.err.Some? then Found(probe, None)
        else if p !in search.state.vms || search.state.vms[p].power != PoweredOn then
          Found(Outcome(probe.state, Some(NotPoweredOn(name))), Some(NamedNode(name, "")))
        else
          var waited := Do(env, probe.state, WaitForIp(p));
          if waited.err.Some? then Found(waited, None)
          else Found(waited, Some(NamedNode(name, env.reply(probe.state.trace, WaitForIp(p)))))
  }

  /**
   * A returned master bears the mode's master name and is not marked as
   * master; the only error it comes with is that it is not powered on, and
   * without one it has the IP the wait answered, the wait being the last call.
   */
  lemma FoundMasterNamed(env: Env, s: State, a: Answers)
    requires FindMasterOutcome(env, s, a).master.Some?
    ensures var f := FindMasterOutcome(env, s, a);
      f.master.value.vmName == (if a.isVCenter then "kubev-vc-master" else "kubev-esx-master") &&
      !f.master.value.masterNode &&
      (f.o.err.Some? <==> f.o.err == Some(NotPoweredOn(f.master.value.vmName))) &&
      (f.o.err.Some? ==> f.master.value.ip == "") &&
      (f.o.err.None? ==>
        Last(f.o.state.trace).WaitForIp? &&
        f.master.value.ip == env.reply(f.o.state.trace[..|f.o.state.trace| - 1], Last(f.o.state.trace)))
  {
    var f := FindMasterOutcome(env, s, a);
    if f.o.err.None? {
      assert f.o.state.trace[..|f.o.state.trace| - 1] + [Last(f.o.state.trace)] == f.o.state.trace;
    }
  }

  /**
   * Once the search found the master at `p` and its power state was read,
   * the master comes back named, without an address and with the error
   * exactly when its VM is not powered on; a powered-on master is waited for,
   * and the wait decides the outcome.
   */
  lemma MasterPowerCheck(env: Env, s: State, a: Answers, p: string)
    requires Succeeds(env, s, [Connect, Lookup(Datacenter, a.datacenter), FindByName(MasterName(a))])
    requires var t := s.trace + [Connect, Lookup(Datacenter, a.datacenter)];
      p == env.reply(t, FindByName(MasterName(a))) && p != "" &&
      env.accepts(t + [FindByName(MasterName(a))], GetPowerState(p))
    ensures var f := FindMasterOutcome(env, s, a);
      var off := p !in s.vms || s.vms[p].power != PoweredOn;
      (off <==> f.o.err == Some(NotPoweredOn(MasterName(a)))) &&
      (off ==> f.master == Some(NamedNode(MasterName(a), ""))) &&
      (!off ==>
        Last(f.o.state.trace) == WaitForIp(p) && (f.o.err.None? <==> f.master.Some?) &&
        (f.o.err.Some? ==> f.o.err == Some(Refused(WaitForIp(p)))))
  {
    var t := s.trace + [Connect, Lookup(Datacenter, a.datacenter)];
    var s1 := Step(env, s, Connect);
    RunCons(env, s, Connect, [Lookup(Datacenter, a.datacenter), FindByName(MasterName(a))]);
    var s2 := Step(env, s1, Lookup(Datacenter, a.datacenter));
    RunCons(env, s1, Lookup(Datacenter, a.datacenter), [FindByName(MasterName(a))]);
    RunOne(env, s2, FindByName(MasterName(a)));
    assert s2.trace == t;
    assert s2.vms == s.vms;
  }

  /** No match, or a search that fails, is no master and no error, after exactly three calls. */
  lemma NoMasterNoError(env: Env, s: State, a: Answers)
    requires Succeeds(env, s, [Connect, Lookup(Datacenter, a.datacenter)])
    requires var t := s.trace + [Connect, Lookup(Datacenter, a.datacenter)];
      !env.accepts(t, FindByName(MasterName(a))) || env.reply(t, FindByName(MasterName(a))) == ""
    ensures FindMasterOutcome(env, s, a).master.None? && FindMasterOutcome(env, s, a).o.err.None?
    ensures FindMasterOutcome(env, s, a).o.state.trace ==
      s.trace + [Connect, Lookup(Datacenter, a.datacenter), FindByName(MasterName(a))]
  {
    var s1 := Step(env, s, Connect);
    RunCons(env, s, Connect, [Lookup(Datacenter, a.datacenter)]);
    RunOne(env, s1, Lookup(Datacenter, a.datacenter));
    assert s1.trace + [Lookup(Datacenter, a.datacenter)] == s.trace + [Connect, Lookup(Datacenter, a.datacenter)];
  }

  method FindMasterNode(world: World, a: Answers) returns (master: K8sNode?, err: Option<Error>)
    modifies world
    ensures master != null ==> fresh(master)
    ensures Found(Outcome(world.now, err), if master == null then None else Some(master.Record())) ==
      FindMasterOutcome(world.env, old(world.now), a)
  {
    var name := "kubev-esx-master";
    if a.isVCenter {
      name := "kubev-vc-master";
    }
    err := world.Call(Connect);
    if err.Some? { return null, err; }
    err := world.Call(Lookup(Datacenter, a.datacenter));
    if err.Some? { return null, err; }
    var ok, p := world.Ask(FindByName(name));
    if !ok || p == "" {
      return null, None;
    }
    var power := if p in world.now.vms then world.now.vms[p].power else PoweredOff;
    err := world.Call(GetPowerState(p));
    if err.Some? { return null, err; }
    if power != PoweredOn {
      master := new K8sNode(name, false);
      return master, Some(NotPoweredOn(name));
    }
    var ip;
    ok, ip := world.Ask(WaitForIp(p));
    if !ok {
      return null, Some(Refused(WaitForIp(p)));
    }
    master := new K8sNode(name, false);
    master.ip := ip;
    err := None;
  }
}
