/**
 * Turning a configured guest into a Kubernetes worker
 * (pkg/kubev/deployer/deploy_worker.go): copy the unit files and binaries,
 * set up the firewall, host name and services, then reset and join.
 */
module DeployWorker {

  import opened Wrappers
  import opened GoStrings
  import opened Constants
  import opened Model
  import opened Platform
  import opened SshRunners

  /** The two systemd files kubev writes from texts it carries. */
  datatype Unit = KubeletUnit | KubeadmDropIn

  /**
   * The texts of the two unit files. kubev ships `Shipped`; the operations
   * take the texts as a value so that their proofs never unfold them.
   */
  datatype UnitTexts = UnitTexts(service: string, dropIn: string)

  const Shipped := UnitTexts(KubeletService, KubeletSystemd)

  /** Where an asset's bytes come from: a text in the program, or a file of the local cache. */
  datatype Source = Memory(text: string) | Local(path: string)

  /** One file `PrepareVM` copies, before its bytes are read. */
  datatype Planned = Planned(source: Source, targetDir: string, targetName: string, permissions: string)

  const NodeBinaries := [KubeAdmBinaryName, KubeletBinaryName, CriCtlBinaryName]

  const CniPlugins := ["bridge", "dhcp", "flannel", "host-device", "host-local", "ipvlan",
    "loopback", "macvlan", "portmap", "ptp", "sample", "tuning", "vlan"]

  const BinDir := "/usr/bin"
  const CniDir := "/opt/cni/bin/"
  const UnitMode := "0640"
  const BinaryMode := "0750"

  /** Accept all traffic: three policies, one per line of a tab-indented block. */
  const IptablesCommand :=
    "\n"
    + "\tiptables --policy INPUT ACCEPT &&\n"
    + "\tiptables --policy OUTPUT ACCEPT &&\n"
    + "\tiptables --policy FORWARD ACCEPT\n"
    + "\t"

  /** Reload the units, enable kubelet and docker, start docker. */
  const ServicesCommand :=
    "\n"
    + "\tsystemctl daemon-reload &&\n"
    + "\tsystemctl enable kubelet &&\n"
    + "\tsystemctl enable kubelet.service &&\n"
    + "\tsystemctl enable docker &&\n"
    + "\tsystemctl start docker\n"
    + "\t"

  const ResetCommand := "kubeadm reset -f"

  /** Where each unit file goes on the guest. */
  function UnitPath(u: Unit): string
  {
    match u
    case KubeletUnit => KubeletServiceFile
    case KubeadmDropIn => KubeletSystemdConfFile
  }

  /**
   * `assets.NewMemoryAssetTarget` splits the target path into directory and
   * name (lemma UnitSplit); the split is written out here.
   */
  function UnitPlan(u: Unit, texts: UnitTexts): Planned
  {
    match u
    case KubeletUnit => Planned(Memory(texts.service), "/etc/systemd/system", "kubelet.service", UnitMode)
    case KubeadmDropIn => Planned(Memory(texts.dropIn), "/etc/systemd/system/kubelet.service.d", "10-kubeadm.conf", UnitMode)
  }

  function BinaryPlan(h: Host, version: string, bin: string): Planned
  {
    Planned(Local(LocalK8sKitFilePath(h, bin, version)), BinDir, bin, BinaryMode)
  }

  function GuestKubectlPlan(h: Host, version: string): Planned
  {
    Planned(Local(LocalK8sKitFilePath(h, GuestKubeCtlBinaryName, version)), BinDir, KubeCtlBinaryName, BinaryMode)
  }

  function CniPlan(h: Host, version: string, plugin: string): Planned
  {
    Planned(Local(Join(LocalK8sKitPath(h, CNIKits, version), plugin)), CniDir, plugin, BinaryMode)
  }

  function BinaryPlans(h: Host, version: string, names: seq<string>): (plans: seq<Planned>)
    ensures |plans| == |names|
    ensures forall i | 0 <= i < |names| :: plans[i] == BinaryPlan(h, version, names[i])
  {
    if names == [] then [] else [BinaryPlan(h, version, names[0])] + BinaryPlans(h, version, names[1..])
  }

  function CniPlans(h: Host, version: string, plugins: seq<string>): (plans: seq<Planned>)
    ensures |plans| == |plugins|
    ensures forall i | 0 <= i < |plugins| :: plans[i] == CniPlan(h, version, plugins[i])
  {
    if plugins == [] then [] else [CniPlan(h, version, plugins[0])] + CniPlans(h, version, plugins[1..])
  }

  /** Every file a node receives, in the order they are copied. */
  function NodePlan(h: Host, version: string, texts: UnitTexts): (plan: seq<Planned>)
  {
    [UnitPlan(KubeletUnit, texts), UnitPlan(KubeadmDropIn, texts)] + BinaryPlans(h, version, NodeBinaries) +
    [GuestKubectlPlan(h, version)] + CniPlans(h, version, CniPlugins)
  }

  predicate Present(p: Planned, files: map<string, string>) {
    p.source.Memory? || p.source.path in files
  }

  /** `NewFileAsset` opens the file: the asset with its bytes. */
  function Load(p: Planned, files: map<string, string>): (a: Asset)
    requires Present(p, files)
    ensures a.targetDir == p.targetDir && a.targetName == p.targetName && a.permissions == p.permissions
  {
    var content := match p.source
      case Memory(text) => text
      case Local(path) => files[path];
    Asset(content, p.targetDir, p.targetName, p.permissions)
  }

  /** The assets opened so far, or the first file that could not be opened. */
  datatype Gathered = Opened(assets: seq<Asset>) | Missing(path: string)

  /**
   * Opening the planned files in order: the first one missing from the cache
   * ends it with that file's path.
   */
  function Gather(plan: seq<Planned>, files: map<string, string>): (g: Gathered)
    ensures g.Opened? ==> |g.assets| == |plan|
  {
    if plan == [] then Opened([])
    else
      match Gather(plan[..|plan| - 1], files)
      case Missing(path) => Missing(path)
      case Opened(assets) =>
        var p := Last(plan);
        if Present(p, files) then Opened(assets + [Load(p, files)]) else Missing(p.source.path)
  }

  /** One more file, read from the gathering of the ones before it. */
  lemma GatherNext(plan: seq<Planned>, files: map<string, string>, k: nat)
    requires k < |plan|
    ensures Gather(plan[..k + 1], files) ==
      match Gather(plan[..k], files)
      case Missing(path) => Missing(path)
      case Opened(assets) =>
        if Present(plan[k], files) then Opened(assets + [Load(plan[k], files)]) else Missing(plan[k].source.path)
  {
    assert plan[..k + 1][..k] == plan[..k];
  }

  /** Once a file is missing, the files after it change nothing. */
  lemma {:induction false} GatherStops(plan: seq<Planned>, files: map<string, string>, k: nat)
    requires k <= |plan| && Gather(plan[..k], files).Missing?
    ensures Gather(plan, files) == Gather(plan[..k], files)
    decreases |plan| - k
  {
    if k < |plan| {
      GatherNext(plan, files, k);
      GatherStops(plan, files, k + 1);
    } else {
      assert plan[..k] == plan;
    }
  }

  /** Gathering opens every file exactly when all are there, each asset loaded from its plan entry. */
  lemma {:induction false} GatherOpened(plan: seq<Planned>, files: map<string, string>)
    ensures Gather(plan, files).Opened? <==> forall i | 0 <= i < |plan| :: Present(plan[i], files)
    ensures Gather(plan, files).Opened? ==>
      forall i | 0 <= i < |plan| :: Gather(plan, files).assets[i] == Load(plan[i], files)
  {
    if plan != [] {
      var init := plan[..|plan| - 1];
      GatherOpened(init, files);
      assert forall i | 0 <= i < |init| :: init[i] == plan[i];
    }
  }

  /** The path gathering stops at is the first file missing from the cache. */
  lemma {:induction false} GatherMissing(plan: seq<Planned>, files: map<string, string>)
    requires Gather(plan, files).Missing?
    ensures exists k | 0 <= k < |plan| ::
      !Present(plan[k], files) && plan[k].source.path == Gather(plan, files).path &&
      forall i | 0 <= i < k :: Present(plan[i], files)
  {
    var init := plan[..|plan| - 1];
    assert forall i | 0 <= i < |init| :: init[i] == plan[i];
    if Gather(init, files).Missing? {
      GatherMissing(init, files);
    } else {
      GatherOpened(init, files);
      assert !Present(plan[|plan| - 1], files);
    }
  }

  /** The copies of all the assets, one after the other. */
  function CopyAll(ip: string, assets: seq<Asset>): (cs: seq<Call>)
  {
    if assets == [] then [] else CopyScript(ip, assets[0]) + CopyAll(ip, assets[1..])
  }

  lemma {:induction false} CopyAllAppend(ip: string, a: seq<Asset>, b: seq<Asset>)
    ensures CopyAll(ip, a + b) == CopyAll(ip, a) + CopyAll(ip, b)
  {
    if a == [] {
      assert a + b == b;
    } else {
      assert (a + b)[1..] == a[1..] + b;
      CopyAllAppend(ip, a[1..], b);
    }
  }

  /** Copying a list is copying its first `k` assets, then the rest. */
  lemma CopyAllSplit(ip: string, assets: seq<Asset>, k: nat)
    requires k <= |assets|
    ensures CopyAll(ip, assets) == CopyAll(ip, assets[..k]) + CopyAll(ip, assets[k..])
  {
    assert assets == assets[..k] + assets[k..];
    CopyAllAppend(ip, assets[..k], assets[k..]);
  }

  /** Copying one more asset adds its three calls at the end. */
  lemma CopyAllSnoc(ip: string, assets: seq<Asset>, k: nat)
    requires k < |assets|
    ensures CopyAll(ip, assets[..k + 1]) == CopyAll(ip, assets[..k]) + CopyScript(ip, assets[k])
  {
    assert assets[..k + 1] == assets[..k] + [assets[k]];
    CopyAllAppend(ip, assets[..k], [assets[k]]);
    assert CopyAll(ip, [assets[k]]) == CopyScript(ip, assets[k]) + CopyAll(ip, []);
  }

  /** After the copies: the firewall policy, the host name, then the services. */
  function ConfigureCommands(ip: string, vmName: string): seq<Call>
  {
    [Exec(ip, IptablesCommand), Exec(ip, "hostname " + vmName), Exec(ip, ServicesCommand)]
  }

  /** `GetSSHRunner`: the private key must be on disk before the guest is dialled. */
  function Dialled(env: Env, s: State, h: Host, ip: string): (o: Outcome)
    ensures s.trace <= o.state.trace
  {
    if VMPrivateKeyPath(h) !in s.files then Outcome(s, Some(MissingFile(VMPrivateKeyPath(h))))
    else Run(env, s, [Dial(ip)])
  }

  /** `PrepareVM`: gather the files, connect, copy them in order, then configure. */
  function PrepareOutcome(env: Env, s: State, h: Host, version: string, texts: UnitTexts, ip: string, vmName: string): (o: Outcome)
    ensures s.trace <= o.state.trace
  {
    match Gather(NodePlan(h, version, texts), s.files)
    case Missing(path) => Outcome(s, Some(MissingFile(path)))
    case Opened(assets) =>
      var d := Dialled(env, s, h, ip);
      if d.err.Some? then d
      else Run(env, d.state, CopyAll(ip, assets) + ConfigureCommands(ip, vmName))
  }

  /** `UpdateWorkerNode`: connect, prepare, reset (its failure ignored), then join. */
  function UpdateOutcome(env: Env, s: State, h: Host, version: string, texts: UnitTexts, ip: string, vmName: string, join: string): (o: Outcome)
    ensures s.trace <= o.state.trace
    ensures o.err.None? ==> |o.state.trace| > |s.trace| && Last(o.state.trace) == Exec(ip, join)
  {
    var d := Dialled(env, s, h, ip);
    if d.err.Some? then d
    else
      var p := PrepareOutcome(env, d.state, h, version, texts, ip, vmName);
      if p.err.Some? then p
      else Run(env, Step(env, p.state, Exec(ip, ResetCommand)), [Exec(ip, join)])
  }

  // ------------------------------------------------------------ properties

  lemma PlanSize(h: Host, version: string, texts: UnitTexts)
    ensures |NodePlan(h, version, texts)| == 19
  {
  }

  /** `NewMemoryAssetTarget` splits the kubelet unit's path at its last slash. */
  lemma ServiceTarget()
    ensures Dir(KubeletServiceFile) == "/etc/systemd/system" && Base(KubeletServiceFile) == "kubelet.service"
  {
    SplitPath(KubeletServiceFile, "/etc/systemd/system", "kubelet.service");
  }

  lemma DropInTarget()
    ensures Dir(KubeletSystemdConfFile) == "/etc/systemd/system/kubelet.service.d"
    ensures Base(KubeletSystemdConfFile) == "10-kubeadm.conf"
  {
    SplitPath(KubeletSystemdConfFile, "/etc/systemd/system/kubelet.service.d", "10-kubeadm.conf");
  }

  /** The unit targets are the directory and name of the unit paths; both are mode 0640. */
  lemma UnitSplit(u: Unit, texts: UnitTexts)
    ensures UnitPlan(u, texts).targetDir == Dir(UnitPath(u)) && UnitPlan(u, texts).targetName == Base(UnitPath(u))
    ensures UnitPlan(u, texts).source == Memory(if u == KubeletUnit then texts.service else texts.dropIn) && UnitPlan(u, texts).permissions == "0640"
  {
    match u
    case KubeletUnit => ServiceTarget();
    case KubeadmDropIn => DropInTarget();
  }

  /** First the kubelet unit, then its kubeadm drop-in. */
  lemma PlanUnits(h: Host, version: string, texts: UnitTexts)
    ensures NodePlan(h, version, texts)[0] == UnitPlan(KubeletUnit, texts)
    ensures NodePlan(h, version, texts)[1] == UnitPlan(KubeadmDropIn, texts)
  {
  }

  lemma PlanHead(h: Host, version: string, texts: UnitTexts)
    ensures |NodePlan(h, version, texts)| == 19
    ensures NodePlan(h, version, texts)[0] == UnitPlan(KubeletUnit, texts)
    ensures NodePlan(h, version, texts)[1] == UnitPlan(KubeadmDropIn, texts)
    ensures NodePlan(h, version, texts)[5] == GuestKubectlPlan(h, version)
  {
  }

  lemma PlanBinaryAt(h: Host, version: string, texts: UnitTexts, j: nat)
    requires j < |NodeBinaries|
    ensures NodePlan(h, version, texts)[2 + j] == BinaryPlan(h, version, NodeBinaries[j])
  {
  }

  lemma PlanCniAt(h: Host, version: string, texts: UnitTexts, j: nat)
    requires j < |CniPlugins|
    ensures NodePlan(h, version, texts)[6 + j] == CniPlan(h, version, CniPlugins[j])
  {
  }

  /** Then kubeadm, kubelet and crictl from the cache into /usr/bin, mode 0750. */
  lemma PlanBinaries(h: Host, version: string, texts: UnitTexts)
    ensures NodePlan(h, version, texts)[2..5] == [
      Planned(Local(LocalK8sKitFilePath(h, "kubeadm", version)), "/usr/bin", "kubeadm", "0750"),
      Planned(Local(LocalK8sKitFilePath(h, "kubelet", version)), "/usr/bin", "kubelet", "0750"),
      Planned(Local(LocalK8sKitFilePath(h, "crictl", version)), "/usr/bin", "crictl", "0750")]
  {
  }

  /** Then the guest kubectl, installed under the name kubectl. */
  lemma PlanKubectl(h: Host, version: string, texts: UnitTexts)
    ensures NodePlan(h, version, texts)[5] ==
      Planned(Local(LocalK8sKitFilePath(h, "kubectl.guest", version)), "/usr/bin", "kubectl", "0750")
  {
  }

  /** Last the thirteen CNI plugins, in their listed order, into /opt/cni/bin/. */
  lemma PlanCni(h: Host, version: string, texts: UnitTexts)
    ensures forall i | 0 <= i < 13 :: (NodePlan(h, version, texts)[6 + i] ==
      Planned(Local(Join(LocalK8sKitPath(h, "cni.tgz", version), CniPlugins[i])), "/opt/cni/bin/", CniPlugins[i], "0750"))
  {
  }

  /** A missing cache file is reported before the guest is even dialled. */
  lemma MissingBeforeAnyCall(env: Env, s: State, h: Host, version: string, texts: UnitTexts, ip: string, vmName: string)
    requires Gather(NodePlan(h, version, texts), s.files).Missing?
    ensures PrepareOutcome(env, s, h, version, texts, ip, vmName) ==
      Outcome(s, Some(MissingFile(Gather(NodePlan(h, version, texts), s.files).path)))
  {
  }

  /**
   * A preparation that went through dialled the guest, copied every planned
   * file in order, then ran the three configuration commands, and nothing else.
   */
  lemma PrepareTrace(env: Env, s: State, h: Host, version: string, texts: UnitTexts, ip: string, vmName: string)
    requires PrepareOutcome(env, s, h, version, texts, ip, vmName).err.None?
    ensures Gather(NodePlan(h, version, texts), s.files).Opened?
    ensures PrepareOutcome(env, s, h, version, texts, ip, vmName).state.trace ==
      s.trace + [Dial(ip)] + CopyAll(ip, Gather(NodePlan(h, version, texts), s.files).assets) + ConfigureCommands(ip, vmName)
  {
    var g := Gather(NodePlan(h, version, texts), s.files);
    assert g.Opened?;
    var d := Dialled(env, s, h, ip);
    assert d.err.None? && d.state.trace == s.trace + [Dial(ip)];
    var script := CopyAll(ip, g.assets) + ConfigureCommands(ip, vmName);
    assert PrepareOutcome(env, s, h, version, texts, ip, vmName) == Run(env, d.state, script);
    assert Run(env, d.state, script).state.trace == d.state.trace + script;
  }

  /** A failed copy stops the preparation: none of the configuration commands runs. */
  lemma CopyFailureStops(env: Env, s: State, ip: string, vmName: string, assets: seq<Asset>)
    requires !Succeeds(env, s, CopyAll(ip, assets))
    ensures Run(env, s, CopyAll(ip, assets) + ConfigureCommands(ip, vmName)) == Run(env, s, CopyAll(ip, assets))
  {
    RunAppend(env, s, CopyAll(ip, assets), ConfigureCommands(ip, vmName));
  }

  /**
   * Once preparation went through, the reset's own failure does not matter:
   * the result is the join command's, and the join is the last call made.
   */
  lemma ResetIgnored(env: Env, s: State, h: Host, version: string, texts: UnitTexts, ip: string, vmName: string, join: string)
    requires Dialled(env, s, h, ip).err.None?
    requires PrepareOutcome(env, Dialled(env, s, h, ip).state, h, version, texts, ip, vmName).err.None?
    ensures var p := PrepareOutcome(env, Dialled(env, s, h, ip).state, h, version, texts, ip, vmName).state;
      var o := UpdateOutcome(env, s, h, version, texts, ip, vmName, join);
      o.state.trace == p.trace + [Exec(ip, ResetCommand), Exec(ip, join)] &&
      (o.err.None? <==> env.accepts(p.trace + [Exec(ip, ResetCommand)], Exec(ip, join)))
  {
    var p := PrepareOutcome(env, Dialled(env, s, h, ip).state, h, version, texts, ip, vmName).state;
    RunOne(env, Step(env, p, Exec(ip, ResetCommand)), Exec(ip, join));
  }

  // --------------------------------------------------------------- methods

  method GetSshRunner(world: World, h: Host, ip: string) returns (runner: SshRunner?, err: Option<Error>)
    modifies world
    ensures Outcome(world.now, err) == Dialled(world.env, old(world.now), h, ip)
    ensures err.None? ==> runner != null && runner.world == world && runner.ip == ip
  {
    if VMPrivateKeyPath(h) !in world.now.files {
      return null, Some(MissingFile(VMPrivateKeyPath(h)));
    }
    RunOne(world.env, world.now, Dial(ip));
    var ok := world.Issue(Dial(ip));
    if !ok {
      return null, Some(Refused(Dial(ip)));
    }
    runner := new SshRunner(ip, world);
    err := None;
  }

  /** The three loops that build the file list; a file the cache lacks is the error. */
  method NodeAssets(files: map<string, string>, h: Host, version: string, texts: UnitTexts)
    returns (assets: seq<Asset>, err: Option<Error>)
    ensures err.None? ==> Gather(NodePlan(h, version, texts), files) == Opened(assets)
    ensures err.Some? ==> err.value.MissingFile? && Gather(NodePlan(h, version, texts), files) == Missing(err.value.path)
  {
    ghost var plan := NodePlan(h, version, texts);
    PlanHead(h, version, texts);
    assets := [Load(UnitPlan(KubeletUnit, texts), files), Load(UnitPlan(KubeadmDropIn, texts), files)];
    GatherNext(plan, files, 0);
    GatherNext(plan, files, 1);
    for j := 0 to |NodeBinaries|
      invariant Gather(plan[..2 + j], files) == Opened(assets)
    {
      var bin := NodeBinaries[j];
      var src := LocalK8sKitFilePath(h, bin, version);
      PlanBinaryAt(h, version, texts, j);
      GatherNext(plan, files, 2 + j);
      if src !in files {
        GatherStops(plan, files, 3 + j);
        return [], Some(MissingFile(src));
      }
      assets := assets + [Asset(files[src], BinDir, bin, BinaryMode)];
    }
    var src := LocalK8sKitFilePath(h, GuestKubeCtlBinaryName, version);
    GatherNext(plan, files, 5);
    if src !in files {
      GatherStops(plan, files, 6);
      return [], Some(MissingFile(src));
    }
    assets := assets + [Asset(files[src], BinDir, KubeCtlBinaryName, BinaryMode)];
    for j := 0 to |CniPlugins|
      invariant Gather(plan[..6 + j], files) == Opened(assets)
    {
      var bin := CniPlugins[j];
      var binPath := Join(LocalK8sKitPath(h, CNIKits, version), bin);
      PlanCniAt(h, version, texts, j);
      GatherNext(plan, files, 6 + j);
      if binPath !in files {
        GatherStops(plan, files, 7 + j);
        return [], Some(MissingFile(binPath));
      }
      assets := assets + [Asset(files[binPath], CniDir, bin, BinaryMode)];
    }
    assert plan[..19] == plan;
    err := None;
  }

  method PrepareVm(world: World, h: Host, version: string, texts: UnitTexts, node: K8sNode) returns (err: Option<Error>)
    modifies world
    ensures Outcome(world.now, err) == PrepareOutcome(world.env, old(world.now), h, version, texts, node.ip, node.vmName)
  {
    ghost var s0 := world.now;
    var assets;
    assets, err := NodeAssets(world.now.files, h, version, texts);
    if err.Some? {
      return;
    }
    var runner;
    runner, err := GetSshRunner(world, h, node.ip);
    if err.Some? {
      return;
    }
    ghost var s1 := world.now;
    ghost var rest := ConfigureCommands(node.ip, node.vmName);
    RunAppend(world.env, s1, CopyAll(node.ip, assets), rest);
    err := CopyFiles(runner, assets);
    if err.Some? {
      return;
    }
    ghost var s2 := world.now;
    RunCons(world.env, s2, rest[0], rest[1..]);
    err := runner.Run(IptablesCommand);
    if err.Some? {
      return;
    }
    RunCons(world.env, world.now, rest[1], rest[2..]);
    err := runner.Run("hostname " + node.vmName);
    if err.Some? {
      return;
    }
    RunOne(world.env, world.now, rest[2]);
    assert rest[2..] == [rest[2]];
    err := runner.Run(ServicesCommand);
  }

  /** `PrepareVM`'s copy loop: each file in turn, stopping at the first that fails. */
  method CopyFiles(runner: SshRunner, assets: seq<Asset>) returns (err: Option<Error>)
    modifies runner.world
    ensures Outcome(runner.world.now, err) == Run(runner.world.env, old(runner.world.now), CopyAll(runner.ip, assets))
  {
    ghost var env := runner.world.env;
    ghost var s1 := runner.world.now;
    ghost var ip := runner.ip;
    for i := 0 to |assets|
      invariant Outcome(runner.world.now, None) == Run(env, s1, CopyAll(ip, assets[..i]))
    {
      ghost var done := CopyAll(ip, assets[..i]);
      ghost var next := CopyScript(ip, assets[i]);
      CopyAllSnoc(ip, assets, i);
      RunAppend(env, s1, done, next);
      err := runner.Copy(assets[i]);
      if err.Some? {
        CopyAllSplit(ip, assets, i + 1);
        RunAppend(env, s1, done + next, CopyAll(ip, assets[i + 1..]));
        return;
      }
    }
    assert assets[..|assets|] == assets;
    err := None;
  }

  method UpdateWorkerNode(world: World, h: Host, version: string, texts: UnitTexts, node: K8sNode, nodes: K8sNodes)
    returns (err: Option<Error>)
    modifies world
    ensures Outcome(world.now, err) ==
      UpdateOutcome(world.env, old(world.now), h, version, texts, node.ip, node.vmName, nodes.joinString)
  {
    var runner;
    runner, err := GetSshRunner(world, h, node.ip);
    if err.Some? {
      return;
    }
    err := PrepareVm(world, h, version, texts, node);
    if err.Some? {
      return;
    }
    var ignored := runner.Run(ResetCommand);
    err := runner.Run(nodes.joinString);
  }
}
