/**
 * Bringing a cluster up (pkg/kubev/deployer/deploy_nodes.go): a key pair, the
 * master, the workers in list order, then the readiness flags, the inventory
 * and the uploads of kubev's own files to the master. Removing one worker from
 * Kubernetes and the credential-free copy of the configuration live here too.
 */
module DeployNodes {

  import opened Wrappers
  import opened GoStrings
  import opened Constants
  import opened Model
  import opened Platform
  import opened OperateVm
  import opened OperateVsphere
  import opened DeployWorker

  /**
   * Values the deployer takes from code that is not part of this model: where
   * the inventory, the configuration and the two keys are uploaded to on the
   * master, the scratch file the redacted configuration is written to, and the
   * command (`constants.DeleteWorkNode` filled with a node's name) that removes
   * a node from Kubernetes.
   */
  datatype Elsewhere = Elsewhere(
    remoteInventory: string,
    remoteConfig: string,
    remotePrivateKey: string,
    remotePublicKey: string,
    tmpConfig: string,
    deleteWorkNode: string -> string)

  // ------------------------------------------------------------ redaction

  /** What the credentials are replaced with in the copy uploaded to the master. */
  const CredentialPlaceholder := "github.com/jeffwubj/kubev"

  /** `setTmpViperToExcludeCredential`: the answers with both credentials replaced. */
  function Redacted(a: Answers): (r: Answers)
    ensures r.username == CredentialPlaceholder && r.password == CredentialPlaceholder
    ensures r.(username := a.username, password := a.password) == a
  {
    a.(username := CredentialPlaceholder, password := CredentialPlaceholder)
  }

  // ------------------------------------------------------------ node specs

  function WorkerPrefix(a: Answers): string
  {
    if a.isVCenter then "kubev-vc-worker" else "kubev-esx-worker"
  }

  /** `fmt.Sprintf("%s-%d", worker, i)`. */
  function WorkerName(a: Answers, i: nat): string
  {
    WorkerPrefix(a) + "-" + Itoa(i)
  }

  /** A node the deployer is about to create: a name and a role, not ready, nothing else known. */
  function NodeSpec(name: string, master: bool): NodeRecord
  {
    NodeRecord(name, "", "", "", "", "", master, false)
  }

  function MasterSpec(a: Answers): NodeRecord
  {
    NodeSpec(MasterName(a), true)
  }

  /** The workers `DeployNodes` plans: `<prefix>-1` to `<prefix>-N`, none when N is below one. */
  function WorkerSpecs(a: Answers, count: int): (ws: seq<NodeRecord>)
    ensures |ws| == if count < 0 then 0 else count
    ensures forall k | 0 <= k < |ws| :: ws[k] == NodeSpec(WorkerName(a, k + 1), false)
    decreases count
  {
    if count <= 0 then [] else WorkerSpecs(a, count - 1) + [NodeSpec(WorkerName(a, count), false)]
  }

  /** Two workers share a name only when they share an index. */
  lemma WorkerNamesDistinct(a: Answers, i: nat, j: nat)
    ensures WorkerName(a, i) == WorkerName(a, j) <==> i == j
  {
    if WorkerName(a, i) == WorkerName(a, j) {
      var n := |WorkerPrefix(a)| + 1;
      assert Itoa(i) == WorkerName(a, i)[n..];
      assert Itoa(j) == WorkerName(a, j)[n..];
      ItoaInjective(i, j);
    }
  }

  /** No worker is named like the master. */
  lemma WorkerIsNotMaster(a: Answers, i: nat)
    ensures WorkerName(a, i) != MasterName(a)
  {
    var k := if a.isVCenter then 9 else 10;
    assert WorkerName(a, i)[k] == 'w';
    assert MasterName(a)[k] == 'm';
  }

  /** The planned workers have pairwise distinct names. */
  lemma PlannedNamesDistinct(a: Answers, count: int)
    ensures var ws := WorkerSpecs(a, count);
      forall k, l | 0 <= k < |ws| && 0 <= l < |ws| :: ws[k].vmName == ws[l].vmName <==> k == l
  {
    var ws := WorkerSpecs(a, count);
    forall k, l | 0 <= k < |ws| && 0 <= l < |ws|
      ensures ws[k].vmName == ws[l].vmName <==> k == l
    {
      assert ws[k].vmName == WorkerName(a, k + 1) && ws[l].vmName == WorkerName(a, l + 1);
      WorkerNamesDistinct(a, k + 1, l + 1);
    }
  }

  /** None of the planned workers is named like the master. */
  lemma PlannedNotMaster(a: Answers, count: int)
    ensures var ws := WorkerSpecs(a, count);
      forall k | 0 <= k < |ws| :: ws[k].vmName != MasterName(a)
  {
    var ws := WorkerSpecs(a, count);
    forall k | 0 <= k < |ws|
      ensures ws[k].vmName != MasterName(a)
    {
      assert ws[k].vmName == WorkerName(a, k + 1);
      WorkerIsNotMaster(a, k + 1);
    }
  }

  // ------------------------------------------------------------ specification

  /** `generateSSHKey`: a key pair is made unless both halves are already on disk. */
  function KeysOutcome(env: Env, s: State, h: Host): (o: Outcome)
    ensures o.state.vms == s.vms
    ensures o.err.Some? ==> o.err == Some(Refused(GenerateKeys(VMPrivateKeyPath(h), VMPublicKeyPath(h))))
  {
    if VMPrivateKeyPath(h) in s.files && VMPublicKeyPath(h) in s.files then Outcome(s, None)
    else Do(env, s, GenerateKeys(VMPrivateKeyPath(h), VMPublicKeyPath(h)))
  }

  /** Once `generateSSHKey` returned nil both halves of the key pair are on disk. */
  lemma KeysPresent(env: Env, s: State, h: Host)
    requires KeysOutcome(env, s, h).err.None?
    ensures VMPrivateKeyPath(h) in KeysOutcome(env, s, h).state.files
    ensures VMPublicKeyPath(h) in KeysOutcome(env, s, h).state.files
    ensures KeysOutcome(env, s, h).state.trace == s.trace ||
      KeysOutcome(env, s, h).state.trace == s.trace + [GenerateKeys(VMPrivateKeyPath(h), VMPublicKeyPath(h))]
  {
  }

  /**
   * What both kinds of node go through first: `CreateVM`, then the purge of
   * the guest's old host key (whatever that returns), then `ConfigVM`.
   */
  function ProvisionOutcome(env: Env, s: State, h: Host, a: Answers, n: NodeRecord): (c: Created)
    ensures c.node.vmName == n.vmName && c.node.masterNode == n.masterNode && c.node.ready == n.ready
    ensures CreateVmOutcome(env, s, h, a, n).o.err.Some? ==> c == CreateVmOutcome(env, s, h, a, n)
  {
    var created := CreateVmOutcome(env, s, h, a, n);
    if created.o.err.Some? then created
    else
      var ip := created.node.ip;
      Created(ConfigVmOutcome(env, Step(env, created.o.state, PurgeKnownHosts(ip)), h, ip), created.node)
  }

  /** `DeployWorkderNode`: provisioned as above, then joined to the cluster. */
  function WorkerOutcome(env: Env, s: State, h: Host, texts: UnitTexts, a: Answers, n: NodeRecord, join: string)
    : (c: Created)
    ensures c.node.vmName == n.vmName && c.node.masterNode == n.masterNode && c.node.ready == n.ready
    ensures ProvisionOutcome(env, s, h, a, n).o.err.Some? ==> c == ProvisionOutcome(env, s, h, a, n)
  {
    var p := ProvisionOutcome(env, s, h, a, n);
    if p.o.err.Some? then p
    else Created(UpdateOutcome(env, p.o.state, h, a.kubernetesVersion, texts, p.node.ip, p.node.vmName, join), p.node)
  }

  /**
   * A provisioned node keeps its name and role, is still not ready, and
   * records the datacenter the finder answered for the configured one.
   */
  lemma ProvisionKeepsIdentity(env: Env, s: State, h: Host, a: Answers, n: NodeRecord)
    requires ProvisionOutcome(env, s, h, a, n).o.err.None?
    ensures var p := ProvisionOutcome(env, s, h, a, n).node;
      p.vmName == n.vmName && p.masterNode == n.masterNode && p.ready == n.ready &&
      p.datacenterName == FoundDatacenter(env, Deployed(env, s, h, a, n).state, a)
  {
    CreatedNodeRunning(env, s, h, a, n);
  }

  /**
   * `DeployWorkderNode` makes its steps in order and stops at the first error:
   * a failed `CreateVM` is its result; otherwise the purge of the node's host
   * key is the very next call. The record is the one `CreateVM` filled in.
   */
  lemma WorkerStepOrder(env: Env, s: State, h: Host, texts: UnitTexts, a: Answers, n: NodeRecord, join: string)
    ensures var created := CreateVmOutcome(env, s, h, a, n);
      var w := WorkerOutcome(env, s, h, texts, a, n, join);
      w.node == created.node &&
      (created.o.err.Some? ==> w == created) &&
      (created.o.err.None? ==>
        created.o.state.trace < w.o.state.trace &&
        w.o.state.trace[|created.o.state.trace|] == PurgeKnownHosts(created.node.ip))
  {
    var created := CreateVmOutcome(env, s, h, a, n);
    if created.o.err.None? {
      var ip := created.node.ip;
      var purged := Step(env, created.o.state, PurgeKnownHosts(ip));
      var conf := ConfigVmOutcome(env, purged, h, ip);
      assert purged.trace[|created.o.state.trace|] == PurgeKnownHosts(ip);
      assert conf.state.trace[|created.o.state.trace|] == PurgeKnownHosts(ip);
    }
  }

  /** A worker `DeployWorkderNode` deployed ends with the join command run on it. */
  lemma WorkerEndsJoined(env: Env, s: State, h: Host, texts: UnitTexts, a: Answers, n: NodeRecord, join: string)
    requires WorkerOutcome(env, s, h, texts, a, n, join).o.err.None?
    ensures var w := WorkerOutcome(env, s, h, texts, a, n, join);
      |w.o.state.trace| > 0 && Last(w.o.state.trace) == Exec(w.node.ip, join)
  {
  }

  /**
   * The master's part of `DeployNodes`: provisioned, then Kubernetes is
   * initialised on it unless it is already ready; the initialisation answers
   * the join command the workers use.
   */
  datatype Mastered = Mastered(o: Outcome, master: NodeRecord, join: string)

  function MasterOutcome(env: Env, s: State, h: Host, a: Answers, n: NodeRecord): (m: Mastered)
    ensures m.master.vmName == n.vmName && m.master.masterNode == n.masterNode && m.master.ready == n.ready
    ensures m.o.err.Some? || n.ready ==> m.join == ""
  {
    var p := ProvisionOutcome(env, s, h, a, n);
    if p.o.err.Some? || p.node.ready then Mastered(p.o, p.node, "")
    else
      var c := UpdateMaster(p.node.ip);
      var init := Do(env, p.o.state, c);
      Mastered(init, p.node, if init.err.None? then env.reply(p.o.state.trace, c) else "")
  }

  /** Where the worker loop got to: the world, and the deployed records when all succeeded. */
  datatype Fleet = Fleet(o: Outcome, nodes: seq<NodeRecord>)

  /** The rest of the loop's result with the records deployed before it in front. */
  function Resume(done: seq<NodeRecord>, f: Fleet): (r: Fleet)
  {
    Fleet(f.o, if f.o.err.Some? then [] else done + f.nodes)
  }

  lemma ResumeCons(done: seq<NodeRecord>, node: NodeRecord, f: Fleet)
    ensures Resume(done, Resume([node], f)) == Resume(done + [node], f)
  {
    assert done + ([node] + f.nodes) == done + [node] + f.nodes;
  }

  /** What deploying one node does: its outcome from a world state and the node's record. */
  type Deploy = (State, NodeRecord) -> Created

  /** `DeployWorkderNode` with everything but the world and the node fixed. */
  function Deployer(env: Env, h: Host, texts: UnitTexts, a: Answers, join: string): Deploy
  {
    (s: State, n: NodeRecord) => WorkerOutcome(env, s, h, texts, a, n, join)
  }

  /**
   * The worker loop of `DeployNodes` from the `i`-th worker on, each deployed
   * by `deploy` in list order, stopping at the first error.
   */
  function WorkersOutcome(deploy: Deploy, s: State, ws: seq<NodeRecord>, i: nat): (f: Fleet)
    ensures f.o.err.None? ==> |f.nodes| == if i < |ws| then |ws| - i else 0
    ensures f.o.err.Some? ==> f.nodes == []
    decreases |ws| - i
  {
    if |ws| <= i then Fleet(Outcome(s, None), [])
    else
      var c := deploy(s, ws[i]);
      if c.o.err.Some? then Fleet(c.o, [])
      else Resume([c.node], WorkersOutcome(deploy, c.o.state, ws, i + 1))
  }

  /**
   * One worker of the loop: after an error the loop stops there with no nodes,
   * otherwise it goes on with the next worker.
   */
  lemma FleetNext(deploy: Deploy, s: State, ws: seq<NodeRecord>, i: nat, done: seq<NodeRecord>, next: Created)
    requires i < |ws| && next == deploy(s, ws[i])
    ensures next.o.err.Some? ==> Resume(done, WorkersOutcome(deploy, s, ws, i)) == Fleet(next.o, [])
    ensures next.o.err.None? ==>
      Resume(done, WorkersOutcome(deploy, s, ws, i)) ==
      Resume(done + [next.node], WorkersOutcome(deploy, next.o.state, ws, i + 1))
  {
    if next.o.err.None? {
      ResumeCons(done, next.node, WorkersOutcome(deploy, next.o.state, ws, i + 1));
    }
  }

  /** `node` is `spec` once deployed: same name and role, readiness as planned. */
  predicate Placed(spec: NodeRecord, node: NodeRecord)
  {
    node.vmName == spec.vmName && node.masterNode == spec.masterNode && node.ready == spec.ready
  }

  predicate PlacedAll(specs: seq<NodeRecord>, nodes: seq<NodeRecord>)
  {
    |nodes| == |specs| && forall k | 0 <= k < |nodes| :: Placed(specs[k], nodes[k])
  }

  /** Every node `deploy` deploys without error keeps its name, role and readiness. */
  ghost predicate PlacesNodes(deploy: Deploy)
  {
    forall s, n | deploy(s, n).o.err.None? :: Placed(n, deploy(s, n).node)
  }

  /** `DeployWorkderNode` places its node. */
  lemma WorkerPlacesNodes(env: Env, h: Host, texts: UnitTexts, a: Answers, join: string)
    ensures PlacesNodes(Deployer(env, h, texts, a, join))
  {
    forall s, n | Deployer(env, h, texts, a, join)(s, n).o.err.None?
      ensures Placed(n, Deployer(env, h, texts, a, join)(s, n).node)
    {
      ProvisionKeepsIdentity(env, s, h, a, n);
    }
  }

  lemma PlacedCons(a: Answers, ws: seq<NodeRecord>, i: nat, node: NodeRecord, nodes: seq<NodeRecord>)
    requires i < |ws| && Placed(ws[i], node) && PlacedAll(ws[i + 1..], nodes)
    ensures PlacedAll(ws[i..], [node] + nodes)
  {
    assert ws[i..] == [ws[i]] + ws[i + 1..];
  }

  /** Every worker the loop deployed keeps its name, role and readiness, in the order of the plan. */
  lemma {:induction false} WorkersKeepNames(a: Answers, deploy: Deploy, s: State, ws: seq<NodeRecord>, i: nat)
    requires i <= |ws| && PlacesNodes(deploy)
    requires WorkersOutcome(deploy, s, ws, i).o.err.None?
    ensures PlacedAll(ws[i..], WorkersOutcome(deploy, s, ws, i).nodes)
    decreases |ws| - i
  {
    if i < |ws| {
      var c := deploy(s, ws[i]);
      var rest := WorkersOutcome(deploy, c.o.state, ws, i + 1);
      WorkersKeepNames(a, deploy, c.o.state, ws, i + 1);
      PlacedCons(a, ws, i, c.node, rest.nodes);
    }
  }

  /** `Ready = true` on every node, as the loop after the deployment sets it. */
  function AllReady(ns: seq<NodeRecord>): (r: seq<NodeRecord>)
    ensures |r| == |ns|
    ensures forall k | 0 <= k < |ns| :: r[k] == ns[k].(ready := true)
  {
    if ns == [] then [] else [ns[0].(ready := true)] + AllReady(ns[1..])
  }

  /**
   * After the deployment: save the inventory (whatever that returns), upload
   * it to the master, write the redacted configuration to a scratch file,
   * upload that and both keys, stopping at the first failed upload; the
   * deferred delete of the scratch file runs on every way out after it was
   * written.
   */
  function PublishOutcome(env: Env, s: State, h: Host, el: Elsewhere, a: Answers, inv: Inventory, ip: string)
    : (o: Outcome)
  {
    var saved := Step(env, s, SaveInventory(inv));
    var meta := Do(env, saved, Upload(ip, K8sNodesConfigFilePath(h), el.remoteInventory));
    if meta.err.Some? then meta else UploadsOutcome(env, meta.state, h, el, a, ip)
  }

  /** The part of the publishing steps from the scratch configuration file on. */
  function UploadsOutcome(env: Env, s: State, h: Host, el: Elsewhere, a: Answers, ip: string): (o: Outcome)
  {
    var written := Step(env, s, WriteConfig(el.tmpConfig, Redacted(a)));
    var config := Do(env, written, Upload(ip, el.tmpConfig, el.remoteConfig));
    var keys := Then(env, Then(env, config, Upload(ip, VMPrivateKeyPath(h), el.remotePrivateKey)),
      Upload(ip, VMPublicKeyPath(h), el.remotePublicKey));
    Outcome(Step(env, keys.state, DeleteFile(el.tmpConfig)), keys.err)
  }

  /** The result of `DeployNodes`: the world, and the cluster it returns (`None` for nil). */
  datatype Deployment = Deployment(o: Outcome, inventory: Option<Inventory>)

  /** The cluster `DeployNodes` saves: its master and workers all ready. */
  function ReadyCluster(master: NodeRecord, workers: seq<NodeRecord>, join: string): Inventory
  {
    Inventory(Some(master.(ready := true)), AllReady(workers), join)
  }

  /** `DeployNodes`: the keys, then the planned cluster. */
  function DeployNodesOutcome(env: Env, s: State, h: Host, texts: UnitTexts, el: Elsewhere, a: Answers)
    : (d: Deployment)
  {
    var keys := KeysOutcome(env, s, h);
    if keys.err.Some? then Deployment(keys, None) else PlannedOutcome(env, keys.state, h, texts, el, a)
  }

  /** The deployed master's and workers' records and the join command, before the readiness flags. */
  datatype Built = Built(master: NodeRecord, workers: seq<NodeRecord>, join: string)

  /** Where the master's steps and the worker loop got to, and what they built when both succeeded. */
  datatype Building = Building(o: Outcome, built: Option<Built>)

  /**
   * The three stages of `DeployNodes` after the keys, each as a function of
   * the world state it starts from: the master's steps, the deployment of one
   * worker given the join command, and the publishing steps given the cluster
   * and the master's address.
   */
  type MasterStep = (State, NodeRecord) -> Mastered
  type Deploys = string -> Deploy
  type PublishStep = (State, Inventory, string) -> Outcome

  datatype Steps = Steps(master: MasterStep, workers: Deploys, publish: PublishStep)

  /** The stages as kubev performs them. */
  function Kubev(env: Env, h: Host, texts: UnitTexts, el: Elsewhere, a: Answers): Steps
  {
    Steps((s: State, n: NodeRecord) => MasterOutcome(env, s, h, a, n),
      (join: string) => Deployer(env, h, texts, a, join),
      (s: State, inv: Inventory, ip: string) => PublishOutcome(env, s, h, el, a, inv, ip))
  }

  /** `master` is the master's steps of kubev. */
  ghost predicate MasterLink(master: MasterStep, env: Env, h: Host, a: Answers)
  {
    forall s, n {:trigger MasterOutcome(env, s, h, a, n)} :: master(s, n) == MasterOutcome(env, s, h, a, n)
  }

  /** `workers` deploys a worker as `DeployWorkderNode` does. */
  ghost predicate WorkerLink(workers: Deploys, env: Env, h: Host, texts: UnitTexts, a: Answers)
  {
    forall join, s, n {:trigger WorkerOutcome(env, s, h, texts, a, n, join)} ::
      workers(join)(s, n) == WorkerOutcome(env, s, h, texts, a, n, join)
  }

  /** `publish` is the publishing steps of kubev. */
  ghost predicate PublishLink(publish: PublishStep, env: Env, h: Host, el: Elsewhere, a: Answers)
  {
    forall s, inv, ip {:trigger PublishOutcome(env, s, h, el, a, inv, ip)} ::
      publish(s, inv, ip) == PublishOutcome(env, s, h, el, a, inv, ip)
  }

  ghost predicate Implements(steps: Steps, env: Env, h: Host, texts: UnitTexts, el: Elsewhere, a: Answers)
  {
    MasterLink(steps.master, env, h, a) && WorkerLink(steps.workers, env, h, texts, a) &&
    PublishLink(steps.publish, env, h, el, a)
  }

  lemma KubevImplements(env: Env, h: Host, texts: UnitTexts, el: Elsewhere, a: Answers)
    ensures Implements(Kubev(env, h, texts, el, a), env, h, texts, el, a)
  {
  }

  /** The master of the planned cluster, then its planned workers, stopping at the first error. */
  function BuildWith(master: MasterStep, workers: Deploys, s: State, a: Answers): (b: Building)
  {
    var m := master(s, MasterSpec(a));
    if m.o.err.Some? then Building(m.o, None)
    else
      var f := WorkersOutcome(workers(m.join), m.o.state, WorkerSpecs(a, a.workerNodes), 0);
      Building(f.o, if f.o.err.Some? then None else Some(Built(m.master, f.nodes, m.join)))
  }

  /** `DeployNodes` after the keys: the master, the workers, then the publishing steps. */
  function PlannedWith(steps: Steps, s: State, a: Answers): (d: Deployment)
  {
    var b := BuildWith(steps.master, steps.workers, s, a);
    match b.built
    case None => Deployment(b.o, None)
    case Some(c) =>
      var inv := ReadyCluster(c.master, c.workers, c.join);
      Deployment(steps.publish(b.o.state, inv, c.master.ip), Some(inv))
  }

  function PlannedOutcome(env: Env, s: State, h: Host, texts: UnitTexts, el: Elsewhere, a: Answers)
    : (d: Deployment)
  {
    PlannedWith(Kubev(env, h, texts, el, a), s, a)
  }

  // ------------------------------------------------------------ properties

  /**
   * From the scratch configuration file on, no VM is touched: the file is
   * written first, deleted last, and the only error is a refused upload to
   * the master.
   */
  lemma UploadsKeepVms(env: Env, s: State, h: Host, el: Elsewhere, a: Answers, ip: string)
    ensures var o := UploadsOutcome(env, s, h, el, a, ip);
      o.state.vms == s.vms && s.trace < o.state.trace &&
      o.state.trace[|s.trace|] == WriteConfig(el.tmpConfig, Redacted(a)) &&
      Last(o.state.trace) == DeleteFile(el.tmpConfig) &&
      (o.err.Some? ==> o.err.value.Refused? && o.err.value.call.Upload? && o.err.value.call.ip == ip)
  {
    var written := Step(env, s, WriteConfig(el.tmpConfig, Redacted(a)));
    StepInert(env, s, WriteConfig(el.tmpConfig, Redacted(a)));
    var config := Do(env, written, Upload(ip, el.tmpConfig, el.remoteConfig));
    DoInert(env, written, Upload(ip, el.tmpConfig, el.remoteConfig));
    var keys1 := Then(env, config, Upload(ip, VMPrivateKeyPath(h), el.remotePrivateKey));
    ThenInert(env, config, Upload(ip, VMPrivateKeyPath(h), el.remotePrivateKey));
    var keys := Then(env, keys1, Upload(ip, VMPublicKeyPath(h), el.remotePublicKey));
    ThenInert(env, keys1, Upload(ip, VMPublicKeyPath(h), el.remotePublicKey));
    StepInert(env, keys.state, DeleteFile(el.tmpConfig));
    assert written.trace <= keys.state.trace;
  }

  /**
   * The publishing steps never touch the inventory of VMs: a failed upload
   * leaves the deployed cluster in place. The inventory is saved first, and
   * the only error they return is a refused upload to the master.
   */
  lemma PublishKeepsCluster(env: Env, s: State, h: Host, el: Elsewhere, a: Answers, inv: Inventory, ip: string)
    ensures var o := PublishOutcome(env, s, h, el, a, inv, ip);
      o.state.vms == s.vms &&
      |o.state.trace| > |s.trace| && o.state.trace[|s.trace|] == SaveInventory(inv) &&
      (o.err.Some? ==> o.err.value.Refused? && o.err.value.call.Upload? && o.err.value.call.ip == ip)
  {
    var saved := Step(env, s, SaveInventory(inv));
    StepInert(env, s, SaveInventory(inv));
    var meta := Do(env, saved, Upload(ip, K8sNodesConfigFilePath(h), el.remoteInventory));
    DoInert(env, saved, Upload(ip, K8sNodesConfigFilePath(h), el.remoteInventory));
    assert meta.state.trace[|s.trace|] == SaveInventory(inv);
    if meta.err.None? {
      UploadsKeepVms(env, meta.state, h, el, a, ip);
      assert meta.state.trace <= PublishOutcome(env, s, h, el, a, inv, ip).state.trace;
    }
  }

  /**
   * Once the inventory reached the master, the configuration written for
   * upload is the redacted one, and the scratch file is deleted last.
   */
  lemma PublishRedactsAndCleansUp(env: Env, s: State, h: Host, el: Elsewhere, a: Answers, inv: Inventory, ip: string)
    requires env.accepts(s.trace + [SaveInventory(inv)], Upload(ip, K8sNodesConfigFilePath(h), el.remoteInventory))
    ensures var o := PublishOutcome(env, s, h, el, a, inv, ip);
      WriteConfig(el.tmpConfig, Redacted(a)) in o.state.trace && Last(o.state.trace) == DeleteFile(el.tmpConfig)
  {
    var saved := Step(env, s, SaveInventory(inv));
    var meta := Do(env, saved, Upload(ip, K8sNodesConfigFilePath(h), el.remoteInventory));
    UploadsKeepVms(env, meta.state, h, el, a, ip);
  }

  /**
   * A cluster is returned exactly when the keys, the master and every worker
   * succeeded, in that order. Otherwise the error is the failing step's own,
   * so nothing after that step was attempted: no readiness flag was set and
   * no inventory saved.
   */
  lemma DeployFailureStops(env: Env, s: State, h: Host, texts: UnitTexts, el: Elsewhere, a: Answers)
    ensures var d := DeployNodesOutcome(env, s, h, texts, el, a);
      var keys := KeysOutcome(env, s, h);
      var m := MasterOutcome(env, keys.state, h, a, MasterSpec(a));
      var f := WorkersOutcome(Deployer(env, h, texts, a, m.join), m.o.state, WorkerSpecs(a, a.workerNodes), 0);
      (d.inventory.None? <==> keys.err.Some? || m.o.err.Some? || f.o.err.Some?) &&
      (d.inventory.None? ==>
        d.o.err.Some? && d.o == (if keys.err.Some? then keys else if m.o.err.Some? then m.o else f.o))
  {
  }

  /**
   * The cluster `DeployNodes` returns: the master first, named as the master
   * and ready; the planned workers in order, each ready; and the join command
   * the master's initialisation answered.
   */
  lemma DeployedCluster(env: Env, s: State, h: Host, texts: UnitTexts, el: Elsewhere, a: Answers)
    requires DeployNodesOutcome(env, s, h, texts, el, a).inventory.Some?
    ensures var inv := DeployNodesOutcome(env, s, h, texts, el, a).inventory.value;
      var ws := WorkerSpecs(a, a.workerNodes);
      inv.master.Some? && inv.master.value.vmName == MasterName(a) &&
      inv.master.value.masterNode && inv.master.value.ready &&
      inv.joinString == MasterOutcome(env, KeysOutcome(env, s, h).state, h, a, MasterSpec(a)).join &&
      |inv.workers| == |ws| &&
      (forall k | 0 <= k < |ws| ::
        inv.workers[k].vmName == WorkerName(a, k + 1) && !inv.workers[k].masterNode && inv.workers[k].ready)
  {
    var keys := KeysOutcome(env, s, h);
    var m := MasterOutcome(env, keys.state, h, a, MasterSpec(a));
    var ws := WorkerSpecs(a, a.workerNodes);
    var deploy := Deployer(env, h, texts, a, m.join);
    var f := WorkersOutcome(deploy, m.o.state, ws, 0);
    ProvisionKeepsIdentity(env, keys.state, h, a, MasterSpec(a));
    WorkerPlacesNodes(env, h, texts, a, m.join);
    WorkersKeepNames(a, deploy, m.o.state, ws, 0);
    assert ws[0..] == ws;
    ClusterShape(a, m, f);
  }

  /** The saved cluster of a deployment whose master and workers were placed as planned. */
  lemma ClusterShape(a: Answers, m: Mastered, f: Fleet)
    requires Placed(MasterSpec(a), m.master)
    requires PlacedAll(WorkerSpecs(a, a.workerNodes), f.nodes)
    ensures var inv := ReadyCluster(m.master, f.nodes, m.join);
      var ws := WorkerSpecs(a, a.workerNodes);
      inv.master.Some? && inv.master.value.vmName == MasterName(a) &&
      inv.master.value.masterNode && inv.master.value.ready && inv.joinString == m.join &&
      |inv.workers| == |ws| &&
      (forall k | 0 <= k < |ws| ::
        inv.workers[k].vmName == WorkerName(a, k + 1) && !inv.workers[k].masterNode && inv.workers[k].ready)
  {
  }

  /**
   * Upload failures do not undo the deployment: the cluster is returned with
   * the error, and every VM stays as the worker loop left it.
   */
  lemma UploadFailureKeepsCluster(env: Env, s: State, h: Host, texts: UnitTexts, el: Elsewhere, a: Answers)
    requires DeployNodesOutcome(env, s, h, texts, el, a).inventory.Some?
    ensures var d := DeployNodesOutcome(env, s, h, texts, el, a);
      var keys := KeysOutcome(env, s, h);
      var m := MasterOutcome(env, keys.state, h, a, MasterSpec(a));
      var f := WorkersOutcome(Deployer(env, h, texts, a, m.join), m.o.state, WorkerSpecs(a, a.workerNodes), 0);
      d.o.state.vms == f.o.state.vms &&
      (d.o.err.Some? ==>
        d.o.err.value.Refused? && d.o.err.value.call.Upload? && d.o.err.value.call.ip == m.master.ip)
  {
    var keys := KeysOutcome(env, s, h);
    var m := MasterOutcome(env, keys.state, h, a, MasterSpec(a));
    var f := WorkersOutcome(Deployer(env, h, texts, a, m.join), m.o.state, WorkerSpecs(a, a.workerNodes), 0);
    assert keys.err.None? && m.o.err.None? && f.o.err.None?;
    var inv := ReadyCluster(m.master, f.nodes, m.join);
    assert DeployNodesOutcome(env, s, h, texts, el, a).o == PublishOutcome(env, f.o.state, h, el, a, inv, m.master.ip);
    PublishKeepsCluster(env, f.o.state, h, el, a, inv, m.master.ip);
  }

  // ------------------------------------------------------------ removal

  /** `DeleteWorkerNodeFromKubenretes`: on the master, run the command that drops the node. */
  function RemovalOutcome(env: Env, s: State, h: Host, el: Elsewhere, masterIp: string, name: string): (o: Outcome)
  {
    var d := Dialled(env, s, h, masterIp);
    if d.err.Some? then d else Do(env, d.state, Exec(masterIp, el.deleteWorkNode(name)))
  }

  /**
   * The removal command runs on the master, after it was dialled with the
   * private key; without the key nothing is attempted.
   */
  lemma RemovalOnMaster(env: Env, s: State, h: Host, el: Elsewhere, masterIp: string, name: string)
    ensures var o := RemovalOutcome(env, s, h, el, masterIp, name);
      (VMPrivateKeyPath(h) !in s.files ==> o == Outcome(s, Some(MissingFile(VMPrivateKeyPath(h))))) &&
      (o.err.None? ==> o.state.trace == s.trace + [Dial(masterIp), Exec(masterIp, el.deleteWorkNode(name))])
  {
    if VMPrivateKeyPath(h) in s.files {
      RunOne(env, s, Dial(masterIp));
    }
  }

  // ------------------------------------------------------------ methods

  /** `generateSSHKey`. */
  method GenerateSshKey(world: World, h: Host) returns (err: Option<Error>)
    modifies world
    ensures Outcome(world.now, err) == KeysOutcome(world.env, old(world.now), h)
  {
    if VMPrivateKeyPath(h) in world.now.files && VMPublicKeyPath(h) in world.now.files {
      return None;
    }
    err := world.Call(GenerateKeys(VMPrivateKeyPath(h), VMPublicKeyPath(h)));
  }

  /** The loop that lists the workers, each a new node. */
  method PlanWorkers(a: Answers) returns (workers: seq<K8sNode>)
    ensures Records(workers) == WorkerSpecs(a, a.workerNodes)
    ensures forall k | 0 <= k < |workers| :: fresh(workers[k])
    ensures forall k, l | 0 <= k < l < |workers| :: workers[k] != workers[l]
  {
    workers := [];
    var i := 1;
    while i <= a.workerNodes
      invariant 1 <= i <= (if a.workerNodes < 0 then 0 else a.workerNodes) + 1
      invariant |workers| == i - 1
      invariant forall k | 0 <= k < |workers| ::
        fresh(workers[k]) && workers[k].Record() == NodeSpec(WorkerName(a, k + 1), false)
      invariant forall k, l | 0 <= k < l < |workers| :: workers[k] != workers[l]
      decreases a.workerNodes - i
    {
      var node := new K8sNode(WorkerName(a, i), false);
      workers := workers + [node];
      i := i + 1;
    }
    ghost var ws := WorkerSpecs(a, a.workerNodes);
    assert |Records(workers)| == |ws|;
    assert forall k | 0 <= k < |ws| :: Records(workers)[k] == ws[k];
  }

  /** `CreateVM`, the known-hosts purge, `ConfigVM`. */
  method Provision(world: World, h: Host, a: Answers, node: K8sNode) returns (err: Option<Error>)
    modifies world, node
    ensures Created(Outcome(world.now, err), node.Record()) ==
      ProvisionOutcome(world.env, old(world.now), h, a, old(node.Record()))
  {
    err := CreateVm(world, h, a, node);
    if err.Some? {
      return;
    }
    var purged := world.Issue(PurgeKnownHosts(node.ip));
    err := ConfigVm(world, h, node);
  }

  method DeployWorkderNode(world: World, h: Host, texts: UnitTexts, a: Answers, node: K8sNode, nodes: K8sNodes)
    returns (err: Option<Error>)
    modifies world, node
    ensures Created(Outcome(world.now, err), node.Record()) ==
      WorkerOutcome(world.env, old(world.now), h, texts, a, old(node.Record()), nodes.joinString)
  {
    err := Provision(world, h, a, node);
    if err.Some? {
      return;
    }
    err := UpdateWorkerNode(world, h, a.kubernetesVersion, texts, node, nodes);
  }

  /** One pass of the worker loop: `DeployWorkderNode`, whose outcome is the loop's `deploy`. */
  method DeployNext(world: World, h: Host, texts: UnitTexts, a: Answers, node: K8sNode, nodes: K8sNodes,
    ghost join: string, ghost deploys: Deploys) returns (err: Option<Error>)
    requires nodes.joinString == join && WorkerLink(deploys, world.env, h, texts, a)
    modifies world, node
    ensures Created(Outcome(world.now, err), node.Record()) == deploys(join)(old(world.now), old(node.Record()))
  {
    err := DeployWorkderNode(world, h, texts, a, node, nodes);
  }

  /** `UpdateMasterNode` is not part of this model: a call whose answer is the join command. */
  method UpdateMasterNode(world: World, nodes: K8sNodes) returns (err: Option<Error>)
    requires nodes.masterNode != null
    modifies world, nodes
    ensures nodes.masterNode == old(nodes.masterNode) && nodes.workerNodes == old(nodes.workerNodes)
    ensures Outcome(world.now, err) == Do(world.env, old(world.now), UpdateMaster(nodes.masterNode.ip))
    ensures nodes.joinString ==
      if err.None? then world.env.reply(old(world.now).trace, UpdateMaster(nodes.masterNode.ip))
      else old(nodes.joinString)
  {
    var ok, reply := world.Ask(UpdateMaster(nodes.masterNode.ip));
    if !ok {
      return Some(Refused(UpdateMaster(nodes.masterNode.ip)));
    }
    nodes.joinString := reply;
    err := None;
  }

  /** The master's steps of `DeployNodes`. */
  method DeployMaster(world: World, h: Host, a: Answers, nodes: K8sNodes, ghost steps: MasterStep)
    returns (err: Option<Error>)
    requires nodes.masterNode != null && nodes.joinString == "" && MasterLink(steps, world.env, h, a)
    modifies world, nodes, nodes.masterNode
    ensures nodes.masterNode == old(nodes.masterNode) && nodes.workerNodes == old(nodes.workerNodes)
    ensures Mastered(Outcome(world.now, err), nodes.masterNode.Record(), nodes.joinString) ==
      steps(old(world.now), old(nodes.masterNode.Record()))
  {
    var master := nodes.masterNode;
    assert steps(world.now, master.Record()) == MasterOutcome(world.env, world.now, h, a, master.Record());
    err := Provision(world, h, a, master);
    if err.Some? || master.ready {
      return;
    }
    err := UpdateMasterNode(world, nodes);
  }

  /** The worker loop of `DeployNodes`. */
  method DeployWorkers(world: World, h: Host, texts: UnitTexts, a: Answers, nodes: K8sNodes,
    ghost join: string, ghost deploys: Deploys, ghost ws: seq<NodeRecord>)
    returns (err: Option<Error>)
    requires Records(nodes.workerNodes) == ws && nodes.joinString == join
    requires forall k, l | 0 <= k < l < |nodes.workerNodes| :: nodes.workerNodes[k] != nodes.workerNodes[l]
    requires WorkerLink(deploys, world.env, h, texts, a)
    modifies world, nodes.workerNodes
    ensures Fleet(Outcome(world.now, err), if err.Some? then [] else Records(nodes.workerNodes)) ==
      WorkersOutcome(deploys(join), old(world.now), ws, 0)
  {
    ghost var deploy := deploys(join);
    ghost var s0 := world.now;
    ghost var done: seq<NodeRecord> := [];
    var workers := nodes.workerNodes;
    for i := 0 to |workers|
      invariant |done| == i
      invariant forall k | 0 <= k < |workers| :: workers[k].Record() == if k < i then done[k] else ws[k]
      invariant WorkersOutcome(deploy, s0, ws, 0) == Resume(done, WorkersOutcome(deploy, world.now, ws, i))
    {
      ghost var before := world.now;
      var node := workers[i];
      assert forall k | 0 <= k < |workers| && k != i :: workers[k] != node;
      err := DeployNext(world, h, texts, a, node, nodes, join, deploys);
      FleetNext(deploy, before, ws, i, done, Created(Outcome(world.now, err), node.Record()));
      if err.Some? {
        return;
      }
      done := done + [node.Record()];
    }
    assert Records(workers) == done;
    err := None;
  }

  /** `Ready = true` on the master, then on every worker. */
  method MarkReady(nodes: K8sNodes)
    requires nodes.masterNode != null
    modifies nodes.masterNode, nodes.workerNodes
    ensures nodes.masterNode.Record() == old(nodes.masterNode.Record()).(ready := true)
    ensures Records(nodes.workerNodes) == AllReady(old(Records(nodes.workerNodes)))
  {
    var master := nodes.masterNode;
    var workers := nodes.workerNodes;
    master.ready := true;
    for i := 0 to |workers|
      invariant master.Record() == old(master.Record()).(ready := master.ready)
      invariant forall k | 0 <= k < |workers| ::
        workers[k].Record() == old(workers[k].Record()).(ready := workers[k].ready)
      invariant forall k | 0 <= k < i :: workers[k].ready
      invariant master.ready
    {
      workers[i].ready := true;
    }
  }

  /** The steps after the readiness flags: save the cluster `inv`, then the uploads to the master at `ip`. */
  method Publish(world: World, h: Host, el: Elsewhere, a: Answers, inv: Inventory, ip: string)
    returns (err: Option<Error>)
    modifies world
    ensures Outcome(world.now, err) == PublishOutcome(world.env, old(world.now), h, el, a, inv, ip)
  {
    var saved := world.Issue(SaveInventory(inv));
    err := world.Call(Upload(ip, K8sNodesConfigFilePath(h), el.remoteInventory));
    if err.Some? {
      return;
    }
    err := Uploads(world, h, el, a, ip);
  }

  /** The scratch configuration file and the uploads after the inventory's. */
  method Uploads(world: World, h: Host, el: Elsewhere, a: Answers, ip: string) returns (err: Option<Error>)
    modifies world
    ensures Outcome(world.now, err) == UploadsOutcome(world.env, old(world.now), h, el, a, ip)
  {
    var tmpfile := el.tmpConfig;
    var written := world.Issue(WriteConfig(tmpfile, Redacted(a)));
    err := world.Call(Upload(ip, tmpfile, el.remoteConfig));
    if err.None? {
      err := world.Call(Upload(ip, VMPrivateKeyPath(h), el.remotePrivateKey));
      if err.None? {
        err := world.Call(Upload(ip, VMPublicKeyPath(h), el.remotePublicKey));
      }
    }
    // the deferred `utils.DeleteFile(tmpfile)`
    var deleted := world.Issue(DeleteFile(tmpfile));
  }

  /** The nodes `DeployNodes` plans before it deploys anything: the workers, then the master. */
  method PlanCluster(a: Answers) returns (cluster: K8sNodes)
    ensures fresh(cluster) && cluster.masterNode != null && fresh(cluster.masterNode)
    ensures cluster.masterNode.Record() == MasterSpec(a) && cluster.joinString == ""
    ensures Records(cluster.workerNodes) == WorkerSpecs(a, a.workerNodes)
    ensures forall k | 0 <= k < |cluster.workerNodes| :: fresh(cluster.workerNodes[k])
    ensures forall k | 0 <= k < |cluster.workerNodes| :: cluster.workerNodes[k] != cluster.masterNode
    ensures forall k, l | 0 <= k < l < |cluster.workerNodes| :: cluster.workerNodes[k] != cluster.workerNodes[l]
  {
    var workers := PlanWorkers(a);
    var master := new K8sNode(MasterName(a), true);
    cluster := new K8sNodes(master, workers);
  }

  /** The master's steps and then the worker loop of `DeployNodes`, on the planned cluster. */
  method BuildCluster(world: World, h: Host, texts: UnitTexts, a: Answers, cluster: K8sNodes,
    ghost master: MasterStep, ghost deploys: Deploys)
    returns (err: Option<Error>)
    requires MasterLink(master, world.env, h, a) && WorkerLink(deploys, world.env, h, texts, a)
    requires cluster.masterNode != null && cluster.joinString == ""
    requires cluster.masterNode.Record() == MasterSpec(a) && Records(cluster.workerNodes) == WorkerSpecs(a, a.workerNodes)
    requires forall k | 0 <= k < |cluster.workerNodes| :: cluster.workerNodes[k] != cluster.masterNode
    requires forall k, l | 0 <= k < l < |cluster.workerNodes| :: cluster.workerNodes[k] != cluster.workerNodes[l]
    modifies world, cluster, cluster.masterNode, cluster.workerNodes
    ensures cluster.masterNode == old(cluster.masterNode) && cluster.workerNodes == old(cluster.workerNodes)
    ensures Building(Outcome(world.now, err),
        if err.Some? then None
        else Some(Built(cluster.masterNode.Record(), Records(cluster.workerNodes), cluster.joinString))) ==
      BuildWith(master, deploys, old(world.now), a)
  {
    ghost var ws := WorkerSpecs(a, a.workerNodes);
    label start:
    err := DeployMaster(world, h, a, cluster, master);
    if err.Some? {
      return;
    }
    RecordsKept@start(cluster.workerNodes);
    err := DeployWorkers(world, h, texts, a, cluster, cluster.joinString, deploys, ws);
  }

  /** The readiness flags, then the steps that save and upload the cluster. */
  method PublishCluster(world: World, h: Host, el: Elsewhere, a: Answers, cluster: K8sNodes,
    ghost publish: PublishStep)
    returns (err: Option<Error>)
    requires cluster.masterNode != null && PublishLink(publish, world.env, h, el, a)
    modifies world, cluster.masterNode, cluster.workerNodes
    ensures var inv := ReadyCluster(old(cluster.masterNode.Record()), old(Records(cluster.workerNodes)),
      cluster.joinString);
      cluster.Snapshot() == inv &&
      Outcome(world.now, err) == publish(old(world.now), inv, cluster.masterNode.ip)
  {
    MarkReady(cluster);
    var inv := cluster.Snapshot();
    err := Publish(world, h, el, a, inv, cluster.masterNode.ip);
  }

  method DeployNodes(world: World, h: Host, texts: UnitTexts, el: Elsewhere, a: Answers)
    returns (nodes: K8sNodes?, err: Option<Error>)
    modifies world
    ensures nodes != null ==> fresh(nodes)
    ensures Deployment(Outcome(world.now, err), if nodes == null then None else Some(nodes.Snapshot())) ==
      DeployNodesOutcome(world.env, old(world.now), h, texts, el, a)
  {
    err := GenerateSshKey(world, h);
    if err.Some? {
      return null, err;
    }
    KubevImplements(world.env, h, texts, el, a);
    nodes, err := DeployPlanned(world, h, texts, el, a, Kubev(world.env, h, texts, el, a));
  }

  /** `DeployNodes` after the keys. */
  method DeployPlanned(world: World, h: Host, texts: UnitTexts, el: Elsewhere, a: Answers, ghost steps: Steps)
    returns (nodes: K8sNodes?, err: Option<Error>)
    requires Implements(steps, world.env, h, texts, el, a)
    modifies world
    ensures nodes != null ==> fresh(nodes)
    ensures Deployment(Outcome(world.now, err), if nodes == null then None else Some(nodes.Snapshot())) ==
      PlannedWith(steps, old(world.now), a)
  {
    var cluster := PlanCluster(a);
    err := BuildCluster(world, h, texts, a, cluster, steps.master, steps.workers);
    if err.Some? {
      return null, err;
    }
    err := PublishCluster(world, h, el, a, cluster, steps.publish);
    nodes := cluster;
  }

  method DeleteWorkerNodeFromKubenretes(world: World, h: Host, el: Elsewhere, node: K8sNode, nodes: K8sNodes)
    returns (err: Option<Error>)
    requires nodes.masterNode != null
    modifies world
    ensures Outcome(world.now, err) ==
      RemovalOutcome(world.env, old(world.now), h, el, nodes.masterNode.ip, node.vmName)
  {
    var runner;
    runner, err := GetSshRunner(world, h, nodes.masterNode.ip);
    if err.Some? {
      return;
    }
    RunOne(world.env, world.now, Exec(nodes.masterNode.ip, el.deleteWorkNode(node.vmName)));
    err := runner.Run(el.deleteWorkNode(node.vmName));
  }
}
