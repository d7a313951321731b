/**
 * The records kubev keeps about a cluster (pkg/kubev/model): the configuration
 * answers, and the nodes, which the deployer fills in place.
 */
module Model {

  import opened Wrappers

  /**
   * The configuration survey's answers. `WorkerNodes` and `IsVCenter` are read
   * and written by the code although the struct in Answers.go does not list them.
   */
  datatype Answers = Answers(
    serverUrl: string,
    port: int,
    username: string,
    password: string,
    datacenter: string,
    datastore: string,
    cluster: string,
    resourcePool: string,
    folder: string,
    cpu: int,
    memory: int,
    network: string,
    kubernetesVersion: string,
    workerNodes: int,
    isVCenter: bool)

  /** The saved fields of one node. */
  datatype NodeRecord = NodeRecord(
    vmName: string,
    ip: string,
    mo: string,
    folderPath: string,
    datacenterName: string,
    datastoreName: string,
    masterNode: bool,
    ready: bool)

  /** What `SaveK8sNodes` writes: the master, the workers in order, the join command. */
  datatype Inventory = Inventory(master: Option<NodeRecord>, workers: seq<NodeRecord>, joinString: string)

  /** One virtual machine of the cluster; `Ready` is used by the code but not declared in K8sNode.go. */
  class K8sNode {
    var vmName: string
    var ip: string
    var mo: string
    var folderPath: string
    var datacenterName: string
    var datastoreName: string
    var masterNode: bool
    var ready: bool

    /** `&model.K8sNode{MasterNode: m, VMName: n, Ready: false}`: every other field empty. */
    constructor (name: string, master: bool)
      ensures Record() == NodeRecord(name, "", "", "", "", "", master, false)
    {
      vmName := name;
      ip := "";
      mo := "";
      folderPath := "";
      datacenterName := "";
      datastoreName := "";
      masterNode := master;
      ready := false;
    }

    function Record(): NodeRecord
      reads this
    {
      NodeRecord(vmName, ip, mo, folderPath, datacenterName, datastoreName, masterNode, ready)
    }

    /** What `CreateVM` fills in once the node's VM runs: where it is and how to reach it. */
    method Place(datacenter: string, datastore: string, folder: string, address: string, ref: string)
      modifies this
      ensures Record() == old(Record()).(datacenterName := datacenter, datastoreName := datastore,
        folderPath := folder, ip := address, mo := ref)
    {
      datacenterName := datacenter;
      datastoreName := datastore;
      folderPath := folder;
      ip := address;
      mo := ref;
    }
  }

  function Records(nodes: seq<K8sNode>): (rs: seq<NodeRecord>)
    reads nodes
    ensures |rs| == |nodes|
    ensures forall i | 0 <= i < |nodes| :: rs[i] == nodes[i].Record()
  {
    if |nodes| == 0 then [] else [nodes[0].Record()] + Records(nodes[1..])
  }

  /** The records of two lists in a row. */
  lemma RecordsAppend(xs: seq<K8sNode>, ys: seq<K8sNode>)
    ensures Records(xs + ys) == Records(xs) + Records(ys)
  {
  }

  /** The records of the first `n` nodes. */
  lemma RecordsPrefix(xs: seq<K8sNode>, n: nat)
    requires n <= |xs|
    ensures Records(xs[..n]) == Records(xs)[..n]
  {
  }

  /** Nodes whose records are, one by one, the records `rs`. */
  lemma RecordsAre(xs: seq<K8sNode>, rs: seq<NodeRecord>)
    requires |xs| == |rs| && forall k | 0 <= k < |xs| :: xs[k].Record() == rs[k]
    ensures Records(xs) == rs
  {
  }

  /** The records of nodes that did not change are the same records. */
  twostate lemma RecordsKept(nodes: seq<K8sNode>)
    requires forall k | 0 <= k < |nodes| :: unchanged(nodes[k])
    ensures Records(nodes) == old(Records(nodes))
  {
  }

  /** The whole cluster; `JoinString` is used by the code but not declared in K8sNode.go. */
  class K8sNodes {
    var masterNode: K8sNode?
    var workerNodes: seq<K8sNode>
    var joinString: string

    constructor (master: K8sNode?, workers: seq<K8sNode>)
      ensures masterNode == master && workerNodes == workers && joinString == ""
    {
      masterNode := master;
      workerNodes := workers;
      joinString := "";
    }

    /** Replaces the list of workers, as `runScale` does once its loop is over. */
    method SetWorkers(workers: seq<K8sNode>)
      modifies this
      ensures masterNode == old(masterNode) && workerNodes == workers && joinString == old(joinString)
      ensures Snapshot() == old(Snapshot()).(workers := old(Records(workers)))
    {
      workerNodes := workers;
    }

    function Snapshot(): Inventory
      reads this, masterNode, workerNodes
    {
      Inventory(
        if masterNode == null then None else Some(masterNode.Record()),
        Records(workerNodes),
        joinString)
    }
  }
}
