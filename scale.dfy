/**
 * `kubev scale` (cmd/scale.go): ask for a new number of workers, then remove
 * workers from the tail of the list or deploy new ones after it, and save the
 * list and the configuration. The configuration and the list are taken as
 * already read; the prompt's replies are an input.
 */
module Scale {

  import opened Wrappers
  import opened GoStrings
  import opened Constants
  import opened Model
  import opened Platform
  import opened OperateVsphere
  import opened DeployWorker
  import opened DeployNodes

  // ------------------------------------------------------------ the prompt

  /** The numbers of workers `runScale` accepts. */
  predicate ValidCount(n: int)
  {
    0 < n <= 1000
  }

  /**
   * What one reply leaves in `number`: the integer typed, or, when the reply
   * is not an integer, the default the prompt started from.
   */
  function Reply(r: Option<int>, current: int): int
  {
    if r.Some? then r.value else current
  }

  /** The first reply that passes the check; each one that does not is asked again. */
  function Chosen(replies: seq<Option<int>>, current: int): (r: Option<int>)
    ensures r.Some? ==> ValidCount(r.value)
  {
    if replies == [] then None
    else if ValidCount(Reply(replies[0], current)) then Some(Reply(replies[0], current))
    else Chosen(replies[1..], current)
  }

  /**
   * The prompt settles on `n` exactly when some reply gives `n`, `n` is
   * between 1 and 1000, and every reply before it was rejected.
   */
  lemma {:induction false} ChosenFirst(replies: seq<Option<int>>, current: int, n: int)
    ensures Chosen(replies, current) == Some(n) <==>
      exists i | 0 <= i < |replies| :: Reply(replies[i], current) == n && ValidCount(n) &&
        forall j | 0 <= j < i :: !ValidCount(Reply(replies[j], current))
  {
    if replies != [] {
      ChosenFirst(replies[1..], current, n);
      if Chosen(replies, current) == Some(n) && !ValidCount(Reply(replies[0], current)) {
        var i :| 0 <= i < |replies[1..]| && Reply(replies[1..][i], current) == n && ValidCount(n) &&
          forall j | 0 <= j < i :: !ValidCount(Reply(replies[1..][j], current));
        assert Reply(replies[i + 1], current) == n;
      }
      if exists i | 0 <= i < |replies| :: Reply(replies[i], current) == n && ValidCount(n) &&
          forall j | 0 <= j < i :: !ValidCount(Reply(replies[j], current)) {
        var i :| 0 <= i < |replies| && Reply(replies[i], current) == n && ValidCount(n) &&
          forall j | 0 <= j < i :: !ValidCount(Reply(replies[j], current));
        if i > 0 {
          assert !ValidCount(Reply(replies[0], current));
          assert Reply(replies[1..][i - 1], current) == n;
        }
      }
    }
  }

  /** Without a reply between 1 and 1000 the prompt never lets the command go on. */
  lemma {:induction false} NeverChosen(replies: seq<Option<int>>, current: int)
    ensures Chosen(replies, current).None? <==> forall i | 0 <= i < |replies| :: !ValidCount(Reply(replies[i], current))
  {
    if replies != [] {
      NeverChosen(replies[1..], current);
      assert forall i | 1 <= i < |replies| :: replies[i] == replies[1..][i - 1];
    }
  }

  // ------------------------------------------------------------ names

  /** `fmt.Sprintf("%s-%d", worker, n)`, where Go prints a negative `n` with its minus sign. */
  function NewWorkerName(a: Answers, n: int): (name: string)
    ensures n >= 0 ==> name == WorkerName(a, n)
  {
    if n >= 0 then WorkerName(a, n) else WorkerPrefix(a) + "-" + "-" + Itoa(-n)
  }

  /**
   * The index the grow loop as written puts in the `i`-th new worker's name:
   * `i + answers.WorkerNodes + 1`, where `answers.WorkerNodes` has already
   * been raised once for every worker added before it.
   */
  function AsWrittenIndex(i: nat, count: int): int
  {
    i + count + 1
  }

  /** The indices the loop as written gives `toadd` new workers that all deploy, from the `i`-th on. */
  function AsWrittenIndices(count: int, i: nat, toadd: nat): (r: seq<int>)
    ensures |r| == if i < toadd then toadd - i else 0
    decreases toadd - i
  {
    if toadd <= i then [] else [AsWrittenIndex(i, count)] + AsWrittenIndices(count + 1, i + 1, toadd)
  }

  /**
   * The name the add loop as written gives the worker of its `i`-th pass,
   * when `answers.WorkerNodes` holds `count`.
   */
  function AsWrittenNamer(a: Answers): (nat, int) -> string
  {
    (i: nat, count: int) => NewWorkerName(a, AsWrittenIndex(i, count))
  }

  /** `names` names the workers as the add loop as written does. */
  ghost predicate NamesLink(names: (nat, int) -> string, a: Answers)
  {
    forall i: nat, count {:trigger NewWorkerName(a, AsWrittenIndex(i, count))} ::
      names(i, count) == NewWorkerName(a, AsWrittenIndex(i, count))
  }

  /**
   * The index the next worker evidently should get: one past the count, so
   * that the workers of a cluster of `count` workers numbered 1 to `count`
   * go on being numbered without a gap.
   */
  function NextIndex(count: int): int
  {
    count + 1
  }

  /** The corrected naming: the next index, whatever the pass. */
  function IntendedNamer(a: Answers): (nat, int) -> string
  {
    (i: nat, count: int) => NewWorkerName(a, NextIndex(count))
  }

  /**
   * As written, growing a cluster of one worker to three names the new
   * workers 2 and 4, and growing it once more to four names the new worker 4
   * again.
   */
  lemma AsWrittenSkipsAndRepeats()
    ensures AsWrittenIndices(1, 0, 2) == [2, 4]
    ensures AsWrittenIndices(3, 0, 1) == [4]
  {
    assert AsWrittenIndices(1, 0, 2) == [AsWrittenIndex(0, 1)] + AsWrittenIndices(2, 1, 2);
    assert AsWrittenIndices(2, 1, 2) == [AsWrittenIndex(1, 2)] + AsWrittenIndices(3, 2, 2);
  }

  // ------------------------------------------------------------ specification

  /**
   * Where a loop of `runScale` got to: the world, the worker list,
   * `answers.WorkerNodes`, and whether it panicked.
   */
  datatype Scaled = Scaled(state: State, workers: seq<NodeRecord>, count: int, panicked: bool)

  /** The steps of `runScale`'s loops, each as a function of the world state it starts from. */
  type Destroys = (State, NodeRecord) -> Outcome             // `DestorySingle` of a node
  type Removes = (State, string, string) -> Outcome          // the removal from Kubernetes, given the master's address and the node's name
  type Adds = string -> (State, Answers, NodeRecord) -> Created   // `DeployWorkderNode`, given the join command

  datatype ScaleSteps = ScaleSteps(destroy: Destroys, remove: Removes, add: Adds)

  /** The steps as kubev performs them. */
  function Scaler(env: Env, h: Host, texts: UnitTexts, el: Elsewhere): ScaleSteps
  {
    ScaleSteps((s: State, n: NodeRecord) => DestroySingleOutcome(env, s, n),
      (s: State, ip: string, name: string) => RemovalOutcome(env, s, h, el, ip, name),
      (join: string) => (s: State, a: Answers, n: NodeRecord) => WorkerOutcome(env, s, h, texts, a, n, join))
  }

  ghost predicate DestroyLink(destroy: Destroys, env: Env)
  {
    forall s, n {:trigger DestroySingleOutcome(env, s, n)} :: destroy(s, n) == DestroySingleOutcome(env, s, n)
  }

  ghost predicate RemoveLink(remove: Removes, env: Env, h: Host, el: Elsewhere)
  {
    forall s, ip, name {:trigger RemovalOutcome(env, s, h, el, ip, name)} ::
      remove(s, ip, name) == RemovalOutcome(env, s, h, el, ip, name)
  }

  ghost predicate AddLink(add: Adds, env: Env, h: Host, texts: UnitTexts)
  {
    forall join, s, a, n {:trigger WorkerOutcome(env, s, h, texts, a, n, join)} ::
      add(join)(s, a, n) == WorkerOutcome(env, s, h, texts, a, n, join)
  }

  ghost predicate ScaleImplements(steps: ScaleSteps, env: Env, h: Host, texts: UnitTexts, el: Elsewhere)
  {
    DestroyLink(steps.destroy, env) && RemoveLink(steps.remove, env, h, el) && AddLink(steps.add, env, h, texts)
  }

  lemma ScalerImplements(env: Env, h: Host, texts: UnitTexts, el: Elsewhere)
    ensures ScaleImplements(Scaler(env, h, texts, el), env, h, texts, el)
  {
  }

  /**
   * The remove loop: `todo` times, pop the last worker, destroy its VM, then
   * remove it from Kubernetes on the master, and count it off only when both
   * succeeded; stop at the first error. Popping from an empty list, or
   * removing a node when there is no master, is a panic.
   */
  function ShrinkOutcome(destroy: Destroys, remove: Removes, s: State, master: Option<NodeRecord>,
    ws: seq<NodeRecord>, count: int, todo: int): (r: Scaled)
    decreases todo
  {
    if todo <= 0 then Scaled(s, ws, count, false)
    else if |ws| == 0 then Scaled(s, ws, count, true)
    else
      var x := Last(ws);
      var rest := ws[..|ws| - 1];
      var d := destroy(s, x);
      if d.err.Some? then Scaled(d.state, rest, count, false)
      else if master.None? then Scaled(d.state, rest, count, true)
      else
        var r := remove(d.state, master.value.ip, x.vmName);
        if r.err.Some? then Scaled(r.state, rest, count, false)
        else ShrinkOutcome(destroy, remove, r.state, master, rest, count - 1, todo - 1)
  }

  /**
   * The add loop from its `i`-th pass on, with `count` in
   * `answers.WorkerNodes`: a new worker, named by `names` after the pass and
   * the count, is deployed, appended and counted when that succeeded; the
   * loop stops at the first error.
   */
  function GrowOutcome(add: (State, Answers, NodeRecord) -> Created, names: (nat, int) -> string, s: State, a: Answers, count: int,
    ws: seq<NodeRecord>, i: nat, toadd: int): (r: Scaled)
    decreases toadd - i
  {
    if toadd <= i then Scaled(s, ws, count, false)
    else
      var c := add(s, a.(workerNodes := count), NodeSpec(names(i, count), false));
      if c.o.err.Some? then Scaled(c.o.state, ws, count, false)
      else GrowOutcome(add, names, c.o.state, a, count + 1, ws + [c.node], i + 1, toadd)
  }

  /** One pass of the add loop. */
  lemma GrowStep(add: (State, Answers, NodeRecord) -> Created, names: (nat, int) -> string, s: State, a: Answers, count: int,
    ws: seq<NodeRecord>, i: nat, toadd: int)
    requires i < toadd
    ensures var c := add(s, a.(workerNodes := count), NodeSpec(names(i, count), false));
      GrowOutcome(add, names, s, a, count, ws, i, toadd) ==
        if c.o.err.Some? then Scaled(c.o.state, ws, count, false)
        else GrowOutcome(add, names, c.o.state, a, count + 1, ws + [c.node], i + 1, toadd)
  {
  }

  /** How `runScale` ends: the list and answers it saved, or why it saved nothing. */
  datatype End = Saved(inventory: Inventory, answers: Answers) | JoinFailed | Panicked

  datatype Scaling = Scaling(state: State, end: End)

  /** `SaveK8sNodes` then `SaveAnswers`, whatever they return. */
  function SaveOutcome(env: Env, s: State, inv: Inventory, a: Answers): (r: Scaling)
  {
    Scaling(Step(env, Step(env, s, SaveInventory(inv)), SaveConfig(a)), Saved(inv, a))
  }

  /**
   * `runScale` once the prompt settled on `number`, from the answers `a` and
   * the list `inv`: the equal, remove and add branches, then the saves.
   */
  function ScaleWith(env: Env, steps: ScaleSteps, s: State, a: Answers, inv: Inventory, number: int): (r: Scaling)
  {
    if a.workerNodes == number then SaveOutcome(env, s, inv, a)
    else if a.workerNodes > number then ShrinkScaling(env, steps, s, a, inv, number)
    else GrowScaling(env, steps, s, a, inv, number)
  }

  /** The remove branch of `runScale`: the loop, then the saves unless it panicked. */
  function ShrinkScaling(env: Env, steps: ScaleSteps, s: State, a: Answers, inv: Inventory, number: int): (r: Scaling)
  {
    var r := ShrinkOutcome(steps.destroy, steps.remove, s, inv.master, inv.workers, a.workerNodes,
      a.workerNodes - number);
    if r.panicked then Scaling(r.state, Panicked)
    else SaveOutcome(env, r.state, inv.(workers := r.workers), a.(workerNodes := r.count))
  }

  /** The add branch of `runScale`: the join command from the master, the loop, then the saves. */
  function GrowScaling(env: Env, steps: ScaleSteps, s: State, a: Answers, inv: Inventory, number: int): (r: Scaling)
    ensures r.end.Panicked? <==> inv.master.None?
    ensures r.end.JoinFailed? <==> inv.master.Some? && !env.accepts(s.trace, JoinCommand(inv.master.value.ip))
    ensures r.end.Saved? ==> r.end.inventory.master == inv.master
  {
    if inv.master.None? then Scaling(s, Panicked)
    else
      var c := JoinCommand(inv.master.value.ip);
      var j := Do(env, s, c);
      if j.err.Some? then Scaling(j.state, JoinFailed)
      else
        var join := env.reply(s.trace, c);
        var r := GrowOutcome(steps.add(join), AsWrittenNamer(a), j.state, a, a.workerNodes, inv.workers, 0, number - a.workerNodes);
        SaveOutcome(env, r.state, Inventory(inv.master, r.workers, join), a.(workerNodes := r.count))
  }

  /** `runScale`: the prompt, then the scaling; while no reply is accepted it keeps asking. */
  function RunScaleOutcome(env: Env, s: State, h: Host, texts: UnitTexts, el: Elsewhere, a: Answers,
    inv: Inventory, replies: seq<Option<int>>): (r: Option<Scaling>)
    ensures r.None? <==> forall i | 0 <= i < |replies| :: !ValidCount(Reply(replies[i], |inv.workers|))
  {
    NeverChosen(replies, |inv.workers|);
    match Chosen(replies, |inv.workers|)
    case None => None
    case Some(n) => Some(ScaleWith(env, Scaler(env, h, texts, el), s, a, inv, n))
  }

  // ------------------------------------------------------------ properties

  /**
   * The remove loop only ever takes workers off the tail. It counts off
   * between none and `todo` of them, and when it neither panicked nor
   * finished, the worker it stopped at was popped but not counted off. It
   * panics only when the list ran out, or on the first removal when there
   * is no master.
   */
  lemma {:induction false} ShrinkFromTail(destroy: Destroys, remove: Removes, s: State, master: Option<NodeRecord>,
    ws: seq<NodeRecord>, count: int, todo: int)
    requires todo >= 0
    ensures var r := ShrinkOutcome(destroy, remove, s, master, ws, count, todo);
      var removed := count - r.count;
      |r.workers| <= |ws| && r.workers == ws[..|r.workers|] && 0 <= removed <= todo &&
      (!r.panicked ==> |ws| - |r.workers| == if removed == todo then todo else removed + 1) &&
      (r.panicked ==>
        (r.workers == [] && |ws| == removed) || (master.None? && removed == 0 && |r.workers| == |ws| - 1))
    decreases todo
  {
    if todo > 0 && |ws| > 0 {
      var rest := ws[..|ws| - 1];
      var d := destroy(s, Last(ws));
      if d.err.None? && master.Some? {
        var r := remove(d.state, master.value.ip, Last(ws).vmName);
        if r.err.None? {
          ShrinkFromTail(destroy, remove, r.state, master, rest, count - 1, todo - 1);
          var q := ShrinkOutcome(destroy, remove, r.state, master, rest, count - 1, todo - 1);
          assert q.workers == rest[..|q.workers|] == ws[..|q.workers|];
        }
      }
    }
  }

  /** Every node `add` deploys without error keeps its name, role and readiness. */
  ghost predicate AddPlaces(add: (State, Answers, NodeRecord) -> Created)
  {
    forall s, a, n | add(s, a, n).o.err.None? :: Placed(n, add(s, a, n).node)
  }

  /** `DeployWorkderNode` places its node. */
  lemma ScalerPlaces(env: Env, h: Host, texts: UnitTexts, el: Elsewhere, join: string)
    ensures AddPlaces(Scaler(env, h, texts, el).add(join))
  {
    var add := Scaler(env, h, texts, el).add(join);
    forall s, a, n | add(s, a, n).o.err.None?
      ensures Placed(n, add(s, a, n).node)
    {
      ProvisionKeepsIdentity(env, s, h, a, n);
    }
  }

  /**
   * The add loop keeps the list it started from and appends the workers it
   * deployed, each counted once; it deploys at most `toadd`, and never panics.
   */
  lemma {:induction false} GrowAppends(add: (State, Answers, NodeRecord) -> Created, names: (nat, int) -> string, s: State, a: Answers,
    count: int, ws: seq<NodeRecord>, i: nat, toadd: int)
    requires i <= toadd
    ensures var r := GrowOutcome(add, names, s, a, count, ws, i, toadd);
      var added := r.count - count;
      !r.panicked && 0 <= added <= toadd - i && |r.workers| == |ws| + added && r.workers[..|ws|] == ws
    decreases toadd - i
  {
    if i < toadd {
      var c := add(s, a.(workerNodes := count), NodeSpec(names(i, count), false));
      if c.o.err.None? {
        GrowAppends(add, names, c.o.state, a, count + 1, ws + [c.node], i + 1, toadd);
        var r := GrowOutcome(add, names, c.o.state, a, count + 1, ws + [c.node], i + 1, toadd);
        assert r.workers[..|ws|] == (ws + [c.node])[..|ws|];
      }
    }
  }

  /** A worker the add loop deployed under `name`: a worker, not ready. */
  predicate NewWorker(name: string, w: NodeRecord)
  {
    w.vmName == name && !w.masterNode && !w.ready
  }

  /** Every worker the add loop appends is named by `names` after its pass and count, and is a worker not yet ready. */
  lemma {:induction false} GrowNames(add: (State, Answers, NodeRecord) -> Created, names: (nat, int) -> string, s: State, a: Answers,
    count: int, ws: seq<NodeRecord>, i: nat, toadd: int)
    requires i <= toadd && AddPlaces(add)
    ensures var r := GrowOutcome(add, names, s, a, count, ws, i, toadd);
      |ws| <= |r.workers| && forall k | |ws| <= k < |r.workers| :: NewWorker(names(i + (k - |ws|), count + (k - |ws|)), r.workers[k])
    decreases toadd - i
  {
    GrowAppends(add, names, s, a, count, ws, i, toadd);
    if i < toadd {
      var n := NodeSpec(names(i, count), false);
      var c := add(s, a.(workerNodes := count), n);
      if c.o.err.None? {
        assert Placed(n, c.node);
        GrowNames(add, names, c.o.state, a, count + 1, ws + [c.node], i + 1, toadd);
        GrowAppends(add, names, c.o.state, a, count + 1, ws + [c.node], i + 1, toadd);
        var r := GrowOutcome(add, names, c.o.state, a, count + 1, ws + [c.node], i + 1, toadd);
        forall k | |ws| <= k < |r.workers|
          ensures NewWorker(names(i + (k - |ws|), count + (k - |ws|)), r.workers[k])
        {
          if k == |ws| {
            assert r.workers[k] == r.workers[..|ws + [c.node]|][k] == c.node;
          } else {
            assert i + 1 + (k - |ws + [c.node]|) == i + (k - |ws|);
            assert count + 1 + (k - |ws + [c.node]|) == count + (k - |ws|);
          }
        }
      }
    }
  }

  /**
   * With the corrected naming, a cluster whose workers are numbered 1 to the
   * count goes on being numbered so after the add loop, however many of the
   * new workers deployed.
   */
  lemma GrowKeepsNumbering(add: (State, Answers, NodeRecord) -> Created, s: State, a: Answers, ws: seq<NodeRecord>,
    toadd: int)
    requires 0 <= toadd && AddPlaces(add)
    requires forall k | 0 <= k < |ws| :: ws[k].vmName == WorkerName(a, k + 1)
    ensures var r := GrowOutcome(add, IntendedNamer(a), s, a, |ws|, ws, 0, toadd);
      r.count == |r.workers| &&
      forall k | 0 <= k < |r.workers| :: r.workers[k].vmName == WorkerName(a, k + 1)
  {
    GrowAppends(add, IntendedNamer(a), s, a, |ws|, ws, 0, toadd);
    GrowNames(add, IntendedNamer(a), s, a, |ws|, ws, 0, toadd);
    var r := GrowOutcome(add, IntendedNamer(a), s, a, |ws|, ws, 0, toadd);
    forall k | 0 <= k < |r.workers|
      ensures r.workers[k].vmName == WorkerName(a, k + 1)
    {
      if k < |ws| {
        assert r.workers[k] == r.workers[..|ws|][k];
      } else {
        assert NextIndex(|ws| + (k - |ws|)) == k + 1;
      }
    }
  }

  /**
   * As written, the add loop started on a cluster of `|ws|` workers names
   * the worker it appends at position `k` of the list with index
   * `2k - |ws| + 1`: the index grows by two per worker.
   */
  lemma AsWrittenGrowNames(add: (State, Answers, NodeRecord) -> Created, s: State, a: Answers, ws: seq<NodeRecord>,
    toadd: int)
    requires 0 <= toadd && AddPlaces(add)
    ensures var r := GrowOutcome(add, AsWrittenNamer(a), s, a, |ws|, ws, 0, toadd);
      r.count == |r.workers| &&
      forall k | |ws| <= k < |r.workers| :: r.workers[k].vmName == WorkerName(a, 2 * k - |ws| + 1)
  {
    GrowAppends(add, AsWrittenNamer(a), s, a, |ws|, ws, 0, toadd);
    GrowNames(add, AsWrittenNamer(a), s, a, |ws|, ws, 0, toadd);
    var r := GrowOutcome(add, AsWrittenNamer(a), s, a, |ws|, ws, 0, toadd);
    forall k | |ws| <= k < |r.workers|
      ensures r.workers[k].vmName == WorkerName(a, 2 * k - |ws| + 1)
    {
      assert AsWrittenIndex(k - |ws|, |ws| + (k - |ws|)) == 2 * k - |ws| + 1;
    }
  }

  /**
   * As written, once two or more workers were added to a cluster numbered 1
   * to `|ws|`, no worker carries the number `|ws| + 2`, although the count
   * says there are that many workers.
   */
  lemma AsWrittenLeavesGap(add: (State, Answers, NodeRecord) -> Created, s: State, a: Answers, ws: seq<NodeRecord>,
    toadd: int)
    requires 0 <= toadd && AddPlaces(add)
    requires forall k | 0 <= k < |ws| :: ws[k].vmName == WorkerName(a, k + 1)
    ensures var r := GrowOutcome(add, AsWrittenNamer(a), s, a, |ws|, ws, 0, toadd);
      r.count >= |ws| + 2 ==> forall k | 0 <= k < |r.workers| :: r.workers[k].vmName != WorkerName(a, |ws| + 2)
  {
    var r := GrowOutcome(add, AsWrittenNamer(a), s, a, |ws|, ws, 0, toadd);
    AsWrittenGrowNames(add, s, a, ws, toadd);
    GrowAppends(add, AsWrittenNamer(a), s, a, |ws|, ws, 0, toadd);
    SkipsNumber(a, ws, r.workers);
  }

  /** A list numbered 1..|ws| and then by the as-written indices has no worker `|ws| + 2`. */
  lemma SkipsNumber(a: Answers, ws: seq<NodeRecord>, workers: seq<NodeRecord>)
    requires |ws| <= |workers| && workers[..|ws|] == ws
    requires forall k | 0 <= k < |ws| :: ws[k].vmName == WorkerName(a, k + 1)
    requires forall k | |ws| <= k < |workers| :: workers[k].vmName == WorkerName(a, 2 * k - |ws| + 1)
    ensures forall k | 0 <= k < |workers| :: workers[k].vmName != WorkerName(a, |ws| + 2)
  {
    forall k | 0 <= k < |workers|
      ensures workers[k].vmName != WorkerName(a, |ws| + 2)
    {
      if k < |ws| {
        assert workers[k] == ws[k];
        WorkerNamesDistinct(a, k + 1, |ws| + 2);
      } else {
        var n: nat := 2 * k - |ws| + 1;
        WorkerNamesDistinct(a, n, |ws| + 2);
      }
    }
  }

  /** A number equal to the configured count changes nothing: the list and answers are saved as they were. */
  lemma SameCountSavesAsIs(env: Env, steps: ScaleSteps, s: State, a: Answers, inv: Inventory)
    ensures var r := ScaleWith(env, steps, s, a, inv, a.workerNodes);
      r.end == Saved(inv, a) && r.state.vms == s.vms &&
      r.state.trace == s.trace + [SaveInventory(inv), SaveConfig(a)]
  {
  }

  /** When the master does not answer the join command, the add branch returns without saving anything. */
  lemma JoinFailureSavesNothing(env: Env, steps: ScaleSteps, s: State, a: Answers, inv: Inventory, number: int)
    requires a.workerNodes < number && inv.master.Some?
    requires !env.accepts(s.trace, JoinCommand(inv.master.value.ip))
    ensures var r := ScaleWith(env, steps, s, a, inv, number);
      r.end == JoinFailed && r.state.vms == s.vms && r.state.trace == s.trace + [JoinCommand(inv.master.value.ip)]
  {
  }

  /**
   * Unless it panicked or the join command failed, `runScale` saves the
   * list and the answers its loop left, also after a failed removal or
   * deployment; these two saves are its last calls. The master is kept, and
   * the join command is the one the master answered when workers were added.
   */
  lemma ScaleSavesLoopResult(env: Env, steps: ScaleSteps, s: State, a: Answers, inv: Inventory, number: int)
    ensures var r := ScaleWith(env, steps, s, a, inv, number);
      r.end.Saved? ==>
        |r.state.trace| >= 2 &&
        r.state.trace[|r.state.trace| - 2..] == [SaveInventory(r.end.inventory), SaveConfig(r.end.answers)] &&
        r.end.inventory.master == inv.master &&
        (a.workerNodes >= number ==> r.end.inventory.joinString == inv.joinString) &&
        (a.workerNodes < number ==> r.end.inventory.joinString == env.reply(s.trace, JoinCommand(inv.master.value.ip)))
  {
  }

  // ------------------------------------------------------------ methods

  /** The prompt of `runScale`, asked again until a reply is between 1 and 1000. */
  method AskWorkerCount(replies: seq<Option<int>>, current: int) returns (number: Option<int>)
    ensures number == Chosen(replies, current)
  {
    var i := 0;
    while i < |replies|
      invariant 0 <= i <= |replies|
      invariant Chosen(replies, current) == Chosen(replies[i..], current)
    {
      assert replies[i..][1..] == replies[i + 1..];
      var n := current;
      if replies[i].Some? {
        n := replies[i].value;
      }
      if !(n <= 0 || n > 1000) {
        return Some(n);
      }
      i := i + 1;
    }
    return None;
  }

  /**
   * One pass of the remove loop once the last worker `x` was popped:
   * `DestorySingle` of it, then its removal from Kubernetes on the master.
   */
  method RemoveWorker(world: World, h: Host, el: Elsewhere, x: K8sNode, vms: K8sNodes,
    ghost ws: seq<NodeRecord>, ghost rest: seq<NodeRecord>, ghost count: int, ghost todo: int,
    ghost master: Option<NodeRecord>, ghost destroy: Destroys, ghost remove: Removes)
    returns (err: Option<Error>, panicked: bool)
    requires 0 < todo && 0 < |ws| && x.Record() == Last(ws) && rest == ws[..|ws| - 1]
    requires master == if vms.masterNode == null then None else Some(vms.masterNode.Record())
    requires DestroyLink(destroy, world.env) && RemoveLink(remove, world.env, h, el)
    modifies world
    ensures ShrinkOutcome(destroy, remove, old(world.now), master, ws, count, todo) ==
      if err.Some? || panicked then Scaled(world.now, rest, count, panicked)
      else ShrinkOutcome(destroy, remove, world.now, master, rest, count - 1, todo - 1)
  {
    panicked := false;
    err := DestorySingle(world, x);
    if err.Some? {
      return;
    }
    if vms.masterNode == null {
      panicked := true;
      return;
    }
    err := DeleteWorkerNodeFromKubenretes(world, h, el, x, vms);
  }

  /**
   * The `i`-th pass of the add loop: a new worker named with index
   * `i + count + 1`, and `DeployWorkderNode` of it with `count` in
   * `answers.WorkerNodes`.
   */
  method AddWorker(world: World, h: Host, texts: UnitTexts, a: Answers, count: int, vms: K8sNodes,
    ghost ws: seq<NodeRecord>, i: nat, ghost toadd: int, ghost deploy: (State, Answers, NodeRecord) -> Created,
    ghost add: Adds, ghost names: (nat, int) -> string)
    returns (node: K8sNode, err: Option<Error>)
    requires i < toadd && AddLink(add, world.env, h, texts) && deploy == add(vms.joinString) && NamesLink(names, a)
    modifies world
    ensures fresh(node)
    ensures GrowOutcome(deploy, names, old(world.now), a, count, ws, i, toadd) ==
      if err.Some? then Scaled(world.now, ws, count, false)
      else GrowOutcome(deploy, names, world.now, a, count + 1, ws + [node.Record()], i + 1, toadd)
  {
    GrowStep(deploy, names, world.now, a, count, ws, i, toadd);
    assert names(i, count) == NewWorkerName(a, AsWrittenIndex(i, count));
    node := new K8sNode(NewWorkerName(a, i + count + 1), false);
    err := DeployWorkderNode(world, h, texts, a.(workerNodes := count), node, vms);
  }

  /** The remove loop of `runScale`. */
  method Shrink(world: World, h: Host, el: Elsewhere, vms: K8sNodes, workers: seq<K8sNode>, a: Answers, todo: int,
    ghost ws: seq<NodeRecord>, ghost master: Option<NodeRecord>, ghost destroy: Destroys, ghost remove: Removes)
    returns (rest: seq<K8sNode>, count: int, panicked: bool)
    requires |workers| == |ws| && forall k {:trigger workers[k]} | 0 <= k < |workers| :: workers[k].Record() == ws[k]
    requires master == if vms.masterNode == null then None else Some(vms.masterNode.Record())
    requires DestroyLink(destroy, world.env) && RemoveLink(remove, world.env, h, el)
    modifies world
    ensures |rest| <= |workers| && rest == workers[..|rest|]
    ensures Scaled(world.now, ws[..|rest|], count, panicked) ==
      ShrinkOutcome(destroy, remove, old(world.now), master, ws, a.workerNodes, todo)
  {
    ghost var goal := ShrinkOutcome(destroy, remove, world.now, master, ws, a.workerNodes, todo);
    ghost var left := ws;
    var n := |workers|;
    count, panicked := a.workerNodes, false;
    var i := 0;
    while i < todo
      invariant 0 <= n <= |workers|
      invariant left == ws[..n]
      invariant goal == ShrinkOutcome(destroy, remove, world.now, master, left, count, todo - i)
      invariant !panicked
      decreases todo - i
    {
      if n == 0 {
        panicked := true;
        break;
      }
      var x := workers[n - 1];
      assert old(x.Record()) == ws[n - 1];
      ghost var next := left[..|left| - 1];
      n := n - 1;
      var err;
      err, panicked := RemoveWorker(world, h, el, x, vms, left, next, count, todo - i, master, destroy, remove);
      left := next;
      if err.Some? || panicked {
        break;
      }
      count := count - 1;
      i := i + 1;
    }
    assert goal == Scaled(world.now, left, count, panicked);
    rest := workers[..n];
  }

  /** The add loop of `runScale`, naming each new worker as written. */
  method Grow(world: World, h: Host, texts: UnitTexts, a: Answers, vms: K8sNodes, ghost ws: seq<NodeRecord>,
    toadd: int, ghost add: Adds, ghost names: (nat, int) -> string)
    returns (news: seq<K8sNode>, count: int)
    requires AddLink(add, world.env, h, texts) && NamesLink(names, a)
    modifies world
    ensures Scaled(world.now, ws + Records(news), count, false) ==
      GrowOutcome(add(old(vms.joinString)), names, old(world.now), a, a.workerNodes, ws, 0, toadd)
  {
    ghost var deploy := add(vms.joinString);
    ghost var goal := GrowOutcome(deploy, names, world.now, a, a.workerNodes, ws, 0, toadd);
    ghost var added: seq<NodeRecord> := [];
    news := [];
    count := a.workerNodes;
    assert ws + added == ws;
    var i := 0;
    while i < toadd
      invariant 0 <= i
      invariant |news| == |added| && forall k | 0 <= k < |news| :: news[k].Record() == added[k]
      invariant deploy == add(vms.joinString)
      invariant goal == GrowOutcome(deploy, names, world.now, a, count, ws + added, i, toadd)
      decreases toadd - i
    {
      var node, err := AddWorker(world, h, texts, a, count, vms, ws + added, i, toadd, deploy, add, names);
      if err.Some? {
        break;
      }
      news := news + [node];
      assert ws + added + [node.Record()] == ws + (added + [node.Record()]);
      added := added + [node.Record()];
      count := count + 1;
      i := i + 1;
    }
    assert goal == Scaled(world.now, ws + added, count, false);
    RecordsAre(news, added);
  }

  /**
   * The end of `runScale`: the list of workers becomes `workers`, then
   * `SaveK8sNodes` and `SaveAnswers`, whose errors are ignored.
   */
  method Save(world: World, vms: K8sNodes, workers: seq<K8sNode>, answers: Answers, ghost inv: Inventory)
    returns (end: End)
    requires Records(workers) == inv.workers && inv.joinString == vms.joinString
    requires inv.master == if vms.masterNode == null then None else Some(vms.masterNode.Record())
    modifies world, vms
    ensures end == Saved(inv, answers) && vms.Snapshot() == inv
    ensures Scaling(world.now, end) == SaveOutcome(world.env, old(world.now), inv, answers)
  {
    vms.SetWorkers(workers);
    var saved := world.Issue(SaveInventory(vms.Snapshot()));
    saved := world.Issue(SaveConfig(answers));
    end := Saved(vms.Snapshot(), answers);
  }

  /** The remove branch of `runScale`. */
  method ScaleDown(world: World, h: Host, el: Elsewhere, a: Answers, vms: K8sNodes, number: int, ghost steps: ScaleSteps)
    returns (end: End)
    requires DestroyLink(steps.destroy, world.env) && RemoveLink(steps.remove, world.env, h, el)
    modifies world, vms
    ensures Scaling(world.now, end) == ShrinkScaling(world.env, steps, old(world.now), a, old(vms.Snapshot()), number)
    ensures end.Saved? ==> vms.Snapshot() == end.inventory
  {
    ghost var inv := vms.Snapshot();
    var workers := vms.workerNodes;
    var rest, count, panicked :=
      Shrink(world, h, el, vms, workers, a, a.workerNodes - number, inv.workers, inv.master, steps.destroy, steps.remove);
    if panicked {
      return Panicked;
    }
    RecordsKept(workers);
    RecordsPrefix(workers, |rest|);
    end := Save(world, vms, rest, a.(workerNodes := count), inv.(workers := inv.workers[..|rest|]));
  }

  /** The add branch of `runScale`. */
  method ScaleUp(world: World, h: Host, texts: UnitTexts, a: Answers, vms: K8sNodes, number: int, ghost steps: ScaleSteps)
    returns (end: End)
    requires AddLink(steps.add, world.env, h, texts)
    modifies world, vms
    ensures Scaling(world.now, end) == GrowScaling(world.env, steps, old(world.now), a, old(vms.Snapshot()), number)
    ensures end.Saved? ==> vms.Snapshot() == end.inventory
  {
    ghost var inv := vms.Snapshot();
    if vms.masterNode == null {
      return Panicked;
    }
    var ok, joincmd := world.Ask(JoinCommand(vms.masterNode.ip));
    if !ok {
      return JoinFailed;
    }
    vms.joinString := joincmd;
    var workers := vms.workerNodes;
    var news, count := Grow(world, h, texts, a, vms, inv.workers, number - a.workerNodes, steps.add, AsWrittenNamer(a));
    RecordsKept(workers);
    RecordsAppend(workers, news);
    end := Save(world, vms, workers + news, a.(workerNodes := count), Inventory(inv.master, inv.workers + Records(news), joincmd));
  }

  /** `runScale` once the prompt settled on `number`. */
  method ScaleTo(world: World, h: Host, texts: UnitTexts, el: Elsewhere, a: Answers, vms: K8sNodes, number: int,
    ghost steps: ScaleSteps)
    returns (end: End)
    requires ScaleImplements(steps, world.env, h, texts, el)
    modifies world, vms
    ensures Scaling(world.now, end) == ScaleWith(world.env, steps, old(world.now), a, old(vms.Snapshot()), number)
    ensures end.Saved? ==> vms.Snapshot() == end.inventory
  {
    if a.workerNodes == number {
      end := Save(world, vms, vms.workerNodes, a, vms.Snapshot());
    } else if a.workerNodes > number {
      end := ScaleDown(world, h, el, a, vms, number, steps);
    } else {
      end := ScaleUp(world, h, texts, a, vms, number, steps);
    }
  }

  /** `runScale`: the prompt, then the scaling. */
  method RunScale(world: World, h: Host, texts: UnitTexts, el: Elsewhere, a: Answers, vms: K8sNodes,
    replies: seq<Option<int>>) returns (end: Option<End>)
    modifies world, vms
    ensures (if end.None? then None else Some(Scaling(world.now, end.value))) ==
      RunScaleOutcome(world.env, old(world.now), h, texts, el, a, old(vms.Snapshot()), replies)
  {
    var number := AskWorkerCount(replies, |vms.workerNodes|);
    if number.None? {
      return None;
    }
    ScalerImplements(world.env, h, texts, el);
    var e := ScaleTo(world, h, texts, el, a, vms, number.value, Scaler(world.env, h, texts, el));
    end := Some(e);
  }
}
