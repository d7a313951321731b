/**
 * Everything kubev talks to: the vSphere inventory, the guests it reaches over
 * SSH, the local disk and the user's shell. Each request is a `Call`; whether a
 * call succeeds, and what it answers, is decided by an oracle that may look at
 * every call made before it.
 */
module Platform {

  import opened Wrappers
  import opened Model

  datatype Power = PoweredOn | PoweredOff | Suspended

  /** A virtual machine of the inventory, and its managed-object reference `Type:Value`. */
  datatype Vm = Vm(power: Power, mo: string)

  /** What a finder lookup looks for. */
  datatype Kind = Datacenter | Datastore | ResourcePool | DefaultResourcePool | DefaultHost | HostResourcePool | Folder | Network

  datatype Call =
    | Connect                                        // driver.NewClient
    | Lookup(kind: Kind, name: string)               // a find.Finder lookup other than of a VM
    | GetPowerState(path: string)
    | PowerOff(path: string)                         // a vSphere power-off and the wait for its result
    | PowerOn(path: string)
    | Reconfigure(path: string, cpu: int, memory: int)
    | WaitForIp(path: string)
    | ImportOva(path: string)                        // import spec, vApp import, lease and uploads
    | Clone(template: string, path: string)
    | Destroy(path: string)
    | PowerOffRef(moType: string, moValue: string)   // on a VM named by its managed-object reference
    | DestroyRef(moType: string, moValue: string)
    | FindByName(name: string)                       // a container view filtered on the name
    | GenerateKeys(privatePath: string, publicPath: string)
    | PurgeKnownHosts(ip: string)
    | Dial(ip: string)                               // read and parse the private key, then dial port 22
    | Exec(ip: string, cmd: string)                  // a new session running one command
    | Scp(ip: string, cmd: string, stream: string)   // a session running `cmd` fed `stream` on stdin
    | PasswordExec(ip: string, user: string, password: string, cmd: string)
    | Spawn(cmd: string)                             // a local process driven by expect
    | Expect(prompt: string)                         // the prompt shows up within the timeout
    | SendLine(text: string)
    | Start
    | UpdateMaster(ip: string)
    | JoinCommand(ip: string)
    | Upload(ip: string, local: string, remote: string)
    | SaveInventory(inventory: Inventory)
    | SaveConfig(answers: Answers)
    | WriteConfig(path: string, answers: Answers)
    | DeleteFile(path: string)

  /** The oracle: whether a call succeeds after a history, and what it answers. */
  datatype Env = Env(accepts: (seq<Call>, Call) -> bool, reply: (seq<Call>, Call) -> string)

  /** The VMs by inventory path, the local files by path, and every call made so far. */
  datatype State = State(vms: map<string, Vm>, files: map<string, string>, trace: seq<Call>)

  datatype Error =
    | Refused(call: Call)
    | MissingFile(path: string)
    | NoVm(path: string)
    | BadReference(mo: string)
    | NotPoweredOn(name: string)

  /** Where a sequence of steps leaves the world, and the error it returns (`None` for nil). */
  datatype Outcome = Outcome(state: State, err: Option<Error>)

  /** What a successful call does to the inventory. */
  function VmEffect(vms: map<string, Vm>, c: Call, reply: string): map<string, Vm>
  {
    match c
    case PowerOff(p) => if p in vms then vms[p := vms[p].(power := PoweredOff)] else vms
    case PowerOn(p) => if p in vms then vms[p := vms[p].(power := PoweredOn)] else vms
    case ImportOva(p) => vms[p := Vm(PoweredOff, reply)]
    case Clone(_, p) => vms[p := Vm(PoweredOff, reply)]
    case Destroy(p) => vms - {p}
    case PowerOffRef(t, v) =>
      map p | p in vms :: if vms[p].mo == t + ":" + v then vms[p].(power := PoweredOff) else vms[p]
    case DestroyRef(t, v) => map p | p in vms && vms[p].mo != t + ":" + v :: vms[p]
    case _ => vms
  }

  /** What a successful call does to the local disk; the private key's text is not modelled. */
  function FileEffect(files: map<string, string>, c: Call, reply: string): map<string, string>
  {
    match c
    case GenerateKeys(privatePath, publicPath) => files[privatePath := ""][publicPath := reply]
    case DeleteFile(p) => files - {p}
    case _ => files
  }

  /** One call: it is always recorded, and has its effect only when it succeeds. */
  function Step(env: Env, s: State, c: Call): (r: State)
    ensures r.trace == s.trace + [c]
    ensures !env.accepts(s.trace, c) ==> r.vms == s.vms && r.files == s.files
  {
    if env.accepts(s.trace, c) then
      var reply := env.reply(s.trace, c);
      State(VmEffect(s.vms, c, reply), FileEffect(s.files, c, reply), s.trace + [c])
    else s.(trace := s.trace + [c])
  }

  /**
   * Calls made in order until one fails, as Go code does with `if err != nil
   * { return err }` after each: the failing call is the last one made and its
   * refusal is the error.
   */
  function Run(env: Env, s: State, cs: seq<Call>): (o: Outcome)
    ensures s.trace <= o.state.trace
    ensures o.state.trace[|s.trace|..] <= cs
    ensures o.err.None? ==> o.state.trace == s.trace + cs
    ensures o.err.Some? ==>
      |o.state.trace| > |s.trace| && o.err == Some(Refused(Last(o.state.trace))) &&
      !env.accepts(o.state.trace[..|o.state.trace| - 1], Last(o.state.trace))
    decreases |cs|
  {
    if cs == [] then Outcome(s, None)
    else
      var next := Step(env, s, cs[0]);
      if env.accepts(s.trace, cs[0]) then
        var o := Run(env, next, cs[1..]);
        assert next.trace[|s.trace|..] == [cs[0]];
        assert o.state.trace[|s.trace|..] == [cs[0]] + o.state.trace[|next.trace|..];
        assert cs == [cs[0]] + cs[1..];
        o
      else
        assert next.trace[..|next.trace| - 1] == s.trace;
        assert next.trace[|s.trace|..] == [cs[0]] == cs[..1];
        Outcome(next, Some(Refused(cs[0])))
  }

  /** One call, whose refusal is the error. */
  function Do(env: Env, s: State, c: Call): (o: Outcome)
  {
    Outcome(Step(env, s, c), if env.accepts(s.trace, c) then None else Some(Refused(c)))
  }

  /** The next call after `o`, made only if nothing failed so far. */
  function Then(env: Env, o: Outcome, c: Call): (r: Outcome)
  {
    if o.err.Some? then o else Do(env, o.state, c)
  }

  function Last<T>(s: seq<T>): T
    requires |s| > 0
  {
    s[|s| - 1]
  }

  /** Whether all of `cs` succeed, one after the other. */
  predicate Succeeds(env: Env, s: State, cs: seq<Call>) {
    Run(env, s, cs).err.None?
  }

  /** Two scripts in a row behave as the first followed, if it succeeded, by the second. */
  lemma {:induction false} RunAppend(env: Env, s: State, a: seq<Call>, b: seq<Call>)
    ensures Run(env, s, a + b) ==
      (if Succeeds(env, s, a) then Run(env, Run(env, s, a).state, b) else Run(env, s, a))
    decreases |a|
  {
    if a == [] {
      assert a + b == b;
    } else {
      assert (a + b)[0] == a[0];
      assert (a + b)[1..] == a[1..] + b;
      if env.accepts(s.trace, a[0]) {
        RunAppend(env, Step(env, s, a[0]), a[1..], b);
      }
    }
  }

  /** The first call of a script, and the rest after it if it succeeded. */
  lemma RunCons(env: Env, s: State, c: Call, rest: seq<Call>)
    ensures Run(env, s, [c] + rest) ==
      if env.accepts(s.trace, c) then Run(env, Step(env, s, c), rest)
      else Outcome(Step(env, s, c), Some(Refused(c)))
  {
    assert ([c] + rest)[1..] == rest;
  }

  /** A script of one call. */
  lemma RunOne(env: Env, s: State, c: Call)
    ensures Run(env, s, [c]) ==
      Outcome(Step(env, s, c), if env.accepts(s.trace, c) then None else Some(Refused(c)))
  {
    RunCons(env, s, c, []);
    assert [c] + [] == [c];
  }

  /** A call placed after a failing prefix is never made. */
  lemma NotReached(env: Env, s: State, cs: seq<Call>, i: nat)
    requires i < |cs| && !Succeeds(env, s, cs[..i])
    ensures Run(env, s, cs) == Run(env, s, cs[..i])
  {
    RunAppend(env, s, cs[..i], cs[i..]);
    assert cs[..i] + cs[i..] == cs;
  }

  /** A script that succeeded made exactly its calls, and nothing else. */
  lemma SucceededTrace(env: Env, s: State, cs: seq<Call>)
    requires Succeeds(env, s, cs)
    ensures Run(env, s, cs).state.trace == s.trace + cs
  {
  }

  /** Calls that leave the inventory of VMs as it is, whether they succeed or not. */
  predicate Inert(c: Call)
  {
    !(c.PowerOff? || c.PowerOn? || c.ImportOva? || c.Clone? || c.Destroy? || c.PowerOffRef? || c.DestroyRef?)
  }

  lemma StepInert(env: Env, s: State, c: Call)
    requires Inert(c)
    ensures Step(env, s, c).vms == s.vms
  {
  }

  /** One inert call: recorded, the VMs untouched, and its refusal the only possible error. */
  lemma DoInert(env: Env, s: State, c: Call)
    requires Inert(c)
    ensures var o := Do(env, s, c);
      o.state.vms == s.vms && o.state.trace == s.trace + [c] && (o.err.Some? ==> o.err == Some(Refused(c)))
  {
    StepInert(env, s, c);
  }

  /** An inert call after `o`: the VMs untouched, the history only extended, no new kind of error. */
  lemma ThenInert(env: Env, o: Outcome, c: Call)
    requires Inert(c)
    ensures var r := Then(env, o, c);
      r.state.vms == o.state.vms && o.state.trace <= r.state.trace &&
      (r.err.Some? ==> r.err == o.err || r.err == Some(Refused(c)))
  {
    if o.err.None? {
      DoInert(env, o.state, c);
    }
  }

  /** The world a program runs against; its oracle never changes. */
  class World {
    var now: State
    const env: Env

    constructor (env: Env, start: State)
      ensures this.env == env && now == start
    {
      this.env := env;
      now := start;
    }

    /** Makes one call and says whether it succeeded. */
    method Issue(c: Call) returns (ok: bool)
      modifies this
      ensures now == Step(env, old(now), c)
      ensures ok == env.accepts(old(now).trace, c)
    {
      ok := env.accepts(now.trace, c);
      now := Step(env, now, c);
    }

    /** One call as Go code makes it: its refusal is the error it returns. */
    method Call(c: Call) returns (err: Option<Error>)
      modifies this
      ensures Outcome(now, err) == Do(env, old(now), c)
    {
      var ok := Issue(c);
      err := if ok then None else Some(Refused(c));
    }

    /** Makes one call and returns its answer, or "" when it failed. */
    method Ask(c: Call) returns (ok: bool, reply: string)
      modifies this
      ensures now == Step(env, old(now), c)
      ensures ok == env.accepts(old(now).trace, c)
      ensures reply == if ok then env.reply(old(now).trace, c) else ""
    {
      ok := env.accepts(now.trace, c);
      reply := if ok then env.reply(now.trace, c) else "";
      now := Step(env, now, c);
    }
  }
}
