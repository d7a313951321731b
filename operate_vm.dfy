/**
 * First contact with a freshly imported Photon guest
 * (pkg/kubev/deployer/operate_vm.go): probe whether the root password was
 * already rotated; if not, rotate it through an interactive ssh session and
 * install kubev's public key.
 */
module OperateVm {

  import opened Wrappers
  import opened Constants
  import opened Model
  import opened Platform

  /** `needConfigPhoton`'s probe: `echo` as root with the rotated password. */
  function Probe(ip: string): Call
  {
    PasswordExec(ip, PhotonVMUsername, PhotonVMPassword, "echo")
  }

  function SshCommand(ip: string): string
  {
    "ssh -o PubkeyAuthentication=no " + PhotonVMUsername + "@" + ip
  }

  /** The prompts awaited, each with the line sent once it shows up. */
  const PasswordDialogue: seq<(string, string)> := [
    ("Are you sure you want to continue connecting (yes/no)?", "yes"),
    ("assword:", PhotonVMOriginalPassword),
    ("assword:", PhotonVMOriginalPassword),
    ("assword:", PhotonVMPassword),
    ("assword:", PhotonVMPassword),
    ("#", "exit")]

  /** Every prompt followed by its answer: what a dialogue that goes through exchanges. */
  function Transcript(steps: seq<(string, string)>): (cs: seq<Call>)
    ensures |cs| == 2 * |steps|
  {
    if steps == [] then [] else [Expect(steps[0].0), SendLine(steps[0].1)] + Transcript(steps[1..])
  }

  /**
   * Waiting for each prompt in turn (a prompt that does not show up within the
   * timeout is the error) and answering it; the sends' results are ignored.
   */
  function Converse(env: Env, s: State, steps: seq<(string, string)>): (o: Outcome)
    ensures s.trace <= o.state.trace
    ensures forall i | |s.trace| <= i < |o.state.trace| :: o.state.trace[i].Expect? || o.state.trace[i].SendLine?
    decreases |steps|
  {
    if steps == [] then Outcome(s, None)
    else
      var awaited := Expect(steps[0].0);
      var seen := Step(env, s, awaited);
      if !env.accepts(s.trace, awaited) then Outcome(seen, Some(Refused(awaited)))
      else Converse(env, Step(env, seen, SendLine(steps[0].1)), steps[1..])
  }

  /** A trace that went through `head` and then a prefix of `rest` went through a prefix of both. */
  lemma PrefixExtend(t0: seq<Call>, head: seq<Call>, rest: seq<Call>, t: seq<Call>)
    requires t0 + head <= t && t[|t0 + head|..] <= rest
    ensures t[|t0|..] <= head + rest
  {
    assert t[|t0|..] == head + t[|t0 + head|..];
  }

  /**
   * The dialogue sends a prefix of its transcript: all of it when it goes
   * through, and otherwise up to the prompt that did not come, which it names.
   */
  lemma {:induction false} ConverseTrace(env: Env, s: State, steps: seq<(string, string)>)
    decreases |steps|
    ensures var o := Converse(env, s, steps);
      o.state.trace[|s.trace|..] <= Transcript(steps) &&
      (o.err.None? ==> o.state.trace == s.trace + Transcript(steps)) &&
      (o.err.Some? ==> (|o.state.trace| > |s.trace| && o.err == Some(Refused(Last(o.state.trace))) &&
        Last(o.state.trace).Expect?))
  {
    if steps != [] {
      var awaited := Expect(steps[0].0);
      var head := [awaited, SendLine(steps[0].1)];
      assert Transcript(steps) == head + Transcript(steps[1..]);
      if !env.accepts(s.trace, awaited) {
        var seen := Step(env, s, awaited);
        assert seen.trace[|s.trace|..] == [awaited];
      } else {
        var next := Step(env, Step(env, s, awaited), SendLine(steps[0].1));
        assert next.trace == s.trace + head;
        ConverseTrace(env, next, steps[1..]);
        var o := Converse(env, next, steps[1..]);
        assert Converse(env, s, steps) == o;
        PrefixExtend(s.trace, head, Transcript(steps[1..]), o.state.trace);
      }
    }
  }

  /** The exchange: host-key prompt answered "yes", four password prompts, then the shell. */
  lemma PasswordTranscript()
    ensures Transcript(PasswordDialogue) == [
      Expect("Are you sure you want to continue connecting (yes/no)?"), SendLine("yes"),
      Expect("assword:"), SendLine("changeme"),
      Expect("assword:"), SendLine("changeme"),
      Expect("assword:"), SendLine("kubernetes"),
      Expect("assword:"), SendLine("kubernetes"),
      Expect("#"), SendLine("exit")]
  {
    var d := PasswordDialogue;
    assert Transcript(d[6..]) == [];
    assert d[5..][1..] == d[6..];
    assert d[4..][1..] == d[5..];
    assert d[3..][1..] == d[4..];
    assert d[2..][1..] == d[3..];
    assert d[1..][1..] == d[2..];
    assert Transcript(d[5..]) == [Expect("#"), SendLine("exit")];
    assert Transcript(d[4..]) == [Expect("assword:"), SendLine("kubernetes")] + Transcript(d[5..]);
    assert Transcript(d[3..]) == [Expect("assword:"), SendLine("kubernetes")] + Transcript(d[4..]);
    assert Transcript(d[2..]) == [Expect("assword:"), SendLine("changeme")] + Transcript(d[3..]);
    assert Transcript(d[1..]) == [Expect("assword:"), SendLine("changeme")] + Transcript(d[2..]);
  }

  /** `changePhotonDefaultPassword`: purge the old host key, spawn ssh, hold the dialogue, start. */
  function PasswordChange(env: Env, s: State, ip: string): (o: Outcome)
    ensures s.trace < o.state.trace
    ensures forall i | |s.trace| <= i < |o.state.trace| :: !o.state.trace[i].PasswordExec?
  {
    var session := Run(env, s, [PurgeKnownHosts(ip), Spawn(SshCommand(ip))]);
    if session.err.Some? then session
    else
      var talk := Converse(env, session.state, PasswordDialogue);
      if talk.err.Some? then talk
      else Outcome(Step(env, talk.state, Start), None)
  }

  function AuthorizeKeyCommand(key: string): string
  {
    "echo '" + key + "' > /" + PhotonVMUsername + "/.ssh/authorized_keys"
  }

  /** `configSSHInVM`: install the local public key as root's only authorized key. */
  function KeyInstall(env: Env, s: State, h: Host, ip: string): (o: Outcome)
    ensures s.trace <= o.state.trace
  {
    var pub := VMPublicKeyPath(h);
    if pub !in s.files then Outcome(s, Some(MissingFile(pub)))
    else Run(env, s, [PasswordExec(ip, PhotonVMUsername, PhotonVMPassword, AuthorizeKeyCommand(s.files[pub]))])
  }

  /** `ConfigVM`: nothing to do when the probe already logs in. */
  function ConfigVmOutcome(env: Env, s: State, h: Host, ip: string): (o: Outcome)
    ensures s.trace < o.state.trace
  {
    var probed := Step(env, s, Probe(ip));
    if env.accepts(s.trace, Probe(ip)) then Outcome(probed, None)
    else
      var rotated := PasswordChange(env, probed, ip);
      if rotated.err.Some? then rotated else KeyInstall(env, rotated.state, h, ip)
  }

  /** The key-install command writes the key, quoted, to root's authorized_keys. */
  lemma KeyCommandShape(key: string)
    ensures AuthorizeKeyCommand(key) == "echo '" + key + "' > /root/.ssh/authorized_keys"
  {
  }

  /** A guest whose rotated password already works is left alone: only the probe is made. */
  lemma SkipWhenRotated(env: Env, s: State, h: Host, ip: string)
    requires env.accepts(s.trace, Probe(ip))
    ensures ConfigVmOutcome(env, s, h, ip) == Outcome(s.(trace := s.trace + [Probe(ip)]), None)
  {
  }

  /** Rotation begins with the known_hosts purge, and a purge failure stops it there. */
  lemma PurgeFirst(env: Env, s: State, ip: string)
    ensures PasswordChange(env, s, ip).state.trace[|s.trace|..][0] == PurgeKnownHosts(ip)
    ensures !env.accepts(s.trace, PurgeKnownHosts(ip)) ==>
      PasswordChange(env, s, ip) == Outcome(Step(env, s, PurgeKnownHosts(ip)), Some(Refused(PurgeKnownHosts(ip))))
  {
    var o := PasswordChange(env, s, ip);
    var session := Run(env, s, [PurgeKnownHosts(ip), Spawn(SshCommand(ip))]);
    assert session.state.trace[|s.trace|..] <= [PurgeKnownHosts(ip), Spawn(SshCommand(ip))];
    if session.err.None? {
      ConverseTrace(env, session.state, PasswordDialogue);
      var talk := Converse(env, session.state, PasswordDialogue);
      assert talk.state.trace[|s.trace|..][0] == session.state.trace[|s.trace|..][0];
    }
  }

  /**
   * A failed rotation returns its error before the key install: no command
   * with the public key is sent.
   */
  lemma NoKeyAfterFailedRotation(env: Env, s: State, h: Host, ip: string)
    requires !env.accepts(s.trace, Probe(ip))
    requires PasswordChange(env, Step(env, s, Probe(ip)), ip).err.Some?
    ensures ConfigVmOutcome(env, s, h, ip) == PasswordChange(env, Step(env, s, Probe(ip)), ip)
    ensures forall c | c in ConfigVmOutcome(env, s, h, ip).state.trace[|s.trace|..] ::
      !c.PasswordExec? || c == Probe(ip)
  {
    var probed := Step(env, s, Probe(ip));
    var o := ConfigVmOutcome(env, s, h, ip);
    forall c | c in o.state.trace[|s.trace|..] ensures !c.PasswordExec? || c == Probe(ip) {
      var i :| 0 <= i < |o.state.trace[|s.trace|..]| && o.state.trace[|s.trace|..][i] == c;
      assert c == o.state.trace[|s.trace| + i];
    }
  }

  /** `needConfigPhoton`: the guest needs configuring iff the probe fails. */
  method NeedConfigPhoton(world: World, ip: string) returns (need: bool)
    modifies world
    ensures world.now == Step(world.env, old(world.now), Probe(ip))
    ensures need <==> !world.env.accepts(old(world.now).trace, Probe(ip))
  {
    var ok := world.Issue(Probe(ip));
    need := !ok;
  }

  method ChangePhotonDefaultPassword(world: World, ip: string) returns (err: Option<Error>)
    modifies world
    ensures Outcome(world.now, err) == PasswordChange(world.env, old(world.now), ip)
  {
    ghost var s0 := world.now;
    var ok := world.Issue(PurgeKnownHosts(ip));
    RunCons(world.env, s0, PurgeKnownHosts(ip), [Spawn(SshCommand(ip))]);
    if !ok {
      return Some(Refused(PurgeKnownHosts(ip)));
    }
    ok := world.Issue(Spawn(SshCommand(ip)));
    RunCons(world.env, s0, PurgeKnownHosts(ip), [Spawn(SshCommand(ip))]);
    RunOne(world.env, Step(world.env, s0, PurgeKnownHosts(ip)), Spawn(SshCommand(ip)));
    if !ok {
      return Some(Refused(Spawn(SshCommand(ip))));
    }
    ghost var d := PasswordDialogue;
    ghost var talk := Converse(world.env, world.now, d);
    assert PasswordChange(world.env, s0, ip) ==
      if talk.err.Some? then talk else Outcome(Step(world.env, talk.state, Start), None);
    err := Answer(world, "Are you sure you want to continue connecting (yes/no)?", "yes", d);
    if err.Some? { return; }
    assert Converse(world.env, world.now, d[1..]) == talk;
    err := Answer(world, "assword:", PhotonVMOriginalPassword, d[1..]);
    if err.Some? { return; }
    assert d[1..][1..] == d[2..] && Converse(world.env, world.now, d[2..]) == talk;
    err := Answer(world, "assword:", PhotonVMOriginalPassword, d[2..]);
    if err.Some? { return; }
    assert d[2..][1..] == d[3..] && Converse(world.env, world.now, d[3..]) == talk;
    err := Answer(world, "assword:", PhotonVMPassword, d[3..]);
    if err.Some? { return; }
    assert d[3..][1..] == d[4..] && Converse(world.env, world.now, d[4..]) == talk;
    err := Answer(world, "assword:", PhotonVMPassword, d[4..]);
    if err.Some? { return; }
    assert d[4..][1..] == d[5..] && Converse(world.env, world.now, d[5..]) == talk;
    err := Answer(world, "#", "exit", d[5..]);
    if err.Some? { return; }
    assert d[5..][1..] == [];
    assert talk == Outcome(world.now, None);
    ok := world.Issue(Start);
  }

  /**
   * One `ExpectTimeout` followed by its `SendLine`: the rest of the dialogue
   * from here on goes as `Converse` says.
   */
  method Answer(world: World, prompt: string, line: string, ghost rest: seq<(string, string)>)
    returns (err: Option<Error>)
    requires |rest| > 0 && rest[0] == (prompt, line)
    modifies world
    ensures err.Some? ==> Outcome(world.now, err) == Converse(world.env, old(world.now), rest)
    ensures err.None? ==> Converse(world.env, old(world.now), rest) == Converse(world.env, world.now, rest[1..])
  {
    var ok := world.Issue(Expect(prompt));
    if !ok {
      return Some(Refused(Expect(prompt)));
    }
    ok := world.Issue(SendLine(line));
    err := None;
  }

  method ConfigSshInVm(world: World, h: Host, ip: string) returns (err: Option<Error>)
    modifies world
    ensures Outcome(world.now, err) == KeyInstall(world.env, old(world.now), h, ip)
  {
    var pub := VMPublicKeyPath(h);
    if pub !in world.now.files {
      return Some(MissingFile(pub));
    }
    var key := world.now.files[pub];
    var call := PasswordExec(ip, PhotonVMUsername, PhotonVMPassword, AuthorizeKeyCommand(key));
    RunOne(world.env, world.now, call);
    var ok := world.Issue(call);
    err := if ok then None else Some(Refused(call));
  }

  method ConfigVm(world: World, h: Host, node: K8sNode) returns (err: Option<Error>)
    modifies world
    ensures Outcome(world.now, err) == ConfigVmOutcome(world.env, old(world.now), h, node.ip)
  {
    ghost var s0 := world.now;
    var need := NeedConfigPhoton(world, node.ip);
    if !need {
      return None;
    }
    ghost var probed := world.now;
    err := ChangePhotonDefaultPassword(world, node.ip);
    if err.Some? {
      assert Outcome(world.now, err) == PasswordChange(world.env, probed, node.ip);
      return;
    }
    ghost var rotated := world.now;
    assert PasswordChange(world.env, probed, node.ip) == Outcome(rotated, None);
    err := ConfigSshInVm(world, h, node.ip);
    assert Outcome(world.now, err) == KeyInstall(world.env, rotated, h, node.ip);
  }
}
