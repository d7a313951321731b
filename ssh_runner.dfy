/**
 * Running commands on, and copying files to, a guest over one SSH connection
 * (pkg/kubev/deployer/ssh_runner.go). Every session is a call to the world: a
 * session that cannot be opened and a command that fails are the same refusal.
 */
module SshRunners {

  import opened Wrappers
  import opened GoStrings
  import opened Platform

  /** A file to copy: its bytes, where it goes and its mode, such as "0750". */
  datatype Asset = Asset(content: string, targetDir: string, targetName: string, permissions: string)

  /** The scp sink's header: `C<mode> <length> <name>` and a newline. */
  function ScpHeader(f: Asset): string
  {
    "C" + f.permissions + " " + Itoa(|f.content|) + " " + f.targetName + "\n"
  }

  /** What is written to the scp sink's standard input: header, content, one NUL byte. */
  function ScpStream(f: Asset): string
  {
    ScpHeader(f) + f.content + "\0"
  }

  function CopyPreCommands(f: Asset): seq<string>
  {
    ["rm -f " + Join(f.targetDir, f.targetName), "mkdir -p " + f.targetDir]
  }

  function ScpCommand(f: Asset): string
  {
    "scp -t " + f.targetDir
  }

  /** The calls `Copy` makes: remove the old file, create the directory, run the scp sink. */
  function CopyScript(ip: string, f: Asset): (cs: seq<Call>)
  {
    [Exec(ip, CopyPreCommands(f)[0]), Exec(ip, CopyPreCommands(f)[1]), Scp(ip, ScpCommand(f), ScpStream(f))]
  }

  /** `getDeleteFileCommand`: `rm` without `-f`. */
  function DeleteFileCommand(f: Asset): string
  {
    "rm " + Join(f.targetDir, f.targetName)
  }

  /** The receiving side of the scp framing: mode, name and content, if well framed. */
  function ParseScp(stream: string): (r: Option<(string, string, string)>)
  {
    if |stream| == 0 || stream[0] != 'C' then None
    else match SplitAt(stream[1..], ' ')
      case None => None
      case Some((mode, rest)) =>
        match SplitAt(rest, ' ')
        case None => None
        case Some((digits, rest2)) =>
          if |digits| == 0 || !AllDigits(digits) then None
          else match SplitAt(rest2, '\n')
            case None => None
            case Some((name, body)) =>
              var n := DecimalValue(digits);
              if |body| != n + 1 || body[n] != '\0' then None
              else Some((mode, name, body[..n]))
  }

  /** The framing is read back exactly, whatever the content holds. */
  lemma ScpRoundTrip(f: Asset)
    requires ' ' !in f.permissions && '\n' !in f.targetName
    ensures ParseScp(ScpStream(f)) == Some((f.permissions, f.targetName, f.content))
  {
    var len := Itoa(|f.content|);
    var tail := f.content + "\0";
    var s := ScpStream(f);
    assert s == "C" + (f.permissions + [' '] + (len + [' '] + (f.targetName + ['\n'] + tail)));
    assert s[1..] == f.permissions + [' '] + (len + [' '] + (f.targetName + ['\n'] + tail));
    SplitAtConcat(f.permissions, ' ', len + [' '] + (f.targetName + ['\n'] + tail));
    DigitsHaveNo(len, ' ');
    SplitAtConcat(len, ' ', f.targetName + ['\n'] + tail);
    SplitAtConcat(f.targetName, '\n', tail);
    assert tail[..|f.content|] == f.content;
  }

  /** The header names the exact number of content bytes that follow it. */
  lemma ScpLength(f: Asset)
    ensures |ScpStream(f)| == |ScpHeader(f)| + |f.content| + 1
    ensures DecimalValue(Itoa(|f.content|)) == |f.content|
  {
  }

  /** The old file is removed and the directory made before the scp sink starts. */
  lemma CopyOrder(ip: string, f: Asset)
    ensures CopyScript(ip, f) == [
      Exec(ip, "rm -f " + Join(f.targetDir, f.targetName)),
      Exec(ip, "mkdir -p " + f.targetDir),
      Scp(ip, "scp -t " + f.targetDir, ScpStream(f))]
  {
  }

  /** If either preparatory command fails, no scp session is started. */
  lemma NoScpAfterFailure(env: Env, s: State, ip: string, f: Asset)
    requires !Succeeds(env, s, CopyScript(ip, f)[..2])
    ensures forall c | c in Run(env, s, CopyScript(ip, f)).state.trace[|s.trace|..] :: !c.Scp?
  {
    NotReached(env, s, CopyScript(ip, f), 2);
  }

  /** `Remove` deletes without `-f`, so its command differs from the removal `Copy` starts with. */
  lemma RemoveIsNotForced(f: Asset)
    ensures DeleteFileCommand(f) == "rm " + Join(f.targetDir, f.targetName)
    ensures DeleteFileCommand(f) != CopyPreCommands(f)[0]
  {
    assert |DeleteFileCommand(f)| + 3 == |CopyPreCommands(f)[0]|;
  }

  /** `SSHRunner`: a connection to the guest at `ip`. */
  class SshRunner {
    const ip: string
    const world: World

    constructor (ip: string, world: World)
      ensures this.ip == ip && this.world == world
    {
      this.ip := ip;
      this.world := world;
    }

    /** `Run`: the command's failure is returned as the error. */
    method Run(cmd: string) returns (err: Option<Error>)
      modifies world
      ensures Outcome(world.now, err) == Platform.Run(world.env, old(world.now), [Exec(ip, cmd)])
    {
      var ok := world.Issue(Exec(ip, cmd));
      err := if ok then None else Some(Refused(Exec(ip, cmd)));
    }

    /** `CombinedOutput`: the output, or "" together with an error. */
    method CombinedOutput(cmd: string) returns (out: string, err: Option<Error>)
      modifies world
      ensures Outcome(world.now, err) == Platform.Run(world.env, old(world.now), [Exec(ip, cmd)])
      ensures err.None? ==> out == world.env.reply(old(world.now).trace, Exec(ip, cmd))
      ensures err.Some? ==> out == ""
    {
      var ok;
      ok, out := world.Ask(Exec(ip, cmd));
      err := if ok then None else Some(Refused(Exec(ip, cmd)));
    }

    /** `Remove`: `rm <dir>/<name>`, which fails if the file is absent. */
    method Remove(f: Asset) returns (err: Option<Error>)
      modifies world
      ensures Outcome(world.now, err) ==
        Platform.Run(world.env, old(world.now), [Exec(ip, DeleteFileCommand(f))])
    {
      err := Run(DeleteFileCommand(f));
    }

    /** `Copy`: two preparatory commands, then the scp sink fed the framed file. */
    method Copy(f: Asset) returns (err: Option<Error>)
      modifies world
      ensures Outcome(world.now, err) == Platform.Run(world.env, old(world.now), CopyScript(ip, f))
    {
      ghost var start := world.now;
      var cmds := CopyPreCommands(f);
      ghost var script := CopyScript(ip, f);
      for i := 0 to |cmds|
        invariant Outcome(world.now, None) == Platform.Run(world.env, start, script[..i])
      {
        assert script[..i + 1] == script[..i] + [Exec(ip, cmds[i])];
        RunAppend(world.env, start, script[..i], [Exec(ip, cmds[i])]);
        err := Run(cmds[i]);
        if err.Some? {
          NotReached(world.env, start, script, i + 1);
          return;
        }
      }
      var scp := Scp(ip, ScpCommand(f), ScpStream(f));
      assert script == script[..2] + [scp];
      RunAppend(world.env, start, script[..2], [scp]);
      var ok := world.Issue(scp);
      err := if ok then None else Some(Refused(scp));
    }
  }
}
