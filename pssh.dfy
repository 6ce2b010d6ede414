/** The parallel-ssh session wrapper: the result record built from a host's
    output, the `cd` prefix put in front of commands, the exit raised on a
    failed command, the working directory kept by nested `cd` blocks, and the
    exits raised when the connection fails. The SSH client is not modelled:
    the host's reply to a command is a parameter. */
module Pssh {
  import opened Common
  import Config

  /** What the client reports for the one host: output lines and the exit
      code, which is None when the command did not report one. */
  datatype HostOutput = HostOutput(stdout: seq<string>, stderr: seq<string>, exitCode: Option<int>)

  datatype PSSHResult = PSSHResult(stdout: string, stderr: string, returnCode: Option<int>, ok: bool)

  /** `"\n".join(lines) if lines else ""`. */
  function JoinLines(lines: seq<string>): string
  {
    if lines == [] then "" else Join(lines, "\n")
  }

  /** `str.split("\n")`, the inverse of joining. */
  function SplitLines(s: string): (r: seq<string>)
    ensures |r| >= 1
  {
    if s == [] then [""]
    else
      var rest := SplitLines(s[1..]);
      if s[0] == '\n' then [""] + rest else [[s[0]] + rest[0]] + rest[1..]
  }

  lemma {:induction false} SplitNoNewline(a: string)
    requires '\n' !in a
    ensures SplitLines(a) == [a]
  {
    if a != [] {
      SplitNoNewline(a[1..]);
      assert [a[0]] + a[1..] == a;
    }
  }

  lemma {:induction false} SplitAtNewline(a: string, b: string)
    requires '\n' !in a
    ensures SplitLines(a + "\n" + b) == [a] + SplitLines(b)
  {
    if a == [] {
      assert a + "\n" + b == "\n" + b;
      assert ("\n" + b)[1..] == b;
    } else {
      var s := a + "\n" + b;
      assert s[0] == a[0] && s[1..] == a[1..] + "\n" + b;
      SplitAtNewline(a[1..], b);
      assert [a[0]] + a[1..] == a;
    }
  }

  /** The output lines can be read back from `stdout`, provided there was at
      least one (no lines and one empty line both give ""). */
  lemma {:induction false} JoinLinesSplit(lines: seq<string>)
    requires lines != []
    requires forall i :: 0 <= i < |lines| ==> '\n' !in lines[i]
    ensures SplitLines(JoinLines(lines)) == lines
  {
    if |lines| == 1 {
      SplitNoNewline(lines[0]);
    } else {
      JoinLinesSplit(lines[1..]);
      SplitAtNewline(lines[0], Join(lines[1..], "\n"));
      assert [lines[0]] + lines[1..] == lines;
    }
  }

  /** `PSSHResult(output, exit_code)`. */
  function MakeResult(out: HostOutput): PSSHResult
  {
    PSSHResult(JoinLines(out.stdout), JoinLines(out.stderr), out.exitCode, out.exitCode == Some(0))
  }

  /** The result is ok exactly on exit code 0 and keeps the code; no output
      lines give "", and a single line is kept as it is. */
  lemma ResultFields(out: HostOutput)
    ensures MakeResult(out).ok <==> out.exitCode == Some(0)
    ensures MakeResult(out).returnCode == out.exitCode
    ensures out.stdout == [] ==> MakeResult(out).stdout == ""
    ensures out.stderr == [] ==> MakeResult(out).stderr == ""
    ensures |out.stdout| == 1 ==> MakeResult(out).stdout == out.stdout[0]
  {
  }

  /** `run` puts `cd {cwd} && ` in front of the command when a working
      directory is set. */
  function Prefixed(cwd: Option<string>, command: string): (r: string)
    ensures EndsWith(r, command)
    ensures r == command <==> !Truthy(cwd)
  {
    if Truthy(cwd) then "cd " + cwd.value + " && " + command else command
  }

  /** `result.return_code or 1`. */
  function FailureCode(code: Option<int>): int
  {
    if code.Some? && code.value != 0 then code.value else 1
  }

  /** How `run` ends once the host has replied. */
  function Outcome(command: string, warn: bool, out: HostOutput): (r: Result<PSSHResult>)
    ensures r.Err? <==> out.exitCode != Some(0) && !warn
    ensures r.Err? ==> (r.error.Exit? && r.error.code != 0
      && (out.exitCode.Some? ==> r.error.code == out.exitCode.value)
      && StartsWith(r.error.message, "Command failed: " + command))
    ensures r.Ok? ==> r.value == MakeResult(out) && (r.value.ok || warn)
  {
    var result := MakeResult(out);
    if !result.ok && !warn then
      Err(Exit(FailureCode(result.returnCode),
               "Command failed: " + command + (if result.stderr != "" then "\n" + result.stderr else "")))
    else Ok(result)
  }

  /** The working directory inside `cd(path)`. */
  function CdTarget(cwd: Option<string>, path: string): Option<string>
  {
    if Truthy(cwd) then Some(if StartsWith(path, "/") then path else cwd.value + "/" + path)
    else Some(path)
  }

  /** Two nested `cd`s reach the directory one `cd` to the joined path
      reaches. */
  lemma CdCompose(cwd: Option<string>, p: string, q: string)
    requires p != "" && !StartsWith(q, "/")
    ensures CdTarget(CdTarget(cwd, p), q) == CdTarget(cwd, p + "/" + q)
  {
    var pq := p + "/" + q;
    assert pq[..1] == p[..1];
    if Truthy(cwd) && !StartsWith(p, "/") {
      assert cwd.value + "/" + p + "/" + q == cwd.value + "/" + pq;
    }
  }

  /** An absolute `cd` does not depend on where it starts. */
  lemma CdAbsolute(cwd: Option<string>, path: string)
    requires StartsWith(path, "/")
    ensures CdTarget(cwd, path) == Some(path)
  {
  }

  /** A script run in the session: commands and `with conn.cd(path):` blocks. */
  datatype Step = RunStep(command: string, warn: bool, pty: bool) | CdStep(path: string, body: seq<Step>)

  /** The commands a script sends (with their pty flag) and how it ends: the
      first failed command ends it. Each block's body runs in the block's
      directory and what follows the block runs where the block started. */
  function Trace(cwd: Option<string>, steps: seq<Step>, reply: (string, bool) -> HostOutput): (seq<(string, bool)>, Result<()>)
    decreases steps
  {
    if steps == [] then ([], Ok(()))
    else
      var head := StepTrace(cwd, steps[0], reply);
      if head.1.Err? then head
      else
        var rest := Trace(cwd, steps[1..], reply);
        (head.0 + rest.0, rest.1)
  }

  /** One step of a script: a command, or a block's body run in the block's
      directory. */
  function StepTrace(cwd: Option<string>, step: Step, reply: (string, bool) -> HostOutput): (seq<(string, bool)>, Result<()>)
    decreases step
  {
    match step
    case RunStep(command, warn, pty) =>
      var full := Prefixed(cwd, command);
      ([(full, pty)], if Outcome(full, warn, reply(full, pty)).Err? then Err(Outcome(full, warn, reply(full, pty)).error) else Ok(()))
    case CdStep(path, body) =>
      Trace(CdTarget(cwd, path), body, reply)
  }

  /** Blocks nest like a stack: a block directly inside another runs its body
      where a single block on the joined path would. */
  lemma NestedCd(cwd: Option<string>, p: string, q: string, body: seq<Step>, reply: (string, bool) -> HostOutput)
    requires p != "" && !StartsWith(q, "/")
    ensures Trace(cwd, [CdStep(p, [CdStep(q, body)])], reply) == Trace(cwd, [CdStep(p + "/" + q, body)], reply)
  {
    CdCompose(cwd, p, q);
    var inner := Trace(CdTarget(CdTarget(cwd, p), q), body, reply);
    assert Trace(CdTarget(cwd, p), [CdStep(q, body)], reply)
        == (if inner.1.Err? then inner else (inner.0 + [], Ok(())));
    assert inner.0 + [] == inner.0;
  }

  /** `PSSHConnectionWrapper`: the working directory and the commands handed
      to the client, with their pty flag. */
  class Session {
    const hostIp: string
    var cwd: Option<string>
    var sent: seq<(string, bool)>

    constructor (hostIp: string)
      ensures this.hostIp == hostIp && cwd == None && sent == []
    {
      this.hostIp := hostIp;
      cwd := None;
      sent := [];
    }

    /** `run(command, warn, pty)`; the host answers with `reply`. */
    method Run(command: string, warn: bool, pty: bool, reply: (string, bool) -> HostOutput) returns (r: Result<PSSHResult>)
      modifies this
      ensures cwd == old(cwd)
      ensures sent == old(sent) + [(Prefixed(cwd, command), pty)]
      ensures r == Outcome(Prefixed(cwd, command), warn, reply(Prefixed(cwd, command), pty))
    {
      var full := command;
      if cwd.Some? && cwd.value != "" {
        full := "cd " + cwd.value + " && " + command;
      }
      sent := sent + [(full, pty)];
      var result := MakeResult(reply(full, pty));
      if !result.ok && !warn {
        var msg := "Command failed: " + full;
        if result.stderr != "" {
          msg := msg + "\n" + result.stderr;
        }
        return Err(Exit(FailureCode(result.returnCode), msg));
      }
      return Ok(result);
    }

    /** Entering `cd(path)`: returns the directory to restore. */
    method EnterCd(path: string) returns (prev: Option<string>)
      modifies this
      ensures prev == old(cwd) && cwd == CdTarget(old(cwd), path) && sent == old(sent)
    {
      prev := cwd;
      if cwd.Some? && cwd.value != "" {
        cwd := Some(if StartsWith(path, "/") then path else cwd.value + "/" + path);
      } else {
        cwd := Some(path);
      }
    }

    /** Runs a script; a block restores the directory on the way out, also
        when its body fails. */
    method Exec(steps: seq<Step>, reply: (string, bool) -> HostOutput) returns (r: Result<()>)
      modifies this
      decreases steps
      ensures cwd == old(cwd)
      ensures sent == old(sent) + Trace(old(cwd), steps, reply).0
      ensures r == Trace(old(cwd), steps, reply).1
    {
      if steps == [] {
        return Ok(());
      }
      r := ExecStep(steps[0], reply);
      if r.Ok? {
        r := Exec(steps[1..], reply);
      }
    }

    /** Runs one step of a script. */
    method ExecStep(step: Step, reply: (string, bool) -> HostOutput) returns (r: Result<()>)
      modifies this
      decreases step
      ensures cwd == old(cwd)
      ensures sent == old(sent) + StepTrace(old(cwd), step, reply).0
      ensures r == StepTrace(old(cwd), step, reply).1
    {
      match step {
        case RunStep(command, warn, pty) =>
          var res := Run(command, warn, pty, reply);
          r := if res.Err? then Err(res.error) else Ok(());
        case CdStep(path, body) =>
          var prev := EnterCd(path);
          r := Exec(body, reply);
          cwd := prev;
      }
    }
  }

  /** The exceptions the client raises while connecting. */
  datatype SshFailure = AuthenticationFailure | ConnectionFailure(text: string) | ProtocolFailure(text: string)

  /** `pssh_host_connection`'s error mapping: every connection failure exits
      with code 1; an authentication failure names the login it tried. */
  function ConnectionError(host: Config.HostConfig, f: SshFailure): (e: Error)
    ensures e.Exit? && e.code == 1
    ensures f.AuthenticationFailure? ==>
      StartsWith(e.message, "Authentication failed for " + host.user + "@" + host.ip + " -p "
        + IntToString(host.sshPort) + ".")
    ensures !f.AuthenticationFailure? ==> StartsWith(e.message, f.text)
  {
    match f
    case AuthenticationFailure =>
      Exit(1, "Authentication failed for " + host.user + "@" + host.ip + " -p " + IntToString(host.sshPort) + ".\n")
    case ConnectionFailure(text) =>
      Exit(1, text + ", possible causes: incorrect user, or either you or the server may be offline")
    case ProtocolFailure(text) =>
      Exit(1, text + ", possible causes: incorrect user, or either you or the server may be offline")
  }
}
