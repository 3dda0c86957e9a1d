/**
 * The `shell.exec` tool: argument checks, the command policy of
 * `Sandbox.ValidateShellCmd` with the tool's own lists, and output
 * truncation. Running the command is the oracle `Runner`; the model
 * records whether and with what it was started.
 */
module ShellTool {
  import opened Wrappers
  import opened JsonValue
  import opened Strings
  import opened Sandbox

  const AllowedPrefixes: seq<string> :=
    ["ls", "cat", "echo", "pwd", "python", "pytest", "rg", "grep", "sed", "head", "tail"]
  const DenySubstrings: seq<string> :=
    ["rm ", " rm", "sudo", "chmod", "chown", "mkfs", "dd ", ":(){", ">/dev/sd", "curl", "wget"]
  const MaxOutputChars: nat := 20000
  const DefaultTimeout: int := 20

  /** What `subprocess.run` gives back: the completed process, or `TimeoutExpired`. */
  datatype Completed = Completed(returncode: int, stdout: string, stderr: string) | TimedOut

  /** `subprocess.run(cmd, shell=True, cwd=root, timeout=timeout_s, ...)`. */
  type Runner = (string, real) -> Completed

  /** The handler's answer and the process it started, if any. */
  datatype ShellOutcome = ShellOutcome(result: Result<Json>, launched: Option<(string, real)>)

  /** The handler's argument and policy checks; the command and timeout on success. */
  function CheckShellArgs(args: map<string, Json>): (r: Result<(string, real)>)
    ensures !Get(args, "cmd").JStr? ==> r == Err("cmd must be a string")
    ensures var t := GetOr(args, "timeout_s", JInt(DefaultTimeout));
            Get(args, "cmd").JStr? && !(IsNumber(t) && NumberValue(t) > 0.0) ==> r == Err("timeout_s must be positive")
    ensures r.Ok? ==> Get(args, "cmd") == JStr(r.value.0) && r.value.1 > 0.0
    ensures r.Ok? <==>
              && Get(args, "cmd").JStr?
              && (var t := GetOr(args, "timeout_s", JInt(DefaultTimeout));
                  IsNumber(t) && NumberValue(t) > 0.0)
              && ValidateShellCmd(Get(args, "cmd").s, AllowedPrefixes, DenySubstrings).0
  {
    var cmd := Get(args, "cmd");
    var timeout := GetOr(args, "timeout_s", JInt(DefaultTimeout));
    if !cmd.JStr? then Err("cmd must be a string")
    else if !IsNumber(timeout) || NumberValue(timeout) <= 0.0 then Err("timeout_s must be positive")
    else
      var (ok, reason) := ValidateShellCmd(cmd.s, AllowedPrefixes, DenySubstrings);
      if !ok then Err(if reason.Some? then reason.value else "command rejected")
      else Ok((cmd.s, NumberValue(timeout)))
  }

  /**
   * `shell_exec_handler(root)(args)`: a command is started only once every
   * check has passed; a timeout becomes "command timed out", and otherwise
   * the answer holds exactly the return code and both outputs cut to
   * their first 20000 characters.
   */
  function ShellExec(args: map<string, Json>, run: Runner): (o: ShellOutcome)
    ensures CheckShellArgs(args).Err? ==> o == ShellOutcome(Err(CheckShellArgs(args).msg), None)
    ensures CheckShellArgs(args).Ok? ==> o.launched == Some(CheckShellArgs(args).value)
    ensures o.launched.Some? && run(o.launched.value.0, o.launched.value.1).TimedOut? ==>
              o.result == Err("command timed out")
    ensures o.result.Ok? ==>
              && o.launched.Some?
              && var c := run(o.launched.value.0, o.launched.value.1);
                 && c.Completed?
                 && o.result.value == JObj(map["returncode" := JInt(c.returncode),
                                                "stdout" := JStr(Prefix(c.stdout, MaxOutputChars)),
                                                "stderr" := JStr(Prefix(c.stderr, MaxOutputChars))])
  {
    match CheckShellArgs(args)
    case Err(m) => ShellOutcome(Err(m), None)
    case Ok((cmd, timeout)) =>
      var completed := run(cmd, timeout);
      if completed.TimedOut? then ShellOutcome(Err("command timed out"), Some((cmd, timeout)))
      else
        var stdout := Prefix(completed.stdout, MaxOutputChars);
        var stderr := Prefix(completed.stderr, MaxOutputChars);
        ShellOutcome(Ok(JObj(map["returncode" := JInt(completed.returncode),
                                 "stdout" := JStr(stdout), "stderr" := JStr(stderr)])),
                     Some((cmd, timeout)))
  }

  /** Whatever the process printed, each reported output is at most 20000 characters from its front. */
  lemma OutputsBounded(args: map<string, Json>, run: Runner)
    requires ShellExec(args, run).result.Ok?
    ensures var out := ShellExec(args, run).result.value.fields;
            && out.Keys == {"returncode", "stdout", "stderr"}
            && |out["stdout"].s| <= MaxOutputChars && |out["stderr"].s| <= MaxOutputChars
  {
  }

  /** `rm -rf /` is refused by the prefix rule, and nothing is started. */
  lemma RemoveAllRefused(run: Runner)
    ensures ShellExec(map["cmd" := JStr("rm -rf /")], run) == ShellOutcome(Err(CommandNotAllowed), None)
  {
    var cmd := "rm -rf /";
    assert LStrip(cmd) == cmd;
    forall k | 0 <= k < |AllowedPrefixes|
      ensures !(cmd == AllowedPrefixes[k] || IsPrefix(AllowedPrefixes[k] + " ", cmd))
    {
      assert cmd[0] == 'r' && cmd[1] == 'm';
    }
    assert !PrefixAllowed(LStrip(cmd), AllowedPrefixes);
  }

  /** `echo hi` passes both rules and is started with the default 20 second timeout. */
  lemma EchoStarted(run: Runner)
    ensures ShellExec(map["cmd" := JStr("echo hi")], run).launched == Some(("echo hi", 20.0))
  {
    var cmd := "echo hi";
    assert LStrip(cmd) == cmd;
    assert IsPrefix(AllowedPrefixes[2] + " ", cmd);
    assert PrefixAllowed(LStrip(cmd), AllowedPrefixes);
    // each denied substring holds a character "echo hi" lacks, at this index
    var foreign := [0, 1, 0, 2, 3, 0, 0, 0, 0, 1, 0];
    forall k | 0 <= k < |DenySubstrings| ensures !Contains(cmd, DenySubstrings[k]) {
      ForeignCharNotContained(cmd, DenySubstrings[k], foreign[k]);
    }
  }
}
