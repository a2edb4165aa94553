/** The older `run` command: the same resolution and command line as `exec`, except that
    `--save-as` stores the command directly, with no overwrite warning. */
module Run {
  import opened Wrappers
  import opened Text
  import opened Terminal
  import opened Config
  import opened Exec

  /** `run`: devenv first, then help, a usage error, or the container run. */
  function RunEffect(ini: Ini, devenv: Option<string>, cwd: string, cmdName: Option<string>,
                     command: Option<string>, saveAs: Option<string>, help: string,
                     run: seq<string> -> int): Effect
  {
    var chosen := FigureOutDevenv(ini, devenv, cwd);
    if chosen.Err? then Effect(Raised(chosen.error), ini, false, [], [])
    else
      var plan := Resolve(ini.sections[chosen.value], cmdName, command, saveAs);
      if plan.Err? then Effect(Raised(plan.error), ini, false, [], [])
      else if plan.value.ShowHelp? then Effect(Exit(0), ini, false, [Piece(help, Plain, true)], [])
      else
        var cmd := plan.value.command;
        var save := plan.value.saveAs;
        var config := if save.Some? then SaveCommand(ini, chosen.value, save.value, cmd) else ini;
        var argv := ExecArgv(config.sections[chosen.value], cmd);
        Effect(if argv.None? then ArgvTypeError else Exit(run(argv.value)), config, save.Some?, [], [])
  }

  /** Runs `run` against a parsed config, assigning the saved command in place. */
  method Run(config: ConfigParser, devenv: Option<string>, cwd: string, cmdName: Option<string>,
             command: Option<string>, saveAs: Option<string>, help: string,
             run: seq<string> -> int, stdout: Console)
    returns (outcome: Outcome, written: bool)
    modifies config, stdout
    ensures var e := RunEffect(old(config.ini), devenv, cwd, cmdName, command, saveAs, help, run);
            outcome == e.outcome && config.ini == e.config && written == e.written &&
            stdout.out == old(stdout.out) + e.stdout
  {
    var chosen := FigureOutDevenv(config.ini, devenv, cwd);
    if chosen.Err? {
      return Raised(chosen.error), false;
    }
    var name := chosen.value;
    var plan := Resolve(config.ini.sections[name], cmdName, command, saveAs);
    if plan.Err? {
      return Raised(plan.error), false;
    }
    if plan.value.ShowHelp? {
      stdout.Echo(help, Plain, true);
      return Exit(0), false;
    }
    var cmd := plan.value.command;
    written := false;
    if plan.value.saveAs.Some? {
      config.Set(name, CmdPrefix + plan.value.saveAs.value, cmd);
      written := true;
    }
    var argv := ExecArgv(config.ini.sections[name], cmd);
    outcome := if argv.None? then ArgvTypeError else Exit(run(argv.value));
  }

  /** `run` behaves exactly as `exec --no-warn`: same outcome, same config, same file write,
      and nothing on stderr. */
  lemma RunIsQuietExec(ini: Ini, devenv: Option<string>, cwd: string, cmdName: Option<string>,
                       command: Option<string>, saveAs: Option<string>, help: string, run: seq<string> -> int)
    ensures RunEffect(ini, devenv, cwd, cmdName, command, saveAs, help, run) ==
            ExecEffect(ini, devenv, cwd, cmdName, command, saveAs, false, help, run)
  {
  }

  /** Even with `--warn`, `exec` differs from `run` only in the overwrite warning it prints. */
  lemma RunDiffersOnlyInWarning(ini: Ini, devenv: Option<string>, cwd: string, cmdName: Option<string>,
                                command: Option<string>, saveAs: Option<string>, help: string,
                                run: seq<string> -> int)
    ensures var r := RunEffect(ini, devenv, cwd, cmdName, command, saveAs, help, run);
            var e := ExecEffect(ini, devenv, cwd, cmdName, command, saveAs, true, help, run);
            r == e.(stderr := [])
  {
  }
}
