/** The `exec` command: which saved or raw command line to run in the devenv's container,
    saving a raw command under an alias, and the `docker run` command line it starts. */
module Exec {
  import opened Wrappers
  import opened Text
  import opened Terminal
  import opened Config

  const ImageKey := "image"
  const MountDirKey := "mount_dir"
  const ShellKey := "shell"
  const BothGivenText := "Cannot specify a command name and a command"

  /** Python truthiness of an optional argument: given and not empty. */
  predicate Truthy(o: Option<string>)
  {
    o.Some? && o.value != []
  }

  /** `section.get(key)` */
  function Get(section: Section, key: string): Option<string>
  {
    if key in section then Some(section[key]) else None
  }

  function NotFoundText(name: string): string
  {
    "Command `" + name + "` not found"
  }

  /** What the arguments ask for: the help text, or a command line to run, saved first under
      an alias when one is given. */
  datatype Plan = ShowHelp | RunCommand(command: string, saveAs: Option<string>)

  /** Chooses between help, a saved command looked up by name, and a raw command line. */
  function Resolve(section: Section, cmdName: Option<string>, command: Option<string>, saveAs: Option<string>)
    : (r: Result<Plan, ConfigError>)
    ensures r == Ok(ShowHelp) <==> !Truthy(cmdName) && !Truthy(command)
    ensures Truthy(cmdName) && Truthy(command) ==> r == Err(Usage(BothGivenText))
    ensures Truthy(cmdName) && !Truthy(command) ==>
              (r.Ok? <==> CmdKey(cmdName.value) in section) &&
              (r.Ok? ==> r.value == RunCommand(section[CmdKey(cmdName.value)], None)) &&
              (r.Err? ==> r.error == Usage(NotFoundText(cmdName.value)))
    ensures r.Ok? && r.value.RunCommand? && r.value.saveAs.Some? ==>
              !Truthy(cmdName) && Truthy(saveAs) && r.value == RunCommand(command.value, saveAs)
    ensures !Truthy(cmdName) && Truthy(command) ==> r.Ok? && r.value.RunCommand? && r.value.command == command.value
  {
    if !Truthy(cmdName) && !Truthy(command) then Ok(ShowHelp)
    else if Truthy(cmdName) && Truthy(command) then Err(Usage(BothGivenText))
    else if Truthy(cmdName) then
      if CmdKey(cmdName.value) !in section then Err(Usage(NotFoundText(cmdName.value)))
      else Ok(RunCommand(section[CmdKey(cmdName.value)], None))
    else Ok(RunCommand(command.value, if Truthy(saveAs) then saveAs else None))
  }

  /** `f'{source_dir}:{mount_dir}'`, where a missing key prints as None. */
  function Volume(section: Section): string
  {
    Str(Get(section, SourceDirKey)) + ":" + Str(Get(section, MountDirKey))
  }

  /** The start every container command line shares: an interactive, removed container with
      the source directory mounted. */
  function DockerRun(volume: string): seq<string>
  {
    ["docker", "run", "-it", "--rm", "-v", volume]
  }

  /** The command line for running `command` with the devenv's image and shell; `None` when
      the image or the shell is missing, which `subprocess.run` refuses. */
  function ExecArgv(section: Section, command: string): (r: Option<seq<string>>)
    ensures r.Some? <==> ImageKey in section && ShellKey in section
    ensures r.Some? ==> |r.value| == 10 && r.value[..6] == DockerRun(Volume(section)) &&
                        r.value[6] == section[ImageKey] && r.value[7] == section[ShellKey] &&
                        r.value[8..] == ["-c", command]
  {
    if ImageKey in section && ShellKey in section
    then Some(DockerRun(Volume(section)) + [section[ImageKey], section[ShellKey], "-c", command])
    else None
  }

  /** Saving a command changes nothing about the container: image, shell and mount stay. */
  lemma SavingKeepsContainer(section: Section, alias: string, saved: string, command: string)
    ensures ExecArgv(section[CmdKey(alias) := saved], command) == ExecArgv(section, command)
  {
    var k := CmdKey(alias);
    assert k[0] == 'c';
    assert k != ImageKey && k != ShellKey && k != SourceDirKey && k != MountDirKey by {
      assert ImageKey[0] != 'c' && ShellKey[0] != 'c' && SourceDirKey[0] != 'c' && MountDirKey[0] != 'c';
    }
    assert Volume(section[k := saved]) == Volume(section);
  }

  /** How the command ends: `ctx.exit(code)`, a raised click or configparser error, or the
      `TypeError` that `subprocess.run` raises for a `None` argument. */
  datatype Outcome = Exit(code: int) | Raised(error: ConfigError) | ArgvTypeError

  /** Everything one call does: how it ends, the config afterwards, whether the config file
      was written, and what it echoed on stdout and stderr. */
  datatype Effect = Effect(outcome: Outcome, config: Ini, written: bool, stdout: seq<Piece>, stderr: seq<Piece>)

  /** The config with `cmd.<alias>` set to `command` in one section. */
  function SaveCommand(ini: Ini, section: string, alias: string, command: string): Ini
    requires section in ini.sections
  {
    ini.(sections := ini.sections[section := ini.sections[section][CmdKey(alias) := command]])
  }

  /** `exec`: the devenv is chosen first, so a config problem wins over every argument check;
      then help, a usage error, or the container run, whose return code is the exit status. */
  function ExecEffect(ini: Ini, devenv: Option<string>, cwd: string, cmdName: Option<string>,
                      command: Option<string>, saveAs: Option<string>, warn: bool, help: string,
                      run: seq<string> -> int): Effect
  {
    var chosen := FigureOutDevenv(ini, devenv, cwd);
    if chosen.Err? then Effect(Raised(chosen.error), ini, false, [], [])
    else
      var section := ini.sections[chosen.value];
      var plan := Resolve(section, cmdName, command, saveAs);
      if plan.Err? then Effect(Raised(plan.error), ini, false, [], [])
      else if plan.value.ShowHelp? then Effect(Exit(0), ini, false, [Piece(help, Plain, true)], [])
      else
        var cmd := plan.value.command;
        var save := plan.value.saveAs;
        var config := if save.Some? then SaveCommand(ini, chosen.value, save.value, cmd) else ini;
        var warning := if save.Some? && CmdKey(save.value) in section && warn
                       then OverwriteWarning(save.value, section[CmdKey(save.value)]) else [];
        var argv := ExecArgv(config.sections[chosen.value], cmd);
        Effect(if argv.None? then ArgvTypeError else Exit(run(argv.value)), config, save.Some?, [], warning)
  }

  /** Runs `exec` against a parsed config, changing it in place when a command is saved. */
  method Exec(config: ConfigParser, devenv: Option<string>, cwd: string, cmdName: Option<string>,
              command: Option<string>, saveAs: Option<string>, warn: bool, help: string,
              run: seq<string> -> int, stdout: Console, stderr: Console)
    returns (outcome: Outcome, written: bool)
    requires stdout != stderr
    modifies config, stdout, stderr
    ensures var e := ExecEffect(old(config.ini), devenv, cwd, cmdName, command, saveAs, warn, help, run);
            outcome == e.outcome && config.ini == e.config && written == e.written &&
            stdout.out == old(stdout.out) + e.stdout && stderr.out == old(stderr.out) + e.stderr
  {
    var chosen := FigureOutDevenv(config.ini, devenv, cwd);
    if chosen.Err? {
      return Raised(chosen.error), false;
    }
    var name := chosen.value;
    var plan := Resolve(config.ini.sections[name], cmdName, command, saveAs);
    if plan.Err? {
      return Raised(plan.error), false;
    }
    if plan.value.ShowHelp? {
      stdout.Echo(help, Plain, true);
      return Exit(0), false;
    }
    var cmd := plan.value.command;
    written := false;
    if plan.value.saveAs.Some? {
      config.AddDevenvCommand(name, plan.value.saveAs.value, cmd, warn, stderr);
      written := true;
    }
    var argv := ExecArgv(config.ini.sections[name], cmd);
    outcome := if argv.None? then ArgvTypeError else Exit(run(argv.value));
  }

  /** A config problem ends the command before it looks at its arguments: nothing is echoed,
      saved or run. */
  lemma ExecDevenvFirst(ini: Ini, devenv: Option<string>, cwd: string, cmdName: Option<string>,
                        command: Option<string>, saveAs: Option<string>, warn: bool, help: string,
                        run: seq<string> -> int)
    requires FigureOutDevenv(ini, devenv, cwd).Err?
    ensures var e := ExecEffect(ini, devenv, cwd, cmdName, command, saveAs, warn, help, run);
            e == Effect(Raised(FigureOutDevenv(ini, devenv, cwd).error), ini, false, [], [])
  {
  }

  /** Help is printed exactly when neither a command name nor a command is given, and then
      the command exits 0 with the config untouched. */
  lemma ExecHelp(ini: Ini, devenv: Option<string>, cwd: string, cmdName: Option<string>,
                 command: Option<string>, saveAs: Option<string>, warn: bool, help: string,
                 run: seq<string> -> int)
    requires FigureOutDevenv(ini, devenv, cwd).Ok?
    ensures var e := ExecEffect(ini, devenv, cwd, cmdName, command, saveAs, warn, help, run);
            (e.stdout != [] <==> !Truthy(cmdName) && !Truthy(command)) &&
            (e.stdout != [] ==> e == Effect(Exit(0), ini, false, [Piece(help, Plain, true)], []))
  {
  }

  /** Only a saved alias changes the config, and then only its one key (and the file is
      written); every other call leaves the config as it was. */
  lemma ExecChangesOnlyAlias(ini: Ini, devenv: Option<string>, cwd: string, cmdName: Option<string>,
                             command: Option<string>, saveAs: Option<string>, warn: bool, help: string,
                             run: seq<string> -> int)
    ensures var e := ExecEffect(ini, devenv, cwd, cmdName, command, saveAs, warn, help, run);
            var chosen := FigureOutDevenv(ini, devenv, cwd);
            (e.written <==> chosen.Ok? && !Truthy(cmdName) && Truthy(command) && Truthy(saveAs)) &&
            (!e.written ==> e.config == ini && e.stderr == []) &&
            (e.written ==> e.config == SaveCommand(ini, chosen.value, saveAs.value, command.value))
  {
  }

  /** A named command runs the saved command line: nothing is saved, `--save-as` is ignored,
      and the exit status is the container's return code. */
  lemma ExecNamed(ini: Ini, devenv: Option<string>, cwd: string, name: string, saveAs: Option<string>,
                  warn: bool, help: string, run: seq<string> -> int)
    requires name != []
    ensures var e := ExecEffect(ini, devenv, cwd, Some(name), None, saveAs, warn, help, run);
            var chosen := FigureOutDevenv(ini, devenv, cwd);
            chosen.Ok? && CmdKey(name) in ini.sections[chosen.value] ==>
              var section := ini.sections[chosen.value];
              var argv := ExecArgv(section, section[CmdKey(name)]);
              e.config == ini && !e.written && e.stdout == [] && e.stderr == [] &&
              e.outcome == (if argv.None? then ArgvTypeError else Exit(run(argv.value)))
  {
  }

  /** Saving a raw command under an alias and later running that alias by name run the same
      command line in the same devenv, with the same result, and the second call saves nothing. */
  lemma ExecSaveThenByName(ini: Ini, devenv: Option<string>, cwd: string, command: string, alias: string,
                           warn: bool, help: string, run: seq<string> -> int)
    requires command != [] && alias != []
    ensures var first := ExecEffect(ini, devenv, cwd, None, Some(command), Some(alias), warn, help, run);
            var second := ExecEffect(first.config, devenv, cwd, Some(alias), None, None, warn, help, run);
            second.outcome == first.outcome && second.config == first.config && !second.written &&
            second.stderr == []
  {
    var chosen := FigureOutDevenv(ini, devenv, cwd);
    if chosen.Ok? {
      var saved := SaveCommand(ini, chosen.value, alias, command);
      assert CmdKey(alias) != SourceDirKey by {
        assert CmdKey(alias)[0] != SourceDirKey[0];
      }
      SetKeepsScopes(ini, chosen.value, CmdKey(alias), command);
      FigureOutSame(ini, saved, devenv, cwd);
    }
  }
}
