/** The `devenv` commands of the older package: creating a development environment's section,
    listing the defined names, and the command line of an interactive terminal in one. */
module Devenv {
  import opened Wrappers
  import opened Text
  import opened Config
  import opened Exec

  /** The config after `create`: the devenv's section is added at the end when missing, and
      its image, source and mount directories are set. */
  function CreateConfig(ini: Ini, name: string, image: string, sourceDir: string, mountDir: string): Ini
  {
    var section := DevenvSection(name);
    var base := if section in ini.sections then ini
                else Ini(ini.names + [section], ini.sections[section := map[]]);
    var keys := base.sections[section][ImageKey := image][SourceDirKey := sourceDir][MountDirKey := mountDir];
    base.(sections := base.sections[section := keys])
  }

  /** `create`, on the config it read, in place. */
  method Create(config: ConfigParser, name: string, image: string, sourceDir: string, mountDir: string)
    modifies config
    ensures config.ini == CreateConfig(old(config.ini), name, image, sourceDir, mountDir)
  {
    var section := DevenvPrefix + name;
    if section !in config.ini.sections {
      config.AddSection(section);
    }
    config.Set(section, ImageKey, image);
    config.Set(section, SourceDirKey, sourceDir);
    config.Set(section, MountDirKey, mountDir);
  }

  /** After `create` the devenv's three settings hold the given values; every other key of
      its section, every other section and the section order are as before (a new section
      goes last), and a well-formed config stays well-formed. */
  lemma CreateSets(ini: Ini, name: string, image: string, sourceDir: string, mountDir: string)
    ensures var r := CreateConfig(ini, name, image, sourceDir, mountDir);
            var section := DevenvSection(name);
            section in r.sections &&
            r.sections[section][ImageKey] == image && r.sections[section][SourceDirKey] == sourceDir &&
            r.sections[section][MountDirKey] == mountDir &&
            (forall k :: k in r.sections[section] && k != ImageKey && k != SourceDirKey && k != MountDirKey ==>
               section in ini.sections && k in ini.sections[section] && r.sections[section][k] == ini.sections[section][k]) &&
            (forall s :: s != section ==> (s in r.sections <==> s in ini.sections)) &&
            (forall s :: s != section && s in ini.sections ==> r.sections[s] == ini.sections[s]) &&
            r.names == (if section in ini.sections then ini.names else ini.names + [section]) &&
            (WellFormed(ini) ==> WellFormed(r))
  {
    var section := DevenvSection(name);
    if WellFormed(ini) && section !in ini.sections {
      var r := CreateConfig(ini, name, image, sourceDir, mountDir);
      assert section !in ini.names;
      forall i, j | 0 <= i < j < |r.names|
        ensures r.names[i] != r.names[j]
      {
        if j == |ini.names| {
          assert r.names[i] == ini.names[i];
        }
      }
    }
  }

  /** `_get_devenv_names`: the name of every `DEVENV.` section, in section order. */
  function DevenvNames(ini: Ini): (r: seq<string>)
    ensures |r| == |DevenvSections(ini.names)|
    ensures forall i :: 0 <= i < |r| ==> DevenvSection(r[i]) == DevenvSections(ini.names)[i]
  {
    var sections := DevenvSections(ini.names);
    var r := NamesOf(sections);
    forall i | 0 <= i < |r|
      ensures DevenvSection(r[i]) == sections[i]
    {
      assert sections[i] in sections;
      DevenvRoundTrip(r[i], sections[i]);
    }
    r
  }

  /** The older names list is the newer package's unfiltered list, and holds a name exactly
      when its section is in the config. */
  lemma DevenvNamesAgree(ini: Ini, name: string)
    ensures GetDevenvNames(ini, None) == Ok(DevenvNames(ini))
    ensures name in DevenvNames(ini) <==> DevenvSection(name) in ini.names
  {
    DevenvNamesExact(ini, name);
  }

  /** A created devenv is listed, under the name it was created with. */
  lemma CreatedIsListed(ini: Ini, name: string, image: string, sourceDir: string, mountDir: string)
    requires WellFormed(ini)
    ensures name in DevenvNames(CreateConfig(ini, name, image, sourceDir, mountDir))
  {
    var r := CreateConfig(ini, name, image, sourceDir, mountDir);
    var section := DevenvSection(name);
    assert section in ini.names || section !in ini.sections;
    assert section in r.names;
    DevenvNamesAgree(r, name);
  }

  /** The devenv `terminal` opens: the given name, else the only one defined. */
  function TerminalName(ini: Ini, name: Option<string>): (r: Result<string, ConfigError>)
    ensures name.Some? ==> r == Ok(name.value)
    ensures name.None? ==> var names := DevenvNames(ini);
              (names == [] ==> r == Err(Usage(NoDevenvsText))) &&
              (|names| > 1 ==> r == Err(Usage(MultipleDevenvsText(names)))) &&
              (|names| == 1 ==> r == Ok(names[0]))
  {
    if name.Some? then Ok(name.value)
    else
      var names := DevenvNames(ini);
      if names == [] then Err(Usage(NoDevenvsText))
      else if |names| > 1 then Err(Usage(MultipleDevenvsText(names)))
      else Ok(names[0])
  }

  /** `config.get(section, key)`: a missing key raises `NoOptionError`. */
  function GetOption(ini: Ini, section: string, key: string): (r: Result<string, ConfigError>)
    requires section in ini.sections
  {
    if key in ini.sections[section] then Ok(ini.sections[section][key]) else Err(NoOption(section, key))
  }

  /** `terminal`: the command line of an interactive container of the chosen devenv. The
      section must exist, and its image, source and mount directories are read in that
      order, the first missing one raising; when all three are there, the command line is
      built from them. */
  function TerminalArgv(ini: Ini, name: Option<string>): (r: Result<seq<string>, ConfigError>)
    ensures r.Ok? ==>
              TerminalName(ini, name).Ok? &&
              var s := DevenvSection(TerminalName(ini, name).value);
              s in ini.sections &&
              ImageKey in ini.sections[s] && SourceDirKey in ini.sections[s] && MountDirKey in ini.sections[s] &&
              r.value == DockerRun(Volume(ini.sections[s])) + [ini.sections[s][ImageKey]]
    ensures TerminalName(ini, name).Ok? && DevenvSection(TerminalName(ini, name).value) !in ini.sections ==>
              r == Err(Usage("Development environment " + TerminalName(ini, name).value + " not defined"))
    ensures TerminalName(ini, name).Err? ==> r == Err(TerminalName(ini, name).error)
    ensures TerminalName(ini, name).Ok? && DevenvSection(TerminalName(ini, name).value) in ini.sections ==>
              var s := DevenvSection(TerminalName(ini, name).value);
              var keys := ini.sections[s];
              (r.Ok? <==> ImageKey in keys && SourceDirKey in keys && MountDirKey in keys) &&
              (ImageKey !in keys ==> r == Err(NoOption(s, ImageKey))) &&
              (ImageKey in keys && SourceDirKey !in keys ==> r == Err(NoOption(s, SourceDirKey))) &&
              (ImageKey in keys && SourceDirKey in keys && MountDirKey !in keys ==> r == Err(NoOption(s, MountDirKey)))
  {
    var chosen := TerminalName(ini, name);
    if chosen.Err? then Err(chosen.error)
    else
      var section := DevenvSection(chosen.value);
      if section !in ini.sections then Err(Usage("Development environment " + chosen.value + " not defined"))
      else
        var image := GetOption(ini, section, ImageKey);
        var sourceDir := GetOption(ini, section, SourceDirKey);
        var mountDir := GetOption(ini, section, MountDirKey);
        if image.Err? then Err(image.error)
        else if sourceDir.Err? then Err(sourceDir.error)
        else if mountDir.Err? then Err(mountDir.error)
        else
          assert Get(ini.sections[section], SourceDirKey) == Some(sourceDir.value);
          assert Get(ini.sections[section], MountDirKey) == Some(mountDir.value);
          Ok(DockerRun(sourceDir.value + ":" + mountDir.value) + [image.value])
  }

  /** A devenv's terminal right after `create` runs the created image with the created
      mount, whatever the config held before. */
  lemma TerminalAfterCreate(ini: Ini, name: string, image: string, sourceDir: string, mountDir: string)
    ensures TerminalArgv(CreateConfig(ini, name, image, sourceDir, mountDir), Some(name)) ==
            Ok(DockerRun(sourceDir + ":" + mountDir) + [image])
  {
    CreateSets(ini, name, image, sourceDir, mountDir);
  }

  /** With no name and a single devenv, the terminal is the one that devenv's name opens. */
  lemma TerminalOnlyDevenv(ini: Ini)
    requires |DevenvNames(ini)| == 1
    ensures TerminalArgv(ini, None) == TerminalArgv(ini, Some(DevenvNames(ini)[0]))
  {
  }

  /** `exec` runs a command in the same container the terminal opens: its command line is the
      terminal's, followed by the shell, `-c` and the command. */
  lemma ExecExtendsTerminal(ini: Ini, name: string, command: string)
    requires DevenvSection(name) in ini.sections
    requires ShellKey in ini.sections[DevenvSection(name)]
    requires TerminalArgv(ini, Some(name)).Ok?
    ensures ExecArgv(ini.sections[DevenvSection(name)], command) ==
            Some(TerminalArgv(ini, Some(name)).value + [ini.sections[DevenvSection(name)][ShellKey], "-c", command])
  {
    var section := ini.sections[DevenvSection(name)];
    var start := DockerRun(Volume(section));
    assert TerminalArgv(ini, Some(name)).value == start + [section[ImageKey]];
    assert start + [section[ImageKey]] + [section[ShellKey], "-c", command] ==
           start + [section[ImageKey], section[ShellKey], "-c", command];
  }
}
