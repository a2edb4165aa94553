/** The config file of the newer client: ordered sections of string keys, development
    environment ("devenv") sections named `DEVENV.<name>`, saved commands stored as
    `cmd.<name>` keys, and the search for a project config file from the working directory up
    to the root. */
module Config {
  import opened Wrappers
  import opened Text
  import opened Terminal
  import Paths

  const DefaultConfigFileName := ".lager"
  const DevenvPrefix := "DEVENV."
  const CmdPrefix := "cmd."
  const LagerSection := "LAGER"
  const SourceDirKey := "source_dir"

  /** One section: its keys and their values. */
  type Section = map<string, string>

  /** A parsed config: the section names in file order, and each section's keys. */
  datatype Ini = Ini(names: seq<string>, sections: map<string, Section>)

  /** What a config parser always keeps: every section is listed exactly once. */
  predicate WellFormed(ini: Ini)
  {
    (forall i, j :: 0 <= i < j < |ini.names| ==> ini.names[i] != ini.names[j]) &&
    (forall s :: s in ini.sections ==> s in ini.names) &&
    (forall i :: 0 <= i < |ini.names| ==> ini.names[i] in ini.sections)
  }

  /** Why a config lookup failed: a `click.UsageError`, or a missing section or option. */
  datatype ConfigError = Usage(message: string) | NoSection(section: string) | NoOption(section: string, option: string)

  /** The config file name: the `LAGER_CONFIG_FILE_NAME` environment variable, else `.lager`. */
  function ConfigFileName(env: Option<string>): (r: string)
    ensures env.None? ==> r == DefaultConfigFileName
    ensures env.Some? ==> r == env.value
  {
    if env.None? then DefaultConfigFileName else env.value
  }

  /** The config path in a directory, with an explicit file name or the configured one. */
  function MakeConfigPath(directory: string, fileName: Option<string>, env: Option<string>): string
  {
    Paths.Join(directory, if fileName.Some? then fileName.value else ConfigFileName(env))
  }

  /** A config file in a directory lies in that directory, for a plain file name. */
  lemma MakeConfigPathDir(directory: string, env: Option<string>)
    requires '/' !in ConfigFileName(env) && ConfigFileName(env) != []
    requires directory == [] || directory[|directory| - 1] != '/' || Paths.AllSlashes(directory)
    ensures Paths.Dirname(MakeConfigPath(directory, None, env)) == directory
  {
    Paths.DirnameOfJoin(directory, ConfigFileName(env));
  }

  // ---------------------------------------------------------------------------------------
  // The upward search for config files

  /** `dir` and each of its ancestors, nearest first, up to the first `dirname` fixpoint. */
  function Ancestors(dir: string): (r: seq<string>)
    ensures |r| >= 1 && r[0] == dir
    decreases |dir|
  {
    var parent := Paths.Dirname(dir);
    if parent == dir then [dir] else [dir] + Ancestors(parent)
  }

  /** The ancestors are a chain: each is the `dirname` of the one before and strictly shorter,
      and the last is the root. */
  lemma {:induction false} AncestorsChain(dir: string)
    ensures var r := Ancestors(dir);
            (forall k :: 0 < k < |r| ==> r[k] == Paths.Dirname(r[k - 1]) && |r[k]| < |r[k - 1]|) &&
            Paths.AllSlashes(r[|r| - 1])
    decreases |dir|
  {
    var parent := Paths.Dirname(dir);
    if parent == dir {
      Paths.DirnameFixpoint(dir);
    } else {
      AncestorsChain(parent);
      var r := Ancestors(dir);
      assert r[1..] == Ancestors(parent);
    }
  }

  /** Whether the config path in `dir` counts: it exists and is not the global config file. */
  predicate Counts(dir: string, global: string, name: string, isFile: string -> bool)
  {
    isFile(Paths.Join(dir, name)) && Paths.Join(dir, name) != global
  }

  /** The config paths found in `dirs`, in the same order. */
  function Candidates(dirs: seq<string>, global: string, name: string, isFile: string -> bool): (r: seq<string>)
    ensures |r| <= |dirs|
  {
    if dirs == [] then []
    else (if Counts(dirs[0], global, name, isFile) then [Paths.Join(dirs[0], name)] else [])
         + Candidates(dirs[1..], global, name, isFile)
  }

  lemma CandidatesCons(dirs: seq<string>, global: string, name: string, isFile: string -> bool)
    requires dirs != []
    ensures Candidates(dirs, global, name, isFile) ==
            (if Counts(dirs[0], global, name, isFile) then [Paths.Join(dirs[0], name)] else []) +
            Candidates(dirs[1..], global, name, isFile)
  {
  }

  /** A path is found exactly when it is the config path of one of the directories, exists and
      is not the global file. */
  lemma {:induction false} CandidatesMembers(dirs: seq<string>, global: string, name: string,
                                             isFile: string -> bool, p: string)
    ensures p in Candidates(dirs, global, name, isFile) <==>
            exists k :: 0 <= k < |dirs| && p == Paths.Join(dirs[k], name) && Counts(dirs[k], global, name, isFile)
  {
    if dirs != [] {
      CandidatesMembers(dirs[1..], global, name, isFile, p);
      if p in Candidates(dirs[1..], global, name, isFile) {
        var k :| 0 <= k < |dirs[1..]| && p == Paths.Join(dirs[1..][k], name) && Counts(dirs[1..][k], global, name, isFile);
        assert dirs[k + 1] == dirs[1..][k];
      }
      if exists k :: 0 <= k < |dirs| && p == Paths.Join(dirs[k], name) && Counts(dirs[k], global, name, isFile) {
        var k :| 0 <= k < |dirs| && p == Paths.Join(dirs[k], name) && Counts(dirs[k], global, name, isFile);
        if k > 0 {
          assert dirs[1..][k - 1] == dirs[k];
        }
      }
    }
  }

  /** The first path found is the nearest directory's: no directory before it has one. */
  lemma {:induction false} CandidatesNearest(dirs: seq<string>, global: string, name: string, isFile: string -> bool)
    requires Candidates(dirs, global, name, isFile) != []
    ensures exists k :: 0 <= k < |dirs| && Candidates(dirs, global, name, isFile)[0] == Paths.Join(dirs[k], name) &&
              Counts(dirs[k], global, name, isFile) && forall j :: 0 <= j < k ==> !Counts(dirs[j], global, name, isFile)
  {
    if !Counts(dirs[0], global, name, isFile) {
      CandidatesNearest(dirs[1..], global, name, isFile);
      var k :| 0 <= k < |dirs[1..]| && Candidates(dirs[1..], global, name, isFile)[0] == Paths.Join(dirs[1..][k], name) &&
             Counts(dirs[1..][k], global, name, isFile) && forall j :: 0 <= j < k ==> !Counts(dirs[1..][j], global, name, isFile);
      assert dirs[k + 1] == dirs[1..][k];
      forall j | 0 <= j < k + 1
        ensures !Counts(dirs[j], global, name, isFile)
      {
        if j > 0 {
          assert dirs[j] == dirs[1..][j - 1];
        }
      }
    } else {
      assert Candidates(dirs, global, name, isFile)[0] == Paths.Join(dirs[0], name);
    }
  }

  /** Lists the project config files from `cwd` up to the root, nearest first, leaving out the
      global file in `home`. */
  method FindConfigFiles(cwd: string, home: string, name: string, isFile: string -> bool) returns (cfgs: seq<string>)
    ensures cfgs == Candidates(Ancestors(cwd), Paths.Join(home, name), name, isFile)
  {
    var global := Paths.Join(home, name);
    var dir := cwd;
    cfgs := [];
    while true
      invariant cfgs + Candidates(Ancestors(dir), global, name, isFile) == Candidates(Ancestors(cwd), global, name, isFile)
      decreases |dir|
    {
      var path := Paths.Join(dir, name);
      ghost var prev := cfgs;
      ghost var here := if Counts(dir, global, name, isFile) then [path] else [];
      ghost var rest := Candidates(Ancestors(dir)[1..], global, name, isFile);
      CandidatesCons(Ancestors(dir), global, name, isFile);
      if isFile(path) && path != global {
        cfgs := cfgs + [path];
      }
      assert cfgs == prev + here;
      AppendAssoc(prev, here, rest);
      assert cfgs + rest == Candidates(Ancestors(cwd), global, name, isFile);
      var parent := Paths.Dirname(dir);
      if parent == dir {
        assert Ancestors(dir) == [dir];
        break;
      }
      assert Ancestors(dir)[1..] == Ancestors(parent);
      assert rest == Candidates(Ancestors(parent), global, name, isFile);
      dir := parent;
    }
  }

  /** The nearest project config file, if any: the first one the upward search lists. */
  method FindDevenvConfigPath(cwd: string, home: string, name: string, isFile: string -> bool)
    returns (r: Option<string>)
    ensures var dirs := Ancestors(cwd); var global := Paths.Join(home, name);
            (r.None? <==> forall k :: 0 <= k < |dirs| ==> !Counts(dirs[k], global, name, isFile)) &&
            (r.Some? ==> exists k :: 0 <= k < |dirs| && r.value == Paths.Join(dirs[k], name) &&
                           Counts(dirs[k], global, name, isFile) &&
                           forall j :: 0 <= j < k ==> !Counts(dirs[j], global, name, isFile))
  {
    var configs := FindConfigFiles(cwd, home, name, isFile);
    ghost var dirs := Ancestors(cwd);
    ghost var global := Paths.Join(home, name);
    if configs == [] {
      forall k | 0 <= k < |dirs|
        ensures !Counts(dirs[k], global, name, isFile)
      {
        CandidatesMembers(dirs, global, name, isFile, Paths.Join(dirs[k], name));
      }
      return None;
    }
    CandidatesNearest(dirs, global, name, isFile);
    return Some(configs[0]);
  }

  /** A config read from a file (`None` when there is no file): the file's sections, with an
      empty `LAGER` section added at the end when the file has none. */
  function ReadConfigFile(parsed: Option<Ini>): (r: Ini)
    ensures LagerSection in r.sections
    ensures var base := if parsed.None? then Ini([], map[]) else parsed.value;
            (forall s :: s in base.sections ==> s in r.sections && r.sections[s] == base.sections[s]) &&
            (forall s :: s in r.sections && s !in base.sections ==> s == LagerSection && r.sections[s] == map[]) &&
            (r.names == base.names || r.names == base.names + [LagerSection]) &&
            (WellFormed(base) ==> WellFormed(r))
  {
    var base := if parsed.None? then Ini([], map[]) else parsed.value;
    if LagerSection in base.sections then base
    else Ini(base.names + [LagerSection], base.sections[LagerSection := map[]])
  }

  // ---------------------------------------------------------------------------------------
  // Devenv sections

  /** The section holding devenv `name`. */
  function DevenvSection(name: string): string
  {
    DevenvPrefix + name
  }

  /** The devenv name of a `DEVENV.` section: the text after the first `.`. */
  function DevenvName(section: string): string
  {
    AfterFirst(section, '.')
  }

  /** Naming a section and reading its name back are inverse: every name comes back, and every
      `DEVENV.` section is the section of its name. */
  lemma DevenvRoundTrip(name: string, section: string)
    ensures DevenvName(DevenvSection(name)) == name
    ensures StartsWith(section, DevenvPrefix) ==> DevenvSection(DevenvName(section)) == section
  {
    assert DevenvPrefix + name == "DEVENV" + ['.'] + name;
    AfterFirstPrefix("DEVENV", name, '.');
    if StartsWith(section, DevenvPrefix) {
      var rest := section[|DevenvPrefix|..];
      assert section == "DEVENV" + ['.'] + rest;
      AfterFirstPrefix("DEVENV", rest, '.');
    }
  }

  /** The `DEVENV.` sections among `names`, in order. */
  function DevenvSections(names: seq<string>): (r: seq<string>)
    ensures |r| <= |names|
    ensures forall x :: x in r <==> x in names && StartsWith(x, DevenvPrefix)
  {
    if names == [] then []
    else (if StartsWith(names[0], DevenvPrefix) then [names[0]] else []) + DevenvSections(names[1..])
  }

  /** The devenv names of a list of sections, in the same order. */
  function NamesOf(sections: seq<string>): (r: seq<string>)
    ensures |r| == |sections| && forall i :: 0 <= i < |r| ==> r[i] == DevenvName(sections[i])
  {
    seq(|sections|, i requires 0 <= i < |sections| => DevenvName(sections[i]))
  }

  /** Whether a devenv section's `source_dir` is a prefix of `target`. */
  predicate InScope(ini: Ini, section: string, target: string)
  {
    section in ini.sections && SourceDirKey in ini.sections[section] &&
    StartsWith(target, ini.sections[section][SourceDirKey])
  }

  /** The sections whose `source_dir` is a prefix of `target`, in order; reading `source_dir`
      fails on the first section that lacks one. */
  function ScopeFilter(ini: Ini, sections: seq<string>, target: string): (r: Result<seq<string>, ConfigError>)
    ensures r.Ok? <==> forall k :: 0 <= k < |sections| ==>
                         sections[k] in ini.sections && SourceDirKey in ini.sections[sections[k]]
    ensures r.Ok? ==> forall x :: x in r.value <==> x in sections && InScope(ini, x, target)
  {
    if sections == [] then Ok([])
    else
      var s := sections[0];
      if s !in ini.sections then Err(NoSection(s))
      else if SourceDirKey !in ini.sections[s] then Err(NoOption(s, SourceDirKey))
      else
        var rest := ScopeFilter(ini, sections[1..], target);
        if rest.Err? then rest
        else Ok((if StartsWith(target, ini.sections[s][SourceDirKey]) then [s] else []) + rest.value)
  }

  /** Whether a scope target filters the devenvs: it is given, non-empty, and there are several. */
  predicate Filters(ini: Ini, target: Option<string>)
  {
    target.Some? && target.value != [] && |DevenvSections(ini.names)| > 1
  }

  /** The devenv names, in section order; with a target and several devenvs, only those whose
      source directory is a prefix of the target. */
  function GetDevenvNames(ini: Ini, target: Option<string>): (r: Result<seq<string>, ConfigError>)
    ensures !Filters(ini, target) ==> r == Ok(NamesOf(DevenvSections(ini.names)))
    ensures Filters(ini, target) && r.Ok? ==>
              exists kept :: ScopeFilter(ini, DevenvSections(ini.names), target.value) == Ok(kept) && r.value == NamesOf(kept)
  {
    var all := DevenvSections(ini.names);
    if target.Some? && target.value != [] && |all| > 1 then
      var kept := ScopeFilter(ini, all, target.value);
      if kept.Err? then Err(kept.error) else Ok(NamesOf(kept.value))
    else Ok(NamesOf(all))
  }

  /** The unfiltered names are exactly the names of the `DEVENV.` sections. */
  lemma DevenvNamesExact(ini: Ini, name: string)
    ensures GetDevenvNames(ini, None).Ok?
    ensures name in GetDevenvNames(ini, None).value <==> DevenvSection(name) in ini.names
  {
    var all := DevenvSections(ini.names);
    var r := NamesOf(all);
    DevenvRoundTrip(name, DevenvSection(name));
    if DevenvSection(name) in ini.names {
      var i :| 0 <= i < |all| && all[i] == DevenvSection(name);
      assert r[i] == name;
    }
    if name in r {
      var i :| 0 <= i < |r| && r[i] == name;
      DevenvRoundTrip(name, all[i]);
      assert all[i] in all;
    }
  }

  const NoDevenvsText := "No development environments defined"

  /** The error listing several candidate devenvs. */
  function MultipleDevenvsText(names: seq<string>): string
  {
    "Multiple development environments defined. Please specify one of: " + JoinWith(names, ", ") + " ; using --name."
  }

  /** The single devenv scoped to `scope`; none or several is a usage error. */
  function FindScopedDevenv(ini: Ini, scope: string): (r: Result<string, ConfigError>)
    ensures var names := GetDevenvNames(ini, Some(scope));
            (r.Ok? <==> names.Ok? && |names.value| == 1) &&
            (r.Ok? ==> names.value == [r.value]) &&
            (names.Err? ==> r == Err(names.error)) &&
            (names.Ok? && names.value == [] ==> r == Err(Usage(NoDevenvsText + " for " + scope))) &&
            (names.Ok? && |names.value| > 1 ==> r == Err(Usage(MultipleDevenvsText(names.value))))
  {
    var names := GetDevenvNames(ini, Some(scope));
    if names.Err? then Err(names.error)
    else if names.value == [] then Err(Usage(NoDevenvsText + " for " + scope))
    else if |names.value| > 1 then Err(Usage(MultipleDevenvsText(names.value)))
    else
      assert names.value == [names.value[0]];
      Ok(names.value[0])
  }

  /** The section of the devenv to use: the named one, else the only one, else the one scoped
      to the working directory; it must exist. */
  function FigureOutDevenv(ini: Ini, name: Option<string>, cwd: string): (r: Result<string, ConfigError>)
    ensures r.Ok? ==> r.value in ini.sections && StartsWith(r.value, DevenvPrefix)
    ensures name.Some? ==> (r.Ok? <==> DevenvSection(name.value) in ini.sections)
    ensures name.Some? && r.Ok? ==> r.value == DevenvSection(name.value)
    ensures name.Some? && r.Err? ==> r.error == Usage("Development environment " + name.value + " not defined")
  {
    var chosen :=
      if name.Some? then Ok(name.value)
      else
        var all := GetDevenvNames(ini, None).value;
        if |all| == 1 then Ok(all[0]) else FindScopedDevenv(ini, cwd);
    if chosen.Err? then Err(chosen.error)
    else if DevenvSection(chosen.value) !in ini.sections
    then Err(Usage("Development environment " + chosen.value + " not defined"))
    else Ok(DevenvSection(chosen.value))
  }

  /** With no name and exactly one devenv, that devenv is used, whatever the directory. */
  lemma FigureOutOnlyDevenv(ini: Ini, cwd: string)
    requires WellFormed(ini)
    requires |DevenvSections(ini.names)| == 1
    ensures FigureOutDevenv(ini, None, cwd) == Ok(DevenvSections(ini.names)[0])
  {
    var s := DevenvSections(ini.names)[0];
    assert s in DevenvSections(ini.names);
    DevenvRoundTrip(DevenvName(s), s);
  }

  /** With no name and zero or several devenvs, the devenv is the one scoped to the working
      directory: its section when the scoped lookup finds one, and the lookup's error otherwise. */
  lemma FigureOutScoped(ini: Ini, cwd: string)
    requires |DevenvSections(ini.names)| != 1
    ensures FindScopedDevenv(ini, cwd).Err? ==> FigureOutDevenv(ini, None, cwd) == Err(FindScopedDevenv(ini, cwd).error)
    ensures FindScopedDevenv(ini, cwd).Ok? ==> FigureOutDevenv(ini, None, cwd) == Ok(DevenvSection(FindScopedDevenv(ini, cwd).value))
  {
    var all := DevenvSections(ini.names);
    var found := FindScopedDevenv(ini, cwd);
    if found.Ok? {
      var names := GetDevenvNames(ini, Some(cwd));
      assert Filters(ini, Some(cwd));
      var kept :| ScopeFilter(ini, all, cwd) == Ok(kept) && names.value == NamesOf(kept);
      assert kept[0] in kept;
      DevenvRoundTrip(found.value, kept[0]);
      assert DevenvSection(found.value) == kept[0];
    }
  }

  /** Two configs that agree on the sections and on every `source_dir`: the devenv selection
      reads nothing else. */
  predicate SameScopes(a: Ini, b: Ini)
  {
    a.names == b.names && a.sections.Keys == b.sections.Keys &&
    forall s :: s in a.sections ==>
      (SourceDirKey in a.sections[s] <==> SourceDirKey in b.sections[s]) &&
      (SourceDirKey in a.sections[s] ==> a.sections[s][SourceDirKey] == b.sections[s][SourceDirKey])
  }

  /** Setting any key but `source_dir` in an existing section keeps the scopes. */
  lemma SetKeepsScopes(ini: Ini, section: string, key: string, value: string)
    requires section in ini.sections && key != SourceDirKey
    ensures SameScopes(ini, ini.(sections := ini.sections[section := ini.sections[section][key := value]]))
  {
  }

  lemma {:induction false} ScopeFilterSame(a: Ini, b: Ini, sections: seq<string>, target: string)
    requires SameScopes(a, b)
    ensures ScopeFilter(a, sections, target) == ScopeFilter(b, sections, target)
    decreases |sections|
  {
    if sections != [] {
      ScopeFilterSame(a, b, sections[1..], target);
    }
  }

  /** The devenv chosen depends only on the sections and their source directories, so saving
      a command never changes which devenv a later call picks. */
  lemma FigureOutSame(a: Ini, b: Ini, name: Option<string>, cwd: string)
    requires SameScopes(a, b)
    ensures FigureOutDevenv(a, name, cwd) == FigureOutDevenv(b, name, cwd)
  {
    GetDevenvNamesSame(a, b, Some(cwd));
    GetDevenvNamesSame(a, b, None);
    assert FindScopedDevenv(a, cwd) == FindScopedDevenv(b, cwd);
  }

  lemma GetDevenvNamesSame(a: Ini, b: Ini, target: Option<string>)
    requires SameScopes(a, b)
    ensures GetDevenvNames(a, target) == GetDevenvNames(b, target)
  {
    if target.Some? {
      ScopeFilterSame(a, b, DevenvSections(a.names), target.value);
    }
  }

  // ---------------------------------------------------------------------------------------
  // Saved commands

  /** The key of saved command `name`. */
  function CmdKey(name: string): string
  {
    CmdPrefix + name
  }

  /** A `cmd.` key is the key of the text after the prefix. */
  lemma CmdKeyOfSuffix(k: string)
    requires StartsWith(k, CmdPrefix)
    ensures CmdKey(k[|CmdPrefix|..]) == k
  {
  }

  /** The names of the saved commands of a section. */
  function CommandNames(section: Section): (r: set<string>)
    ensures forall n {:trigger n in r} :: n in r <==> CmdKey(n) in section
  {
    var r := set k | k in section && StartsWith(k, CmdPrefix) :: k[|CmdPrefix|..];
    assert forall n :: n in r ==> CmdKey(n) in section by {
      forall n | n in r
        ensures CmdKey(n) in section
      {
        var k :| k in section && StartsWith(k, CmdPrefix) && n == k[|CmdPrefix|..];
        CmdKeyOfSuffix(k);
      }
    }
    assert forall n :: CmdKey(n) in section ==> CmdKey(n)[|CmdPrefix|..] == n;
    r
  }

  /** The saved commands of a section, by name: each `cmd.<name>` key gives `name` (the text
      after its first `.`, as `CmdPrefix` holds a single dot, at its end). */
  function AllCommands(section: Section): (r: map<string, string>)
    ensures forall n {:trigger n in r} :: n in r <==> CmdKey(n) in section
    ensures forall n :: n in r ==> r[n] == section[CmdKey(n)]
  {
    map n | n in CommandNames(section) :: section[CmdKey(n)]
  }

  /** The name `AllCommands` gives a key is the text after its first `.`. */
  lemma CommandNameAfterDot(k: string)
    requires StartsWith(k, CmdPrefix)
    ensures AfterFirst(k, '.') == k[|CmdPrefix|..]
  {
    assert k == "cmd" + ['.'] + k[|CmdPrefix|..];
    AfterFirstPrefix("cmd", k[|CmdPrefix|..], '.');
  }

  /** Adding a saved command makes it appear under its name and changes no other command. */
  lemma AddedCommandListed(section: Section, name: string, command: string)
    ensures AllCommands(section[CmdKey(name) := command]) == AllCommands(section)[name := command]
  {
    var a := AllCommands(section[CmdKey(name) := command]);
    var b := AllCommands(section)[name := command];
    forall n | n in a
      ensures n in b && a[n] == b[n]
    {
      if n != name {
        assert CmdKey(n) != CmdKey(name) by {
          assert CmdKey(n)[|CmdPrefix|..] == n;
        }
      }
    }
  }

  lemma AllCommandsMember(section: Section, n: string)
    ensures n in AllCommands(section) <==> CmdKey(n) in section
  {
  }

  lemma CmdKeyInjective(n: string, m: string)
    ensures CmdKey(n) == CmdKey(m) ==> n == m
  {
    if CmdKey(n) == CmdKey(m) {
      assert CmdKey(n)[|CmdPrefix|..] == n;
      assert CmdKey(m)[|CmdPrefix|..] == m;
    }
  }

  lemma RemovedMember(section: Section, name: string, n: string)
    ensures n in AllCommands(section - {CmdKey(name)}) <==> n in AllCommands(section) - {name}
  {
    AllCommandsMember(section - {CmdKey(name)}, n);
    AllCommandsMember(section, n);
    CmdKeyInjective(n, name);
  }

  /** Removing a saved command removes exactly that name. */
  lemma RemovedCommandGone(section: Section, name: string)
    ensures AllCommands(section - {CmdKey(name)}) == AllCommands(section) - {name}
  {
    forall n
      ensures n in AllCommands(section - {CmdKey(name)}) <==> n in AllCommands(section) - {name}
    {
      RemovedMember(section, name, n);
    }
  }

  /** The overwrite warning, printed without a newline and then with the previous value. */
  function OverwriteWarning(name: string, previous: string): seq<Piece>
  {
    [Piece("Command `" + name + "` already exists, overwriting. ", Plain, false),
     Piece("Previous value: " + previous, Plain, true)]
  }

  /** The config being edited: a parser holding a config, whose sections are changed in place. */
  class ConfigParser {
    var ini: Ini

    constructor (ini: Ini)
      ensures this.ini == ini
    {
      this.ini := ini;
    }

    /** Adds an empty section at the end. */
    method AddSection(section: string)
      requires section !in ini.sections
      modifies this
      ensures ini == Ini(old(ini.names) + [section], old(ini.sections)[section := map[]])
      ensures WellFormed(old(ini)) ==> WellFormed(ini)
    {
      ini := Ini(ini.names + [section], ini.sections[section := map[]]);
    }

    /** Sets one key of an existing section. */
    method Set(section: string, key: string, value: string)
      requires section in ini.sections
      modifies this
      ensures ini == old(ini).(sections := old(ini.sections)[section := old(ini.sections)[section][key := value]])
      ensures WellFormed(old(ini)) ==> WellFormed(ini)
    {
      ini := ini.(sections := ini.sections[section := ini.sections[section][key := value]]);
    }

    /** Saves `command` as `cmd.<name>` in a section, overwriting (with a warning when `warn`
        is set) any previous value. */
    method AddDevenvCommand(section: string, name: string, command: string, warn: bool, stderr: Console)
      requires section in ini.sections
      modifies this, stderr
      ensures ini == old(ini).(sections := old(ini.sections)[section := old(ini.sections)[section][CmdKey(name) := command]])
      ensures stderr.out == old(stderr.out) +
                (if CmdKey(name) in old(ini.sections)[section] && warn
                 then OverwriteWarning(name, old(ini.sections)[section][CmdKey(name)]) else [])
    {
      var key := CmdPrefix + name;
      if key in ini.sections[section] && warn {
        stderr.Echo("Command `" + name + "` already exists, overwriting. ", Plain, false);
        stderr.Echo("Previous value: " + ini.sections[section][key], Plain, true);
      }
      Set(section, key, command);
    }

    /** Deletes saved command `name`; a missing one is reported and exits with status 1,
        leaving the config unchanged. */
    method RemoveDevenvCommand(section: string, name: string, stderr: Console) returns (exit: Option<int>)
      requires section in ini.sections
      modifies this, stderr
      ensures CmdKey(name) !in old(ini.sections)[section] ==>
                exit == Some(1) && ini == old(ini) &&
                stderr.out == old(stderr.out) + [Piece("Command `" + name + "` does not exist.", Red, true)]
      ensures CmdKey(name) in old(ini.sections)[section] ==>
                exit == None && stderr.out == old(stderr.out) &&
                ini == old(ini).(sections := old(ini.sections)[section := old(ini.sections)[section] - {CmdKey(name)}])
    {
      var key := CmdPrefix + name;
      if key !in ini.sections[section] {
        stderr.Echo("Command `" + name + "` does not exist.", Red, true);
        return Some(1);
      }
      ini := ini.(sections := ini.sections[section := ini.sections[section] - {key}]);
      return None;
    }
  }
}
