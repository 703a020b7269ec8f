/**
 * Foundry project handling: finding the project root above a file, locating
 * the build-info directory from `foundry.toml`, picking the build-info files,
 * and the `forge build` task.
 */
module Foundry {
  import opened Wrappers
  import opened Strings
  import opened Config

  // ---------------------------------------------------------------------------
  // Project root

  const ConfigFileName: string := "foundry.toml"
  const NoRootMessage: string := "No foundry.toml found"

  /** Some prefix of `segments` (of any length, the empty one included) holds a `foundry.toml`. */
  predicate SomeRoot(segments: seq<string>, hasConfig: seq<string> -> bool) {
    exists k :: 0 <= k <= |segments| && hasConfig(segments[..k])
  }

  /**
   * `foundryRoot`: starting from all of the path's segments, pop one segment
   * at a time until the directory they name holds `foundry.toml`. The file
   * system is the predicate `hasConfig` over segment lists; `probes` counts
   * the `stat` calls.
   */
  method FoundryRoot(path: string, hasConfig: seq<string> -> bool)
    returns (root: Result<seq<string>, string>, probes: nat)
    ensures var segments := Split(path, '/');
      && (root.Ok? ==>
            && |root.value| <= |segments|
            && root.value == segments[..|root.value|]
            && hasConfig(root.value)
            && (forall k :: |root.value| < k <= |segments| ==> !hasConfig(segments[..k]))
            && probes == |segments| - |root.value| + 1)
      && (root.Err? <==> !SomeRoot(segments, hasConfig))
      && (root.Err? ==> root.error == NoRootMessage && probes == |segments| + 1)
  {
    var segments := Split(path, '/');
    var pathSegments := segments;
    var stat := hasConfig(pathSegments);
    probes := 1;
    while !stat
      invariant |pathSegments| <= |segments| && pathSegments == segments[..|pathSegments|]
      invariant stat == hasConfig(pathSegments)
      invariant forall k :: |pathSegments| < k <= |segments| ==> !hasConfig(segments[..k])
      invariant probes == |segments| - |pathSegments| + 1
      decreases |pathSegments|, !stat
    {
      if |pathSegments| == 0 {
        assert forall k :: 0 <= k <= |segments| ==> !hasConfig(segments[..k]) by {
          assert segments[..0] == pathSegments;
        }
        return Err(NoRootMessage), probes;
      }
      pathSegments := pathSegments[..|pathSegments| - 1];
      stat := hasConfig(pathSegments);
      probes := probes + 1;
    }
    assert segments[..|pathSegments|] == pathSegments;
    root := Ok(pathSegments);
  }

  // ---------------------------------------------------------------------------
  // Build-info location

  /** The parsed `foundry.toml`: a `profile` table of named profiles, each a table of string settings. */
  datatype FoundryConfig = FoundryConfig(profile: Option<map<string, map<string, string>>>)

  /** The `default` profile, or an empty table when there are no profiles or no default one. */
  function DefaultProfile(config: FoundryConfig): (p: map<string, string>)
    ensures config.profile.None? ==> p == map[]
    ensures config.profile.Some? && "default" !in config.profile.value ==> p == map[]
    ensures config.profile.Some? && "default" in config.profile.value ==> p == config.profile.value["default"]
  {
    match config.profile
    case None => map[]
    case Some(profiles) => if "default" in profiles then profiles["default"] else map[]
  }

  /** A string setting of a profile: unset and empty both give the fallback (JavaScript `||`). */
  function SettingOr(table: map<string, string>, key: string, fallback: string): (v: string)
    ensures key in table && table[key] != "" ==> v == table[key]
    ensures key !in table || table[key] == "" ==> v == fallback
  {
    if key in table && table[key] != "" then table[key] else fallback
  }

  /** `out`, defaulting to "out". */
  function OutputDir(config: FoundryConfig): (dir: string)
    ensures dir != ""
  {
    SettingOr(DefaultProfile(config), "out", "out")
  }

  /** `build_info_path`, defaulting to `<out>/build-info`; relative to the project root. */
  function BuildInfoPath(config: FoundryConfig): (path: string)
    ensures path != ""
  {
    SettingOr(DefaultProfile(config), "build_info_path", OutputDir(config) + "/build-info")
  }

  /** The defaults: an unset or empty `out` is "out", an unset or empty `build_info_path` is `<out>/build-info`. */
  lemma BuildInfoPathDefaults(config: FoundryConfig)
    ensures var p := DefaultProfile(config);
      && (("out" !in p || p["out"] == "") ==> OutputDir(config) == "out")
      && (("build_info_path" !in p || p["build_info_path"] == "") ==>
            BuildInfoPath(config) == OutputDir(config) + "/build-info")
      && ("build_info_path" in p && p["build_info_path"] != "" ==>
            BuildInfoPath(config) == p["build_info_path"])
      && BuildInfoPath(config) != ""
  {
  }

  /** An empty `foundry.toml` puts build info at `out/build-info`. */
  lemma EmptyConfigBuildInfo()
    ensures BuildInfoPath(FoundryConfig(None)) == "out/build-info"
  {
  }

  // ---------------------------------------------------------------------------
  // Build-info files

  /** The editor's file type bit flags. */
  const FileTypeFile: nat := 1
  const FileTypeSymbolicLink: nat := 64

  /** One `[name, type]` pair of a directory listing. */
  datatype DirEntry = DirEntry(name: string, fileType: nat)

  /** The filter: a plain file (type exactly File, so a symbolic link is not) named `*.json`. */
  predicate IsBuildInfoFile(e: DirEntry) {
    e.fileType == FileTypeFile && EndsWith(e.name, ".json")
  }

  /** The build-info files of a listing, in listing order. */
  function BuildInfoFiles(entries: seq<DirEntry>): (files: seq<DirEntry>)
    ensures |files| <= |entries|
    ensures forall i :: 0 <= i < |files| ==> IsBuildInfoFile(files[i]) && files[i] in entries
  {
    if entries == [] then []
    else
      BuildInfoFiles(entries[..|entries| - 1]) +
      (if IsBuildInfoFile(entries[|entries| - 1]) then [entries[|entries| - 1]] else [])
  }

  /** The filter keeps exactly the plain `.json` files. */
  lemma {:induction false} BuildInfoFilesExact(entries: seq<DirEntry>, e: DirEntry)
    ensures e in BuildInfoFiles(entries) <==> e in entries && IsBuildInfoFile(e)
  {
    if entries != [] {
      BuildInfoFilesExact(entries[..|entries| - 1], e);
      assert entries == entries[..|entries| - 1] + [entries[|entries| - 1]];
    }
  }

  /** The filter keeps listing order. */
  lemma {:induction false} BuildInfoFilesAppend(a: seq<DirEntry>, b: seq<DirEntry>)
    ensures BuildInfoFiles(a + b) == BuildInfoFiles(a) + BuildInfoFiles(b)
  {
    if b == [] {
      assert a + b == a;
    } else {
      assert (a + b)[..|a + b| - 1] == a + b[..|b| - 1];
      BuildInfoFilesAppend(a, b[..|b| - 1]);
    }
  }

  /** A symbolic link to a `.json` file has type File|SymbolicLink and is dropped. */
  lemma SymlinkedJsonDropped(name: string)
    requires EndsWith(name, ".json")
    ensures BuildInfoFiles([DirEntry(name, FileTypeFile + FileTypeSymbolicLink)]) == []
    ensures BuildInfoFiles([DirEntry(name, FileTypeFile)]) == [DirEntry(name, FileTypeFile)]
  {
    assert BuildInfoFiles([DirEntry(name, FileTypeFile)]) ==
      BuildInfoFiles([]) + [DirEntry(name, FileTypeFile)];
  }

  /** What `forgeBuildInfo` yields: the texts, and whether it reported "No build-info files found". */
  datatype BuildInfo = BuildInfo(texts: seq<string>, reportedNone: bool)

  /** The text of each file, in order. */
  function ReadAll(files: seq<DirEntry>, read: string -> string): (texts: seq<string>)
    ensures |texts| == |files|
    ensures forall i :: 0 <= i < |files| ==> texts[i] == read(files[i].name)
  {
    if files == [] then [] else ReadAll(files[..|files| - 1], read) + [read(files[|files| - 1].name)]
  }

  /**
   * `forgeBuildInfo` once the configuration is parsed: `listing` is the
   * build-info directory's listing and `read` gives the text of a file in it.
   */
  function ForgeBuildInfo(listing: seq<DirEntry>, read: string -> string): (r: BuildInfo)
    ensures r.reportedNone <==> BuildInfoFiles(listing) == []
    ensures r.reportedNone ==> r.texts == []
    ensures |r.texts| == |BuildInfoFiles(listing)|
    ensures forall i :: 0 <= i < |r.texts| ==> r.texts[i] == read(BuildInfoFiles(listing)[i].name)
  {
    var files := BuildInfoFiles(listing);
    if files == [] then BuildInfo([], true)
    else BuildInfo(ReadAll(files, read), false)
  }

  // ---------------------------------------------------------------------------
  // Build task

  datatype RevealKind = Always | Silent | Never

  /** The shell task `forgeBuildTask` creates. */
  datatype Task = Task(
    taskLabel: string,
    taskType: string,
    name: string,
    source: string,
    command: ConfigValue,
    args: seq<string>,
    cwd: string,
    env: map<string, string>,
    isBackground: bool,
    revealMode: RevealKind,
    clear: bool)

  /** The environment every build runs with. */
  const BuildEnv: map<string, string> := map[
    "FOUNDRY_OPTIMIZER" := "false",
    "FOUNDRY_BUILD_INFO" := "true",
    "FOUNDRY_EXTRA_OUTPUT" := "[\"storageLayout\", \"evm.bytecode.generatedSources\", \"evm.bytecode.functionDebugData\", \"evm.legacyAssembly\", \"evm.deployedBytecode.functionDebugData\", \"evm.deployedBytecode.immutableReferences\"]",
    "FOUNDRY_BYTECODE_HASH" := "ipfs",
    "FOUNDRY_CBOR_METADATA" := "true",
    "FOUNDRY_FORCE" := "true"
  ]

  /**
   * The path a file URI keeps when given `p`: an empty path becomes `/` and
   * a relative one gets a leading `/`.
   */
  function FileUriPath(p: string): (q: string)
    ensures q != "" && q[0] == '/'
    ensures p != "" && p[0] == '/' ==> q == p
  {
    if p == "" then "/" else if p[0] != '/' then "/" + p else p
  }

  /** For a rooted path, the part before the last `/` is empty exactly when that `/` is the leading one. */
  lemma RootedDirectory(path: string)
    ensures path != "" && path[0] == '/' ==>
      var dir := DropLastSegment(path, '/');
      ('/' in path[1..] <==> dir != "") && (dir != "" ==> dir[0] == '/')
  {
    var dir := DropLastSegment(path, '/');
    if path == "" || path[0] != '/' {
    } else if dir == "" {
      assert path[0] in path;
      assert path[1..] == path[|dir| + 1..];
    } else {
      assert path[0] in path;
      assert path[|dir|] == '/' && path[1..][|dir| - 1] == '/';
    }
  }

  /** `forgeBuildTask(file)` for the file whose URI path is `path`. */
  function ForgeBuildTask(settings: Settings, path: string): (t: Task)
    ensures t.command == GetConfigValue(settings, "forge-path", Str("forge")) && t.args == ["build"]
    ensures t.cwd != "" && t.cwd[0] == '/'
    ensures '/' !in path ==> t.cwd == "/"
    ensures path != "" && path[0] == '/' && '/' !in path[1..] ==> t.cwd == "/"
    ensures path != "" && path[0] == '/' && '/' in path[1..] ==>
      |t.cwd| < |path| && path == t.cwd + "/" + path[|t.cwd| + 1..] && '/' !in path[|t.cwd| + 1..]
    ensures "FOUNDRY_OPTIMIZER" in t.env && t.env["FOUNDRY_OPTIMIZER"] == "false"
    ensures "FOUNDRY_BUILD_INFO" in t.env && t.env["FOUNDRY_BUILD_INFO"] == "true"
    ensures "FOUNDRY_FORCE" in t.env && t.env["FOUNDRY_FORCE"] == "true"
    ensures t.isBackground && t.revealMode == Silent && t.clear
  {
    RootedDirectory(path);
    Task(
      "forge build",
      "shell",
      "forge",
      "simbolik",
      GetConfigValue(settings, "forge-path", Str("forge")),
      ["build"],
      FileUriPath(DropLastSegment(path, '/')),
      BuildEnv,
      true,
      Silent,
      true)
  }
}
