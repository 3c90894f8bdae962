/**
 * The invocation driver of golint/golint.go: it loads the configuration,
 * classifies the targets, hands each unit's files to the lint engine, counts
 * the problems at or above the confidence threshold, renders every problem,
 * and decides the exit status.
 *
 * The process-wide globals of the source (`suggestions`, `formatter`,
 * `config`) and what the process writes (standard output, standard error,
 * the exit code) are the fields of a `Driver` object. Each of its methods is
 * proved against a pure function over a `Transcript`, and the properties of
 * a run are lemmas about those functions.
 */
module Golint {
  import opened Wrappers
  import opened Os
  import Config
  import opened GolintFormat
  import opened GolintTargets

  // ---------------------------------------------------------------------
  // The environment
  // ---------------------------------------------------------------------

  /** `build.Package`, with the fields the driver reads. */
  datatype Package = Package(dir: string, goFiles: seq<string>, cgoFiles: seq<string>, testGoFiles: seq<string>)

  /** `*build.NoGoError` (the directory holds no Go files), or any other import error. */
  datatype ImportError = NoGoError(dir: string) | OtherImportError(message: Error)

  datatype ImportResult = Imported(pkg: Package) | ImportFailed(error: ImportError)

  /**
   * Everything the driver consults and cannot see into: the filesystem, the
   * working directory, the YAML decoder, `build.ImportDir`, `build.Import`,
   * `allPackagesInFS`, `importPaths`, `filepath.Join` and the engine
   * `lint.Linter.LintFiles`.
   */
  datatype Env = Env(
    fs: FileSystem,
    getwd: Result<Config.Path>,
    parse: Bytes -> Result<Config.Document>,
    importDir: string -> ImportResult,
    importPackage: string -> ImportResult,
    allPackagesInFS: string -> seq<string>,
    importPaths: seq<string> -> seq<string>,
    join: (string, string) -> string,
    lint: (Config.Config, map<string, Bytes>) -> Result<seq<Problem>>)

  /** The command-line flags. */
  datatype Flags = Flags(minConfidence: real, setExitStatus: bool, format: string, configPath: string)

  /** What the driver writes to standard error. */
  datatype Diagnostic =
    | ConfigUnreadable(error: Error)   // "unable to read configuration file"
    | ReadFailed(error: Error)         // a file given to lintFiles could not be read
    | LintFailed(error: Error)         // the engine refused a unit
    | ImportFailedReport(error: Error) // a directory or package could not be imported
    | Usage                            // the usage text
    | Failing(count: nat)              // "Found ... lint suggestions; failing."

  /** The observable state of a run: the suggestion counter, what was written
      to standard output and standard error, and the exit code once the
      process has exited. */
  datatype Transcript = Transcript(
    suggestions: nat,
    stdout: seq<Output>,
    stderr: seq<Diagnostic>,
    exit: Option<int>)

  const Start := Transcript(0, [], [], None)

  /** The settings every lint call reads: the environment, the flags, the
      selected formatter and the loaded configuration. */
  datatype Session = Session(env: Env, flags: Flags, formatter: FormatterKind, config: Config.Config)

  // ---------------------------------------------------------------------
  // lintFiles
  // ---------------------------------------------------------------------

  /** The file map `lintFiles` builds: each readable name mapped to its bytes. */
  function SourceFiles(fs: FileSystem, names: seq<string>): map<string, Bytes>
  {
    if names == [] then map[]
    else
      var files := SourceFiles(fs, names[..|names| - 1]);
      var name := names[|names| - 1];
      match fs.readFile(name)
      case Ok(src) => files[name := src]
      case Err(_) => files
  }

  /** The map holds exactly the readable names, each mapped to its contents. */
  lemma {:induction false} SourceFilesExact(fs: FileSystem, names: seq<string>, f: string)
    ensures f in SourceFiles(fs, names) <==> f in names && fs.readFile(f).Ok?
    ensures f in SourceFiles(fs, names) ==> SourceFiles(fs, names)[f] == fs.readFile(f).value
  {
    if names != [] {
      var n := |names|;
      SourceFilesExact(fs, names[..n - 1], f);
      assert names == names[..n - 1] + [names[n - 1]];
      assert f in names <==> f in names[..n - 1] || f == names[n - 1];
    }
  }

  /** One report per unreadable name, in order. */
  function ReadFailures(fs: FileSystem, names: seq<string>): seq<Diagnostic>
  {
    if names == [] then []
    else
      ReadFailures(fs, names[..|names| - 1])
      + match fs.readFile(names[|names| - 1])
        case Err(e) => [ReadFailed(e)]
        case Ok(_) => []
  }

  /** The number of names that cannot be read. */
  function Unreadable(fs: FileSystem, names: seq<string>): nat
  {
    if names == [] then 0
    else Unreadable(fs, names[..|names| - 1]) + (if fs.readFile(names[|names| - 1]).Err? then 1 else 0)
  }

  /** A name that cannot be read counts among the unreadable names up to and
      including it. */
  lemma {:induction false} UnreadableBefore(fs: FileSystem, names: seq<string>, i: nat)
    requires i < |names| && fs.readFile(names[i]).Err?
    ensures Unreadable(fs, names[..i]) < Unreadable(fs, names)
  {
    var n := |names|;
    if i < n - 1 {
      assert names[..n - 1][..i] == names[..i];
      UnreadableBefore(fs, names[..n - 1], i);
    } else {
      assert names[..i] == names[..n - 1];
    }
  }

  /** Every unreadable name is reported exactly once, in order: there is one
      report per unreadable name, and the report of `names[i]` carries its
      read error and comes after those of the unreadable names before it. */
  lemma {:induction false} ReadFailuresExact(fs: FileSystem, names: seq<string>)
    ensures |ReadFailures(fs, names)| == Unreadable(fs, names)
    ensures forall i :: 0 <= i < |names| && fs.readFile(names[i]).Err? ==>
      && Unreadable(fs, names[..i]) < |ReadFailures(fs, names)|
      && ReadFailures(fs, names)[Unreadable(fs, names[..i])] == ReadFailed(fs.readFile(names[i]).error)
  {
    if names != [] {
      var n := |names|;
      var p := names[..n - 1];
      ReadFailuresExact(fs, p);
      forall i | 0 <= i < n && fs.readFile(names[i]).Err?
        ensures && Unreadable(fs, names[..i]) < |ReadFailures(fs, names)|
                && ReadFailures(fs, names)[Unreadable(fs, names[..i])] == ReadFailed(fs.readFile(names[i]).error)
      {
        UnreadableBefore(fs, names, i);
        if i < n - 1 {
          assert p[i] == names[i];
          assert p[..i] == names[..i];
          UnreadableBefore(fs, p, i);
        } else {
          assert names[..i] == p;
        }
      }
    }
  }

  /** The number of problems whose confidence reaches the threshold. */
  function Suggestions(ps: seq<Problem>, threshold: real): nat
  {
    if ps == [] then 0
    else Suggestions(ps[..|ps| - 1], threshold) + (if ps[|ps| - 1].confidence >= threshold then 1 else 0)
  }

  /** `lintFiles(names...)`: report unreadable files, run the engine on the
      rest; on an engine error report it and change nothing else; otherwise
      add the number of suggestions to the counter and write every problem. */
  function LintFilesSpec(s: Session, t: Transcript, names: seq<string>): Transcript
  {
    var t1 := t.(stderr := t.stderr + ReadFailures(s.env.fs, names));
    match s.env.lint(s.config, SourceFiles(s.env.fs, names))
    case Err(e) => t1.(stderr := t1.stderr + [LintFailed(e)])
    case Ok(ps) =>
      t1.(suggestions := t1.suggestions + Suggestions(ps, s.flags.minConfidence),
          stdout := t1.stdout + Rendered(s.formatter, ps))
  }

  // ---------------------------------------------------------------------
  // lintImportedPackage, lintDir, lintPackage
  // ---------------------------------------------------------------------

  /** A member file name as `lintImportedPackage` passes it on. */
  function Qualify(env: Env, dir: string, f: string): string
  {
    if dir == "." then f else env.join(dir, f)
  }

  /** The member files of an imported package: Go files, then cgo files, then
      test files, each joined with the package directory unless it is ".". */
  function MemberFiles(env: Env, pkg: Package): seq<string>
  {
    var files := pkg.goFiles + pkg.cgoFiles + pkg.testGoFiles;
    if pkg.dir == "." then files
    else seq(|files|, i requires 0 <= i < |files| => env.join(pkg.dir, files[i]))
  }

  /** The three lists are kept in order, one qualified name per listed file. */
  lemma MemberFilesOrder(env: Env, pkg: Package)
    ensures var m := MemberFiles(env, pkg);
      var g, c := |pkg.goFiles|, |pkg.cgoFiles|;
      && |m| == g + c + |pkg.testGoFiles|
      && (forall i :: 0 <= i < g ==> m[i] == Qualify(env, pkg.dir, pkg.goFiles[i]))
      && (forall i :: 0 <= i < c ==> m[g + i] == Qualify(env, pkg.dir, pkg.cgoFiles[i]))
      && (forall i :: 0 <= i < |pkg.testGoFiles| ==> m[g + c + i] == Qualify(env, pkg.dir, pkg.testGoFiles[i]))
  {
  }

  /** `lintImportedPackage`: a `NoGoError` is ignored, any other import error
      is reported, and an imported package has its member files linted. */
  function LintImportedSpec(s: Session, t: Transcript, r: ImportResult): Transcript
  {
    match r
    case ImportFailed(NoGoError(_)) => t
    case ImportFailed(OtherImportError(e)) => t.(stderr := t.stderr + [ImportFailedReport(e)])
    case Imported(pkg) => LintFilesSpec(s, t, MemberFiles(s.env, pkg))
  }

  /** `lintDir` (importer `build.ImportDir`) or `lintPackage` (importer
      `build.Import`) for each unit name, in order. */
  function LintUnitsSpec(s: Session, t: Transcript, importer: string -> ImportResult, units: seq<string>): Transcript
  {
    if units == [] then t
    else LintImportedSpec(s, LintUnitsSpec(s, t, importer, units[..|units| - 1]), importer(units[|units| - 1]))
  }

  // ---------------------------------------------------------------------
  // main
  // ---------------------------------------------------------------------

  /** `-config_path` if given, otherwise the search from the working directory. */
  function LoadConfig(env: Env, flags: Flags): Result<Config.Config>
  {
    if flags.configPath != "" then Config.ReadConfig(flags.configPath, env.fs, env.parse)
    else Config.ReadConfigFromWorkingDir(env.getwd, env.fs, env.parse)
  }

  /** An explicit `-config_path` is read as it is and the working directory is
      never consulted; without one, a chain with no `.pikeman.yml` gives the
      embedded default. */
  lemma LoadConfigSource(env: Env, flags: Flags, getwd: Result<Config.Path>)
    ensures flags.configPath != "" ==>
      && LoadConfig(env.(getwd := getwd), flags) == LoadConfig(env, flags)
      && LoadConfig(env, flags) == Config.ReadConfig(flags.configPath, env.fs, env.parse)
    ensures flags.configPath == "" && env.getwd.Ok? && Config.AbsentAlong(env.fs, Config.Chain(env.getwd.value)) ==>
      LoadConfig(env, flags) == Ok(Config.DefaultConfig)
  {
    if env.getwd.Ok? {
      Config.WorkingDirConfigFromSearch(env.getwd.value, env.fs, env.parse, 0, Config.DefaultConfig);
    }
  }

  /** The arguments name targets of more than one family. */
  predicate MixedTargets(fs: FileSystem, args: seq<string>)
  {
    var fams := Families(fs, args);
    Flag(Dirs in fams) + Flag(Files in fams) + Flag(Packages in fams) != 1
  }

  /** The body of `main` after the configuration is loaded, up to the exit
      decision. */
  function Dispatch(s: Session, args: seq<string>): Transcript
  {
    if args == [] then LintImportedSpec(s, Start, s.env.importDir("."))
    else if MixedTargets(s.env.fs, args) then Start.(stderr := [Usage], exit := Some(2))
    else
      var targets := Resolved(s.env.fs, s.env.allPackagesInFS, args);
      var fams := Families(s.env.fs, args);
      if Dirs in fams then LintUnitsSpec(s, Start, s.env.importDir, targets)
      else if Files in fams then LintFilesSpec(s, Start, targets)
      else LintUnitsSpec(s, Start, s.env.importPackage, s.env.importPaths(targets))
  }

  /** The end of `main`: fail when asked to and there are suggestions,
      otherwise return normally (status 0). */
  function Finish(flags: Flags, t: Transcript): Transcript
  {
    if t.exit.Some? then t
    else if flags.setExitStatus && t.suggestions > 0 then
      t.(stderr := t.stderr + [Failing(t.suggestions)], exit := Some(1))
    else t.(exit := Some(0))
  }

  /** A whole run of `main` on the positional arguments `args`. */
  function RunSpec(env: Env, flags: Flags, args: seq<string>): Transcript
  {
    match LoadConfig(env, flags)
    case Err(e) => Start.(stderr := [ConfigUnreadable(e)], exit := Some(1))
    case Ok(c) => Finish(flags, Dispatch(Session(env, flags, SelectFormatter(flags.format), c), args))
  }

  // ---------------------------------------------------------------------
  // The driver object
  // ---------------------------------------------------------------------

  class Driver {
    const env: Env
    const flags: Flags
    var formatter: FormatterKind
    var config: Config.Config
    var suggestions: nat
    var stdout: seq<Output>
    var stderr: seq<Diagnostic>
    var exit: Option<int>

    function Snapshot(): Transcript
      reads this
    {
      Transcript(suggestions, stdout, stderr, exit)
    }

    function CurrentSession(): Session
      reads this
    {
      Session(env, flags, formatter, config)
    }

    /** A process that has not started: counter zero, nothing written. */
    constructor (env: Env, flags: Flags)
      ensures this.env == env && this.flags == flags
      ensures Snapshot() == Start
    {
      this.env := env;
      this.flags := flags;
      formatter := TextFormatter;
      config := Config.ZeroConfig;
      suggestions := 0;
      stdout := [];
      stderr := [];
      exit := None;
    }

    /** `writeError`: print the message and exit with status 1, whatever
        `code` says. */
    method WriteError(code: int, d: Diagnostic)
      modifies this`stderr, this`exit
      ensures stderr == old(stderr) + [d]
      ensures exit == Some(1)
    {
      stderr := stderr + [d];
      exit := Some(1);
    }

    /** `textFormatter.Write`: one line per problem, in order. */
    method WriteText(ps: seq<Problem>)
      modifies this`stdout
      ensures stdout == old(stdout) + TextLines(ps)
    {
      var i := 0;
      while i < |ps|
        invariant 0 <= i <= |ps|
        invariant stdout == old(stdout) + TextLines(ps[..i])
      {
        TextLinesSnoc(ps, i);
        stdout := stdout + [Line(TextLine(ps[i]))];
        i := i + 1;
      }
      assert ps[..i] == ps;
    }

    /** `jsonFormatter.Write`: fill an array of records by index, then write
        it as one JSON array. */
    method WriteJson(ps: seq<Problem>)
      modifies this`stdout
      ensures stdout == old(stdout) + [JsonArray(JsonRecords(ps))]
    {
      var problems := new JsonProblem[|ps|];
      for i := 0 to |ps|
        invariant stdout == old(stdout)
        invariant forall k :: 0 <= k < i ==> problems[k] == ToJson(ps[k])
      {
        problems[i] := ToJson(ps[i]);
      }
      assert problems[..] == JsonRecords(ps);
      stdout := stdout + [JsonArray(problems[..])];
    }

    /** `formatter.Write`. */
    method Write(ps: seq<Problem>)
      modifies this`stdout
      ensures stdout == old(stdout) + Rendered(formatter, ps)
    {
      match formatter
      case TextFormatter => WriteText(ps);
      case JsonFormatter => WriteJson(ps);
    }

    /** `lintFiles`. */
    method LintFiles(names: seq<string>)
      modifies this`suggestions, this`stdout, this`stderr
      ensures Snapshot() == LintFilesSpec(CurrentSession(), old(Snapshot()), names)
    {
      var files: map<string, Bytes> := map[];
      var i := 0;
      while i < |names|
        invariant 0 <= i <= |names|
        invariant files == SourceFiles(env.fs, names[..i])
        invariant stderr == old(stderr) + ReadFailures(env.fs, names[..i])
        invariant suggestions == old(suggestions) && stdout == old(stdout)
      {
        var filename := names[i];
        assert names[..i + 1][..i] == names[..i];
        match env.fs.readFile(filename) {
          case Err(e) =>
            stderr := stderr + [ReadFailed(e)];
          case Ok(src) =>
            files := files[filename := src];
        }
        i := i + 1;
      }
      assert names[..i] == names;

      match env.lint(config, files)
      case Err(e) =>
        stderr := stderr + [LintFailed(e)];
      case Ok(ps) =>
        ghost var before := Snapshot();
        var j := 0;
        while j < |ps|
          invariant 0 <= j <= |ps|
          invariant Snapshot() == before.(suggestions := before.suggestions + Suggestions(ps[..j], flags.minConfidence))
        {
          assert ps[..j + 1][..j] == ps[..j];
          if ps[j].confidence >= flags.minConfidence {
            suggestions := suggestions + 1;
          }
          j := j + 1;
        }
        assert ps[..j] == ps;
        Write(ps);
    }

    /** `lintImportedPackage`. */
    method LintImportedPackage(r: ImportResult)
      modifies this`suggestions, this`stdout, this`stderr
      ensures Snapshot() == LintImportedSpec(CurrentSession(), old(Snapshot()), r)
    {
      match r
      case ImportFailed(NoGoError(_)) =>
        return;
      case ImportFailed(OtherImportError(e)) =>
        stderr := stderr + [ImportFailedReport(e)];
      case Imported(pkg) =>
        var files := MemberFileList(pkg);
        LintFiles(files);
    }

    /** The file list of `lintImportedPackage`: the three lists appended, then
        each entry rewritten in place as joined with the package directory
        unless that is ".". */
    method MemberFileList(pkg: Package) returns (files: seq<string>)
      ensures files == MemberFiles(env, pkg)
    {
      files := [];
      files := files + pkg.goFiles;
      files := files + pkg.cgoFiles;
      files := files + pkg.testGoFiles;
      assert files == pkg.goFiles + pkg.cgoFiles + pkg.testGoFiles;
      if pkg.dir != "." {
        var joined := new string[|files|](i requires 0 <= i < |files| => files[i]);
        for i := 0 to joined.Length
          invariant forall k :: 0 <= k < i ==> joined[k] == env.join(pkg.dir, files[k])
          invariant forall k :: i <= k < joined.Length ==> joined[k] == files[k]
        {
          joined[i] := env.join(pkg.dir, joined[i]);
        }
        files := joined[..];
      }
    }

    /** `lintDir`. */
    method LintDir(dirname: string)
      modifies this`suggestions, this`stdout, this`stderr
      ensures Snapshot() == LintImportedSpec(CurrentSession(), old(Snapshot()), env.importDir(dirname))
    {
      LintImportedPackage(env.importDir(dirname));
    }

    /** `lintPackage`. */
    method LintPackage(pkgname: string)
      modifies this`suggestions, this`stdout, this`stderr
      ensures Snapshot() == LintImportedSpec(CurrentSession(), old(Snapshot()), env.importPackage(pkgname))
    {
      LintImportedPackage(env.importPackage(pkgname));
    }

    /** The loop of `main` over the directory targets. */
    method LintDirs(dirs: seq<string>)
      modifies this`suggestions, this`stdout, this`stderr
      ensures Snapshot() == LintUnitsSpec(CurrentSession(), old(Snapshot()), env.importDir, dirs)
    {
      for i := 0 to |dirs|
        invariant Snapshot() == LintUnitsSpec(CurrentSession(), old(Snapshot()), env.importDir, dirs[..i])
      {
        assert dirs[..i + 1][..i] == dirs[..i];
        LintDir(dirs[i]);
      }
      assert dirs[..|dirs|] == dirs;
    }

    /** The loop of `main` over the package targets. */
    method LintPackages(pkgs: seq<string>)
      modifies this`suggestions, this`stdout, this`stderr
      ensures Snapshot() == LintUnitsSpec(CurrentSession(), old(Snapshot()), env.importPackage, pkgs)
    {
      for i := 0 to |pkgs|
        invariant Snapshot() == LintUnitsSpec(CurrentSession(), old(Snapshot()), env.importPackage, pkgs[..i])
      {
        assert pkgs[..i + 1][..i] == pkgs[..i];
        LintPackage(pkgs[i]);
      }
      assert pkgs[..|pkgs|] == pkgs;
    }

    /** The part of `main` between loading the configuration and the exit
        decision: classify, check the families, lint every unit. */
    method LintTargets(args: seq<string>)
      requires Snapshot() == Start
      modifies this`suggestions, this`stdout, this`stderr, this`exit
      ensures Snapshot() == Dispatch(CurrentSession(), args)
    {
      if |args| == 0 {
        LintDir(".");
        return;
      }
      var targets, dirsRun, filesRun, pkgsRun := ResolveTargets(env.fs, env.allPackagesInFS, args);
      if dirsRun + filesRun + pkgsRun != 1 {
        stderr := stderr + [Usage];
        exit := Some(2);
        return;
      }
      if dirsRun == 1 {
        LintDirs(targets);
      } else if filesRun == 1 {
        LintFiles(targets);
      } else {
        LintPackages(env.importPaths(targets));
      }
    }

    /** `main`, after flag parsing, on the positional arguments `args`. */
    method Run(args: seq<string>)
      requires Snapshot() == Start
      modifies this
      ensures Snapshot() == RunSpec(env, flags, args)
    {
      if flags.format == "json" {
        formatter := JsonFormatter;
      } else {
        formatter := TextFormatter;
      }

      var loaded;
      if flags.configPath != "" {
        loaded := Config.ReadConfig(flags.configPath, env.fs, env.parse);
      } else {
        loaded := Config.ReadConfigFromWorkingDir(env.getwd, env.fs, env.parse);
      }
      if loaded.Err? {
        WriteError(1, ConfigUnreadable(loaded.error));
        return;
      }
      config := loaded.value;
      assert CurrentSession() == Session(env, flags, SelectFormatter(flags.format), loaded.value);

      LintTargets(args);
      if exit.Some? {
        return;
      }

      if flags.setExitStatus && suggestions > 0 {
        WriteError(1, Failing(suggestions));
        return;
      }
      exit := Some(0);
    }
  }
}
