/**
 * Configuration discovery and the rule schema of the `lint` package
 * (config.go): the `.pikeman.yml` document, the 19 rule toggles, the
 * embedded default, and the upward search from the working directory.
 *
 * The YAML decoder is an oracle `parse` from bytes to a `Document` (what the
 * decoder reads off the text); filling a zero `Config` from that document is
 * modelled exactly.
 */
module Config {
  import opened Wrappers
  import opened Os

  // ---------------------------------------------------------------------
  // Rule schema
  // ---------------------------------------------------------------------

  /** The closed set of rule names, in the order `Config` declares them. */
  datatype RuleName =
    | PackageComment | Imports | BlankImports | Exported | Names | VarDecls
    | Elses | IfError | Ranges | Errorf | Errors | ErrorStrings | ReceiverNames
    | IncDec | ErrorReturn | UnexportedReturn | TimeNames | ContextKeyTypes
    | ContextArgs

  /** The `rule` struct every toggle embeds; `IsEnabled` reads its one field. */
  datatype Rule = Rule(enabled: bool) {
    function IsEnabled(): bool { enabled }
  }

  const Disabled := Rule(false)

  /** `Config`: the include and exclude globs and one toggle per rule name. */
  datatype Config = Config(
    includes: seq<string>,
    excludes: seq<string>,
    packageComment: Rule,
    imports: Rule,
    blankImports: Rule,
    exported: Rule,
    names: Rule,
    varDecls: Rule,
    elses: Rule,
    ifError: Rule,
    ranges: Rule,
    errorf: Rule,
    errors: Rule,
    errorStrings: Rule,
    receiverNames: Rule,
    incDec: Rule,
    errorReturn: Rule,
    unexportedReturn: Rule,
    timeNames: Rule,
    contextKeyTypes: Rule,
    contextArgs: Rule)

  /** The field of `c` that holds the toggle called `n`. */
  function Toggle(c: Config, n: RuleName): Rule
  {
    match n
    case PackageComment => c.packageComment
    case Imports => c.imports
    case BlankImports => c.blankImports
    case Exported => c.exported
    case Names => c.names
    case VarDecls => c.varDecls
    case Elses => c.elses
    case IfError => c.ifError
    case Ranges => c.ranges
    case Errorf => c.errorf
    case Errors => c.errors
    case ErrorStrings => c.errorStrings
    case ReceiverNames => c.receiverNames
    case IncDec => c.incDec
    case ErrorReturn => c.errorReturn
    case UnexportedReturn => c.unexportedReturn
    case TimeNames => c.timeNames
    case ContextKeyTypes => c.contextKeyTypes
    case ContextArgs => c.contextArgs
  }

  /** Go's zero value of `Config`: no globs and every toggle disabled. */
  const ZeroConfig := Config([], [],
    Disabled, Disabled, Disabled, Disabled, Disabled, Disabled, Disabled,
    Disabled, Disabled, Disabled, Disabled, Disabled, Disabled, Disabled,
    Disabled, Disabled, Disabled, Disabled, Disabled)

  // ---------------------------------------------------------------------
  // Decoding
  // ---------------------------------------------------------------------

  /**
   * What the YAML decoder reads off a configuration document: the `Includes`
   * and `Excludes` lists when the document has those keys, and, for each rule
   * whose mapping sets `Enabled`, that value. Keys outside the schema are
   * ignored by the decoder and have no place here.
   */
  datatype Document = Document(
    includes: Option<seq<string>>,
    excludes: Option<seq<string>>,
    enabled: map<RuleName, bool>)

  /** The toggle `r` after decoding `d` into it. */
  function DecodeRule(r: Rule, n: RuleName, d: Document): Rule
  {
    if n in d.enabled then Rule(d.enabled[n]) else r
  }

  function DecodeList(current: seq<string>, v: Option<seq<string>>): seq<string>
  {
    match v
    case Some(l) => l
    case None => current
  }

  /** `Decode(&config)`: overwrite in `c` exactly the fields `d` mentions. */
  function DecodeInto(c: Config, d: Document): Config
  {
    Config(
      DecodeList(c.includes, d.includes),
      DecodeList(c.excludes, d.excludes),
      DecodeRule(c.packageComment, PackageComment, d),
      DecodeRule(c.imports, Imports, d),
      DecodeRule(c.blankImports, BlankImports, d),
      DecodeRule(c.exported, Exported, d),
      DecodeRule(c.names, Names, d),
      DecodeRule(c.varDecls, VarDecls, d),
      DecodeRule(c.elses, Elses, d),
      DecodeRule(c.ifError, IfError, d),
      DecodeRule(c.ranges, Ranges, d),
      DecodeRule(c.errorf, Errorf, d),
      DecodeRule(c.errors, Errors, d),
      DecodeRule(c.errorStrings, ErrorStrings, d),
      DecodeRule(c.receiverNames, ReceiverNames, d),
      DecodeRule(c.incDec, IncDec, d),
      DecodeRule(c.errorReturn, ErrorReturn, d),
      DecodeRule(c.unexportedReturn, UnexportedReturn, d),
      DecodeRule(c.timeNames, TimeNames, d),
      DecodeRule(c.contextKeyTypes, ContextKeyTypes, d),
      DecodeRule(c.contextArgs, ContextArgs, d))
  }

  /** Field-for-field: decoding sets the toggle a document names to the value
      it gives and leaves every other toggle as it was; a list the document
      has replaces the old one, and a list it lacks is kept. */
  lemma DecodeIntoToggle(c: Config, d: Document, n: RuleName)
    ensures Toggle(DecodeInto(c, d), n).IsEnabled()
         == if n in d.enabled then d.enabled[n] else Toggle(c, n).IsEnabled()
    ensures DecodeInto(c, d).includes == if d.includes.Some? then d.includes.value else c.includes
    ensures DecodeInto(c, d).excludes == if d.excludes.Some? then d.excludes.value else c.excludes
  {
  }

  /** Decoding starts from the zero value: a toggle is enabled exactly when the
      document sets its `Enabled` to true, and one it does not mention is off;
      absent lists are empty. */
  lemma DecodedFromZero(d: Document, n: RuleName)
    ensures Toggle(DecodeInto(ZeroConfig, d), n).IsEnabled()
         <==> n in d.enabled && d.enabled[n]
    ensures d.includes.None? ==> DecodeInto(ZeroConfig, d).includes == []
    ensures d.excludes.None? ==> DecodeInto(ZeroConfig, d).excludes == []
  {
    DecodeIntoToggle(ZeroConfig, d, n);
  }

  /** What the embedded `defaultConfig` text reads as. */
  const DefaultDocument := Document(
    Some(["./**/*.go"]),
    Some(["./vendor/**", "./pkg/**"]),
    map[
      PackageComment := true,
      Imports := true,
      BlankImports := true,
      Exported := true,
      Names := true,
      VarDecls := true,
      Elses := true,
      IfError := true,
      Ranges := true,
      Errorf := true,
      Errors := true,
      ErrorStrings := true,
      ReceiverNames := true,
      IncDec := true,
      ErrorReturn := true,
      UnexportedReturn := true,
      TimeNames := true,
      ContextKeyTypes := true,
      ContextArgs := true])

  /** The configuration used when no `.pikeman.yml` is found. */
  const DefaultConfig := DecodeInto(ZeroConfig, DefaultDocument)

  /** The embedded default enables all 19 rules, includes every Go file and
      excludes `vendor` and `pkg`. */
  lemma DefaultEnablesEverything(n: RuleName)
    ensures Toggle(DefaultConfig, n).IsEnabled()
    ensures DefaultConfig.includes == ["./**/*.go"]
    ensures DefaultConfig.excludes == ["./vendor/**", "./pkg/**"]
  {
    DecodedFromZero(DefaultDocument, n);
    DefaultDocumentSetsAll(n);
  }

  /** The embedded text gives every rule `Enabled: true`. */
  lemma DefaultDocumentSetsAll(n: RuleName)
    ensures n in DefaultDocument.enabled && DefaultDocument.enabled[n]
  {
    match n
    case PackageComment =>
    case Imports =>
    case BlankImports =>
    case Exported =>
    case Names =>
    case VarDecls =>
    case Elses =>
    case IfError =>
    case Ranges =>
    case Errorf =>
    case Errors =>
    case ErrorStrings =>
    case ReceiverNames =>
    case IncDec =>
    case ErrorReturn =>
    case UnexportedReturn =>
    case TimeNames =>
    case ContextKeyTypes =>
    case ContextArgs =>
  }

  /** Where the decoder reads from: the embedded default, or the bytes of an
      opened file. */
  datatype Reader = DefaultReader | FileReader(content: Bytes)

  /** `decodeConfig`: decode into a fresh zero `Config`; a decoder error
      yields no configuration and that error. */
  function DecodeConfig(reader: Reader, parse: Bytes -> Result<Document>): (r: Result<Config>)
    ensures reader.DefaultReader? ==> r == Ok(DefaultConfig)
    ensures reader.FileReader? && parse(reader.content).Err? ==> r == Err(parse(reader.content).error)
    ensures (reader.FileReader? && parse(reader.content).Ok?)
              ==> r == Ok(DecodeInto(ZeroConfig, parse(reader.content).value))
  {
    match reader
    case DefaultReader => Ok(DecodeInto(ZeroConfig, DefaultDocument))
    case FileReader(b) =>
      match parse(b)
      case Err(e) => Err(e)
      case Ok(d) => Ok(DecodeInto(ZeroConfig, d))
  }

  /** `ReadConfig`: open the named file and decode it; an open failure is
      returned as it is. */
  function ReadConfig(path: string, fs: FileSystem, parse: Bytes -> Result<Document>): (r: Result<Config>)
    ensures fs.open(path).Err? ==> r == Err(fs.open(path).error)
    ensures fs.open(path).Ok? ==> r == DecodeConfig(FileReader(fs.open(path).value), parse)
  {
    match fs.open(path)
    case Err(e) => Err(e)
    case Ok(b) => DecodeConfig(FileReader(b), parse)
  }

  // ---------------------------------------------------------------------
  // Paths and the upward search
  // ---------------------------------------------------------------------

  /** One name in a clean absolute path: not empty, no slash, and neither
      `.` nor `..`, which cleaning removes. */
  type Component = s: string | s != [] && '/' !in s && s != "." && s != ".." witness "a"

  /** A clean absolute directory, as `os.Getwd` returns it: `/a/b` is
      `["a", "b"]`, `/` is `[]`. */
  type Path = seq<Component>

  const ConfigFileName: Component := ".pikeman.yml"

  /** `/c1/c2/.../ck` without the root's own slash for the empty path. */
  function Render(p: Path): (s: string)
    ensures |s| >= 2 * |p|
    ensures p != [] ==> s[0] == '/'
  {
    if p == [] then "" else Render(p[..|p| - 1]) + "/" + p[|p| - 1]
  }

  /** The string form of a path. */
  function PathString(p: Path): string
  {
    if p == [] then "/" else Render(p)
  }

  /** The test `wd == "/"` on the string is the test for the empty path. */
  lemma IsRootIff(p: Path)
    ensures PathString(p) == "/" <==> p == []
  {
  }

  /** `filepath.Join(wd, ".pikeman.yml")`: the directory's string form
      followed by `/.pikeman.yml`. */
  function ConfigPathIn(wd: Path): (r: string)
    ensures |r| == |Render(wd)| + 1 + |ConfigFileName|
    ensures r[..|Render(wd)|] == Render(wd)
    ensures r[|Render(wd)|..] == "/" + ConfigFileName
  {
    PathString(wd + [ConfigFileName])
  }

  /** `filepath.Dir` and the cleaning `filepath.Join(p, "..")` both drop the
      last component of a clean absolute path, and leave `/` as it is. */
  function DropLast(p: Path): Path
  {
    if p == [] then [] else p[..|p| - 1]
  }

  /** The step of the search: `filepath.Dir(filepath.Join(wd, ".."))`, the
      ancestor two levels up, or the root when there are fewer levels. */
  function Up(wd: Path): (r: Path)
    ensures |r| == if |wd| >= 2 then |wd| - 2 else 0
    ensures r == wd[..|r|]
  {
    DropLast(DropLast(wd))
  }

  /** The step goes up TWO levels, floored at the root, so it always makes
      progress below the root. */
  lemma UpDropsTwo(wd: Path)
    ensures Up(wd) == wd[..if |wd| >= 2 then |wd| - 2 else 0]
    ensures wd != [] ==> |Up(wd)| < |wd|
  {
  }

  /**
   * `backtrackConfig`: look for `.pikeman.yml` in `wd`; if it exists, open
   * it; if it does not exist and `wd` is the root, use the embedded default;
   * if it does not exist elsewhere, continue at `Up(wd)`; any other stat
   * error ends the search with that error. Terminates on the length of `wd`.
   */
  function Backtrack(fs: FileSystem, wd: Path): (r: Result<Reader>)
    ensures r == Ok(DefaultReader) ==>
      fs.stat(ConfigPathIn(wd)).NotExist? && fs.stat(ConfigPathIn([])).NotExist?
    decreases |wd|
  {
    var configPath := ConfigPathIn(wd);
    match fs.stat(configPath)
    case NotExist =>
      if PathString(wd) == "/" then Ok(DefaultReader)
      else
        UpDropsTwo(wd);
        IsRootIff(wd);
        Backtrack(fs, Up(wd))
    case Found(_) =>
      (match fs.open(configPath)
       case Ok(b) => Ok(FileReader(b))
       case Err(e) => Err(e))
    case StatFailed(e) => Err(e)
  }

  /** The directories the search would inspect if no stop came earlier:
      `wd`, `Up(wd)`, `Up(Up(wd))`, ..., ending at the root. */
  function Chain(wd: Path): seq<Path>
    decreases |wd|
  {
    if wd == [] then [[]] else UpDropsTwo(wd); [wd] + Chain(Up(wd))
  }

  function NonNeg(n: int): nat { if n < 0 then 0 else n }

  /** The inspected directories are `wd` with 0, 2, 4, ... trailing components
      dropped; there are `(|wd| + 1) / 2 + 1` of them, so the search takes at
      most `|wd|` steps, and it ends at the root. */
  lemma {:induction false} ChainShape(wd: Path)
    ensures |Chain(wd)| == (|wd| + 1) / 2 + 1
    ensures |Chain(wd)| <= |wd| + 1
    ensures Chain(wd)[|Chain(wd)| - 1] == []
    ensures forall i :: 0 <= i < |Chain(wd)| ==> Chain(wd)[i] == wd[..NonNeg(|wd| - 2 * i)]
    decreases |wd|
  {
    if wd != [] {
      UpDropsTwo(wd);
      ChainShape(Up(wd));
      var c := Chain(wd);
      forall i | 0 <= i < |c| ensures c[i] == wd[..NonNeg(|wd| - 2 * i)] {
        if i > 0 {
          assert c[i] == Chain(Up(wd))[i - 1];
        }
      }
    }
  }

  /** Because the step drops two components, the immediate parent of a
      directory at depth two or more is never inspected. */
  lemma ParentNeverInspected(wd: Path)
    requires |wd| >= 2
    ensures wd[..|wd| - 1] !in Chain(wd)
  {
    ChainShape(wd);
    forall i | 0 <= i < |Chain(wd)| ensures Chain(wd)[i] != wd[..|wd| - 1] {
      assert |Chain(wd)[i]| == NonNeg(|wd| - 2 * i);
    }
  }

  /** The verdict of one directory whose stat ends the search. */
  function Inspect(fs: FileSystem, d: Path): Result<Reader>
  {
    var configPath := ConfigPathIn(d);
    match fs.stat(configPath)
    case NotExist => Ok(DefaultReader)
    case Found(_) =>
      (match fs.open(configPath)
       case Ok(b) => Ok(FileReader(b))
       case Err(e) => Err(e))
    case StatFailed(e) => Err(e)
  }

  /** `k` is the first index of the chain whose stat of `.pikeman.yml` is
      anything but "does not exist", or the root's index if there is none. */
  ghost predicate FirstStopAt(fs: FileSystem, wd: Path, k: int)
  {
    && 0 <= k < |Chain(wd)|
    && AbsentAlong(fs, Chain(wd)[..k])
    && (k == |Chain(wd)| - 1 || !fs.stat(ConfigPathIn(Chain(wd)[k])).NotExist?)
  }

  /** The search is decided by the first directory of the chain in which the
      stat of `.pikeman.yml` does not say "does not exist" (or by the root if
      there is none); no later directory is inspected. */
  lemma {:induction false} BacktrackIsFirstStop(fs: FileSystem, wd: Path)
    ensures exists k :: FirstStopAt(fs, wd, k) && Backtrack(fs, wd) == Inspect(fs, Chain(wd)[k])
    decreases |wd|
  {
    BacktrackStep(fs, wd);
    if wd != [] && fs.stat(ConfigPathIn(wd)).NotExist? {
      UpDropsTwo(wd);
      BacktrackIsFirstStop(fs, Up(wd));
      var k' :| FirstStopAt(fs, Up(wd), k') && Backtrack(fs, Up(wd)) == Inspect(fs, Chain(Up(wd))[k']);
      FirstStopShift(fs, wd, k');
    } else {
      StopHere(fs, wd);
    }
  }

  /** A search that ends in `wd` itself stops at index 0 of the chain. */
  lemma StopHere(fs: FileSystem, wd: Path)
    requires wd == [] || !fs.stat(ConfigPathIn(wd)).NotExist?
    ensures FirstStopAt(fs, wd, 0) && Backtrack(fs, wd) == Inspect(fs, Chain(wd)[0])
  {
    BacktrackStep(fs, wd);
  }

  /** Below the root, a directory without `.pikeman.yml` passes the search on:
      the stop of the rest of the chain is one later in the whole chain. */
  lemma FirstStopShift(fs: FileSystem, wd: Path, k': int)
    requires wd != [] && fs.stat(ConfigPathIn(wd)).NotExist?
    requires FirstStopAt(fs, Up(wd), k')
    ensures FirstStopAt(fs, wd, k' + 1) && Chain(wd)[k' + 1] == Chain(Up(wd))[k']
  {
    var c, c' := Chain(wd), Chain(Up(wd));
    assert c == [wd] + c';
    assert c[..k' + 1] == [wd] + c'[..k'];
    AbsentAlongCons(fs, wd, c'[..k']);
  }

  /** The embedded default is used exactly when `.pikeman.yml` is absent from
      every directory of the chain, the root included. */
  lemma {:induction false} DefaultIffAbsentEverywhere(fs: FileSystem, wd: Path)
    ensures Backtrack(fs, wd) == Ok(DefaultReader)
        <==> forall i :: 0 <= i < |Chain(wd)| ==> fs.stat(ConfigPathIn(Chain(wd)[i])).NotExist?
    decreases |wd|
  {
    BacktrackStep(fs, wd);
    if wd == [] {
      assert Chain(wd) == [wd];
      AbsentAlongCons(fs, wd, []);
    } else {
      UpDropsTwo(wd);
      DefaultIffAbsentEverywhere(fs, Up(wd));
      assert Chain(wd) == [wd] + Chain(Up(wd));
      AbsentAlongCons(fs, wd, Chain(Up(wd)));
    }
  }

  /** `.pikeman.yml` is absent from every directory of `ds`. */
  ghost predicate AbsentAlong(fs: FileSystem, ds: seq<Path>)
  {
    forall i :: 0 <= i < |ds| ==> fs.stat(ConfigPathIn(ds[i])).NotExist?
  }

  lemma AbsentAlongCons(fs: FileSystem, d: Path, ds: seq<Path>)
    ensures AbsentAlong(fs, [d] + ds) <==> fs.stat(ConfigPathIn(d)).NotExist? && AbsentAlong(fs, ds)
  {
    var c := [d] + ds;
    assert c[0] == d;
    assert forall i :: 0 <= i < |ds| ==> c[i + 1] == ds[i];
  }

  /** One step of the search: a directory whose `.pikeman.yml` exists or
      cannot be checked decides the search, and never for the default; at the
      root an absent file gives the default; elsewhere the search moves on. */
  lemma BacktrackStep(fs: FileSystem, wd: Path)
    ensures !fs.stat(ConfigPathIn(wd)).NotExist? ==>
      Backtrack(fs, wd) == Inspect(fs, wd) && Backtrack(fs, wd) != Ok(DefaultReader)
    ensures fs.stat(ConfigPathIn(wd)).NotExist? && wd == [] ==> Backtrack(fs, wd) == Ok(DefaultReader)
    ensures fs.stat(ConfigPathIn(wd)).NotExist? && wd != [] ==> Backtrack(fs, wd) == Backtrack(fs, Up(wd))
  {
    IsRootIff(wd);
  }

  /** `ReadConfigFromWorkingDir`: a `Getwd` failure, a search failure or a
      decode failure is returned as it is; otherwise the decoded document. */
  function ReadConfigFromWorkingDir(getwd: Result<Path>, fs: FileSystem,
                                    parse: Bytes -> Result<Document>): (r: Result<Config>)
    ensures getwd.Err? ==> r == Err(getwd.error)
    ensures getwd.Ok? && Backtrack(fs, getwd.value).Err? ==> r == Err(Backtrack(fs, getwd.value).error)
    ensures getwd.Ok? && Backtrack(fs, getwd.value).Ok? ==> r == DecodeConfig(Backtrack(fs, getwd.value).value, parse)
  {
    match getwd
    case Err(e) => Err(e)
    case Ok(wd) =>
      match Backtrack(fs, wd)
      case Err(e) => Err(e)
      case Ok(reader) => DecodeConfig(reader, parse)
  }

  /** A configuration read from the working directory is either the embedded
      default, when no directory of the chain has `.pikeman.yml`, or the
      decoding of the file found in the first directory of the chain that has
      one, every earlier directory lacking it. */
  lemma WorkingDirConfigOrigin(wd: Path, fs: FileSystem, parse: Bytes -> Result<Document>, c: Config)
    requires ReadConfigFromWorkingDir(Ok(wd), fs, parse) == Ok(c)
    ensures
      || ((forall i :: 0 <= i < |Chain(wd)| ==> fs.stat(ConfigPathIn(Chain(wd)[i])).NotExist?)
          && c == DefaultConfig)
      || (exists k :: FirstStopAt(fs, wd, k) && FoundAndDecodes(fs, parse, Chain(wd)[k], c))
  {
    var reader :| Backtrack(fs, wd) == Ok(reader) && DecodeConfig(reader, parse) == Ok(c);
    if reader.DefaultReader? {
      DefaultIffAbsentEverywhere(fs, wd);
    } else {
      BacktrackIsFirstStop(fs, wd);
      var k :| FirstStopAt(fs, wd, k) && Backtrack(fs, wd) == Inspect(fs, Chain(wd)[k]);
      assert FoundAndDecodes(fs, parse, Chain(wd)[k], c);
    }
  }

  /** Conversely, no `.pikeman.yml` anywhere on the chain gives the embedded
      default, and a file found, opened and decoded at the first stop of the
      chain gives its decoding. */
  lemma WorkingDirConfigFromSearch(wd: Path, fs: FileSystem, parse: Bytes -> Result<Document>, k: int, c: Config)
    ensures AbsentAlong(fs, Chain(wd)) ==> ReadConfigFromWorkingDir(Ok(wd), fs, parse) == Ok(DefaultConfig)
    ensures FirstStopAt(fs, wd, k) && FoundAndDecodes(fs, parse, Chain(wd)[k], c) ==>
      ReadConfigFromWorkingDir(Ok(wd), fs, parse) == Ok(c)
  {
    DefaultIffAbsentEverywhere(fs, wd);
    if FirstStopAt(fs, wd, k) && FoundAndDecodes(fs, parse, Chain(wd)[k], c) {
      BacktrackIsFirstStop(fs, wd);
      var k0 :| FirstStopAt(fs, wd, k0) && Backtrack(fs, wd) == Inspect(fs, Chain(wd)[k0]);
      FirstStopUnique(fs, wd, k, k0);
    }
  }

  /** The chain has one first stop. */
  lemma FirstStopUnique(fs: FileSystem, wd: Path, k: int, k': int)
    requires FirstStopAt(fs, wd, k) && FirstStopAt(fs, wd, k')
    ensures k == k'
  {
  }

  /** `.pikeman.yml` exists in `d`, opens, and decodes to `c`. */
  ghost predicate FoundAndDecodes(fs: FileSystem, parse: Bytes -> Result<Document>, d: Path, c: Config)
  {
    var path := ConfigPathIn(d);
    && fs.stat(path).Found?
    && fs.open(path).Ok?
    && parse(fs.open(path).value).Ok?
    && c == DecodeInto(ZeroConfig, parse(fs.open(path).value).value)
  }
}
