/**
 * Classification of the command-line targets of golint/golint.go: each
 * argument is a recursive directory pattern, a directory, an existing file or
 * a package path, and only one of the three families may occur in one run.
 */
module GolintTargets {
  import opened Os

  /** The marker that asks for a directory and all directories below it. */
  const RecursiveSuffix := "/..."

  predicate HasSuffix(s: string, suffix: string)
  {
    |suffix| <= |s| && s[|s| - |suffix|..] == suffix
  }

  /** `isDir`: the stat succeeds and names a directory. */
  predicate IsDir(fs: FileSystem, name: string)
  {
    fs.stat(name).Found? && fs.stat(name).isDir
  }

  /** `exists`: the stat succeeds. */
  predicate Exists(fs: FileSystem, name: string)
  {
    fs.stat(name).Found?
  }

  /** The argument without its `/...` marker. */
  function RecursivePrefix(arg: string): string
    requires HasSuffix(arg, RecursiveSuffix)
  {
    arg[..|arg| - |RecursiveSuffix|]
  }

  datatype Kind = RecursiveDir | Dir | File | Package

  /** The three families whose mixing is forbidden. */
  datatype Family = Dirs | Files | Packages

  /** The branches of the argument loop, tried in the order the source tries them. */
  function Classify(fs: FileSystem, arg: string): Kind
  {
    if HasSuffix(arg, RecursiveSuffix) && IsDir(fs, RecursivePrefix(arg)) then RecursiveDir
    else if IsDir(fs, arg) then Dir
    else if Exists(fs, arg) then File
    else Package
  }

  function FamilyOf(k: Kind): Family
  {
    match k
    case RecursiveDir => Dirs
    case Dir => Dirs
    case File => Files
    case Package => Packages
  }

  /** An argument is taken for a package path exactly when it names nothing
      that exists (and is not a `/...` pattern over a directory), and for a
      file exactly when it names something that exists but is not a
      directory. */
  lemma ClassifyByExistence(fs: FileSystem, arg: string)
    ensures Classify(fs, arg) == Package
        <==> !Exists(fs, arg) && !(HasSuffix(arg, RecursiveSuffix) && IsDir(fs, RecursivePrefix(arg)))
    ensures Classify(fs, arg) == File
        <==> Exists(fs, arg) && !IsDir(fs, arg)
             && !(HasSuffix(arg, RecursiveSuffix) && IsDir(fs, RecursivePrefix(arg)))
  {
  }

  /** The targets one argument contributes: the directories found below the
      prefix of a recursive pattern, or the argument itself. */
  function Expansion(fs: FileSystem, allPackagesInFS: string -> seq<string>, arg: string): seq<string>
  {
    if Classify(fs, arg) == RecursiveDir then allPackagesInFS(arg) else [arg]
  }

  /** All targets, argument by argument, expansions spliced in place. */
  function Resolved(fs: FileSystem, allPackagesInFS: string -> seq<string>, args: seq<string>): seq<string>
  {
    if args == [] then []
    else Expansion(fs, allPackagesInFS, args[0]) + Resolved(fs, allPackagesInFS, args[1..])
  }

  /** Resolution respects argument order: it distributes over concatenation. */
  lemma {:induction false} ResolvedAppend(fs: FileSystem, allPackagesInFS: string -> seq<string>,
                                          xs: seq<string>, ys: seq<string>)
    ensures Resolved(fs, allPackagesInFS, xs + ys)
         == Resolved(fs, allPackagesInFS, xs) + Resolved(fs, allPackagesInFS, ys)
  {
    if xs == [] {
      assert xs + ys == ys;
    } else {
      assert (xs + ys)[0] == xs[0];
      assert (xs + ys)[1..] == xs[1..] + ys;
      ResolvedAppend(fs, allPackagesInFS, xs[1..], ys);
    }
  }

  /** An argument that is not a recursive pattern stands for itself in the
      target list. */
  lemma ResolvedSingle(fs: FileSystem, allPackagesInFS: string -> seq<string>, arg: string)
    ensures Classify(fs, arg) != RecursiveDir ==> Resolved(fs, allPackagesInFS, [arg]) == [arg]
    ensures Classify(fs, arg) == RecursiveDir ==> Resolved(fs, allPackagesInFS, [arg]) == allPackagesInFS(arg)
  {
    assert [arg][..0] == [];
  }

  /** The families that occur among `args`. */
  function Families(fs: FileSystem, args: seq<string>): set<Family>
  {
    if args == [] then {}
    else Families(fs, args[..|args| - 1]) + {FamilyOf(Classify(fs, args[|args| - 1]))}
  }

  /** A family occurs exactly when some argument is of that family. */
  lemma {:induction false} FamiliesMembers(fs: FileSystem, args: seq<string>, f: Family)
    ensures f in Families(fs, args) <==> exists i :: 0 <= i < |args| && FamilyOf(Classify(fs, args[i])) == f
  {
    if args != [] {
      var n := |args|;
      FamiliesMembers(fs, args[..n - 1], f);
      if f in Families(fs, args[..n - 1]) {
        var i :| 0 <= i < n - 1 && FamilyOf(Classify(fs, args[..n - 1][i])) == f;
        assert args[i] == args[..n - 1][i];
      }
      if exists i :: 0 <= i < n && FamilyOf(Classify(fs, args[i])) == f {
        var i :| 0 <= i < n && FamilyOf(Classify(fs, args[i])) == f;
        if i < n - 1 {
          assert args[..n - 1][i] == args[i];
        }
      }
    }
  }

  /** A flag the loop sets to 1, never increments. */
  function Flag(raised: bool): int
  {
    if raised then 1 else 0
  }

  /** The sum of the three flags is 1 exactly when exactly one family occurs. */
  lemma ExactlyOneFamily(families: set<Family>)
    ensures Flag(Dirs in families) + Flag(Files in families) + Flag(Packages in families) == 1
        <==> exists f :: families == {f}
  {
    var sum := Flag(Dirs in families) + Flag(Files in families) + Flag(Packages in families);
    if sum == 1 {
      var f := if Dirs in families then Dirs else if Files in families then Files else Packages;
      forall g | g in families ensures g == f {
        match g
        case Dirs =>
        case Files =>
        case Packages =>
      }
      assert families == {f};
    }
    if exists f :: families == {f} {
      var f :| families == {f};
      match f
      case Dirs =>
      case Files =>
      case Packages =>
    }
  }

  /**
   * The argument loop of `main`: append each argument's targets to the list
   * and raise the flag of its family.
   */
  method ResolveTargets(fs: FileSystem, allPackagesInFS: string -> seq<string>, args: seq<string>)
    returns (targets: seq<string>, dirsRun: int, filesRun: int, pkgsRun: int)
    ensures targets == Resolved(fs, allPackagesInFS, args)
    ensures dirsRun == Flag(Dirs in Families(fs, args))
    ensures filesRun == Flag(Files in Families(fs, args))
    ensures pkgsRun == Flag(Packages in Families(fs, args))
  {
    targets, dirsRun, filesRun, pkgsRun := [], 0, 0, 0;
    var i := 0;
    while i < |args|
      invariant 0 <= i <= |args|
      invariant targets == Resolved(fs, allPackagesInFS, args[..i])
      invariant dirsRun == Flag(Dirs in Families(fs, args[..i]))
      invariant filesRun == Flag(Files in Families(fs, args[..i]))
      invariant pkgsRun == Flag(Packages in Families(fs, args[..i]))
    {
      assert args[..i + 1] == args[..i] + [args[i]];
      ResolvedSnoc(fs, allPackagesInFS, args[..i], args[i]);
      FamiliesSnoc(fs, args[..i], args[i]);
      targets, dirsRun, filesRun, pkgsRun :=
        AddArgument(fs, allPackagesInFS, args[i], targets, dirsRun, filesRun, pkgsRun);
      i := i + 1;
    }
    assert args[..i] == args;
  }

  /** One turn of the argument loop: the branch the argument falls in raises
      its family's flag and appends its targets. */
  method AddArgument(fs: FileSystem, allPackagesInFS: string -> seq<string>, arg: string,
                     targets: seq<string>, dirsRun: int, filesRun: int, pkgsRun: int)
    returns (targets': seq<string>, dirsRun': int, filesRun': int, pkgsRun': int)
    ensures targets' == targets + Expansion(fs, allPackagesInFS, arg)
    ensures dirsRun' == if FamilyOf(Classify(fs, arg)) == Dirs then 1 else dirsRun
    ensures filesRun' == if FamilyOf(Classify(fs, arg)) == Files then 1 else filesRun
    ensures pkgsRun' == if FamilyOf(Classify(fs, arg)) == Packages then 1 else pkgsRun
  {
    targets', dirsRun', filesRun', pkgsRun' := targets, dirsRun, filesRun, pkgsRun;
    if HasSuffix(arg, RecursiveSuffix) && IsDir(fs, arg[..|arg| - |RecursiveSuffix|]) {
      dirsRun' := 1;
      var dirnames := allPackagesInFS(arg);
      var j := 0;
      while j < |dirnames|
        invariant 0 <= j <= |dirnames|
        invariant targets' == targets + dirnames[..j]
      {
        targets' := targets' + [dirnames[j]];
        j := j + 1;
      }
      assert dirnames[..j] == dirnames;
    } else if IsDir(fs, arg) {
      dirsRun' := 1;
      targets' := targets' + [arg];
    } else if Exists(fs, arg) {
      filesRun' := 1;
      targets' := targets' + [arg];
    } else {
      pkgsRun' := 1;
      targets' := targets' + [arg];
    }
  }

  /** One more argument appends its expansion. */
  lemma ResolvedSnoc(fs: FileSystem, allPackagesInFS: string -> seq<string>, xs: seq<string>, arg: string)
    ensures Resolved(fs, allPackagesInFS, xs + [arg])
         == Resolved(fs, allPackagesInFS, xs) + Expansion(fs, allPackagesInFS, arg)
  {
    ResolvedAppend(fs, allPackagesInFS, xs, [arg]);
    ResolvedSingle(fs, allPackagesInFS, arg);
  }

  /** One more argument adds its family. */
  lemma FamiliesSnoc(fs: FileSystem, xs: seq<string>, arg: string)
    ensures Families(fs, xs + [arg]) == Families(fs, xs) + {FamilyOf(Classify(fs, arg))}
  {
    assert (xs + [arg])[..|xs|] == xs;
  }
}
