/**
 * What a run of golint/golint.go guarantees, stated over the functions the
 * `Driver` methods are proved against: how problems are counted, that
 * rendering ignores the confidence threshold, how output accumulates unit by
 * unit, the one-family rule, and the exit status.
 */
module GolintProperties {
  import opened Wrappers
  import opened Os
  import Config
  import opened GolintFormat
  import opened GolintTargets
  import opened Golint

  // ---------------------------------------------------------------------
  // Counting suggestions
  // ---------------------------------------------------------------------

  /** Counting is additive over consecutive problem lists. */
  lemma {:induction false} SuggestionsAppend(xs: seq<Problem>, ys: seq<Problem>, threshold: real)
    ensures Suggestions(xs + ys, threshold) == Suggestions(xs, threshold) + Suggestions(ys, threshold)
    decreases |ys|
  {
    if ys == [] {
      assert xs + ys == xs;
    } else {
      var zs := xs + ys;
      assert zs[..|zs| - 1] == xs + ys[..|ys| - 1];
      assert zs[|zs| - 1] == ys[|ys| - 1];
      SuggestionsAppend(xs, ys[..|ys| - 1], threshold);
    }
  }

  /** The count is that of the problems at or above the threshold: none of
      them exactly when the count is zero, all of them exactly when it is the
      length of the list. */
  lemma {:induction false} SuggestionsCountsQualifying(ps: seq<Problem>, threshold: real)
    ensures Suggestions(ps, threshold) <= |ps|
    ensures Suggestions(ps, threshold) == 0 <==> forall i :: 0 <= i < |ps| ==> ps[i].confidence < threshold
    ensures Suggestions(ps, threshold) == |ps| <==> forall i :: 0 <= i < |ps| ==> ps[i].confidence >= threshold
  {
    if ps != [] {
      var n := |ps|;
      var init := ps[..n - 1];
      SuggestionsCountsQualifying(init, threshold);
      assert forall i :: 0 <= i < n - 1 ==> ps[i] == init[i];
    }
  }

  /** Raising the threshold never raises the count. */
  lemma {:induction false} SuggestionsAntitone(ps: seq<Problem>, lower: real, higher: real)
    requires lower <= higher
    ensures Suggestions(ps, higher) <= Suggestions(ps, lower)
  {
    if ps != [] {
      SuggestionsAntitone(ps[..|ps| - 1], lower, higher);
    }
  }

  /** One `lintFiles` call: an engine error leaves the counter and standard
      output as they were; otherwise the counter grows by at most the number
      of problems and every problem, qualifying or not, is written. */
  lemma LintFilesEffect(s: Session, t: Transcript, names: seq<string>)
    ensures var r := LintFilesSpec(s, t, names);
      match s.env.lint(s.config, SourceFiles(s.env.fs, names))
      case Err(_) => r.suggestions == t.suggestions && r.stdout == t.stdout
      case Ok(ps) =>
        && t.suggestions <= r.suggestions <= t.suggestions + |ps|
        && r.stdout == t.stdout + Rendered(s.formatter, ps)
    ensures LintFilesSpec(s, t, names).exit == t.exit
  {
    match s.env.lint(s.config, SourceFiles(s.env.fs, names))
    case Err(_) =>
    case Ok(ps) => SuggestionsCountsQualifying(ps, s.flags.minConfidence);
  }

  // ---------------------------------------------------------------------
  // Rendering does not depend on the threshold
  // ---------------------------------------------------------------------

  /** Two transcripts that wrote the same things, whatever their counters. */
  predicate SameWrites(a: Transcript, b: Transcript)
  {
    a.stdout == b.stdout && a.stderr == b.stderr && a.exit == b.exit
  }

  /** The session `s` run at another confidence threshold. */
  function AtThreshold(s: Session, threshold: real): Session
  {
    s.(flags := s.flags.(minConfidence := threshold))
  }

  lemma ImportedIgnoresThreshold(s: Session, threshold: real, t1: Transcript, t2: Transcript, r: ImportResult)
    requires SameWrites(t1, t2)
    ensures SameWrites(LintImportedSpec(s, t1, r), LintImportedSpec(AtThreshold(s, threshold), t2, r))
  {
  }

  /** Linting a sequence of units writes the same output and diagnostics at
      any threshold: the threshold decides only the counter. */
  lemma {:induction false} UnitsIgnoreThreshold(s: Session, threshold: real, t1: Transcript, t2: Transcript,
                                                importer: string -> ImportResult, units: seq<string>)
    requires SameWrites(t1, t2)
    ensures SameWrites(LintUnitsSpec(s, t1, importer, units),
                       LintUnitsSpec(AtThreshold(s, threshold), t2, importer, units))
  {
    if units != [] {
      var n := |units|;
      UnitsIgnoreThreshold(s, threshold, t1, t2, importer, units[..n - 1]);
      ImportedIgnoresThreshold(s, threshold, LintUnitsSpec(s, t1, importer, units[..n - 1]),
                               LintUnitsSpec(AtThreshold(s, threshold), t2, importer, units[..n - 1]),
                               importer(units[n - 1]));
    }
  }

  lemma DispatchIgnoresThreshold(s: Session, threshold: real, args: seq<string>)
    ensures SameWrites(Dispatch(s, args), Dispatch(AtThreshold(s, threshold), args))
  {
    if args != [] && !MixedTargets(s.env.fs, args) {
      var targets := Resolved(s.env.fs, s.env.allPackagesInFS, args);
      UnitsIgnoreThreshold(s, threshold, Start, Start, s.env.importDir, targets);
      UnitsIgnoreThreshold(s, threshold, Start, Start, s.env.importPackage, s.env.importPaths(targets));
    }
  }

  /** Every problem the engine finds is rendered whatever the threshold: two
      runs that differ only in `-min_confidence` print the same output. */
  lemma RenderingIgnoresThreshold(env: Env, flags: Flags, threshold: real, args: seq<string>)
    ensures RunSpec(env, flags, args).stdout == RunSpec(env, flags.(minConfidence := threshold), args).stdout
  {
    match LoadConfig(env, flags)
    case Err(_) =>
    case Ok(c) =>
      DispatchIgnoresThreshold(Session(env, flags, SelectFormatter(flags.format), c), threshold, args);
  }

  // ---------------------------------------------------------------------
  // Accumulation over units
  // ---------------------------------------------------------------------

  /** The problem list the engine returned for a unit, when the unit was
      imported and the engine accepted it. */
  function UnitProblems(s: Session, r: ImportResult): Option<seq<Problem>>
  {
    match r
    case Imported(pkg) =>
      (match s.env.lint(s.config, SourceFiles(s.env.fs, MemberFiles(s.env, pkg)))
       case Ok(ps) => Some(ps)
       case Err(_) => None)
    case ImportFailed(_) => None
  }

  /** The engine results of the units that were linted, in order. */
  function LintedProblems(s: Session, importer: string -> ImportResult, units: seq<string>): seq<seq<Problem>>
  {
    if units == [] then []
    else
      LintedProblems(s, importer, units[..|units| - 1])
      + match UnitProblems(s, importer(units[|units| - 1]))
        case Some(ps) => [ps]
        case None => []
  }

  /** The output of one `formatter.Write` per list, in order. */
  function RenderedAll(k: FormatterKind, pss: seq<seq<Problem>>): seq<Output>
  {
    if pss == [] then [] else RenderedAll(k, pss[..|pss| - 1]) + Rendered(k, pss[|pss| - 1])
  }

  function SuggestionsAll(pss: seq<seq<Problem>>, threshold: real): nat
  {
    if pss == [] then 0 else SuggestionsAll(pss[..|pss| - 1], threshold) + Suggestions(pss[|pss| - 1], threshold)
  }

  /** Linting several units writes, for each linted unit in order, everything
      the engine found in it; the counter grows by the suggestions of each;
      the exit code is not touched. */
  lemma UnitsAccumulate(s: Session, t: Transcript, importer: string -> ImportResult, units: seq<string>)
    ensures var r := LintUnitsSpec(s, t, importer, units);
      var pss := LintedProblems(s, importer, units);
      && r.stdout == t.stdout + RenderedAll(s.formatter, pss)
      && r.suggestions == t.suggestions + SuggestionsAll(pss, s.flags.minConfidence)
      && r.exit == t.exit
  {
    UnitsOutput(s, t, importer, units);
    UnitsCount(s, t, importer, units);
    UnitsKeepExit(s, t, importer, units);
  }

  lemma {:induction false} UnitsOutput(s: Session, t: Transcript, importer: string -> ImportResult, units: seq<string>)
    ensures LintUnitsSpec(s, t, importer, units).stdout == t.stdout + RenderedAll(s.formatter, LintedProblems(s, importer, units))
  {
    if units != [] {
      var n := |units|;
      var init := units[..n - 1];
      UnitsOutput(s, t, importer, init);
      var x := UnitOutput(s, importer(units[n - 1]));
      var a0 := RenderedAll(s.formatter, LintedProblems(s, importer, init));
      ImportedOutput(s, LintUnitsSpec(s, t, importer, init), importer(units[n - 1]));
      LintedSnoc(s, importer, units);
      ConcatAssoc(t.stdout, a0, x);
    }
  }

  /** Associativity of output concatenation, as a separate fact: asserted
      inline, the step of `UnitsOutput` exceeds its proof budget. */
  lemma ConcatAssoc(a: seq<Output>, b: seq<Output>, c: seq<Output>)
    ensures (a + b) + c == a + (b + c)
  {
  }

  /** What one unit writes to standard output. */
  function UnitOutput(s: Session, r: ImportResult): seq<Output>
  {
    match UnitProblems(s, r)
    case Some(ps) => Rendered(s.formatter, ps)
    case None => []
  }

  lemma ImportedOutput(s: Session, t: Transcript, r: ImportResult)
    ensures LintImportedSpec(s, t, r).stdout == t.stdout + UnitOutput(s, r)
  {
  }

  lemma LintedSnoc(s: Session, importer: string -> ImportResult, units: seq<string>)
    requires units != []
    ensures RenderedAll(s.formatter, LintedProblems(s, importer, units))
         == RenderedAll(s.formatter, LintedProblems(s, importer, units[..|units| - 1]))
            + UnitOutput(s, importer(units[|units| - 1]))
  {
    var pss0 := LintedProblems(s, importer, units[..|units| - 1]);
    match UnitProblems(s, importer(units[|units| - 1]))
    case Some(ps) =>
      assert LintedProblems(s, importer, units) == pss0 + [ps];
      AllSnoc(s.formatter, s.flags.minConfidence, pss0, ps);
    case None =>
      assert LintedProblems(s, importer, units) == pss0;
  }

  lemma {:induction false} UnitsCount(s: Session, t: Transcript, importer: string -> ImportResult, units: seq<string>)
    ensures LintUnitsSpec(s, t, importer, units).suggestions
         == t.suggestions + SuggestionsAll(LintedProblems(s, importer, units), s.flags.minConfidence)
  {
    if units != [] {
      var n := |units|;
      var t0 := LintUnitsSpec(s, t, importer, units[..n - 1]);
      var pss0 := LintedProblems(s, importer, units[..n - 1]);
      UnitsCount(s, t, importer, units[..n - 1]);
      ImportedAccumulates(s, t0, importer(units[n - 1]));
      var last := UnitProblems(s, importer(units[n - 1]));
      if last.Some? {
        assert LintedProblems(s, importer, units) == pss0 + [last.value];
        AllSnoc(s.formatter, s.flags.minConfidence, pss0, last.value);
      } else {
        assert LintedProblems(s, importer, units) == pss0;
      }
    }
  }

  lemma {:induction false} UnitsKeepExit(s: Session, t: Transcript, importer: string -> ImportResult, units: seq<string>)
    ensures LintUnitsSpec(s, t, importer, units).exit == t.exit
  {
    if units != [] {
      var n := |units|;
      UnitsKeepExit(s, t, importer, units[..n - 1]);
      ImportedAccumulates(s, LintUnitsSpec(s, t, importer, units[..n - 1]), importer(units[n - 1]));
    }
  }

  /** One unit adds its engine result, if any, to the output and the counter. */
  lemma ImportedAccumulates(s: Session, t: Transcript, r: ImportResult)
    ensures var t' := LintImportedSpec(s, t, r);
      && t'.exit == t.exit
      && match UnitProblems(s, r)
         case Some(ps) =>
           t'.stdout == t.stdout + Rendered(s.formatter, ps)
           && t'.suggestions == t.suggestions + Suggestions(ps, s.flags.minConfidence)
         case None => t'.stdout == t.stdout && t'.suggestions == t.suggestions
  {
  }

  lemma AllSnoc(k: FormatterKind, threshold: real, pss: seq<seq<Problem>>, ps: seq<Problem>)
    ensures RenderedAll(k, pss + [ps]) == RenderedAll(k, pss) + Rendered(k, ps)
    ensures SuggestionsAll(pss + [ps], threshold) == SuggestionsAll(pss, threshold) + Suggestions(ps, threshold)
  {
    assert (pss + [ps])[..|pss|] == pss;
  }

  /** In JSON mode every linted unit writes exactly one array, holding a
      record of every problem of that unit: a run over several directories
      prints several arrays, one empty array for a unit without problems. */
  lemma {:induction false} JsonArrayPerLintedUnit(pss: seq<seq<Problem>>)
    ensures |RenderedAll(JsonFormatter, pss)| == |pss|
    ensures forall i :: 0 <= i < |pss| ==> RenderedAll(JsonFormatter, pss)[i] == JsonArray(JsonRecords(pss[i]))
  {
    if pss != [] {
      var n := |pss|;
      JsonArrayPerLintedUnit(pss[..n - 1]);
      assert forall i :: 0 <= i < n - 1 ==> pss[..n - 1][i] == pss[i];
    }
  }

  /** In text mode the output is one line per problem, unit after unit. */
  lemma {:induction false} TextLinePerProblem(pss: seq<seq<Problem>>)
    ensures RenderedAll(TextFormatter, pss) == TextLines(Concat(pss))
  {
    if pss != [] {
      var n := |pss|;
      TextLinePerProblem(pss[..n - 1]);
      TextLinesAppend(Concat(pss[..n - 1]), pss[n - 1]);
    }
  }

  function Concat(pss: seq<seq<Problem>>): seq<Problem>
  {
    if pss == [] then [] else Concat(pss[..|pss| - 1]) + pss[|pss| - 1]
  }

  lemma TextLinesAppend(xs: seq<Problem>, ys: seq<Problem>)
    ensures TextLines(xs + ys) == TextLines(xs) + TextLines(ys)
  {
    var l, r := TextLines(xs + ys), TextLines(xs) + TextLines(ys);
    assert |l| == |r|;
    forall i | 0 <= i < |l| ensures l[i] == r[i] {
      if i < |xs| {
        assert (xs + ys)[i] == xs[i];
      } else {
        assert (xs + ys)[i] == ys[i - |xs|];
      }
    }
  }

  /** The counter over several units is the count over all their problems. */
  lemma {:induction false} SuggestionsAllIsTotal(pss: seq<seq<Problem>>, threshold: real)
    ensures SuggestionsAll(pss, threshold) == Suggestions(Concat(pss), threshold)
  {
    if pss != [] {
      var n := |pss|;
      SuggestionsAllIsTotal(pss[..n - 1], threshold);
      SuggestionsAppend(Concat(pss[..n - 1]), pss[n - 1], threshold);
    }
  }

  // ---------------------------------------------------------------------
  // Target families
  // ---------------------------------------------------------------------

  /** A non-empty argument list is rejected exactly when two of its arguments
      belong to different families. */
  lemma MixedIffTwoFamilies(fs: FileSystem, args: seq<string>)
    requires |args| > 0
    ensures MixedTargets(fs, args)
        <==> exists i, j :: 0 <= i < |args| && 0 <= j < |args|
                            && FamilyOf(Classify(fs, args[i])) != FamilyOf(Classify(fs, args[j]))
  {
    var fams := Families(fs, args);
    ExactlyOneFamily(fams);
    forall f ensures f in fams <==> exists i :: 0 <= i < |args| && FamilyOf(Classify(fs, args[i])) == f {
      FamiliesMembers(fs, args, f);
    }
    var f0 := FamilyOf(Classify(fs, args[0]));
    assert f0 in fams;
    if exists i, j :: 0 <= i < |args| && 0 <= j < |args|
                      && FamilyOf(Classify(fs, args[i])) != FamilyOf(Classify(fs, args[j])) {
      var i, j :| 0 <= i < |args| && 0 <= j < |args|
                  && FamilyOf(Classify(fs, args[i])) != FamilyOf(Classify(fs, args[j]));
      assert FamilyOf(Classify(fs, args[i])) in fams && FamilyOf(Classify(fs, args[j])) in fams;
    } else {
      assert fams == {f0};
    }
  }

  // ---------------------------------------------------------------------
  // Exit status and short circuits
  // ---------------------------------------------------------------------

  /** Only the usage check sets an exit code before the end of `main`. */
  lemma DispatchExit(s: Session, args: seq<string>)
    ensures Dispatch(s, args).exit == if args != [] && MixedTargets(s.env.fs, args) then Some(2) else None
  {
    if args != [] && !MixedTargets(s.env.fs, args) {
      var targets := Resolved(s.env.fs, s.env.allPackagesInFS, args);
      UnitsAccumulate(s, Start, s.env.importDir, targets);
      UnitsAccumulate(s, Start, s.env.importPackage, s.env.importPaths(targets));
    }
  }

  /** The exit status: 2 for mixed targets; 1 for an unreadable configuration,
      or when `-set_exit_status` is on and some problem reached the
      threshold; 0 otherwise, even when problems were printed. */
  lemma ExitStatus(env: Env, flags: Flags, args: seq<string>)
    ensures var t := RunSpec(env, flags, args);
      var mixed := LoadConfig(env, flags).Ok? && args != [] && MixedTargets(env.fs, args);
      && t.exit.Some?
      && (t.exit == Some(2) <==> mixed)
      && (t.exit == Some(1) <==> LoadConfig(env, flags).Err? || (!mixed && flags.setExitStatus && t.suggestions > 0))
      && (t.exit == Some(0) <==> LoadConfig(env, flags).Ok? && !mixed && !(flags.setExitStatus && t.suggestions > 0))
  {
    match LoadConfig(env, flags)
    case Err(_) =>
    case Ok(c) =>
      DispatchExit(Session(env, flags, SelectFormatter(flags.format), c), args);
  }

  /** A configuration that cannot be read, or mixed targets, stop the run
      before any unit is linted: nothing is printed and nothing counted. */
  lemma ShortCircuitsLintNothing(env: Env, flags: Flags, args: seq<string>)
    ensures LoadConfig(env, flags).Err? ==>
      RunSpec(env, flags, args) == Transcript(0, [], [ConfigUnreadable(LoadConfig(env, flags).error)], Some(1))
    ensures LoadConfig(env, flags).Ok? && args != [] && MixedTargets(env.fs, args) ==>
      RunSpec(env, flags, args) == Transcript(0, [], [Usage], Some(2))
  {
  }

  /** Without positional arguments the run lints exactly one unit, the
      directory ".". */
  lemma NoArgumentsLintCurrentDirectory(env: Env, flags: Flags, c: Config.Config)
    requires LoadConfig(env, flags) == Ok(c)
    ensures RunSpec(env, flags, [])
         == Finish(flags, LintUnitsSpec(Session(env, flags, SelectFormatter(flags.format), c), Start, env.importDir, ["."]))
  {
    assert ["."][..0] == [];
  }

  /** A run on one existing file in which the engine reports one problem, in
      JSON mode with `-set_exit_status`: the problem is written as a one-record
      array whatever its confidence; it is counted, and the run fails, exactly
      when its confidence reaches the threshold. */
  lemma SingleProblemRun(env: Env, flags: Flags, c: Config.Config, file: string, p: Problem)
    requires LoadConfig(env, flags) == Ok(c)
    requires flags.format == "json" && flags.setExitStatus
    requires env.fs.stat(file) == Found(false) && !HasSuffix(file, RecursiveSuffix)
    requires env.lint(c, SourceFiles(env.fs, [file])) == Ok([p])
    ensures RunSpec(env, flags, [file]).stdout == [JsonArray([ToJson(p)])]
    ensures p.confidence >= flags.minConfidence ==>
      RunSpec(env, flags, [file]).suggestions == 1 && RunSpec(env, flags, [file]).exit == Some(1)
    ensures p.confidence < flags.minConfidence ==>
      RunSpec(env, flags, [file]).suggestions == 0 && RunSpec(env, flags, [file]).exit == Some(0)
  {
    assert Classify(env.fs, file) == File;
    FamiliesSnoc(env.fs, [], file);
    assert [] + [file] == [file];
    assert Families(env.fs, [file]) == {Files};
    ResolvedSingle(env.fs, env.allPackagesInFS, file);
    assert [p][..0] == [];
    assert JsonRecords([p]) == [ToJson(p)];
    assert Suggestions([p], flags.minConfidence) == if p.confidence >= flags.minConfidence then 1 else 0;
    var s := Session(env, flags, JsonFormatter, c);
    var t := Dispatch(s, [file]);
    assert t == LintFilesSpec(s, Start, [file]);
    assert t.exit == None && t.suggestions == Suggestions([p], flags.minConfidence);
  }
}
