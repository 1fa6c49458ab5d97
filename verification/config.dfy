/** The command-line configuration: one left-to-right scan over the
    arguments after the program name, where a recognised flag takes the
    argument after it as its value, later flags overwrite earlier ones,
    and a final test decides whether the configuration is usable. */
module CommandLine {
  import opened Basics
  import opened Decimal

  datatype Config = Config(
    inputFile: string,
    outputFile: string,
    upscaleFactor: UShort,
    simultaneousInstances: UShort,
    modelsDirectoryPath: string)

  /** A default-constructed configuration: empty paths, factor 0, 0 instances. */
  const Default: Config := Config("", "", 0, 0, "")

  const HelpCommand: seq<string> := ["--help", "-h"]
  const UpscaleFactorCommand: seq<string> := ["--factor", "-f"]
  const InputFileCommand: seq<string> := ["--input-file", "-i"]
  const OutputFileCommand: seq<string> := ["--output-file", "-o"]
  const ModelsDirCommand: seq<string> := ["--models-dir", "-m"]
  const ParallelInstances: seq<string> := ["--parallel-instances", "-p"]

  /** What the scan makes of one argument. */
  datatype Flag = Help | Factor | InputFile | OutputFile | ModelsDir | Parallel | Other

  /** The flag tables in the order the scan tests them. */
  const FlagTable: seq<(seq<string>, Flag)> := [
    (HelpCommand, Help),
    (UpscaleFactorCommand, Factor),
    (InputFileCommand, InputFile),
    (OutputFileCommand, OutputFile),
    (ModelsDirCommand, ModelsDir),
    (ParallelInstances, Parallel)
  ]

  /** The kind of the first table that lists the argument, or `Other`. */
  function Lookup(arg: string, table: seq<(seq<string>, Flag)>): Flag
    decreases |table|
  {
    if table == [] then Other
    else if arg in table[0].0 then table[0].1
    else Lookup(arg, table[1..])
  }

  function Classify(arg: string): Flag {
    Lookup(arg, FlagTable)
  }

  /** The tables do not overlap, so an argument is of a kind exactly when
      that kind's table lists it. */
  lemma ClassifyIsListing(arg: string)
    ensures Classify(arg) == Help <==> arg in HelpCommand
    ensures Classify(arg) == Factor <==> arg in UpscaleFactorCommand
    ensures Classify(arg) == InputFile <==> arg in InputFileCommand
    ensures Classify(arg) == OutputFile <==> arg in OutputFileCommand
    ensures Classify(arg) == ModelsDir <==> arg in ModelsDirCommand
    ensures Classify(arg) == Parallel <==> arg in ParallelInstances
    ensures Classify(arg) == Other <==>
              arg !in HelpCommand && arg !in UpscaleFactorCommand && arg !in InputFileCommand
              && arg !in OutputFileCommand && arg !in ModelsDirCommand && arg !in ParallelInstances
  {
    var t := FlagTable;
    assert Lookup(arg, t[6..]) == Other;
    assert Lookup(arg, t[5..]) == if arg in ParallelInstances then Parallel else Other;
    assert Lookup(arg, t[4..]) == if arg in ModelsDirCommand then ModelsDir else Lookup(arg, t[5..]);
    assert Lookup(arg, t[3..]) == if arg in OutputFileCommand then OutputFile else Lookup(arg, t[4..]);
    assert Lookup(arg, t[2..]) == if arg in InputFileCommand then InputFile else Lookup(arg, t[3..]);
    assert Lookup(arg, t[1..]) == if arg in UpscaleFactorCommand then Factor else Lookup(arg, t[2..]);
  }

  predicate IsHelp(arg: string) {
    Classify(arg) == Help
  }

  /** Flags whose value goes through `std::stoi`. */
  predicate IsNumericFlag(arg: string) {
    Classify(arg) == Factor || Classify(arg) == Parallel
  }

  /** How a scan ends: it returns the validity verdict, or `std::stoi`
      throws. Either way the configuration keeps whatever was assigned
      before. */
  datatype Parsed = Returned(config: Config, valid: bool) | Threw(config: Config, error: StoiError)

  /** The final test. The instance count is an `unsigned short`, so its
      `>= 0` test never fails and the verdict depends on the three paths
      and the factor alone. */
  function IsValid(c: Config): (ok: bool)
    ensures ok <==> c.inputFile != [] && c.outputFile != [] && c.modelsDirectoryPath != [] && c.upscaleFactor != 0
  {
    && c.inputFile != []
    && c.outputFile != []
    && c.modelsDirectoryPath != []
    && c.upscaleFactor > 0
    && c.simultaneousInstances >= 0
  }

  /** One flag with its value. Numbers are read by `std::stoi` and stored
      into an `unsigned short`, that is modulo 2^16; an unrecognised token
      changes nothing. */
  function Apply(c: Config, flag: string, value: string): (r: Result<Config, StoiError>)
    ensures r.Err? <==> IsNumericFlag(flag) && Stoi(value).Err?
    ensures r.Err? ==> r.error == Stoi(value).error
    ensures r.Ok? ==> r.value == match Classify(flag)
      case Factor => c.(upscaleFactor := ToUShort(Stoi(value).value))
      case Parallel => c.(simultaneousInstances := ToUShort(Stoi(value).value))
      case InputFile => c.(inputFile := value)
      case OutputFile => c.(outputFile := value)
      case ModelsDir => c.(modelsDirectoryPath := value)
      case _ => c
  {
    match Classify(flag)
    case Factor =>
      (match Stoi(value)
       case Ok(v) => Ok(c.(upscaleFactor := ToUShort(v)))
       case Err(e) => Err(e))
    case InputFile => Ok(c.(inputFile := value))
    case OutputFile => Ok(c.(outputFile := value))
    case ModelsDir => Ok(c.(modelsDirectoryPath := value))
    case Parallel =>
      (match Stoi(value)
       case Ok(v) => Ok(c.(simultaneousInstances := ToUShort(v)))
       case Err(e) => Err(e))
    case _ => Ok(c)
  }

  /** The loop of `parseCommandLine` from position `i`: stop with `false`
      on a help flag, stop at the last argument, otherwise apply the flag
      at `i` to the argument after it and move on by one position. */
  function Scan(c: Config, argv: seq<string>, i: nat): (r: Parsed)
    requires 1 <= i
    ensures r.Returned? && r.valid ==> IsValid(r.config)
    decreases |argv| - i
  {
    if i >= |argv| then Returned(c, IsValid(c))
    else if IsHelp(argv[i]) then Returned(c, false)
    else if i == |argv| - 1 then Returned(c, IsValid(c))
    else
      match Apply(c, argv[i], argv[i + 1])
      case Ok(c') => Scan(c', argv, i + 1)
      case Err(e) => Threw(c, e)
  }

  /** `parseCommandLine`: the scan starts after the program name. With at
      most one argument after the program name nothing is applied and the
      configuration is only tested, unless that argument asks for help. */
  function ParseCommandLine(c: Config, argv: seq<string>): (r: Parsed)
    ensures |argv| <= 2 ==> r == Returned(c, IsValid(c) && !(|argv| == 2 && IsHelp(argv[1])))
    ensures r.Returned? && r.valid ==> IsValid(r.config)
  {
    Scan(c, argv, 1)
  }

  // ----- The last-wins reading of an argument list, stated directly -----

  /** The first help flag at or after `i`, or |argv| if there is none. */
  function FirstHelp(argv: seq<string>, i: nat): (k: nat)
    ensures k <= |argv|
    ensures i <= k || k == |argv|
    ensures k < |argv| ==> IsHelp(argv[k])
    decreases |argv| - i
  {
    if i >= |argv| then |argv|
    else if IsHelp(argv[i]) then i
    else FirstHelp(argv, i + 1)
  }

  lemma {:induction false} FirstHelpIsFirst(argv: seq<string>, i: nat, m: nat)
    requires i <= m < FirstHelp(argv, i)
    ensures !IsHelp(argv[m])
    decreases |argv| - i
  {
    if m > i {
      FirstHelpIsFirst(argv, i + 1, m);
    }
  }

  predicate HelpRequested(argv: seq<string>) {
    FirstHelp(argv, 1) < |argv|
  }

  /** The flags at positions [1, Limit) are the ones applied: the scan
      stops at the first help flag and never applies the last argument. */
  function Limit(argv: seq<string>): (l: nat)
    ensures 1 <= l
    ensures |argv| >= 2 ==> l < |argv|
    ensures l <= |argv| || l == 1
    ensures |argv| >= 1 ==> l <= FirstHelp(argv, 1)
  {
    if |argv| <= 1 then 1
    else if FirstHelp(argv, 1) < |argv| - 1 then FirstHelp(argv, 1)
    else |argv| - 1
  }

  /** The position of the last flag of the given kind in [lo, hi), if any. */
  function LastFlagged(argv: seq<string>, kind: Flag, lo: nat, hi: nat): (r: Option<nat>)
    requires hi <= |argv|
    ensures r.Some? ==> lo <= r.value < hi && Classify(argv[r.value]) == kind
    decreases hi - lo
  {
    if lo >= hi then None
    else match LastFlagged(argv, kind, lo + 1, hi)
      case Some(j) => Some(j)
      case None => if Classify(argv[lo]) == kind then Some(lo) else None
  }

  /** Every flag of the kind in the range is at or before the one found. */
  lemma {:induction false} LastFlaggedIsLast(argv: seq<string>, kind: Flag, lo: nat, hi: nat, m: nat)
    requires lo <= m < hi <= |argv| && Classify(argv[m]) == kind
    ensures LastFlagged(argv, kind, lo, hi).Some?
    ensures m <= LastFlagged(argv, kind, lo, hi).value
    decreases hi - lo
  {
    if m > lo {
      LastFlaggedIsLast(argv, kind, lo + 1, hi, m);
    }
  }

  /** The value after the last flag of the given kind in [lo, hi), or `dflt`. */
  function LastValue(argv: seq<string>, kind: Flag, lo: nat, hi: nat, dflt: string): string
    requires hi < |argv|
  {
    match LastFlagged(argv, kind, lo, hi)
    case Some(j) => argv[j + 1]
    case None => dflt
  }

  /** The number after the last flag of the given kind in [lo, hi), narrowed
      to an `unsigned short`, or `dflt`. */
  function LastNumber(argv: seq<string>, kind: Flag, lo: nat, hi: nat, dflt: UShort): UShort
    requires hi < |argv|
  {
    match LastFlagged(argv, kind, lo, hi)
    case Some(j) => (match Stoi(argv[j + 1]) case Ok(v) => ToUShort(v) case Err(_) => dflt)
    case None => dflt
  }

  /** The configuration after applying positions [lo, hi), field by field:
      each field holds the value of its last flag, or its old value. */
  function LastWins(c: Config, argv: seq<string>, lo: nat, hi: nat): Config
    requires lo == hi || hi < |argv|
  {
    if lo >= hi then c
    else Config(
      LastValue(argv, InputFile, lo, hi, c.inputFile),
      LastValue(argv, OutputFile, lo, hi, c.outputFile),
      LastNumber(argv, Factor, lo, hi, c.upscaleFactor),
      LastNumber(argv, Parallel, lo, hi, c.simultaneousInstances),
      LastValue(argv, ModelsDir, lo, hi, c.modelsDirectoryPath))
  }

  /** The first position in [lo, hi) whose numeric flag has a value that
      `std::stoi` rejects. */
  function FirstBadNumber(argv: seq<string>, lo: nat, hi: nat): (r: Option<nat>)
    requires lo == hi || hi < |argv|
    ensures r.Some? ==> lo <= r.value < hi && IsNumericFlag(argv[r.value]) && Stoi(argv[r.value + 1]).Err?
    decreases hi - lo
  {
    if lo >= hi then None
    else if IsNumericFlag(argv[lo]) && Stoi(argv[lo + 1]).Err? then Some(lo)
    else FirstBadNumber(argv, lo + 1, hi)
  }

  /** Every numeric flag before the one found has a readable value. */
  lemma {:induction false} FirstBadNumberIsFirst(argv: seq<string>, lo: nat, hi: nat, m: nat)
    requires lo <= m < hi < |argv|
    requires FirstBadNumber(argv, lo, hi).None? || m < FirstBadNumber(argv, lo, hi).value
    ensures IsNumericFlag(argv[m]) ==> Stoi(argv[m + 1]).Ok?
    decreases hi - lo
  {
    if m > lo {
      FirstBadNumberIsFirst(argv, lo + 1, hi, m);
    }
  }

  /** The range before the first bad number has none. */
  lemma {:induction false} FirstBadNumberPrefix(argv: seq<string>, lo: nat, hi: nat, j: nat)
    requires lo == hi || hi < |argv|
    requires FirstBadNumber(argv, lo, hi) == Some(j)
    ensures FirstBadNumber(argv, lo, j) == None
    decreases hi - lo
  {
    if lo < j {
      FirstBadNumberPrefix(argv, lo + 1, hi, j);
    }
  }

  lemma LastValueStep(argv: seq<string>, kind: Flag, lo: nat, hi: nat, d: string, d': string)
    requires lo < hi < |argv|
    requires d' == if Classify(argv[lo]) == kind then argv[lo + 1] else d
    ensures LastValue(argv, kind, lo + 1, hi, d') == LastValue(argv, kind, lo, hi, d)
  {
  }

  lemma LastNumberStep(argv: seq<string>, kind: Flag, lo: nat, hi: nat, d: UShort, d': UShort)
    requires lo < hi < |argv|
    requires LastFlagged(argv, kind, lo + 1, hi).Some? ==> Stoi(argv[LastFlagged(argv, kind, lo + 1, hi).value + 1]).Ok?
    requires Classify(argv[lo]) == kind ==> Stoi(argv[lo + 1]).Ok?
    requires d' == if Classify(argv[lo]) == kind then ToUShort(Stoi(argv[lo + 1]).value) else d
    ensures LastNumber(argv, kind, lo + 1, hi, d') == LastNumber(argv, kind, lo, hi, d)
  {
    var r := LastFlagged(argv, kind, lo + 1, hi);
    if r.Some? {
      assert LastFlagged(argv, kind, lo, hi) == r;
    } else if Classify(argv[lo]) == kind {
      assert LastFlagged(argv, kind, lo, hi) == Some(lo);
    } else {
      assert LastFlagged(argv, kind, lo, hi) == None;
    }
  }

  /** Applying position `lo` and then the rest is the same as the
      last-wins reading of the whole range. */
  lemma LastWinsStep(c: Config, c': Config, argv: seq<string>, lo: nat, hi: nat)
    requires lo < hi < |argv|
    requires Apply(c, argv[lo], argv[lo + 1]) == Ok(c')
    requires FirstBadNumber(argv, lo, hi) == None
    ensures LastWins(c', argv, lo + 1, hi) == LastWins(c, argv, lo, hi)
  {
    var k := Classify(argv[lo]);
    var v := argv[lo + 1];
    assert c'.inputFile == if k == InputFile then v else c.inputFile;
    assert c'.outputFile == if k == OutputFile then v else c.outputFile;
    assert c'.modelsDirectoryPath == if k == ModelsDir then v else c.modelsDirectoryPath;
    assert k == Factor ==> Stoi(v).Ok?;
    assert k == Parallel ==> Stoi(v).Ok?;
    assert c'.upscaleFactor == if k == Factor then ToUShort(Stoi(v).value) else c.upscaleFactor;
    assert c'.simultaneousInstances == if k == Parallel then ToUShort(Stoi(v).value) else c.simultaneousInstances;
    var f := LastFlagged(argv, Factor, lo + 1, hi);
    if f.Some? {
      FirstBadNumberIsFirst(argv, lo, hi, f.value);
    }
    var p := LastFlagged(argv, Parallel, lo + 1, hi);
    if p.Some? {
      FirstBadNumberIsFirst(argv, lo, hi, p.value);
    }
    LastValueStep(argv, InputFile, lo, hi, c.inputFile, c'.inputFile);
    LastValueStep(argv, OutputFile, lo, hi, c.outputFile, c'.outputFile);
    LastValueStep(argv, ModelsDir, lo, hi, c.modelsDirectoryPath, c'.modelsDirectoryPath);
    LastNumberStep(argv, Factor, lo, hi, c.upscaleFactor, c'.upscaleFactor);
    LastNumberStep(argv, Parallel, lo, hi, c.simultaneousInstances, c'.simultaneousInstances);
  }

  /** At the limit the scan stops: with `false` on a help flag, with the
      final test at the last argument or past the end. */
  lemma ScanAtLimit(c: Config, argv: seq<string>)
    ensures Scan(c, argv, Limit(argv)) == Returned(c, !HelpRequested(argv) && IsValid(c))
  {
    var l := Limit(argv);
    var k := FirstHelp(argv, 1);
    if |argv| >= 2 {
      if k < |argv| - 1 {
        assert IsHelp(argv[l]);
      } else if IsHelp(argv[l]) {
        if k > l {
          FirstHelpIsFirst(argv, 1, l);
        }
      } else {
        assert k == |argv|;
      }
    }
  }

  /** Below the limit the scan applies the flag at i and moves on, or
      throws where `std::stoi` does. */
  lemma ScanBelowLimit(c: Config, argv: seq<string>, i: nat)
    requires 1 <= i < Limit(argv)
    ensures i + 1 < |argv|
    ensures Apply(c, argv[i], argv[i + 1]).Err? ==>
              && Scan(c, argv, i) == Threw(c, Stoi(argv[i + 1]).error)
              && FirstBadNumber(argv, i, Limit(argv)) == Some(i)
    ensures Apply(c, argv[i], argv[i + 1]).Ok? ==>
              && Scan(c, argv, i) == Scan(Apply(c, argv[i], argv[i + 1]).value, argv, i + 1)
              && FirstBadNumber(argv, i, Limit(argv)) == FirstBadNumber(argv, i + 1, Limit(argv))
  {
    FirstHelpIsFirst(argv, 1, i);
  }

  /** The scan from position i agrees with the direct reading: it throws
      at the first numeric flag with a bad value, keeping what came
      before; otherwise every field holds the value of its last flag, and
      the verdict is `false` after a help flag and the final test
      otherwise. */
  predicate AgreesFrom(c: Config, argv: seq<string>, i: nat)
    requires 1 <= i <= Limit(argv)
  {
    && (FirstBadNumber(argv, i, Limit(argv)).Some? ==>
          var j := FirstBadNumber(argv, i, Limit(argv)).value;
          Scan(c, argv, i) == Threw(LastWins(c, argv, i, j), Stoi(argv[j + 1]).error))
    && (FirstBadNumber(argv, i, Limit(argv)).None? ==>
          var w := LastWins(c, argv, i, Limit(argv));
          Scan(c, argv, i) == Returned(w, !HelpRequested(argv) && IsValid(w)))
  }

  /** The scan from every position up to the limit agrees with the
      direct reading. */
  lemma {:induction false} ScanIsLastWins(c: Config, argv: seq<string>, i: nat)
    requires 1 <= i <= Limit(argv)
    ensures AgreesFrom(c, argv, i)
    decreases Limit(argv) - i
  {
    if i == Limit(argv) {
      ScanAtLimit(c, argv);
    } else {
      var step := Apply(c, argv[i], argv[i + 1]);
      if step.Ok? {
        ScanIsLastWins(step.value, argv, i + 1);
      }
      ScanStepIsLastWins(c, argv, i);
    }
  }

  /** One position below the limit: if the scan after an applied flag
      agrees with the direct reading, so does the scan from the flag. */
  lemma ScanStepIsLastWins(c: Config, argv: seq<string>, i: nat)
    requires 1 <= i < Limit(argv) && i + 1 < |argv|
    requires Apply(c, argv[i], argv[i + 1]).Ok? ==> AgreesFrom(Apply(c, argv[i], argv[i + 1]).value, argv, i + 1)
    ensures AgreesFrom(c, argv, i)
  {
    var l := Limit(argv);
    ScanBelowLimit(c, argv, i);
    var step := Apply(c, argv[i], argv[i + 1]);
    if step.Ok? {
      var c' := step.value;
      var bad := FirstBadNumber(argv, i + 1, l);
      if bad.Some? {
        ScanStepThrows(c, c', argv, i, l, bad.value);
      } else {
        ScanStepAgrees(c, c', argv, i, l);
      }
    }
  }

  /** One applied flag before a range that throws at `j`. */
  lemma ScanStepThrows(c: Config, c': Config, argv: seq<string>, i: nat, l: nat, j: nat)
    requires 1 <= i < l == Limit(argv)
    requires Apply(c, argv[i], argv[i + 1]) == Ok(c')
    requires FirstBadNumber(argv, i, l) == Some(j)
    requires Scan(c, argv, i) == Scan(c', argv, i + 1)
    requires i < j
    requires Scan(c', argv, i + 1) == Threw(LastWins(c', argv, i + 1, j), Stoi(argv[j + 1]).error)
    ensures Scan(c, argv, i) == Threw(LastWins(c, argv, i, j), Stoi(argv[j + 1]).error)
  {
    FirstBadNumberPrefix(argv, i, l, j);
    LastWinsStep(c, c', argv, i, j);
  }

  /** One applied flag before a range without bad numbers. */
  lemma ScanStepAgrees(c: Config, c': Config, argv: seq<string>, i: nat, l: nat)
    requires 1 <= i < l == Limit(argv)
    requires Apply(c, argv[i], argv[i + 1]) == Ok(c')
    requires FirstBadNumber(argv, i, l) == None
    requires Scan(c, argv, i) == Scan(c', argv, i + 1)
    requires Scan(c', argv, i + 1) == Returned(LastWins(c', argv, i + 1, l), !HelpRequested(argv) && IsValid(LastWins(c', argv, i + 1, l)))
    ensures Scan(c, argv, i) == Returned(LastWins(c, argv, i, l), !HelpRequested(argv) && IsValid(LastWins(c, argv, i, l)))
  {
    LastWinsStep(c, c', argv, i, l);
  }

  /** The whole parse, read directly. */
  lemma ParseIsLastWins(c: Config, argv: seq<string>)
    ensures FirstBadNumber(argv, 1, Limit(argv)).Some? ==>
              var j := FirstBadNumber(argv, 1, Limit(argv)).value;
              ParseCommandLine(c, argv) == Threw(LastWins(c, argv, 1, j), Stoi(argv[j + 1]).error)
    ensures FirstBadNumber(argv, 1, Limit(argv)).None? ==>
              var w := LastWins(c, argv, 1, Limit(argv));
              ParseCommandLine(c, argv) == Returned(w, !HelpRequested(argv) && IsValid(w))
  {
    ScanIsLastWins(c, argv, 1);
  }

  /** A help flag anywhere after the program name, even in the last
      position or as another flag's value, makes the parse fail. */
  lemma HelpNeverValid(c: Config, argv: seq<string>, k: nat)
    requires 1 <= k < |argv| && IsHelp(argv[k])
    ensures ParseCommandLine(c, argv) != Returned(ParseCommandLine(c, argv).config, true)
  {
    if FirstHelp(argv, 1) > k {
      FirstHelpIsFirst(argv, 1, k);
    }
    ParseIsLastWins(c, argv);
  }

  /** The program name is never looked at. */
  lemma {:induction false} ProgramNameIgnored(c: Config, argv: seq<string>, name: string, i: nat)
    requires 1 <= i && |argv| >= 1
    ensures Scan(c, argv[0 := name], i) == Scan(c, argv, i)
    decreases |argv| - i
  {
    var argv' := argv[0 := name];
    if i < |argv| - 1 && !IsHelp(argv[i]) {
      assert argv'[i] == argv[i] && argv'[i + 1] == argv[i + 1];
      match Apply(c, argv[i], argv[i + 1])
      case Ok(c') => ProgramNameIgnored(c', argv, name, i + 1);
      case Err(_) =>
    }
  }

  /** The scan moves on by one position, so a flag's value is read again
      as a flag: `-i -o x` sets the input to "-o" and the output to "x". */
  lemma ValueRescannedAsFlag()
    ensures ParseCommandLine(Default, ["prog", "-i", "-o", "x"])
         == Returned(Default.(inputFile := "-o", outputFile := "x"), false)
  {
    var argv := ["prog", "-i", "-o", "x"];
    var c1 := Default.(inputFile := "-o");
    var c2 := c1.(outputFile := "x");
    ClassifyIsListing("-i");
    ClassifyIsListing("-o");
    ClassifyIsListing("x");
    assert Apply(Default, argv[1], argv[2]) == Ok(c1);
    assert Apply(c1, argv[2], argv[3]) == Ok(c2);
    assert Scan(c2, argv, 3) == Returned(c2, false);
    assert Scan(c1, argv, 2) == Scan(c2, argv, 3);
  }

  /** A flag in the last position has no value and changes nothing,
      whatever comes before it, as long as the argument before it is not
      itself a flag that would take it as a value. */
  lemma TrailingFlagIgnored(c: Config, argv: seq<string>, flag: string)
    requires |argv| >= 1 && !IsHelp(flag)
    requires |argv| == 1 || Classify(argv[|argv| - 1]) == Other
    ensures ParseCommandLine(c, argv + [flag]) == ParseCommandLine(c, argv)
  {
    ScanIgnoresTrailingFlag(c, argv, flag, 1);
  }

  lemma {:induction false} ScanIgnoresTrailingFlag(c: Config, argv: seq<string>, flag: string, i: nat)
    requires 1 <= i && |argv| >= 1 && !IsHelp(flag)
    requires |argv| == 1 || Classify(argv[|argv| - 1]) == Other
    ensures Scan(c, argv + [flag], i) == Scan(c, argv, i)
    decreases |argv| - i
  {
    var a := argv + [flag];
    if i == |argv| {
      assert a[i] == flag;
    } else if i == |argv| - 1 {
      assert a[i] == argv[i] && a[i + 1] == flag;
      assert Apply(c, a[i], a[i + 1]) == Ok(c);
      ScanIgnoresTrailingFlag(c, argv, flag, i + 1);
    } else if i < |argv| - 1 {
      assert a[i] == argv[i] && a[i + 1] == argv[i + 1];
      if !IsHelp(argv[i]) {
        match Apply(c, argv[i], argv[i + 1])
        case Ok(c') => ScanIgnoresTrailingFlag(c', argv, flag, i + 1);
        case Err(_) =>
      }
    }
  }

  /** Without a factor flag the factor keeps its default 0 and the parse
      fails. */
  lemma NoFactorNeverValid(argv: seq<string>)
    requires forall k | 1 <= k < |argv| :: Classify(argv[k]) != Factor
    ensures ParseCommandLine(Default, argv) != Returned(ParseCommandLine(Default, argv).config, true)
  {
    ParseIsLastWins(Default, argv);
    var l := Limit(argv);
    if FirstBadNumber(argv, 1, l).None? && l > 1 {
      assert LastFlagged(argv, Factor, 1, l) == None;
    }
  }

  /** A number is stored modulo 2^16: `-f 65538` stores a factor of 2. */
  lemma NumberNarrowed(c: Config, flag: string, n: nat)
    requires flag in UpscaleFactorCommand || flag in ParallelInstances
    requires n <= IntMax
    ensures Apply(c, flag, ToDecimal(n)).Ok?
    ensures flag in UpscaleFactorCommand ==>
              Apply(c, flag, ToDecimal(n)).value == c.(upscaleFactor := n % 0x1_0000)
    ensures flag in ParallelInstances ==>
              Apply(c, flag, ToDecimal(n)).value == c.(simultaneousInstances := n % 0x1_0000)
  {
    ClassifyIsListing(flag);
    StoiReadsDecimal(n, []);
    assert ToDecimal(n) + [] == ToDecimal(n);
  }
}
