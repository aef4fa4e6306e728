/**
  Version 0.2 of rper: how main turns the options getopt returns into the
  settings of a run. The option loop is a left fold of Step over the options;
  Setup adds the checks after the loop and the default target (files when
  neither -f nor -d is given).

  In 0.2 the output and symlink settings are single enums: the last of
  -s/-S/-v decides the output mode, the last of -L/-k the symlink mode.
 */
module Options02 {
  import opened Modes
  import opened Getopt

  datatype OutputMode = OutputNormal | OutputQuiet | OutputSilent | OutputVerbose

  datatype SymlinkMode = SymlinkSkip | SymlinkFollow | SymlinkError

  /** main's flag variables together with the globals the options set. */
  datatype Options = Options(
    changeFiles: bool, changeDirs: bool, recursive: bool, includeDir: bool, permFlag: bool,
    output: OutputMode, symlinks: SymlinkMode, template: seq<char>)

  /** The option characters a run can be made of (help, about and unknown ones end main). */
  predicate RunFlag(c: char) {
    c == 'd' || c == 'f' || c == 'i' || c == 'n' || c == 's' || c == 'S' || c == 'v' || c == 'L' || c == 'k' || c == 'p'
  }

  /** The values before the first option; `template` is wildcard_mode as the program starts. */
  function Initial(template: seq<char>): Options {
    Options(false, false, true, false, false, OutputNormal, SymlinkSkip, template)
  }

  /** One pass of the getopt loop. */
  function Step(o: Options, opt: Opt): Parsed<Options> {
    var c := opt.flag;
    if c == 'a' || c == 'h' || c == 'H' then Exit(EXIT_SUCCESS, None)
    else if c == 'd' then Continue(o.(changeDirs := true))
    else if c == 'f' then Continue(o.(changeFiles := true))
    else if c == 'i' then Continue(o.(includeDir := true))
    else if c == 'n' then Continue(o.(recursive := false))
    else if c == 's' then Continue(o.(output := OutputQuiet))
    else if c == 'S' then Continue(o.(output := OutputSilent))
    else if c == 'v' then Continue(o.(output := OutputVerbose))
    else if c == 'L' then Continue(o.(symlinks := SymlinkFollow))
    else if c == 'k' then Continue(o.(symlinks := SymlinkError))
    else if c == 'p' then
      match Parse(opt.arg)
      case None => Exit(EXIT_FAILURE, Some(InvalidTemplate(Stripped(opt.arg))))
      case Some(t) => Continue(o.(template := t, permFlag := true))
    else Exit(EXIT_FAILURE, Some(UnknownOption(c)))
  }

  /** One option lets the loop go on exactly when it is a run option with, for -p, a valid argument. */
  lemma StepOutcome(o: Options, opt: Opt)
    ensures Step(o, opt).Continue? <==> RunFlag(opt.flag) && (opt.flag == 'p' ==> ValidSpec(opt.arg))
  {
  }

  /** What one option does to the target flags. */
  lemma StepTargets(o: Options, opt: Opt)
    requires Step(o, opt).Continue?
    ensures Step(o, opt).options.changeFiles == (o.changeFiles || opt.flag == 'f')
    ensures Step(o, opt).options.changeDirs == (o.changeDirs || opt.flag == 'd')
    ensures Step(o, opt).options.includeDir == (o.includeDir || opt.flag == 'i')
    ensures Step(o, opt).options.recursive == (o.recursive && opt.flag != 'n')
    ensures Step(o, opt).options.permFlag == (o.permFlag || opt.flag == 'p')
  {
    var c := opt.flag;
    if c == 'f' {} else if c == 'd' {} else if c == 'i' {} else if c == 'n' {} else if c == 'p' {}
  }

  /** What one option does to the output mode, the symlink mode and the template. */
  lemma StepModes(o: Options, opt: Opt)
    requires Step(o, opt).Continue?
    ensures var r := Step(o, opt).options; var c := opt.flag;
      && r.output == (if c == 's' then OutputQuiet else if c == 'S' then OutputSilent else if c == 'v' then OutputVerbose else o.output)
      && r.symlinks == (if c == 'L' then SymlinkFollow else if c == 'k' then SymlinkError else o.symlinks)
      && r.template == (if c == 'p' then Parse(opt.arg).value else o.template)
  {
    var c := opt.flag;
    if c == 's' {} else if c == 'S' {} else if c == 'v' {} else if c == 'L' {} else if c == 'k' {} else if c == 'p' {}
  }

  /** The getopt loop over `opts`, from the settings `o`. */
  function Fold(o: Options, opts: seq<Opt>): Parsed<Options>
    decreases |opts|
  {
    if opts == [] then Continue(o)
    else
      match Fold(o, opts[..|opts| - 1])
      case Exit(code, fault) => Exit(code, fault)
      case Continue(o') => Step(o', opts[|opts| - 1])
  }

  /** Once main has returned from the option loop, later options change nothing. */
  lemma {:induction false} FoldStopped(o: Options, opts: seq<Opt>, i: nat)
    requires i <= |opts| && Fold(o, opts[..i]).Exit?
    ensures Fold(o, opts) == Fold(o, opts[..i])
    decreases |opts|
  {
    if i < |opts| {
      var init := opts[..|opts| - 1];
      assert init[..i] == opts[..i];
      FoldStopped(o, init, i);
    } else {
      assert opts[..i] == opts;
    }
  }

  /**
    main up to the call of process_directory: the option loop, the missing
    directory and missing -p checks, and the default target.
   */
  function Setup(opts: seq<Opt>, dirGiven: bool, template0: seq<char>): (r: Parsed<Options>)
    ensures r.Continue? ==> r.options.permFlag && IsTemplate(r.options.template)
    ensures r.Continue? ==> r.options.changeFiles || r.options.changeDirs
  {
    match Fold(Initial(template0), opts)
    case Exit(code, fault) => Exit(code, fault)
    case Continue(o) =>
      FoldKeepsTemplate(template0, opts);
      if !dirGiven then Exit(EXIT_FAILURE, Some(MissingDirectory))
      else if !o.permFlag then Exit(EXIT_FAILURE, Some(MissingPermissions))
      else if !o.changeFiles && !o.changeDirs then Continue(o.(changeFiles := true))
      else Continue(o)
  }

  /** A template is in place whenever -p has been seen: each -p stores a parsed, valid one. */
  lemma {:induction false} FoldKeepsTemplate(t0: seq<char>, opts: seq<Opt>)
    requires Fold(Initial(t0), opts).Continue?
    ensures var o := Fold(Initial(t0), opts).options; o.permFlag ==> IsTemplate(o.template)
  {
    if opts != [] {
      var init := opts[..|opts| - 1];
      var prev := Fold(Initial(t0), init);
      assert prev.Continue? && Fold(Initial(t0), opts) == Step(prev.options, opts[|opts| - 1]);
      FoldKeepsTemplate(t0, init);
      StepTargets(prev.options, opts[|opts| - 1]);
      StepModes(prev.options, opts[|opts| - 1]);
    }
  }

  // ---------------------------------------------------------------------------
  // Reference definitions: what the options mean, one property at a time
  // ---------------------------------------------------------------------------

  /** The output mode named by the last of -s/-S/-v, `d` when there is none. */
  function LastOutput(d: OutputMode, opts: seq<Opt>): OutputMode
    decreases |opts|
  {
    if opts == [] then d
    else
      var c := opts[|opts| - 1].flag;
      if c == 's' then OutputQuiet
      else if c == 'S' then OutputSilent
      else if c == 'v' then OutputVerbose
      else LastOutput(d, opts[..|opts| - 1])
  }

  /** The symlink mode named by the last of -L/-k, `d` when there is none. */
  function LastSymlinks(d: SymlinkMode, opts: seq<Opt>): SymlinkMode
    decreases |opts|
  {
    if opts == [] then d
    else
      var c := opts[|opts| - 1].flag;
      if c == 'L' then SymlinkFollow
      else if c == 'k' then SymlinkError
      else LastSymlinks(d, opts[..|opts| - 1])
  }

  /** A target flag is set exactly when its option occurs. */
  lemma {:induction false} FoldTargets(t0: seq<char>, opts: seq<Opt>)
    requires Fold(Initial(t0), opts).Continue?
    ensures var o := Fold(Initial(t0), opts).options;
      && (o.changeFiles <==> Has(opts, 'f'))
      && (o.changeDirs <==> Has(opts, 'd'))
      && (o.includeDir <==> Has(opts, 'i'))
      && (o.recursive <==> !Has(opts, 'n'))
      && (o.permFlag <==> Has(opts, 'p'))
  {
    if opts != [] {
      var init := opts[..|opts| - 1];
      var prev := Fold(Initial(t0), init);
      assert prev.Continue? && Fold(Initial(t0), opts) == Step(prev.options, opts[|opts| - 1]);
      FoldTargets(t0, init);
      StepTargets(prev.options, opts[|opts| - 1]);
      HasSnoc(opts, 'f');
      HasSnoc(opts, 'd');
      HasSnoc(opts, 'i');
      HasSnoc(opts, 'n');
      HasSnoc(opts, 'p');
    }
  }

  /** The last of -s/-S/-v, the last of -L/-k and the last -p win. */
  lemma {:induction false} FoldLastWins(t0: seq<char>, opts: seq<Opt>)
    requires Fold(Initial(t0), opts).Continue?
    ensures var o := Fold(Initial(t0), opts).options;
      && o.output == LastOutput(OutputNormal, opts)
      && o.symlinks == LastSymlinks(SymlinkSkip, opts)
      && o.template == LastTemplate(t0, opts)
  {
    if opts != [] {
      var init := opts[..|opts| - 1];
      var prev := Fold(Initial(t0), init);
      assert prev.Continue? && Fold(Initial(t0), opts) == Step(prev.options, opts[|opts| - 1]);
      FoldLastWins(t0, init);
      StepModes(prev.options, opts[|opts| - 1]);
    }
  }

  /** The loop only runs to the end when every option is a run option and every -p argument is valid. */
  lemma {:induction false} FoldOnlyRunOptions(t0: seq<char>, opts: seq<Opt>)
    requires Fold(Initial(t0), opts).Continue?
    ensures forall i :: 0 <= i < |opts| ==> RunFlag(opts[i].flag) && (opts[i].flag == 'p' ==> ValidSpec(opts[i].arg))
  {
    if opts != [] {
      var init := opts[..|opts| - 1];
      var prev := Fold(Initial(t0), init);
      assert prev.Continue? && Fold(Initial(t0), opts) == Step(prev.options, opts[|opts| - 1]);
      FoldOnlyRunOptions(t0, init);
      StepOutcome(prev.options, opts[|opts| - 1]);
      forall i | 0 <= i < |init| ensures opts[i] == init[i] {}
    }
  }

  /**
    What a run of rper 0.2 is given: a directory operand and a valid template
    were supplied, files are targeted when -f is given or -d is not, and
    directories exactly when -d is given.
   */
  lemma SetupMeaning(opts: seq<Opt>, dirGiven: bool, t0: seq<char>)
    requires Setup(opts, dirGiven, t0).Continue?
    ensures var o := Setup(opts, dirGiven, t0).options;
      && dirGiven && Has(opts, 'p')
      && IsTemplate(o.template) && o.template == LastTemplate(t0, opts)
      && (o.changeFiles <==> Has(opts, 'f') || !Has(opts, 'd'))
      && (o.changeDirs <==> Has(opts, 'd'))
      && (o.changeFiles || o.changeDirs)
      && (o.includeDir <==> Has(opts, 'i'))
      && (o.recursive <==> !Has(opts, 'n'))
      && o.output == LastOutput(OutputNormal, opts)
      && o.symlinks == LastSymlinks(SymlinkSkip, opts)
  {
    FoldTargets(t0, opts);
    FoldLastWins(t0, opts);
    FoldOnlyRunOptions(t0, opts);
    LastTemplateValid(t0, opts);
  }

  /** Help, about, an unknown option or an invalid -p anywhere in the options ends main before any run. */
  lemma {:induction false} NoRunWithBadOption(t0: seq<char>, opts: seq<Opt>, dirGiven: bool, i: nat)
    requires i < |opts|
    requires !RunFlag(opts[i].flag) || (opts[i].flag == 'p' && !ValidSpec(opts[i].arg))
    ensures Setup(opts, dirGiven, t0).Exit?
  {
    if Fold(Initial(t0), opts).Continue? {
      FoldOnlyRunOptions(t0, opts);
    }
  }
  /** Conversely, the loop runs to the end over run options whose -p arguments are valid. */
  lemma {:induction false} FoldRunsThrough(t0: seq<char>, opts: seq<Opt>)
    requires forall i :: 0 <= i < |opts| ==> RunFlag(opts[i].flag) && (opts[i].flag == 'p' ==> ValidSpec(opts[i].arg))
    ensures Fold(Initial(t0), opts).Continue?
  {
    if opts != [] {
      var init := opts[..|opts| - 1];
      forall i | 0 <= i < |init| ensures RunFlag(init[i].flag) && (init[i].flag == 'p' ==> ValidSpec(init[i].arg)) {
        assert init[i] == opts[i];
      }
      FoldRunsThrough(t0, init);
      StepOutcome(Fold(Initial(t0), init).options, opts[|opts| - 1]);
    }
  }

  /**
    With run options and valid -p arguments only, main goes on to the walk
    exactly when a directory operand and a -p were given; otherwise it
    reports the one missing, the directory first, and fails.
   */
  lemma SetupRuns(opts: seq<Opt>, dirGiven: bool, t0: seq<char>)
    requires forall i :: 0 <= i < |opts| ==> RunFlag(opts[i].flag) && (opts[i].flag == 'p' ==> ValidSpec(opts[i].arg))
    ensures Setup(opts, dirGiven, t0).Continue? <==> dirGiven && Has(opts, 'p')
    ensures !dirGiven ==> Setup(opts, dirGiven, t0) == Exit(EXIT_FAILURE, Some(MissingDirectory))
    ensures dirGiven && !Has(opts, 'p') ==> Setup(opts, dirGiven, t0) == Exit(EXIT_FAILURE, Some(MissingPermissions))
  {
    FoldRunsThrough(t0, opts);
    FoldTargets(t0, opts);
  }

  /**
    main returns at the first option that is not a run option or is a -p
    with an invalid argument: with EXIT_SUCCESS and no error for help and
    about, with EXIT_FAILURE and an error naming the argument or the option
    otherwise, whatever follows.
   */
  lemma FirstRefusal(t0: seq<char>, opts: seq<Opt>, dirGiven: bool, i: nat)
    requires i < |opts|
    requires forall j :: 0 <= j < i ==> RunFlag(opts[j].flag) && (opts[j].flag == 'p' ==> ValidSpec(opts[j].arg))
    requires !RunFlag(opts[i].flag) || (opts[i].flag == 'p' && !ValidSpec(opts[i].arg))
    ensures var r := Setup(opts, dirGiven, t0); var c := opts[i].flag;
      && (c == 'a' || c == 'h' || c == 'H' ==> r == Exit(EXIT_SUCCESS, None))
      && (c == 'p' ==> r == Exit(EXIT_FAILURE, Some(InvalidTemplate(Stripped(opts[i].arg)))))
      && (!RunFlag(c) && c != 'a' && c != 'h' && c != 'H' ==> r == Exit(EXIT_FAILURE, Some(UnknownOption(c))))
  {
    var pre := opts[..i];
    forall j | 0 <= j < |pre| ensures RunFlag(pre[j].flag) && (pre[j].flag == 'p' ==> ValidSpec(pre[j].arg)) {
      assert pre[j] == opts[j];
    }
    FoldRunsThrough(t0, pre);
    var upto := opts[..i + 1];
    assert upto[..|upto| - 1] == pre;
    assert Fold(Initial(t0), upto) == Step(Fold(Initial(t0), pre).options, opts[i]);
    StepOutcome(Fold(Initial(t0), pre).options, opts[i]);
    FoldStopped(Initial(t0), opts, i + 1);
  }

}
