/**
  Version 0.1 of rper: how main turns the options getopt returns into the
  settings of a run. As in 0.2 the option loop is a left fold of Step and
  Setup adds the checks after the loop and the default target.

  In 0.1 the output is governed by three separate switches, suppress_output
  (-s), suppress_all_output (-S) and verbose (-v): -s clears -S, -S is only
  taken while -s is off, and -v clears both but is never cleared itself, so
  -v followed by -s leaves verbose and suppress_output both on. There are no
  symlink options; -L and -k are unknown options here.
 */
module Options01 {
  import opened Modes
  import opened Getopt

  /** main's flag variables together with the globals the options set. */
  datatype Options = Options(
    changeFiles: bool, changeDirs: bool, recursive: bool, includeDir: bool, permFlag: bool,
    output: Output, template: seq<char>)

  /** The three output globals: suppress_output, suppress_all_output and verbose. */
  datatype Output = Output(suppress: bool, suppressAll: bool, verbose: bool)

  /** What -s, -S or -v does to the output globals. */
  function Switch(out: Output, c: char): Output {
    if c == 's' then out.(suppress := true, suppressAll := false)
    else if c == 'S' then (if !out.suppress then out.(suppressAll := true) else out)
    else if c == 'v' then out.(verbose := true, suppress := false, suppressAll := false)
    else out
  }

  /** The option characters a run can be made of (help, about and unknown ones end main). */
  predicate RunFlag(c: char) {
    c == 'd' || c == 'f' || c == 'i' || c == 'n' || c == 's' || c == 'S' || c == 'v' || c == 'p'
  }

  /** The values before the first option; `template` is wildcard_mode as the program starts. */
  function Initial(template: seq<char>): Options {
    Options(false, false, true, false, false, Output(false, false, false), template)
  }

  /** One pass of the getopt loop. */
  function Step(o: Options, opt: Opt): Parsed<Options> {
    var c := opt.flag;
    if c == 'a' || c == 'h' || c == 'H' then Exit(EXIT_SUCCESS, None)
    else if c == 'd' then Continue(o.(changeDirs := true))
    else if c == 'f' then Continue(o.(changeFiles := true))
    else if c == 'i' then Continue(o.(includeDir := true))
    else if c == 'n' then Continue(o.(recursive := false))
    else if c == 's' || c == 'S' || c == 'v' then Continue(o.(output := Switch(o.output, c)))
    else if c == 'p' then
      match Parse(opt.arg)
      case None => Exit(EXIT_FAILURE, Some(InvalidTemplate(Stripped(opt.arg))))
      case Some(t) => Continue(o.(template := t, permFlag := true))
    else Exit(EXIT_FAILURE, Some(UnknownOption(c)))
  }

  /** One option lets the loop go on exactly when it is a run option with, for -p, a valid argument. */
  lemma StepOutcome(o: Options, opt: Opt)
    ensures Step(o, opt).Continue? <==> RunFlag(opt.flag) && (opt.flag == 'p' ==> ValidSpec(opt.arg))
  {
  }

  /** What one option does to the target flags. */
  lemma StepTargets(o: Options, opt: Opt)
    requires Step(o, opt).Continue?
    ensures Step(o, opt).options.changeFiles == (o.changeFiles || opt.flag == 'f')
    ensures Step(o, opt).options.changeDirs == (o.changeDirs || opt.flag == 'd')
    ensures Step(o, opt).options.includeDir == (o.includeDir || opt.flag == 'i')
    ensures Step(o, opt).options.recursive == (o.recursive && opt.flag != 'n')
    ensures Step(o, opt).options.permFlag == (o.permFlag || opt.flag == 'p')
  {
    var c := opt.flag;
    if c == 'f' {} else if c == 'd' {} else if c == 'i' {} else if c == 'n' {} else if c == 'p' {}
  }

  /** What one option does to the three output switches and the template. */
  lemma StepSwitches(o: Options, opt: Opt)
    requires Step(o, opt).Continue?
    ensures var r := Step(o, opt).options; var c := opt.flag;
      && r.output.suppress == (if c == 's' then true else if c == 'v' then false else o.output.suppress)
      && r.output.suppressAll == (if c == 's' || c == 'v' then false else if c == 'S' then o.output.suppressAll || !o.output.suppress else o.output.suppressAll)
      && r.output.verbose == (o.output.verbose || c == 'v')
      && r.template == (if c == 'p' then Parse(opt.arg).value else o.template)
  {
    var c := opt.flag;
    if c == 's' {} else if c == 'S' {} else if c == 'v' {} else if c == 'p' {}
  }

  /** The getopt loop over `opts`, from the settings `o`. */
  function Fold(o: Options, opts: seq<Opt>): Parsed<Options>
    decreases |opts|
  {
    if opts == [] then Continue(o)
    else
      match Fold(o, opts[..|opts| - 1])
      case Exit(code, fault) => Exit(code, fault)
      case Continue(o') => Step(o', opts[|opts| - 1])
  }

  /** Once main has returned from the option loop, later options change nothing. */
  lemma {:induction false} FoldStopped(o: Options, opts: seq<Opt>, i: nat)
    requires i <= |opts| && Fold(o, opts[..i]).Exit?
    ensures Fold(o, opts) == Fold(o, opts[..i])
    decreases |opts|
  {
    if i < |opts| {
      var init := opts[..|opts| - 1];
      assert init[..i] == opts[..i];
      FoldStopped(o, init, i);
    } else {
      assert opts[..i] == opts;
    }
  }

  /**
    main up to the call of process_directory: the option loop, the missing
    directory and missing -p checks, and the default target.
   */
  function Setup(opts: seq<Opt>, dirGiven: bool, template0: seq<char>): (r: Parsed<Options>)
    ensures r.Continue? ==> r.options.permFlag && IsTemplate(r.options.template)
    ensures r.Continue? ==> r.options.changeFiles || r.options.changeDirs
  {
    match Fold(Initial(template0), opts)
    case Exit(code, fault) => Exit(code, fault)
    case Continue(o) =>
      FoldKeepsTemplate(template0, opts);
      if !dirGiven then Exit(EXIT_FAILURE, Some(MissingDirectory))
      else if !o.permFlag then Exit(EXIT_FAILURE, Some(MissingPermissions))
      else if !o.changeFiles && !o.changeDirs then Continue(o.(changeFiles := true))
      else Continue(o)
  }

  /** A template is in place whenever -p has been seen: each -p stores a parsed, valid one. */
  lemma {:induction false} FoldKeepsTemplate(t0: seq<char>, opts: seq<Opt>)
    requires Fold(Initial(t0), opts).Continue?
    ensures var o := Fold(Initial(t0), opts).options; o.permFlag ==> IsTemplate(o.template)
  {
    if opts != [] {
      var init := opts[..|opts| - 1];
      var prev := Fold(Initial(t0), init);
      assert prev.Continue? && Fold(Initial(t0), opts) == Step(prev.options, opts[|opts| - 1]);
      FoldKeepsTemplate(t0, init);
      StepTargets(prev.options, opts[|opts| - 1]);
      StepSwitches(prev.options, opts[|opts| - 1]);
    }
  }

  // ---------------------------------------------------------------------------
  // Reference definitions: what the options mean, one property at a time
  // ---------------------------------------------------------------------------

  /** The last of -s and -v is -s. */
  predicate Quieted(opts: seq<Opt>)
    decreases |opts|
  {
    if opts == [] then false
    else
      var c := opts[|opts| - 1].flag;
      if c == 's' then true
      else if c == 'v' then false
      else Quieted(opts[..|opts| - 1])
  }

  /** An -S comes after the last of -s and -v (anywhere, when there is neither). */
  predicate SilencedAfter(opts: seq<Opt>)
    decreases |opts|
  {
    if opts == [] then false
    else
      var c := opts[|opts| - 1].flag;
      if c == 'S' then true
      else if c == 's' || c == 'v' then false
      else SilencedAfter(opts[..|opts| - 1])
  }

  /** A target flag is set exactly when its option occurs. */
  lemma {:induction false} FoldTargets(t0: seq<char>, opts: seq<Opt>)
    requires Fold(Initial(t0), opts).Continue?
    ensures var o := Fold(Initial(t0), opts).options;
      && (o.changeFiles <==> Has(opts, 'f'))
      && (o.changeDirs <==> Has(opts, 'd'))
      && (o.includeDir <==> Has(opts, 'i'))
      && (o.recursive <==> !Has(opts, 'n'))
      && (o.permFlag <==> Has(opts, 'p'))
  {
    if opts != [] {
      var init := opts[..|opts| - 1];
      var prev := Fold(Initial(t0), init);
      assert prev.Continue? && Fold(Initial(t0), opts) == Step(prev.options, opts[|opts| - 1]);
      FoldTargets(t0, init);
      StepTargets(prev.options, opts[|opts| - 1]);
      HasSnoc(opts, 'f');
      HasSnoc(opts, 'd');
      HasSnoc(opts, 'i');
      HasSnoc(opts, 'n');
      HasSnoc(opts, 'p');
    }
  }

  /**
    The output switches after the loop: suppress_output is on exactly when
    the last of -s/-v is -s; suppress_all_output exactly when, in addition
    to that not being so, an -S follows the last -s/-v; so the two are never
    on together. verbose is on exactly when some -v was given, whatever
    follows it. The template is the last -p's.
   */
  lemma {:induction false} FoldSwitches(t0: seq<char>, opts: seq<Opt>)
    requires Fold(Initial(t0), opts).Continue?
    ensures var o := Fold(Initial(t0), opts).options;
      && (o.output.suppress <==> Quieted(opts))
      && (o.output.suppressAll <==> !Quieted(opts) && SilencedAfter(opts))
      && !(o.output.suppress && o.output.suppressAll)
      && (o.output.verbose <==> Has(opts, 'v'))
      && o.template == LastTemplate(t0, opts)
  {
    if opts != [] {
      var init := opts[..|opts| - 1];
      var prev := Fold(Initial(t0), init);
      assert prev.Continue? && Fold(Initial(t0), opts) == Step(prev.options, opts[|opts| - 1]);
      FoldSwitches(t0, init);
      StepSwitches(prev.options, opts[|opts| - 1]);
      HasSnoc(opts, 'v');
    }
  }

  /** The loop only runs to the end when every option is a run option and every -p argument is valid. */
  lemma {:induction false} FoldOnlyRunOptions(t0: seq<char>, opts: seq<Opt>)
    requires Fold(Initial(t0), opts).Continue?
    ensures forall i :: 0 <= i < |opts| ==> RunFlag(opts[i].flag) && (opts[i].flag == 'p' ==> ValidSpec(opts[i].arg))
  {
    if opts != [] {
      var init := opts[..|opts| - 1];
      var prev := Fold(Initial(t0), init);
      assert prev.Continue? && Fold(Initial(t0), opts) == Step(prev.options, opts[|opts| - 1]);
      FoldOnlyRunOptions(t0, init);
      StepOutcome(prev.options, opts[|opts| - 1]);
      forall i | 0 <= i < |init| ensures opts[i] == init[i] {}
    }
  }

  /**
    What a run of rper 0.1 is given: a directory operand and a valid template
    were supplied, files are targeted when -f is given or -d is not,
    directories exactly when -d is given, and the output switches are those
    FoldSwitches describes.
   */
  lemma SetupMeaning(opts: seq<Opt>, dirGiven: bool, t0: seq<char>)
    requires Setup(opts, dirGiven, t0).Continue?
    ensures var o := Setup(opts, dirGiven, t0).options;
      && dirGiven && Has(opts, 'p')
      && IsTemplate(o.template) && o.template == LastTemplate(t0, opts)
      && (o.changeFiles <==> Has(opts, 'f') || !Has(opts, 'd'))
      && (o.changeDirs <==> Has(opts, 'd'))
      && (o.includeDir <==> Has(opts, 'i'))
      && (o.recursive <==> !Has(opts, 'n'))
      && (o.output.suppress <==> Quieted(opts))
      && (o.output.suppressAll <==> !Quieted(opts) && SilencedAfter(opts))
      && (o.output.verbose <==> Has(opts, 'v'))
  {
    FoldTargets(t0, opts);
    FoldSwitches(t0, opts);
    FoldOnlyRunOptions(t0, opts);
    LastTemplateValid(t0, opts);
  }

  /** Help, about, an unknown option (-L and -k among them) or an invalid -p ends main before any run. */
  lemma {:induction false} NoRunWithBadOption(t0: seq<char>, opts: seq<Opt>, dirGiven: bool, i: nat)
    requires i < |opts|
    requires !RunFlag(opts[i].flag) || (opts[i].flag == 'p' && !ValidSpec(opts[i].arg))
    ensures Setup(opts, dirGiven, t0).Exit?
  {
    if Fold(Initial(t0), opts).Continue? {
      FoldOnlyRunOptions(t0, opts);
    }
  }
  /** Conversely, the loop runs to the end over run options whose -p arguments are valid. */
  lemma {:induction false} FoldRunsThrough(t0: seq<char>, opts: seq<Opt>)
    requires forall i :: 0 <= i < |opts| ==> RunFlag(opts[i].flag) && (opts[i].flag == 'p' ==> ValidSpec(opts[i].arg))
    ensures Fold(Initial(t0), opts).Continue?
  {
    if opts != [] {
      var init := opts[..|opts| - 1];
      forall i | 0 <= i < |init| ensures RunFlag(init[i].flag) && (init[i].flag == 'p' ==> ValidSpec(init[i].arg)) {
        assert init[i] == opts[i];
      }
      FoldRunsThrough(t0, init);
      StepOutcome(Fold(Initial(t0), init).options, opts[|opts| - 1]);
    }
  }

  /**
    With run options and valid -p arguments only, main goes on to the walk
    exactly when a directory operand and a -p were given; otherwise it
    reports the one missing, the directory first, and fails.
   */
  lemma SetupRuns(opts: seq<Opt>, dirGiven: bool, t0: seq<char>)
    requires forall i :: 0 <= i < |opts| ==> RunFlag(opts[i].flag) && (opts[i].flag == 'p' ==> ValidSpec(opts[i].arg))
    ensures Setup(opts, dirGiven, t0).Continue? <==> dirGiven && Has(opts, 'p')
    ensures !dirGiven ==> Setup(opts, dirGiven, t0) == Exit(EXIT_FAILURE, Some(MissingDirectory))
    ensures dirGiven && !Has(opts, 'p') ==> Setup(opts, dirGiven, t0) == Exit(EXIT_FAILURE, Some(MissingPermissions))
  {
    FoldRunsThrough(t0, opts);
    FoldTargets(t0, opts);
  }

  /**
    main returns at the first option that is not a run option or is a -p
    with an invalid argument: with EXIT_SUCCESS and no error for help and
    about, with EXIT_FAILURE and an error naming the argument or the option
    otherwise, whatever follows.
   */
  lemma FirstRefusal(t0: seq<char>, opts: seq<Opt>, dirGiven: bool, i: nat)
    requires i < |opts|
    requires forall j :: 0 <= j < i ==> RunFlag(opts[j].flag) && (opts[j].flag == 'p' ==> ValidSpec(opts[j].arg))
    requires !RunFlag(opts[i].flag) || (opts[i].flag == 'p' && !ValidSpec(opts[i].arg))
    ensures var r := Setup(opts, dirGiven, t0); var c := opts[i].flag;
      && (c == 'a' || c == 'h' || c == 'H' ==> r == Exit(EXIT_SUCCESS, None))
      && (c == 'p' ==> r == Exit(EXIT_FAILURE, Some(InvalidTemplate(Stripped(opts[i].arg)))))
      && (!RunFlag(c) && c != 'a' && c != 'h' && c != 'H' ==> r == Exit(EXIT_FAILURE, Some(UnknownOption(c))))
  {
    var pre := opts[..i];
    forall j | 0 <= j < |pre| ensures RunFlag(pre[j].flag) && (pre[j].flag == 'p' ==> ValidSpec(pre[j].arg)) {
      assert pre[j] == opts[j];
    }
    FoldRunsThrough(t0, pre);
    var upto := opts[..i + 1];
    assert upto[..|upto| - 1] == pre;
    assert Fold(Initial(t0), upto) == Step(Fold(Initial(t0), pre).options, opts[i]);
    StepOutcome(Fold(Initial(t0), pre).options, opts[i]);
    FoldStopped(Initial(t0), opts, i + 1);
  }


  /** `rper -v -s -p 755 dir`: the run is both verbose and quiet, and changes files. */
  lemma VerboseThenQuiet(t0: seq<char>)
    ensures var r := Setup([Opt('v', ""), Opt('s', ""), Opt('p', "755")], true, t0);
      && r.Continue? && r.options.output.verbose && r.options.output.suppress && !r.options.output.suppressAll
      && r.options.changeFiles && !r.options.changeDirs && r.options.template == "755"
  {
    var opts := [Opt('v', ""), Opt('s', ""), Opt('p', "755")];
    var o0 := Initial(t0);
    var o1 := o0.(output := Output(false, false, true));
    var o2 := o1.(output := Output(true, false, true));
    assert ValidSpec("755") && Parse("755").value == "755";
    assert opts[..2][..1] == opts[..1] && opts[..1][..0] == [] && opts[..3] == opts;
    assert Fold(o0, opts[..1]) == Continue(o1);
    assert Fold(o0, opts[..2]) == Continue(o2);
    assert Fold(o0, opts) == Continue(o2.(template := "755", permFlag := true));
  }
}
