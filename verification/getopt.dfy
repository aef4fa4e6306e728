/**
  What the two versions of rper share about getopt: the options as getopt
  returns them, the outcome of main's option loop, the exit codes, and
  which template the -p options leave in place.
 */
module Getopt {
  import opened Modes

  /** One option as getopt returns it: the option character and, for -p, its argument. */
  datatype Opt = Opt(flag: char, arg: string)

  /**
    The configuration errors main writes to stderr before it returns
    EXIT_FAILURE: an invalid -p argument (shown without the leading '0' the
    validator dropped), an unknown option, no directory operand, no -p.
   */
  datatype Fault = InvalidTemplate(arg: string) | UnknownOption(flag: char) | MissingDirectory | MissingPermissions

  /**
    The option loop either goes on with the settings `O` so far or returns
    from main with `code`, after writing the error `fault` when there is one.
   */
  datatype Parsed<O> = Continue(options: O) | Exit(code: int, fault: Option<Fault>)

  const EXIT_SUCCESS: int := 0
  const EXIT_FAILURE: int := 1

  /** Option `c` occurs among `opts`. */
  predicate Has(opts: seq<Opt>, c: char) {
    exists i :: 0 <= i < |opts| && opts[i].flag == c
  }

  lemma HasSnoc(opts: seq<Opt>, c: char)
    requires opts != []
    ensures Has(opts, c) <==> Has(opts[..|opts| - 1], c) || opts[|opts| - 1].flag == c
  {
    var init := opts[..|opts| - 1];
    if Has(opts, c) && opts[|opts| - 1].flag != c {
      var i :| 0 <= i < |opts| && opts[i].flag == c;
      assert init[i].flag == c;
    }
    if Has(init, c) {
      var i :| 0 <= i < |init| && init[i].flag == c;
      assert opts[i].flag == c;
    }
  }

  /** The template of the last -p, `d` when there is none. */
  function LastTemplate(d: seq<char>, opts: seq<Opt>): seq<char>
    decreases |opts|
  {
    if opts == [] then d
    else if opts[|opts| - 1].flag == 'p' && Parse(opts[|opts| - 1].arg).Some? then Parse(opts[|opts| - 1].arg).value
    else LastTemplate(d, opts[..|opts| - 1])
  }

  /** Each -p before the last is overridden: a run's template is the last -p's, which is valid. */
  lemma {:induction false} LastTemplateValid(t0: seq<char>, opts: seq<Opt>)
    requires forall i :: 0 <= i < |opts| && opts[i].flag == 'p' ==> ValidSpec(opts[i].arg)
    requires Has(opts, 'p')
    ensures IsTemplate(LastTemplate(t0, opts))
  {
    var init := opts[..|opts| - 1];
    HasSnoc(opts, 'p');
    if opts[|opts| - 1].flag != 'p' {
      forall i | 0 <= i < |init| && init[i].flag == 'p' ensures ValidSpec(init[i].arg) {
        assert opts[i] == init[i];
      }
      LastTemplateValid(t0, init);
    }
  }
}
