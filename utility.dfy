/** The small helpers of the utility module: reading a script's own arguments
    out of the command line, and choosing the log file name and log level. */
module Utility {
  import opened Wrappers

  // ---------------------------------------------------------------------------
  // get_script_args
  // ---------------------------------------------------------------------------

  /** Why get_script_args raises. */
  datatype ScriptArgsError =
    | ScriptNotInArgv                                  // list.index raises ValueError
    | WrongArgumentCount(required: int, supplied: nat) // "Script requires %d arguments, you supplied %d"

  /** Position of the first occurrence of `x` in `xs`, as list.index finds it. */
  function IndexOf(xs: seq<string>, x: string): (i: Option<nat>)
    ensures i.None? <==> x !in xs
    ensures i.Some? ==> i.value < |xs| && xs[i.value] == x && x !in xs[..i.value]
  {
    if xs == [] then None
    else if xs[0] == x then Some(0)
    else
      match IndexOf(xs[1..], x)
      case None => None
      case Some(j) =>
        assert xs[..j + 1] == [xs[0]] + xs[1..][..j];
        Some(j + 1)
  }

  /** Python's `xs[start:stop]` for a non-negative `start`: a negative `stop`
      counts from the end, and both bounds are clipped to the list. */
  function PySlice<T>(xs: seq<T>, start: nat, stop: int): (r: seq<T>)
    ensures |r| <= |xs|
    ensures start <= stop <= |xs| ==> r == xs[start..stop]
    ensures start <= |xs| < stop ==> r == xs[start..]
    ensures stop < 0 && start <= stop + |xs| ==> r == xs[start..stop + |xs|]
    ensures stop >= 0 && stop < start ==> r == []
  {
    var hi := if stop < 0 then (if stop + |xs| < 0 then 0 else stop + |xs|)
              else if stop > |xs| then |xs| else stop;
    var lo := if start > |xs| then |xs| else start;
    if lo >= hi then [] else xs[lo..hi]
  }

  /** The `n_args` command-line arguments that follow the first occurrence of
      `script` in `argv` (sys.argv, passed in here). */
  function GetScriptArgs(argv: seq<string>, script: string, nArgs: int): (r: Result<seq<string>, ScriptArgsError>)
    ensures r == Failure(ScriptNotInArgv) <==> script !in argv
    ensures r.Success? <==>
              script in argv && 0 <= nArgs && IndexOf(argv, script).value + 1 + nArgs <= |argv|
    ensures r.Success? ==>
              var i := IndexOf(argv, script).value;
              |r.value| == nArgs && r.value == argv[i + 1..i + 1 + nArgs]
    ensures r.Failure? && r.error.WrongArgumentCount? ==>
              r.error.required == nArgs && r.error.supplied != nArgs &&
              r.error.supplied < |argv| - IndexOf(argv, script).value
    ensures r.Failure? && r.error.WrongArgumentCount? ==>
              var i := IndexOf(argv, script).value;
              // len(argv[i+1:i+1+n_args]): all that follow for n_args >= 0;
              // for a negative n_args a negative stop counts from the end
              && (nArgs >= 0 ==> r.error.supplied == |argv| - i - 1)
              && (nArgs < 0 && i + 1 + nArgs >= 0 ==> r.error.supplied == 0)
              && (nArgs < 0 && i + 1 + nArgs < 0 ==>
                    r.error.supplied == if |argv| + nArgs < 0 then 0 else |argv| + nArgs)
  {
    match IndexOf(argv, script)
    case None => Failure(ScriptNotInArgv)
    case Some(i) =>
      var args := PySlice(argv, i + 1, i + 1 + nArgs);
      if |args| != nArgs then Failure(WrongArgumentCount(nArgs, |args|))
      else Success(args)
  }

  // ---------------------------------------------------------------------------
  // init_logging: the file name and level it hands to logging.basicConfig
  // ---------------------------------------------------------------------------

  datatype Level = Debug | Info

  /** The arguments init_logging passes to logging.basicConfig. */
  datatype LogConfig = LogConfig(level: Level, format: string, filename: string, filemode: string)

  const LogFormat: string := "%(asctime)s %(levelname)s %(message)s"

  function DigitChar(d: nat): char
    requires d < 10
  {
    "0123456789"[d]
  }

  function DigitValue(c: char): nat
  {
    if '0' <= c <= '9' then (c as int - '0' as int) as nat else 0
  }

  predicate IsDigits(s: string)
  {
    forall k :: 0 <= k < |s| ==> '0' <= s[k] <= '9'
  }

  /** Digits that start with a non-zero one. */
  predicate PositiveNumeral(s: string)
  {
    |s| > 0 && IsDigits(s) && s[0] != '0'
  }

  /** The numerals '%d' writes: "0", or a positive numeral with an optional
      leading '-'. */
  predicate Canonical(s: string)
  {
    s == "0" || PositiveNumeral(s) || (|s| > 1 && s[0] == '-' && PositiveNumeral(s[1..]))
  }

  /** The decimal numeral of a natural number, no leading zeros. */
  function FormatNat(n: nat): (s: string)
    ensures |s| > 0 && IsDigits(s)
    ensures n == 0 ==> s == "0"
    ensures n > 0 ==> PositiveNumeral(s)
  {
    if n < 10 then [DigitChar(n)]
    else
      var s := FormatNat(n / 10) + [DigitChar(n % 10)];
      assert s[0] == FormatNat(n / 10)[0];
      s
  }

  /** `'%d' % n`: the decimal numeral, with a leading '-' when negative. */
  function FormatInt(n: int): (s: string)
    ensures Canonical(s)
  {
    if n < 0 then
      var s := "-" + FormatNat(-n);
      assert s[1..] == FormatNat(-n);
      s
    else FormatNat(n)
  }

  /** The value of a string of decimal digits. */
  function ParseNat(s: string): nat
  {
    if s == [] then 0 else ParseNat(s[..|s| - 1]) * 10 + DigitValue(s[|s| - 1])
  }

  /** Reads back what FormatInt writes. */
  function ParseInt(s: string): Option<int>
  {
    if |s| > 1 && s[0] == '-' && IsDigits(s[1..]) then Some(-(ParseNat(s[1..]) as int))
    else if s != [] && IsDigits(s) then Some(ParseNat(s) as int)
    else None
  }

  lemma {:induction false} ParseFormatNat(n: nat)
    ensures ParseNat(FormatNat(n)) == n
  {
    var s := FormatNat(n);
    if n < 10 {
      assert s[..|s| - 1] == [];
    } else {
      assert s[..|s| - 1] == FormatNat(n / 10);
      ParseFormatNat(n / 10);
    }
  }

  lemma ParseSignedDigits(digits: string)
    requires digits != [] && IsDigits(digits)
    ensures ParseInt("-" + digits) == Some(-(ParseNat(digits) as int))
    ensures ParseInt(digits) == Some(ParseNat(digits) as int)
  {
    assert ("-" + digits)[1..] == digits;
    assert digits[0] != '-';
  }

  /** A numeral's value is at least its leading digit. */
  lemma {:induction false} ParseNatLeading(s: string)
    requires |s| > 0 && IsDigits(s)
    ensures ParseNat(s) >= DigitValue(s[0])
    decreases |s|
  {
    if |s| > 1 {
      ParseNatLeading(s[..|s| - 1]);
    }
  }

  /** A positive numeral is what FormatNat writes for its value. */
  lemma {:induction false} FormatParseNat(s: string)
    requires PositiveNumeral(s)
    ensures ParseNat(s) > 0 && FormatNat(ParseNat(s)) == s
    decreases |s|
  {
    var init, d := s[..|s| - 1], DigitValue(s[|s| - 1]);
    assert DigitChar(d) == s[|s| - 1];
    if |s| == 1 {
      assert init == [];
    } else {
      FormatParseNat(init);
      assert ParseNat(s) / 10 == ParseNat(init) && ParseNat(s) % 10 == d;
      assert s == init + [s[|s| - 1]];
    }
  }

  /** Every canonical numeral is what '%d' writes for the integer it reads
      as. */
  lemma FormatParseInt(s: string)
    requires Canonical(s)
    ensures ParseInt(s).Some? && FormatInt(ParseInt(s).value) == s
  {
    if s == "0" {
      assert ParseInt(s) == Some(0);
    } else if PositiveNumeral(s) {
      FormatParseNat(s);
    } else {
      FormatParseNat(s[1..]);
      assert "-" + s[1..] == s;
    }
  }

  /** Two canonical numerals that read as the same integer are the same
      string: the '%d' numeral of a rank is the only one. */
  lemma CanonicalNumeralsUnique(s: string, t: string)
    requires Canonical(s) && Canonical(t) && ParseInt(s) == ParseInt(t)
    ensures s == t
  {
    FormatParseInt(s);
    FormatParseInt(t);
  }

  /** '%d' formatting loses nothing: the numeral reads back as the same integer. */
  lemma ParseFormatInt(n: int)
    ensures ParseInt(FormatInt(n)) == Some(n)
  {
    var m: nat := if n < 0 then -n else n;
    ParseFormatNat(m);
    ParseSignedDigits(FormatNat(m));
  }

  /** The file name init_logging settles on: with more than one process each
      rank writes to `logfile.<rank>`, which names the rank unambiguously. */
  function LogFileName(logfile: string, numProcesses: int, rank: int): (name: string)
    ensures numProcesses > 1 ==>
              |name| > |logfile| + 1 && name[..|logfile| + 1] == logfile + "." &&
              ParseInt(name[|logfile| + 1..]) == Some(rank) && Canonical(name[|logfile| + 1..])
    ensures numProcesses <= 1 ==> name == logfile
  {
    if numProcesses > 1 then
      var name := logfile + "." + FormatInt(rank);
      assert name[..|logfile| + 1] == logfile + ".";
      assert name[|logfile| + 1..] == FormatInt(rank);
      ParseFormatInt(rank);
      name
    else
      logfile
  }

  /** The configuration init_logging hands to logging.basicConfig: DEBUG
      exactly when `debug` is set, INFO otherwise; the file is overwritten. */
  function InitLogging(logfile: string, debug: bool, numProcesses: int, rank: int): (c: LogConfig)
    ensures c.filename == LogFileName(logfile, numProcesses, rank)
    ensures c.level == Debug <==> debug
    ensures c.format == LogFormat && c.filemode == "w"
  {
    LogConfig(if debug then Debug else Info, LogFormat, LogFileName(logfile, numProcesses, rank), "w")
  }

  /** With more than one process, two different ranks never share a log file. */
  lemma DistinctRanksDistinctLogFiles(logfile: string, debug: bool, numProcesses: int, rank1: int, rank2: int)
    requires numProcesses > 1 && rank1 != rank2
    ensures InitLogging(logfile, debug, numProcesses, rank1).filename
            != InitLogging(logfile, debug, numProcesses, rank2).filename
  {
  }
}
