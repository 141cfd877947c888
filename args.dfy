/** Command-line decisions of `sendme`: the operating mode and output,
    the upload limit with its unit suffixes, and the error display. */
module Args {
  import opened Base
  import opened Decimal

  /** Where a single uploaded file goes. */
  datatype Output = Filename(name: string) | Stdout | ClientFilename

  /** The operating mode. `None` for the directory means the current
      directory; `None` for the text file means standard output. */
  datatype Mode =
    | MultipleFiles(outDir: Option<string>)
    | SingleFile(out: Output)
    | Text(outFilename: Option<string>)

  /** The process-wide configuration. */
  datatype Args = Args(
    mode: Mode,
    port: nat,
    limit: nat,
    keepRunning: bool,
    quiet: bool,
    useTailscaleFunnel: bool)

  /** Errors of argument parsing. `PicoArgs` is a value the argument
      library could not convert, with the option and the offending value. */
  datatype Error =
    | StdoutIsTerminal
    | ConflictingModes
    | HelpRequested
    | PicoArgs(option: string, value: string)

  // ---------------------------------------------------------------------
  // Error display
  // ---------------------------------------------------------------------

  const HELP_HINT: string := "run with -h for help"

  /** The text of an error. The help screen and the argument library's own
      message are given as `help` and `libraryText`. Every error but the
      help request ends with the hint to run with -h. */
  function Display(e: Error, help: string, libraryText: string): (r: string)
    ensures e.HelpRequested? ==> r == help
    ensures !e.HelpRequested? ==> |r| > |HELP_HINT| && r[|r| - |HELP_HINT|..] == HELP_HINT
  {
    var body :=
      match e
      case StdoutIsTerminal =>
        "error: stdout is a terminal\n" + "use -f to print to stdout anyway, or -o to specify a file\n"
      case ConflictingModes =>
        "error: multiple modes were specified\n" + "use only one of -s, -m, and -t\n"
      case HelpRequested => help
      case PicoArgs(_, _) => "error: " + libraryText + "\n";
    if e.HelpRequested? then body else body + HELP_HINT
  }

  // ---------------------------------------------------------------------
  // Limit with unit suffixes
  // ---------------------------------------------------------------------

  /** Suffixes tried in this order, with their exact multipliers. */
  const SUFFIXES: seq<(string, nat)> := [
    ("k", 1000),
    ("M", 1000000),
    ("G", 1000000000),
    ("Ki", 1024),
    ("Mi", 1024 * 1024),
    ("Gi", 1024 * 1024 * 1024)
  ]

  predicate OccursAt(s: string, pat: string, i: nat)
  {
    i + |pat| <= |s| && s[i..i + |pat|] == pat
  }

  /** The first position at or after `i` where `pat` occurs in `s`. */
  function FindFrom(s: string, pat: string, i: nat): (r: Option<nat>)
    decreases |s| - i
    ensures r.Some? ==> i <= r.value && OccursAt(s, pat, r.value)
    ensures r.Some? ==> forall j :: i <= j < r.value ==> !OccursAt(s, pat, j)
    ensures r.None? ==> forall j :: i <= j ==> !OccursAt(s, pat, j)
  {
    if i + |pat| > |s| then None
    else if s[i..i + |pat|] == pat then Some(i)
    else FindFrom(s, pat, i + 1)
  }

  /** `s.split_once(pat)`: the text before and after the first occurrence. */
  function SplitOnce(s: string, pat: string): (r: Option<(string, string)>)
    ensures r.Some? <==> exists j :: OccursAt(s, pat, j)
    ensures r.Some? ==> s == r.value.0 + pat + r.value.1
    ensures r.Some? ==> FindFrom(s, pat, 0) == Some(|r.value.0|)
  {
    match FindFrom(s, pat, 0)
    case None => None
    case Some(i) =>
      assert s == s[..i] + pat + s[i + |pat|..];
      Some((s[..i], s[i + |pat|..]))
  }

  /** The limit parser from the `k`-th suffix on: the first suffix whose
      first occurrence ends the string decides, its numeric part must parse,
      and without such a suffix the whole string is a decimal number. */
  function LimitFrom(s: string, k: nat): Option<nat>
    decreases |SUFFIXES| - k
  {
    if k >= |SUFFIXES| then ParseUnsigned(s, USIZE_MAX)
    else
      var split := SplitOnce(s, SUFFIXES[k].0);
      if split.Some? && split.value.1 == "" then
        match ParseUnsigned(split.value.0, USIZE_MAX)
        case None => None
        case Some(n) => Some(SUFFIXES[k].1 * n)
      else LimitFrom(s, k + 1)
  }

  /** `Limit::from_str`; `None` is a `ParseIntError`. */
  function ParseLimit(s: string): Option<nat>
  {
    LimitFrom(s, 0)
  }

  /** A pattern that starts with a non-digit occurs in `d + t`, for a digit
      string `d`, exactly where it occurs in `t`, shifted by `|d|`. */
  lemma {:induction false} OccursShift(d: string, t: string, pat: string, j: nat)
    requires Numeral(d) && |pat| > 0 && pat[0] != '+' && !IsDigit(pat[0])
    ensures OccursAt(d + t, pat, j) <==> j >= |d| && OccursAt(t, pat, j - |d|)
  {
    var s := d + t;
    if j >= |d| && j + |pat| <= |s| {
      assert t[j - |d|..j - |d| + |pat|] == s[j..j + |pat|];
    }
  }

  /** The first occurrence is the one with none before it. */
  lemma {:induction false} FindFirst(s: string, pat: string, r: nat)
    requires OccursAt(s, pat, r)
    requires forall j: nat :: j < r ==> !OccursAt(s, pat, j)
    ensures FindFrom(s, pat, 0) == Some(r)
  {
    var f := FindFrom(s, pat, 0);
    assert f.Some?;
    assert !(f.value < r);
    assert !(r < f.value);
  }

  /** Hence the first occurrence shifts the same way. */
  lemma {:induction false} ShiftFind(d: string, t: string, pat: string)
    requires Numeral(d) && |pat| > 0 && pat[0] != '+' && !IsDigit(pat[0])
    ensures FindFrom(d + t, pat, 0) ==
      match FindFrom(t, pat, 0)
      case None => None
      case Some(r) => Some(|d| + r)
  {
    var b := FindFrom(t, pat, 0);
    forall j: nat | b.None? || j < |d| + b.value
      ensures !OccursAt(d + t, pat, j)
    {
      OccursShift(d, t, pat, j);
    }
    if b.Some? {
      OccursShift(d, t, pat, |d| + b.value);
      FindFirst(d + t, pat, |d| + b.value);
    }
  }

  /** How each suffix fares against a later suffix of the table: either
      it does not occur in it or its first occurrence leaves text after it. */
  lemma {:induction false} EarlierSuffixesSkip(i: nat, k: nat)
    requires i < k < |SUFFIXES|
    ensures var f := FindFrom(SUFFIXES[k].0, SUFFIXES[i].0, 0);
      f.None? || f.value + |SUFFIXES[i].0| < |SUFFIXES[k].0|
  {
    var f := FindFrom(SUFFIXES[k].0, SUFFIXES[i].0, 0);
    if f.Some? {
      var p, q := SUFFIXES[i].0, SUFFIXES[k].0;
      assert OccursAt(q, p, f.value);
      assert q[f.value] == p[0];
    }
  }

  /** Every suffix of the table starts with a letter. */
  lemma {:induction false} SuffixStartsWithLetter(k: nat)
    requires k < |SUFFIXES|
    ensures |SUFFIXES[k].0| > 0 && SUFFIXES[k].0[0] != '+' && !IsDigit(SUFFIXES[k].0[0])
  {
  }

  /** A suffix of the table occurs in itself at the start. */
  lemma {:induction false} FindSelf(p: string)
    requires |p| > 0
    ensures FindFrom(p, p, 0) == Some(0)
  {
    assert OccursAt(p, p, 0);
  }

  /** After a numeral, the `k`-th suffix splits the text into the numeral
      and nothing, so the loop stops there with the numeral's value. */
  lemma {:induction false} SuffixEnds(d: string, k: nat)
    requires Numeral(d) && k < |SUFFIXES|
    ensures SplitOnce(d + SUFFIXES[k].0, SUFFIXES[k].0) == Some((d, ""))
    ensures LimitFrom(d + SUFFIXES[k].0, k) ==
      if ParseUnsigned(d, USIZE_MAX).Some? then Some(SUFFIXES[k].1 * ParseUnsigned(d, USIZE_MAX).value) else None
  {
    var t := SUFFIXES[k].0;
    var s := d + t;
    SuffixStartsWithLetter(k);
    ShiftFind(d, t, t);
    FindSelf(t);
    assert s[..|d|] == d;
    assert s[|d| + |t|..] == "";
    assert SplitOnce(s, t) == Some((d, ""));
  }

  /** After a numeral, an earlier suffix than the `k`-th does not end the
      text, so the search goes on to the next one. */
  lemma {:induction false} SuffixPasses(d: string, k: nat, i: nat)
    requires Numeral(d) && i < k < |SUFFIXES|
    ensures LimitFrom(d + SUFFIXES[k].0, i) == LimitFrom(d + SUFFIXES[k].0, i + 1)
  {
    var t := SUFFIXES[k].0;
    var s := d + t;
    var p := SUFFIXES[i].0;
    SuffixStartsWithLetter(i);
    ShiftFind(d, t, p);
    EarlierSuffixesSkip(i, k);
    var f := FindFrom(t, p, 0);
    if f.Some? {
      assert s[|d| + f.value + |p|..] != "";
    }
  }

  /** When no suffix from the `i`-th up to the `k`-th ends the text, the
      search from the `i`-th ends as the `k`-th decides. */
  lemma {:induction false} LimitFromPasses(s: string, k: nat, i: nat)
    requires i <= k <= |SUFFIXES|
    requires forall j :: i <= j < k ==> LimitFrom(s, j) == LimitFrom(s, j + 1)
    ensures LimitFrom(s, i) == LimitFrom(s, k)
    decreases k - i
  {
    if i < k {
      LimitFromPasses(s, k, i + 1);
    }
  }

  /** The limit of a numeral with a unit suffix: the suffix's multiplier
      times the number the numeral reads as, and an error when it reads as
      none. */
  lemma {:induction false} SuffixedLimit(d: string, k: nat)
    requires Numeral(d)
    requires k < |SUFFIXES|
    ensures ParseLimit(d + SUFFIXES[k].0) ==
      if ParseUnsigned(d, USIZE_MAX).Some? then Some(SUFFIXES[k].1 * ParseUnsigned(d, USIZE_MAX).value) else None
  {
    forall j | 0 <= j < k
      ensures LimitFrom(d + SUFFIXES[k].0, j) == LimitFrom(d + SUFFIXES[k].0, j + 1)
    {
      SuffixPasses(d, k, j);
    }
    LimitFromPasses(d + SUFFIXES[k].0, k, 0);
    SuffixEnds(d, k);
  }

  /** Any text denoting a machine-word number `n`, signed or with leading
      zeros, followed by a suffix gives the multiplier times `n`. */
  lemma {:induction false} SuffixedValue(d: string, k: nat, n: nat)
    requires k < |SUFFIXES| && n <= USIZE_MAX && Spells(d, n)
    ensures ParseLimit(d + SUFFIXES[k].0) == Some(SUFFIXES[k].1 * n)
  {
    SpellsChars(d, n);
    ParseExact(d, USIZE_MAX, n);
    SuffixedLimit(d, k);
  }

  /** A suffixed number above the machine word is an error: the number is
      read first, as a `usize`. */
  lemma {:induction false} SuffixedOverflow(d: string, k: nat)
    requires |d| > 0 && AllDigits(d) && ValueOf(d) > USIZE_MAX
    requires k < |SUFFIXES|
    ensures ParseLimit(d + SUFFIXES[k].0) == None
  {
    assert d[0] != '+';
    SuffixedLimit(d, k);
  }

  /** Without a suffix, the limit is the whole string read as a decimal. */
  lemma {:induction false} LimitFromDigits(d: string, k: nat)
    requires AllDigits(d)
    ensures LimitFrom(d, k) == ParseUnsigned(d, USIZE_MAX)
    decreases |SUFFIXES| - k
  {
    if k < |SUFFIXES| {
      var p := SUFFIXES[k].0;
      SuffixStartsWithLetter(k);
      forall j: nat | j + |p| <= |d|
        ensures d[j..j + |p|][0] == d[j]
      {
      }
      assert SplitOnce(d, p).None?;
      LimitFromDigits(d, k + 1);
    }
  }

  /** A plain decimal limit. */
  lemma {:induction false} PlainLimit(d: string)
    requires AllDigits(d)
    ensures ParseLimit(d) == ParseUnsigned(d, USIZE_MAX)
  {
    LimitFromDigits(d, 0);
  }

  /** Worked values of the limit parser: a plain number and the suffixes
      of both families. */
  lemma {:induction false} LimitExamplePlain()
    ensures ParseLimit("10") == Some(10)
  {
    PlainLimit("10");
    assert ValueOf("10") == 10;
  }

  lemma {:induction false} LimitExampleKilo()
    ensures ParseLimit("2k") == Some(2000)
  {
    assert ValueOf("2") == 2;
    assert "2" + SUFFIXES[0].0 == "2k";
    SuffixedLimit("2", 0);
  }

  /** A sign before the number is accepted, as `usize::from_str` does. */
  lemma {:induction false} LimitExamplePlus()
    ensures ParseLimit("+2k") == Some(2000)
  {
    assert "+2"[1..] == "2";
    assert ValueOf("2") == 2;
    assert "+2" + SUFFIXES[0].0 == "+2k";
    SuffixedLimit("+2", 0);
  }

  lemma {:induction false} LimitExampleKibi()
    ensures ParseLimit("2Ki") == Some(2048)
  {
    assert ValueOf("2") == 2;
    assert "2" + SUFFIXES[3].0 == "2Ki";
    SuffixedLimit("2", 3);
  }

  /** "2Mi" is not read as "2M" followed by "i": the first occurrence of
      "M" does not end the string. */
  lemma {:induction false} LimitExampleMebi()
    ensures ParseLimit("2Mi") == Some(2097152)
  {
    assert ValueOf("2") == 2;
    assert SUFFIXES[4] == ("Mi", 1048576);
    assert "2" + SUFFIXES[4].0 == "2Mi";
    SuffixedLimit("2", 4);
  }

  lemma {:induction false} LimitExampleGibi()
    ensures ParseLimit("1Gi") == Some(1073741824)
  {
    assert ValueOf("1") == 1;
    assert SUFFIXES[5] == ("Gi", 1073741824);
    assert "1" + SUFFIXES[5].0 == "1Gi";
    SuffixedLimit("1", 5);
  }

  /** A suffix whose numeric part is not an integer is an error; the
      remaining suffixes are not tried. */
  lemma {:induction false} LimitErrorFraction()
    ensures ParseLimit("1.5k") == None
  {
    var s := "1.5k";
    assert s[0..1] == "1" && s[1..2] == "." && s[2..3] == "5" && s[3..4] == "k";
    assert FindFrom(s, "k", 3) == Some(3);
    assert FindFrom(s, "k", 2) == Some(3);
    assert FindFrom(s, "k", 1) == Some(3);
    assert FindFrom(s, "k", 0) == Some(3);
    assert s[..3] == "1.5" && s[4..] == "";
    assert SplitOnce(s, "k") == Some(("1.5", ""));
    assert "1.5"[1] == '.';
    assert ParseUnsigned("1.5", USIZE_MAX) == None;
  }

  /** A suffix without a number is an error. */
  lemma {:induction false} LimitErrorBare()
    ensures ParseLimit("k") == None
  {
    assert "k"[0..1] == "k";
    assert FindFrom("k", "k", 0) == Some(0);
    assert SplitOnce("k", "k") == Some(("", ""));
  }

  // ---------------------------------------------------------------------
  // Mode and output selection
  // ---------------------------------------------------------------------

  /** What the command line holds: the presence of each flag and the
      values given to the options that take one. */
  datatype CommandLine = CommandLine(
    help: bool,              // -h or --help
    port: Option<string>,    // -p <port>
    outName: Option<string>, // -o <name>
    limit: Option<string>,   // -l <limit>
    keepRunning: bool,       // -k
    quiet: bool,             // -q
    tunnel: bool,            // -T
    single: bool,            // -s
    multiple: bool,          // -m
    text: bool,              // -t
    clientFilename: bool,    // -O
    force: bool)             // -f

  const DEFAULT_LIMIT: nat := 2 * 1024 * 1024 * 1024

  /** How many of -s, -m and -t are given. */
  function ModeFlags(cl: CommandLine): nat
  {
    (if cl.single then 1 else 0) + (if cl.multiple then 1 else 0) + (if cl.text then 1 else 0)
  }

  /** The mode decision. At most one mode flag may be given; -m and -t
      take -o as their directory or file; single-file mode (also the
      default) prefers -o, then -O, then standard output when -f is given
      or standard output is not a terminal, and refuses otherwise. */
  function SelectMode(cl: CommandLine, stdoutIsTerminal: bool): (r: Result<Mode, Error>)
    ensures r == Err(ConflictingModes) <==> ModeFlags(cl) >= 2
    ensures r == Ok(MultipleFiles(cl.outName)) <==> cl.multiple && ModeFlags(cl) == 1
    ensures r == Ok(Text(cl.outName)) <==> cl.text && ModeFlags(cl) == 1
    ensures r.Ok? && r.value.SingleFile? <==> !cl.multiple && !cl.text && r != Err(StdoutIsTerminal)
    ensures r.Ok? && r.value.SingleFile? ==>
      match r.value.out
      case Filename(n) => cl.outName == Some(n)
      case ClientFilename => cl.outName.None? && cl.clientFilename
      case Stdout => cl.outName.None? && !cl.clientFilename && (cl.force || !stdoutIsTerminal)
    ensures r == Err(StdoutIsTerminal) <==>
      !cl.multiple && !cl.text && cl.outName.None? && !cl.clientFilename && !cl.force && stdoutIsTerminal
  {
    match (cl.single, cl.multiple, cl.text)
    case (_, false, false) =>
      (match cl.outName
       case Some(f) => Ok(SingleFile(Filename(f)))
       case None =>
         if cl.clientFilename then Ok(SingleFile(ClientFilename))
         else if cl.force || !stdoutIsTerminal then Ok(SingleFile(Stdout))
         else Err(StdoutIsTerminal))
    case (false, true, false) => Ok(MultipleFiles(cl.outName))
    case (false, false, true) => Ok(Text(cl.outName))
    case _ => Err(ConflictingModes)
  }

  /** `parse`: help first, then the port, the output name and the limit,
      then the mode. */
  function Parse(cl: CommandLine, stdoutIsTerminal: bool): Result<Args, Error>
  {
    if cl.help then Err(HelpRequested)
    else
      var port := if cl.port.None? then Some(0) else ParseUnsigned(cl.port.value, U16_MAX);
      var limit := if cl.limit.None? then Some(DEFAULT_LIMIT) else ParseLimit(cl.limit.value);
      if port.None? then Err(PicoArgs("-p", cl.port.value))
      else if limit.None? then Err(PicoArgs("-l", cl.limit.value))
      else
        match SelectMode(cl, stdoutIsTerminal)
        case Err(e) => Err(e)
        case Ok(mode) =>
          Ok(Args(mode, port.value, limit.value, cl.keepRunning, cl.quiet, cl.tunnel))
  }

  /** -h wins over everything else on the command line. */
  lemma {:induction false} HelpFirst(cl: CommandLine, stdoutIsTerminal: bool)
    requires cl.help
    ensures Parse(cl, stdoutIsTerminal) == Err(HelpRequested)
  {
  }

  /** A successful parse carries the mode decision, the flags as given,
      port 0 without -p and a limit of 2 GiB without -l. */
  lemma {:induction false} ParseResult(cl: CommandLine, stdoutIsTerminal: bool)
    requires Parse(cl, stdoutIsTerminal).Ok?
    ensures var a := Parse(cl, stdoutIsTerminal).value;
      !cl.help &&
      SelectMode(cl, stdoutIsTerminal) == Ok(a.mode) &&
      a.keepRunning == cl.keepRunning && a.quiet == cl.quiet && a.useTailscaleFunnel == cl.tunnel &&
      a.port <= U16_MAX &&
      (cl.port.None? ==> a.port == 0) &&
      (cl.limit.None? ==> a.limit == DEFAULT_LIMIT) &&
      (cl.limit.Some? ==> Some(a.limit) == ParseLimit(cl.limit.value))
  {
  }

  /** Mode errors surface only once the values of -p and -l have been
      read successfully; an unreadable value is reported first. */
  lemma {:induction false} ParseErrorOrder(cl: CommandLine, stdoutIsTerminal: bool)
    requires !cl.help
    ensures cl.port.Some? && ParseUnsigned(cl.port.value, U16_MAX).None? ==>
      Parse(cl, stdoutIsTerminal) == Err(PicoArgs("-p", cl.port.value))
    ensures Parse(cl, stdoutIsTerminal) == Err(ConflictingModes) ==> ModeFlags(cl) >= 2
    ensures ModeFlags(cl) >= 2 && cl.port.None? && cl.limit.None? ==>
      Parse(cl, stdoutIsTerminal) == Err(ConflictingModes)
  {
  }
}
