/** The injector's command-line scan (AppXLauncher.cpp, lines 121-134): `argv[1..argc-1]`
    is searched for "-p <pid>" and "-tid <tid>"; a flag consumes the token after it as its
    value, every other token is skipped, and a repeated flag's last value wins. */
module CommandLine {

  /** ULONG_MAX: `unsigned long` is 32 bits wide on Windows. */
  const ULongMax: nat := 0xFFFF_FFFF

  predicate IsDigit(c: char) {
    '0' <= c <= '9'
  }

  predicate AllDigits(s: string) {
    forall i :: 0 <= i < |s| ==> IsDigit(s[i])
  }

  /** The longest prefix of `s` made of decimal digits. */
  function DigitPrefix(s: string): (d: string)
    ensures |d| <= |s| && d == s[..|d|]
    ensures AllDigits(d)
    ensures |d| < |s| ==> !IsDigit(s[|d|])
  {
    if |s| == 0 || !IsDigit(s[0]) then []
    else [s[0]] + DigitPrefix(s[1..])
  }

  function DigitValue(c: char): nat
    requires IsDigit(c)
  {
    c as int - '0' as int
  }

  /** The number a string of decimal digits denotes. */
  function DecimalValue(d: string): nat
    requires AllDigits(d)
  {
    if |d| == 0 then 0
    else 10 * DecimalValue(d[..|d| - 1]) + DigitValue(d[|d| - 1])
  }

  /** `wcstoul(s, nullptr, 10)` for a string without leading blanks or sign: the value of
      the leading digits, 0 when there are none, ULONG_MAX when it does not fit. */
  function ParseULong(s: string): (v: nat)
    ensures v <= ULongMax
  {
    var n := DecimalValue(DigitPrefix(s));
    if n > ULongMax then ULongMax else n
  }

  /** The canonical decimal spelling of `n`. */
  function DecimalString(n: nat): (d: string)
    ensures |d| > 0 && AllDigits(d)
  {
    var last := ['0' + (n % 10) as char];
    if n < 10 then last else DecimalString(n / 10) + last
  }

  lemma {:induction false} DecimalValueOfString(n: nat)
    ensures DecimalValue(DecimalString(n)) == n
  {
    var d := DecimalString(n);
    assert d[..|d| - 1] == (if n < 10 then [] else DecimalString(n / 10));
    if n >= 10 {
      DecimalValueOfString(n / 10);
    }
  }

  /** Parsing the decimal spelling of a number that fits gives the number back. */
  lemma ParseDecimalString(n: nat)
    requires n <= ULongMax
    ensures ParseULong(DecimalString(n)) == n
  {
    var d := DecimalString(n);
    assert DigitPrefix(d) == d;
    DecimalValueOfString(n);
  }

  predicate AllZeros(d: string) {
    forall i :: 0 <= i < |d| ==> d[i] == '0'
  }

  lemma {:induction false} DecimalValueZero(d: string)
    requires AllDigits(d)
    ensures DecimalValue(d) == 0 <==> AllZeros(d)
  {
    if |d| > 0 {
      var init := d[..|d| - 1];
      assert forall i :: 0 <= i < |init| ==> init[i] == d[i];
      DecimalValueZero(init);
      assert AllZeros(d) <==> AllZeros(init) && d[|d| - 1] == '0';
    }
  }

  /** The parsed value is 0 exactly when the leading digits are all zeros. */
  lemma ParseZeroIff(s: string)
    ensures ParseULong(s) == 0 <==> AllZeros(DigitPrefix(s))
  {
    var d := DigitPrefix(s);
    DecimalValueZero(d);
    assert ParseULong(s) == 0 <==> DecimalValue(d) == 0;
  }

  /** A value that does not start with a digit parses to 0. */
  lemma NonNumericIsZero(s: string)
    requires |s| == 0 || !IsDigit(s[0])
    ensures ParseULong(s) == 0
  {
    assert DigitPrefix(s) == [];
  }

  /** How the scan reads the arguments after the program name: a flag with the token
      that follows it, or a token it skips. */
  datatype Token = ProcessId(value: string) | ThreadId(value: string) | Ignored(arg: string)

  /** The scan's grouping of the tokens, from left to right. A flag is recognised only
      when a value follows it; its value is never looked at as a flag. */
  function Tokenize(args: seq<string>): seq<Token>
    decreases |args|
  {
    if |args| == 0 then []
    else if |args| >= 2 && args[0] == "-p" then [ProcessId(args[1])] + Tokenize(args[2..])
    else if |args| >= 2 && args[0] == "-tid" then [ThreadId(args[1])] + Tokenize(args[2..])
    else [Ignored(args[0])] + Tokenize(args[1..])
  }

  function Spelling(t: Token): seq<string> {
    match t
    case ProcessId(v) => ["-p", v]
    case ThreadId(v) => ["-tid", v]
    case Ignored(a) => [a]
  }

  /** The arguments a sequence of tokens was read from. */
  function Flatten(ts: seq<Token>): seq<string> {
    if |ts| == 0 then [] else Spelling(ts[0]) + Flatten(ts[1..])
  }

  /** Tokenizing loses and invents nothing: every argument is read exactly once. */
  lemma {:induction false} FlattenTokenize(args: seq<string>)
    ensures Flatten(Tokenize(args)) == args
    decreases |args|
  {
    if |args| >= 2 && (args[0] == "-p" || args[0] == "-tid") {
      FlattenTokenize(args[2..]);
      assert Tokenize(args)[1..] == Tokenize(args[2..]);
      assert args == args[..2] + args[2..];
    } else if |args| > 0 {
      FlattenTokenize(args[1..]);
      assert Tokenize(args)[1..] == Tokenize(args[1..]);
      assert args == [args[0]] + args[1..];
    }
  }

  /** No skipped token is itself a flag. */
  predicate WellFormed(ts: seq<Token>) {
    forall i :: 0 <= i < |ts| && ts[i].Ignored? ==> ts[i].arg != "-p" && ts[i].arg != "-tid"
  }

  /** Arguments laid out as flags with values among other tokens are read back as laid out. */
  lemma {:induction false} TokenizeFlatten(ts: seq<Token>)
    requires WellFormed(ts)
    ensures Tokenize(Flatten(ts)) == ts
    decreases |ts|
  {
    if |ts| > 0 {
      assert WellFormed(ts[1..]) by {
        forall i | 0 <= i < |ts[1..]| && ts[1..][i].Ignored?
          ensures ts[1..][i].arg != "-p" && ts[1..][i].arg != "-tid"
        {
          assert ts[1..][i] == ts[i + 1];
        }
      }
      TokenizeFlatten(ts[1..]);
      var args := Flatten(ts);
      assert args == Spelling(ts[0]) + Flatten(ts[1..]);
      match ts[0]
      case ProcessId(v) =>
        assert args[2..] == Flatten(ts[1..]);
      case ThreadId(v) =>
        assert args[2..] == Flatten(ts[1..]);
      case Ignored(a) =>
        assert args[0] == a;
        assert args[1..] == Flatten(ts[1..]);
    }
  }

  /** The process id the scan ends with: the last "-p" value, 0 if there is none. */
  function LastPid(ts: seq<Token>): (v: nat)
    ensures v <= ULongMax
  {
    if |ts| == 0 then 0
    else if ts[|ts| - 1].ProcessId? then ParseULong(ts[|ts| - 1].value)
    else LastPid(ts[..|ts| - 1])
  }

  /** The thread id the scan ends with: the last "-tid" value, 0 if there is none. */
  function LastTid(ts: seq<Token>): (v: nat)
    ensures v <= ULongMax
  {
    if |ts| == 0 then 0
    else if ts[|ts| - 1].ThreadId? then ParseULong(ts[|ts| - 1].value)
    else LastTid(ts[..|ts| - 1])
  }

  lemma LastAfterAppend(ts: seq<Token>, t: Token)
    ensures LastPid(ts + [t]) == if t.ProcessId? then ParseULong(t.value) else LastPid(ts)
    ensures LastTid(ts + [t]) == if t.ThreadId? then ParseULong(t.value) else LastTid(ts)
  {
    assert (ts + [t])[..|ts|] == ts;
  }

  /** The arguments the scan looks at: all but the program name. */
  function Operands(argv: seq<string>): seq<string> {
    if |argv| == 0 then [] else argv[1..]
  }

  /** The (pid, tid) pair the scan of lines 121-134 leaves behind. */
  function Scan(argv: seq<string>): (r: (nat, nat))
    ensures r.0 <= ULongMax && r.1 <= ULongMax
  {
    var ts := Tokenize(Operands(argv));
    (LastPid(ts), LastTid(ts))
  }

  /** Among repeated "-p" flags the last one decides. */
  lemma {:induction false} LastPidWins(before: seq<Token>, v: string, after: seq<Token>)
    requires forall i :: 0 <= i < |after| ==> !after[i].ProcessId?
    ensures LastPid(before + [ProcessId(v)] + after) == ParseULong(v)
    decreases |after|
  {
    var ts := before + [ProcessId(v)] + after;
    if |after| > 0 {
      assert ts[..|ts| - 1] == before + [ProcessId(v)] + after[..|after| - 1];
      LastPidWins(before, v, after[..|after| - 1]);
    }
  }

  /** Among repeated "-tid" flags the last one decides. */
  lemma {:induction false} LastTidWins(before: seq<Token>, v: string, after: seq<Token>)
    requires forall i :: 0 <= i < |after| ==> !after[i].ThreadId?
    ensures LastTid(before + [ThreadId(v)] + after) == ParseULong(v)
    decreases |after|
  {
    var ts := before + [ThreadId(v)] + after;
    if |after| > 0 {
      assert ts[..|ts| - 1] == before + [ThreadId(v)] + after[..|after| - 1];
      LastTidWins(before, v, after[..|after| - 1]);
    }
  }

  /** Without any "-p" flag the process id stays 0. */
  lemma {:induction false} NoPidFlag(ts: seq<Token>)
    requires forall i :: 0 <= i < |ts| ==> !ts[i].ProcessId?
    ensures LastPid(ts) == 0
    decreases |ts|
  {
    if |ts| > 0 {
      NoPidFlag(ts[..|ts| - 1]);
    }
  }

  /** Without any "-tid" flag the thread id stays 0. */
  lemma {:induction false} NoTidFlag(ts: seq<Token>)
    requires forall i :: 0 <= i < |ts| ==> !ts[i].ThreadId?
    ensures LastTid(ts) == 0
    decreases |ts|
  {
    if |ts| > 0 {
      NoTidFlag(ts[..|ts| - 1]);
    }
  }

  /** A single "-p" flag decides the process id, wherever it stands. */
  lemma LastPidOfSingleFlag(ts: seq<Token>, p: nat)
    requires p < |ts| && ts[p].ProcessId?
    requires forall i :: 0 <= i < |ts| && i != p ==> !ts[i].ProcessId?
    ensures LastPid(ts) == ParseULong(ts[p].value)
  {
    var before, after := ts[..p], ts[p + 1..];
    assert ts == before + [ProcessId(ts[p].value)] + after;
    assert forall i :: 0 <= i < |after| ==> after[i] == ts[p + 1 + i];
    LastPidWins(before, ts[p].value, after);
  }

  /** A single "-tid" flag decides the thread id, wherever it stands. */
  lemma LastTidOfSingleFlag(ts: seq<Token>, q: nat)
    requires q < |ts| && ts[q].ThreadId?
    requires forall i :: 0 <= i < |ts| && i != q ==> !ts[i].ThreadId?
    ensures LastTid(ts) == ParseULong(ts[q].value)
  {
    var before, after := ts[..q], ts[q + 1..];
    assert ts == before + [ThreadId(ts[q].value)] + after;
    assert forall i :: 0 <= i < |after| ==> after[i] == ts[q + 1 + i];
    LastTidWins(before, ts[q].value, after);
  }

  /** Whatever the order of "-p", "-tid" and the other tokens, a command line that
      carries each flag once, with the decimal spelling of the intended id, scans to
      exactly those ids. */
  lemma IntendedIdsRecovered(program: string, ts: seq<Token>, p: nat, q: nat, pid: nat, tid: nat)
    requires WellFormed(ts)
    requires p < |ts| && ts[p] == ProcessId(DecimalString(pid)) && pid <= ULongMax
    requires q < |ts| && ts[q] == ThreadId(DecimalString(tid)) && tid <= ULongMax
    requires forall i :: 0 <= i < |ts| && i != p ==> !ts[i].ProcessId?
    requires forall i :: 0 <= i < |ts| && i != q ==> !ts[i].ThreadId?
    ensures Scan([program] + Flatten(ts)) == (pid, tid)
  {
    assert Operands([program] + Flatten(ts)) == Flatten(ts);
    TokenizeFlatten(ts);
    LastPidOfSingleFlag(ts, p);
    LastTidOfSingleFlag(ts, q);
    ParseDecimalString(pid);
    ParseDecimalString(tid);
  }

  /** A flag in the last position has no value to take: the scan skips it. */
  lemma {:induction false} TrailingFlagTokenized(ts: seq<Token>, f: string)
    requires WellFormed(ts) && (f == "-p" || f == "-tid")
    ensures Tokenize(Flatten(ts) + [f]) == ts + [Ignored(f)]
    decreases |ts|
  {
    var args := Flatten(ts) + [f];
    if |ts| == 0 {
      assert args == [f];
    } else {
      assert WellFormed(ts[1..]) by {
        forall i | 0 <= i < |ts[1..]| && ts[1..][i].Ignored?
          ensures ts[1..][i].arg != "-p" && ts[1..][i].arg != "-tid"
        {
          assert ts[1..][i] == ts[i + 1];
        }
      }
      TrailingFlagTokenized(ts[1..], f);
      assert args == Spelling(ts[0]) + (Flatten(ts[1..]) + [f]);
      assert ts + [Ignored(f)] == [ts[0]] + (ts[1..] + [Ignored(f)]);
      match ts[0]
      case ProcessId(v) =>
        assert args[2..] == Flatten(ts[1..]) + [f];
      case ThreadId(v) =>
        assert args[2..] == Flatten(ts[1..]) + [f];
      case Ignored(a) =>
        assert args[0] == a;
        assert args[1..] == Flatten(ts[1..]) + [f];
    }
  }

  /** The guard `i < argc - 1`: a trailing "-p" or "-tid" changes neither id. */
  lemma TrailingFlagIgnored(program: string, ts: seq<Token>, f: string)
    requires WellFormed(ts) && (f == "-p" || f == "-tid")
    ensures Scan([program] + Flatten(ts) + [f]) == Scan([program] + Flatten(ts))
  {
    assert Operands([program] + Flatten(ts) + [f]) == Flatten(ts) + [f];
    assert Operands([program] + Flatten(ts)) == Flatten(ts);
    TrailingFlagTokenized(ts, f);
    TokenizeFlatten(ts);
    LastAfterAppend(ts, Ignored(f));
  }

  /** The loop of lines 121-134. `i` runs over `argv[1..argc-1]`; on a flag it is bumped
      once more so the value at `argv[i]` is consumed, which the guard `i < argc - 1`
      keeps in range. */
  method ScanArgs(argv: seq<string>) returns (pid: nat, tid: nat)
    ensures (pid, tid) == Scan(argv)
    ensures pid <= ULongMax && tid <= ULongMax
  {
    pid, tid := 0, 0;
    var argc := |argv|;
    if argc == 0 {
      return;
    }
    var i := 1;
    ghost var whole := Tokenize(Operands(argv));
    ghost var done: seq<Token> := [];
    while i < argc - 1
      invariant 1 <= i <= argc
      invariant whole == done + Tokenize(argv[i..])
      invariant pid == LastPid(done) && tid == LastTid(done)
      invariant pid <= ULongMax && tid <= ULongMax
    {
      var arg := argv[i];
      ghost var t: Token;
      if arg == "-p" {
        TokenizePidAt(argv, i);
        t := ProcessId(argv[i + 1]);
        i := i + 1;
        pid := ParseULong(argv[i]);
      } else if arg == "-tid" {
        TokenizeTidAt(argv, i);
        t := ThreadId(argv[i + 1]);
        i := i + 1;
        tid := ParseULong(argv[i]);
      } else {
        TokenizeOtherAt(argv, i);
        t := Ignored(arg);
      }
      i := i + 1;
      LastAfterAppend(done, t);
      Regroup(done, t, Tokenize(argv[i..]));
      done := done + [t];
    }
    if i == argc - 1 {
      assert argv[i..] == [argv[i]];
      LastAfterAppend(done, Ignored(argv[i]));
    } else {
      assert argv[i..] == [];
      assert whole == done;
    }
  }

  /** The token read in one turn moves from the unread part to the read part. */
  lemma Regroup(done: seq<Token>, t: Token, rest: seq<Token>)
    ensures done + ([t] + rest) == (done + [t]) + rest
  {
  }

  /** One turn of the scan at a "-p" flag: its value is consumed with it. */
  lemma TokenizePidAt(argv: seq<string>, i: nat)
    requires 1 <= i < |argv| - 1 && argv[i] == "-p"
    ensures Tokenize(argv[i..]) == [ProcessId(argv[i + 1])] + Tokenize(argv[i + 2..])
  {
    assert argv[i..][2..] == argv[i + 2..];
  }

  /** One turn of the scan at a "-tid" flag: its value is consumed with it. */
  lemma TokenizeTidAt(argv: seq<string>, i: nat)
    requires 1 <= i < |argv| - 1 && argv[i] == "-tid"
    ensures Tokenize(argv[i..]) == [ThreadId(argv[i + 1])] + Tokenize(argv[i + 2..])
  {
    assert |argv[i]| == 4;
    assert argv[i..][2..] == argv[i + 2..];
  }

  /** One turn of the scan at any other token: it is skipped. */
  lemma TokenizeOtherAt(argv: seq<string>, i: nat)
    requires 1 <= i < |argv| && argv[i] != "-p" && argv[i] != "-tid"
    ensures Tokenize(argv[i..]) == [Ignored(argv[i])] + Tokenize(argv[i + 1..])
  {
    assert argv[i..][1..] == argv[i + 1..];
  }

  lemma SpellingsOfExampleIds()
    ensures DecimalString(4321) == "4321" && DecimalString(17) == "17"
  {
    assert DecimalString(4) == "4";
    assert DecimalString(43) == "43";
    assert DecimalString(432) == "432";
    assert DecimalString(1) == "1";
  }

  /** The command line of an injector call with `-p 4321 -tid 17`. */
  lemma ScanExample()
    ensures Scan(["AppXLauncher.exe", "-p", "4321", "-tid", "17"]) == (4321, 17)
  {
    SpellingsOfExampleIds();
    var ts := [ProcessId("4321"), ThreadId("17")];
    IntendedIdsRecovered("AppXLauncher.exe", ts, 0, 1, 4321, 17);
    assert ["AppXLauncher.exe"] + Flatten(ts) == ["AppXLauncher.exe", "-p", "4321", "-tid", "17"];
  }

  /** The same ids with the flags the other way round. */
  lemma ScanSwappedExample()
    ensures Scan(["AppXLauncher.exe", "-tid", "17", "-p", "4321"]) == (4321, 17)
  {
    SpellingsOfExampleIds();
    var us := [ThreadId("17"), ProcessId("4321")];
    IntendedIdsRecovered("AppXLauncher.exe", us, 1, 0, 4321, 17);
    assert ["AppXLauncher.exe"] + Flatten(us) == ["AppXLauncher.exe", "-tid", "17", "-p", "4321"];
  }

  /** `-p 0 -tid 9` leaves the process id at 0. */
  lemma ScanZeroPidExample()
    ensures Scan(["AppXLauncher.exe", "-p", "0", "-tid", "9"]) == (0, 9)
  {
    assert DecimalString(0) == "0";
    assert DecimalString(9) == "9";
    var ts := [ProcessId("0"), ThreadId("9")];
    IntendedIdsRecovered("AppXLauncher.exe", ts, 0, 1, 0, 9);
    assert ["AppXLauncher.exe"] + Flatten(ts) == ["AppXLauncher.exe", "-p", "0", "-tid", "9"];
  }
}
