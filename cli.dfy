/**
 * The command line of the autopilot (`main` in src/main.cpp). The
 * arguments are scanned once, left to right, from position 1 (position 0
 * is the program name): `-h`/`--help` ends the program with status 0,
 * `-d`/`--debug` turns debug mode on, and `-f`/`--file` and `-i`/`--ip`
 * take the next argument as the OpenCL file and the server address, failing
 * with status 1 when there is no next argument. The value of an option is
 * not skipped: it is scanned again as an argument of its own. A missing
 * address ends the program with status 1; otherwise the autopilot starts.
 */
module CommandLine {
  /** What the autopilot is started with. `debug` is 0 or 1, as in the source. */
  datatype Config = Config(debug: int, file: string, ip: string)

  /** The program either ends with a status or starts the autopilot. */
  datatype Parsed = Exit(code: int) | Run(config: Config)

  /** The two options that take a value. */
  datatype ValueOption = FileOption | IpOption

  predicate IsHelp(a: string)
  {
    a == "-h" || a == "--help"
  }

  predicate IsDebug(a: string)
  {
    a == "-d" || a == "--debug"
  }

  predicate Names(o: ValueOption, a: string)
  {
    match o
    case FileOption => a == "-f" || a == "--file"
    case IpOption => a == "-i" || a == "--ip"
  }

  /** After the scan: no address is an error; a missing file is only a warning. */
  function Finish(debug: int, file: string, ip: string): (r: Parsed)
    ensures r.Exit? <==> ip == ""
    ensures r.Exit? ==> r.code == 1
    ensures r.Run? ==> r.config == Config(debug, file, ip)
  {
    if ip == "" then Exit(1) else Run(Config(debug, file, ip))
  }

  /** The scan from position i with the settings gathered so far. */
  function Scan(args: seq<string>, i: nat, debug: int, file: string, ip: string): Parsed
    decreases |args| - i
  {
    if i >= |args| then Finish(debug, file, ip)
    else
      var arg := args[i];
      if IsHelp(arg) then Exit(0)
      else if IsDebug(arg) then Scan(args, i + 1, 1, file, ip)
      else if Names(FileOption, arg) then
        if i + 1 < |args| then Scan(args, i + 1, debug, args[i + 1], ip) else Exit(1)
      else if Names(IpOption, arg) then
        if i + 1 < |args| then Scan(args, i + 1, debug, file, args[i + 1]) else Exit(1)
      else Scan(args, i + 1, debug, file, ip)
  }

  /** `main`'s treatment of its arguments; the scan runs only when there is more than the program name. */
  function Parse(args: seq<string>): Parsed
  {
    if |args| > 1 then Scan(args, 1, 0, "", "") else Finish(0, "", "")
  }

  /** `main` up to the creation of the autopilot, with its early returns. */
  method ParseArgs(args: seq<string>) returns (r: Parsed)
    ensures r == Parse(args)
  {
    var debug := 0;
    var file := "";
    var ip := "";
    if |args| > 1 {
      for i := 1 to |args|
        invariant Scan(args, i, debug, file, ip) == Parse(args)
      {
        var arg := args[i];
        if arg == "-h" || arg == "--help" {
          return Exit(0);
        } else if arg == "-d" || arg == "--debug" {
          debug := 1;
        } else if arg == "-f" || arg == "--file" {
          if i + 1 < |args| {
            file := args[i + 1];
          } else {
            return Exit(1);
          }
        } else if arg == "-i" || arg == "--ip" {
          if i + 1 < |args| {
            ip := args[i + 1];
          } else {
            return Exit(1);
          }
        }
      }
    }
    if ip == "" {
      return Exit(1);
    }
    return Run(Config(debug, file, ip));
  }

  // An independent description of the outcome.

  /** Some argument at position lo or later asks for help. */
  ghost predicate HelpFrom(args: seq<string>, lo: nat)
  {
    exists k :: lo <= k < |args| && IsHelp(args[k])
  }

  /** Some argument at position lo or later asks for debug mode. */
  ghost predicate DebugFrom(args: seq<string>, lo: nat)
  {
    exists k :: lo <= k < |args| && IsDebug(args[k])
  }

  /**
   * The value given to option o by its last occurrence among positions
   * lo .. hi-1 that has an argument after it, found by searching backwards
   * from hi; d when there is none.
   */
  function LastValue(args: seq<string>, o: ValueOption, lo: nat, hi: nat, d: string): string
    requires hi <= |args|
    decreases hi
  {
    if hi <= lo then d
    else if Names(o, args[hi - 1]) && hi < |args| then args[hi]
    else LastValue(args, o, lo, hi - 1, d)
  }

  /** The last argument is an option that needed a value. */
  predicate DanglingOption(args: seq<string>)
  {
    |args| > 1 && (Names(FileOption, args[|args| - 1]) || Names(IpOption, args[|args| - 1]))
  }

  /**
   * The outcome, described without the scan: help anywhere wins; otherwise
   * an option left without its value fails; otherwise the last value of
   * each option counts, and debug is on when it was asked for anywhere.
   */
  ghost function Outcome(args: seq<string>): Parsed
  {
    if HelpFrom(args, 1) then Exit(0)
    else if DanglingOption(args) then Exit(1)
    else Finish(if DebugFrom(args, 1) then 1 else 0,
                LastValue(args, FileOption, 1, |args|, ""), LastValue(args, IpOption, 1, |args|, ""))
  }

  /** Starting the backwards search one position later, with the value found at lo as the default. */
  lemma {:induction false} LastValueShift(args: seq<string>, o: ValueOption, lo: nat, hi: nat, d: string)
    requires lo < hi <= |args|
    ensures LastValue(args, o, lo, hi, d) ==
            LastValue(args, o, lo + 1, hi, if Names(o, args[lo]) && lo + 1 < |args| then args[lo + 1] else d)
  {
    if hi > lo + 1 {
      LastValueShift(args, o, lo, hi - 1, d);
    }
  }

  /** The scan from position i agrees with the description over positions i and later. */
  lemma {:induction false} ScanOutcome(args: seq<string>, i: nat, debug: int, file: string, ip: string)
    requires 1 <= i <= |args|
    ensures Scan(args, i, debug, file, ip) ==
      if HelpFrom(args, i) then Exit(0)
      else if DanglingOption(args) && i < |args| then Exit(1)
      else Finish(if DebugFrom(args, i) then 1 else debug,
                  LastValue(args, FileOption, i, |args|, file), LastValue(args, IpOption, i, |args|, ip))
    decreases |args| - i
  {
    if i < |args| {
      var arg := args[i];
      LastValueShift(args, FileOption, i, |args|, file);
      LastValueShift(args, IpOption, i, |args|, ip);
      assert HelpFrom(args, i) <==> IsHelp(arg) || HelpFrom(args, i + 1) by {
        if HelpFrom(args, i) && !IsHelp(arg) {
          var k :| i <= k < |args| && IsHelp(args[k]);
          assert k != i;
        }
      }
      assert DebugFrom(args, i) <==> IsDebug(arg) || DebugFrom(args, i + 1) by {
        if DebugFrom(args, i) && !IsDebug(arg) {
          var k :| i <= k < |args| && IsDebug(args[k]);
          assert k != i;
        }
      }
      if IsHelp(arg) {
      } else if i + 1 == |args| {
        assert !HelpFrom(args, i + 1) && !DebugFrom(args, i + 1);
      } else {
        ScanOutcome(args, i + 1, if IsDebug(arg) then 1 else debug,
                    if Names(FileOption, arg) then args[i + 1] else file,
                    if Names(IpOption, arg) then args[i + 1] else ip);
      }
    } else {
      assert !HelpFrom(args, i) && !DebugFrom(args, i);
    }
  }

  /** `main` behaves as the description says, on every argument list. */
  lemma ParseIsOutcome(args: seq<string>)
    ensures Parse(args) == Outcome(args)
  {
    if |args| > 1 {
      ScanOutcome(args, 1, 0, "", "");
    } else {
      assert !HelpFrom(args, 1) && !DebugFrom(args, 1);
    }
  }

  /** Help anywhere after the program name ends the program with status 0, whatever else is given. */
  lemma HelpAnywhereExitsZero(args: seq<string>, k: nat)
    requires 1 <= k < |args| && IsHelp(args[k])
    ensures Parse(args) == Exit(0)
  {
    ParseIsOutcome(args);
  }

  /** The program starts only with a non-empty address, the value of the last `-i`/`--ip`. */
  lemma RunNeedsAddress(args: seq<string>)
    ensures Parse(args).Run? ==>
      Parse(args).config.ip != "" && Parse(args).config.ip == LastValue(args, IpOption, 1, |args|, "")
    ensures Parse(args).Run? ==> Parse(args).config.debug == (if DebugFrom(args, 1) then 1 else 0)
  {
    ParseIsOutcome(args);
  }

  /** The value of an option is scanned again: `-i` followed by `-h` sets no address and asks for help. */
  lemma OptionValueIsRescanned()
    ensures Parse(["navap", "-i", "-h"]) == Exit(0)
    ensures Parse(["navap", "-f", "-i"]) == Exit(1)
    ensures Parse(["navap", "-i", "10.0.0.1", "-i", "10.0.0.2"]) == Run(Config(0, "", "10.0.0.2"))
  {
  }
}
