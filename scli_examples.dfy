/** Whole-registry scenarios: declarations, a parse and the queries a host
    program makes afterwards. */
module ScliExamples {
  import opened ScliStrings
  import opened ScliParse
  import opened Scli
  import CStdlib

  /** `atoi` reads the digit prefix and ignores the rest: "42abc" gives 42. */
  lemma AtoiOfDigitsThenLetters()
    ensures CStdlib.Atoi("42abc") == 42
  {
    FortyTwo();
    CStdlib.AtoiDigitPrefix("42", "abc");
    assert "42" + "abc" == "42abc";
  }

  /** A leading `+` is accepted: "+42abc" gives 42. */
  lemma AtoiOfPlusSign()
    ensures CStdlib.Atoi("+42abc") == 42
  {
    FortyTwo();
    CStdlib.AtoiSigned("+", "42", "abc");
    assert "+" + "42" + "abc" == "+42abc";
  }

  /** The digits "42" are worth 42. */
  lemma FortyTwo()
    ensures CStdlib.AllDigits("42") && CStdlib.DigitsValue("42") == 42
  {
    assert "42"[..1] == "4" && "4"[..0] == "";
  }

  /** No digits read as 0: "abc" gives 0. */
  lemma AtoiOfLetters()
    ensures CStdlib.Atoi("abc") == 0
  {
    CStdlib.AtoiNoDigits("abc");
  }

  /** Leading blanks and a sign are accepted: " -17" gives -17. */
  lemma AtoiOfSignedWithBlank()
    ensures CStdlib.Atoi(" -17") == -17
  {
    MinusSeventeen();
    CStdlib.AtoiSkipsSpace(" ", "-17");
    assert " " + "-17" == " -17";
  }

  /** "-17" reads as -17. */
  lemma MinusSeventeen()
    ensures CStdlib.Atoi("-17") == -17
  {
    var digits := "17";
    assert digits[..1] == "1" && "1"[..0] == "";
    assert CStdlib.DigitsValue(digits) == 17;
    CStdlib.DigitRunOfDigits(digits, []);
    assert digits + [] == digits && digits[..2] == digits;
    CStdlib.AtoiOfMinus(digits);
    assert "-" + digits == "-17";
  }

  /** How the example tokens are spelled. */
  lemma ExampleSpellings()
    ensures Dashes(2) + "verbose" + "=" + "3" == "--verbose=3"
    ensures Dashes(1) + "d" == "-d"
    ensures Dashes(2) + "nope" == "--nope"
    ensures '=' !in "verbose" && '=' !in "d" && '=' !in "nope"
  {
    assert Dashes(2) == "--" && Dashes(1) == "-";
  }

  /** The parse of `prog input.txt --verbose=3 -d` against a positional, a
      long option matched by `verbose` and a flag matched by `d`. */
  lemma ExampleParse(params: seq<Param>)
    requires |params| == 3
    requires params[0].kind == Positional && params[1].kind == LongOption && params[2].kind == Flag
    ensures var r := Parse([0], map["verbose" := 1, "d" := 2],
                           ["prog", "input.txt", "--verbose=3", "-d"], Scan(params, false));
            !r.error &&
            r.params[0] == params[0].(found := true, value := "input.txt") &&
            r.params[1] == params[1].(found := true, value := "3") &&
            r.params[2] == params[2].(found := true)
  {
    var positionals: seq<nat> := [0];
    var byPattern := map["verbose" := 1, "d" := 2];
    var args := ["prog", "input.txt", "--verbose=3", "-d"];
    var s0 := Scan(params, false);
    var s1 := Scan(s0.params[0 := s0.params[0].(found := true, value := "input.txt")], false);
    var s2 := Scan(s1.params[1 := s1.params[1].(found := true, value := "3")], false);
    var s3 := Scan(s2.params[2 := s2.params[2].(found := true)], false);
    ExampleSpellings();
    assert Token(positionals, byPattern, args, 1, s0) == Step(s1, 2);
    ParseFromStep(positionals, byPattern, args, 1, s0);
    TokenOptionInline(positionals, byPattern, args, 2, s1, 2, "verbose", "3");
    ParseFromStep(positionals, byPattern, args, 2, s1);
    TokenFlag(positionals, byPattern, args, 3, s2, 1, "d", "");
    ParseFromStep(positionals, byPattern, args, 3, s2);
    calc {
      Parse(positionals, byPattern, args, s0);
      ParseFrom(positionals, byPattern, args, 2, s1);
      ParseFrom(positionals, byPattern, args, 3, s2);
      ParseFrom(positionals, byPattern, args, 4, s3);
      s3;
    }
  }

  /** The declarations of the example: a positional `file`, a long option
      `verbosity` matched by `verbose` and a flag `debug` matched by `d`. */
  method DeclareExample() returns (cli: Cli)
    ensures fresh(cli) && cli.Valid() && !cli.errorOccurred
    ensures |cli.params| == 3 && cli.positionals == [0]
    ensures cli.params[0].kind == Positional && cli.params[1].kind == LongOption && cli.params[2].kind == Flag
    ensures cli.byPattern == map["verbose" := 1, "d" := 2]
    ensures "file" in cli.byName && cli.byName["file"] == 0
    ensures "verbosity" in cli.byName && cli.byName["verbosity"] == 1
    ensures "debug" in cli.byName && cli.byName["debug"] == 2
  {
    cli := new Cli.WithProgram("prog", "prog", "an example");
    StripPatternNoDash("verbose");
    StripPatternNoDash("d");
    cli.AddPositional("file", "");
    cli.AddLongOption("verbosity", "verbose", "");
    cli.AddFlag("debug", "d", "");
  }

  /** Parsing `prog input.txt --verbose=3 -d` with the declarations of
      `DeclareExample` matches all three parameters without error. */
  method ParseExample(cli: Cli)
    requires cli.Valid() && !cli.errorOccurred
    requires |cli.params| == 3 && cli.positionals == [0]
    requires cli.params[0].kind == Positional && cli.params[1].kind == LongOption && cli.params[2].kind == Flag
    requires cli.byPattern == map["verbose" := 1, "d" := 2]
    modifies cli
    ensures cli.Valid() && !cli.errorOccurred && cli.byName == old(cli.byName)
    ensures |cli.params| == 3
    ensures cli.params[0].kind == Positional && cli.params[0].found && cli.params[0].value == "input.txt"
    ensures cli.params[1].kind == LongOption && cli.params[1].found && cli.params[1].value == "3"
    ensures cli.params[2].kind == Flag && cli.params[2].found
  {
    ExampleParse(cli.params);
    cli.Parse(["prog", "input.txt", "--verbose=3", "-d"]);
  }

  /** The example of a positional `file`, a long option `verbosity` and a
      flag `debug` read back through the accessors after the parse. */
  method EndToEnd() returns (fileFound: bool, file: string, verbosity: string, level: int,
                             debugFound: bool, failed: bool)
    ensures fileFound && file == "input.txt"
    ensures verbosity == "3" && level == 3
    ensures debugFound && !failed
  {
    var cli := DeclareExample();
    ParseExample(cli);
    fileFound := cli.Is("file");
    file := cli.Get("file");
    verbosity := cli.Get("verbosity");
    CStdlib.AtoiIntToString(3);
    level := cli.AsInt("verbosity");
    debugFound := cli.Is("debug");
    failed := cli.Error();
  }

  /** The parse of `prog -d` against a single flag matched by `d`. */
  lemma FlagParse(params: seq<Param>)
    requires |params| == 1 && params[0].kind == Flag
    ensures Parse([], map["d" := 0], ["prog", "-d"], Scan(params, false))
              == Scan([params[0].(found := true)], false)
  {
    var byPattern := map["d" := 0];
    var args := ["prog", "-d"];
    var s0 := Scan(params, false);
    var s1 := Scan(params[0 := params[0].(found := true)], false);
    ExampleSpellings();
    TokenFlag([], byPattern, args, 1, s0, 1, "d", "");
    ParseFromStep([], byPattern, args, 1, s0);
    calc {
      Parse([], byPattern, args, s0);
      ParseFrom([], byPattern, args, 2, s1);
      s1;
    }
    assert s1.params == [params[0].(found := true)];
  }

  /** Parsing again does not reset the registry: a flag matched by the first
      parse is still found after a second parse that does not mention it. */
  method ReparseKeepsFound() returns (debugFound: bool, failed: bool)
    ensures debugFound && !failed
  {
    var cli := new Cli();
    StripPatternNoDash("d");
    cli.AddFlag("debug", "d", "");
    assert cli.byPattern == map["d" := 0];
    FlagParse(cli.params);
    cli.Parse(["prog", "-d"]);
    assert cli.params[0].found && !cli.errorOccurred;
    cli.Parse(["prog"]);
    debugFound := cli.Is("debug");
    failed := cli.Error();
  }

  /** The parse of `prog -d --nope` against a single flag matched by `d`. */
  lemma UnknownTokenParse(params: seq<Param>)
    requires |params| == 1 && params[0].kind == Flag
    ensures var r := Parse([], map["d" := 0], ["prog", "-d", "--nope"], Scan(params, false));
            r.error && r.params == [params[0].(found := true)]
  {
    var byPattern := map["d" := 0];
    var args := ["prog", "-d", "--nope"];
    var s0 := Scan(params, false);
    var s1 := Scan(params[0 := params[0].(found := true)], false);
    ExampleSpellings();
    TokenFlag([], byPattern, args, 1, s0, 1, "d", "");
    ParseFromStep([], byPattern, args, 1, s0);
    TokenSpelling(2, "nope", "");
    TokenUnknown([], byPattern, args, 2, s1);
    ParseFromStep([], byPattern, args, 2, s1);
    calc {
      Parse([], byPattern, args, s0);
      ParseFrom([], byPattern, args, 2, s1);
      ParseFrom([], byPattern, args, 3, Scan(s1.params, true));
      Scan(s1.params, true);
    }
  }

  /** An unknown token sets the error flag but does not undo earlier
      matches, and the error flag then survives a later clean parse. */
  method UnknownTokenIsSticky() returns (debugFound: bool, failedFirst: bool, failedAfter: bool)
    ensures debugFound && failedFirst && failedAfter
  {
    var cli := new Cli();
    StripPatternNoDash("d");
    cli.AddFlag("debug", "d", "");
    assert cli.byPattern == map["d" := 0];
    UnknownTokenParse(cli.params);
    cli.Parse(["prog", "-d", "--nope"]);
    assert cli.params[0].found && cli.errorOccurred;
    debugFound := cli.Is("debug");
    failedFirst := cli.Error();
    cli.Parse(["prog"]);
    failedAfter := cli.Error();
  }
}
