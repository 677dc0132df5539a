/** `scli::CLI`: the registry of declared parameters, the parser that fills
    it from the argument vector, and the accessors that read it back. Every
    failure sets one sticky error flag; nothing but the constructors clears
    it. */
module Scli {
  import opened ScliStrings
  import opened ScliParse
  import CStdlib

  class Cli {
    const programName: string
    const programCommand: string
    const programDesc: string

    /** The `param_t` records, in declaration order. The three indices below
        hold positions in this sequence, standing for the shared pointers. */
    var params: seq<Param>
    /** `positionals`: the positional parameters in declared order. */
    var positionals: seq<nat>
    /** `params_by_name`. */
    var byName: map<string, nat>
    /** `params_by_pattern`, keyed by dash-stripped pattern. */
    var byPattern: map<string, nat>

    var wasParsed: bool
    var errorOccurred: bool

    ghost predicate Valid()
      reads this
    {
      WellFormed(params, positionals, byName, byPattern)
    }

    /** `CLI()`: an empty registry with no error. */
    constructor ()
      ensures Valid()
      ensures programName == "" && programCommand == "" && programDesc == ""
      ensures params == [] && positionals == [] && byName == map[] && byPattern == map[]
      ensures !wasParsed && !errorOccurred
    {
      programName, programCommand, programDesc := "", "", "";
      params, positionals, byName, byPattern := [], [], map[], map[];
      wasParsed, errorOccurred := false, false;
    }

    /** `CLI(program_name, program_command, program_desc)`. */
    constructor WithProgram(name: string, command: string, desc: string)
      ensures Valid()
      ensures programName == name && programCommand == command && programDesc == desc
      ensures params == [] && positionals == [] && byName == map[] && byPattern == map[]
      ensures !wasParsed && !errorOccurred
    {
      programName, programCommand, programDesc := name, command, desc;
      params, positionals, byName, byPattern := [], [], map[], map[];
      wasParsed, errorOccurred := false, false;
    }

    /** `addPositional`: a new positional record is appended to the positional
        list and indexed by name (replacing any earlier holder of the name);
        the pattern map is not touched. */
    method AddPositional(name: string, description: string)
      requires Valid()
      modifies this
      ensures Valid()
      ensures params == old(params) + [MakeParam(Positional, name, "", description)]
      ensures positionals == old(positionals) + [|old(params)|]
      ensures byName == old(byName)[name := |old(params)|]
      ensures byPattern == old(byPattern)
      ensures wasParsed == old(wasParsed) && errorOccurred == old(errorOccurred)
    {
      var param := MakeParam(Positional, name, "", description);
      var index := |params|;
      params := params + [param];
      positionals := positionals + [index];
      byName := byName[name := index];
    }

    /** The common body of `addFlag`, `addLongFlag`, `addOption` and
        `addLongOption`: a new record indexed by name and by its stripped
        pattern, each replacing any earlier entry under the same key. */
    method AddMatched(kind: Kind, name: string, pattern: string, description: string)
      requires Valid()
      requires kind != Positional
      modifies this
      ensures Valid()
      ensures params == old(params) + [MakeParam(kind, name, pattern, description)]
      ensures positionals == old(positionals)
      ensures byName == old(byName)[name := |old(params)|]
      ensures byPattern == old(byPattern)[StripPattern(pattern) := |old(params)|]
      ensures wasParsed == old(wasParsed) && errorOccurred == old(errorOccurred)
    {
      var param := MakeParam(kind, name, pattern, description);
      var index := |params|;
      params := params + [param];
      byName := byName[name := index];
      byPattern := byPattern[param.pattern := index];
    }

    /** `addFlag`. */
    method AddFlag(name: string, pattern: string, description: string)
      requires Valid()
      modifies this
      ensures Valid()
      ensures params == old(params) + [MakeParam(Flag, name, pattern, description)]
      ensures positionals == old(positionals)
      ensures byName == old(byName)[name := |old(params)|]
      ensures byPattern == old(byPattern)[StripPattern(pattern) := |old(params)|]
      ensures wasParsed == old(wasParsed) && errorOccurred == old(errorOccurred)
    {
      AddMatched(Flag, name, pattern, description);
    }

    /** `addLongFlag`. */
    method AddLongFlag(name: string, pattern: string, description: string)
      requires Valid()
      modifies this
      ensures Valid()
      ensures params == old(params) + [MakeParam(LongFlag, name, pattern, description)]
      ensures positionals == old(positionals)
      ensures byName == old(byName)[name := |old(params)|]
      ensures byPattern == old(byPattern)[StripPattern(pattern) := |old(params)|]
      ensures wasParsed == old(wasParsed) && errorOccurred == old(errorOccurred)
    {
      AddMatched(LongFlag, name, pattern, description);
    }

    /** `addOption`. */
    method AddOption(name: string, pattern: string, description: string)
      requires Valid()
      modifies this
      ensures Valid()
      ensures params == old(params) + [MakeParam(Option, name, pattern, description)]
      ensures positionals == old(positionals)
      ensures byName == old(byName)[name := |old(params)|]
      ensures byPattern == old(byPattern)[StripPattern(pattern) := |old(params)|]
      ensures wasParsed == old(wasParsed) && errorOccurred == old(errorOccurred)
    {
      AddMatched(Option, name, pattern, description);
    }

    /** `addLongOption`. */
    method AddLongOption(name: string, pattern: string, description: string)
      requires Valid()
      modifies this
      ensures Valid()
      ensures params == old(params) + [MakeParam(LongOption, name, pattern, description)]
      ensures positionals == old(positionals)
      ensures byName == old(byName)[name := |old(params)|]
      ensures byPattern == old(byPattern)[StripPattern(pattern) := |old(params)|]
      ensures wasParsed == old(wasParsed) && errorOccurred == old(errorOccurred)
    {
      AddMatched(LongOption, name, pattern, description);
    }

    /** `parse(argc, argv)`, with `args` standing for `argv[0..argc)`. The
        records and the error flag end as the specification `Parse` says; the
        indices are unchanged; the error flag is never cleared; and the first
        tokens after `args[0]` went to the positionals in declared order. */
    method Parse(args: seq<string>)
      requires Valid()
      modifies this
      ensures Valid()
      ensures wasParsed
      ensures positionals == old(positionals) && byName == old(byName) && byPattern == old(byPattern)
      ensures Scan(params, errorOccurred)
                == ScliParse.Parse(positionals, byPattern, args, Scan(old(params), old(errorOccurred)))
      ensures old(errorOccurred) ==> errorOccurred
      ensures forall k :: 0 <= k < |positionals| && k + 1 < |args| ==>
                params[positionals[k]].found && params[positionals[k]].value == args[k + 1]
    {
      wasParsed := true;
      ghost var start := Scan(params, errorOccurred);
      var i := 1;
      while i < |args|
        invariant 1 <= i
        invariant Valid() && wasParsed
        invariant positionals == old(positionals) && byName == old(byName) && byPattern == old(byPattern)
        invariant ParseFrom(positionals, byPattern, args, i, Scan(params, errorOccurred))
                    == ParseFrom(positionals, byPattern, args, 1, start)
        decreases |args| - i
      {
        ParseFromStep(positionals, byPattern, args, i, Scan(params, errorOccurred));
        i := ParseToken(args, i);
      }
      ParseMonotone(positionals, byPattern, args, 1, start);
      ParseAssignsPositionals(positionals, byPattern, args, start);
    }

    /** One iteration of the loop of `parse` on the token at `i`. Returns the
        index of the next token to look at. */
    method ParseToken(args: seq<string>, i: nat) returns (next: nat)
      requires Valid()
      requires 1 <= i < |args|
      modifies this`params, this`errorOccurred
      ensures Valid()
      ensures Step(Scan(params, errorOccurred), next)
                == Token(positionals, byPattern, args, i, Scan(old(params), old(errorOccurred)))
    {
      if i - 1 < |positionals| {
        var j := positionals[i - 1];
        params := params[j := params[j].(found := true, value := args[i])];
        next := i + 1;
      } else {
        next := MatchToken(args, i);
      }
    }

    /** The branch of the loop body for a token past the positionals: the
        token is split at its first `=`, the part before it dash-stripped and
        looked up. An option takes a non-empty inline value, or else the next
        token (skipping it, as `parse` does with `i += 1`); an option with neither, an
        unknown pattern and a flag given an inline value set the error flag. */
    method MatchToken(args: seq<string>, i: nat) returns (next: nat)
      requires Valid()
      requires 1 <= i < |args|
      modifies this`params, this`errorOccurred
      ensures Valid()
      ensures Step(Scan(params, errorOccurred), next)
                == ScliParse.MatchToken(byPattern, args, i, Scan(old(params), old(errorOccurred)))
    {
      next := i;
      var split := SplitAtEqual(args[next], args[next]);
      var pattern := StripPattern(split.pattern);
      var value := split.value;
      if pattern in byPattern {
        var j := byPattern[pattern];
        params := params[j := params[j].(found := true)];
        if params[j].kind == Option || params[j].kind == LongOption {
          if |value| > 0 {
            params := params[j := params[j].(value := value)];
          } else if next < |args| - 1 {
            next := next + 1;
            params := params[j := params[j].(value := args[next])];
          } else {
            errorOccurred := true;
          }
        } else {
          if |value| > 0 {
            errorOccurred := true;
          }
        }
      } else {
        errorOccurred := true;
      }
      next := next + 1;
    }

    /** `is(name)`: whether the named parameter was found; an undeclared name
        answers false and sets the error flag. */
    method Is(name: string) returns (found: bool)
      requires Valid()
      modifies this`errorOccurred
      ensures Valid()
      ensures name in byName ==> found == params[byName[name]].found && errorOccurred == old(errorOccurred)
      ensures name !in byName ==> !found && errorOccurred
    {
      if name !in byName {
        errorOccurred := true;
        return false;
      }
      return params[byName[name]].found;
    }

    /** `operator[](name)`: the value of a declared positional or option that
        was found; otherwise "" with the error flag set (undeclared name, a
        flag kind, or a parameter not found). */
    method Get(name: string) returns (value: string)
      requires Valid()
      modifies this`errorOccurred
      ensures Valid()
      ensures name !in byName ==> value == "" && errorOccurred
      ensures name in byName ==>
                var p := params[byName[name]];
                if (p.kind == Positional || TakesValue(p.kind)) && p.found
                then value == p.value && errorOccurred == old(errorOccurred)
                else value == "" && errorOccurred
    {
      if name !in byName {
        errorOccurred := true;
        return "";
      }
      var param := params[byName[name]];
      if param.kind != Option && param.kind != LongOption && param.kind != Positional {
        errorOccurred := true;
        return "";
      }
      if param.found {
        return param.value;
      } else {
        errorOccurred := true;
        return "";
      }
    }

    /** `asInt(name)`: `atoi` of the value `Get` would return; -1 with the
        error flag set in the cases where `Get` fails. */
    method AsInt(name: string) returns (n: int)
      requires Valid()
      modifies this`errorOccurred
      ensures Valid()
      ensures name !in byName ==> n == -1 && errorOccurred
      ensures name in byName ==>
                var p := params[byName[name]];
                if (p.kind == Positional || TakesValue(p.kind)) && p.found
                then n == CStdlib.Atoi(p.value) && errorOccurred == old(errorOccurred)
                else n == -1 && errorOccurred
    {
      if name !in byName {
        errorOccurred := true;
        return -1;
      }
      var param := params[byName[name]];
      if param.kind != Option && param.kind != LongOption && param.kind != Positional {
        errorOccurred := true;
        return -1;
      }
      if param.found {
        return CStdlib.Atoi(param.value);
      } else {
        errorOccurred := true;
        return -1;
      }
    }

    /** `error()`: whether any parse or query so far failed. */
    method Error() returns (failed: bool)
      ensures failed == errorOccurred
    {
      return errorOccurred;
    }
  }
}
