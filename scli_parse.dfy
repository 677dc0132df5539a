/** The parameter records of `scli::CLI` and a functional specification of its
    single-pass parser (`CLI::parse`).

    The C++ registry holds `param_t*` pointers that are shared between the
    positional vector, the name map and the pattern map. Here the records live
    in an arena `params: seq<Param>` and the three indices hold arena
    positions, so a write to `params[j]` is seen through every index that
    holds `j`. */
module ScliParse {
  import opened ScliStrings

  /** `param_type_e`. */
  datatype Kind = Positional | Flag | LongFlag | Option | LongOption

  /** The kinds that carry a value taken from the command line. */
  predicate TakesValue(kind: Kind) {
    kind == Option || kind == LongOption
  }

  /** `param_t`. */
  datatype Param = Param(kind: Kind, name: string, pattern: string, description: string,
                         found: bool, value: string)

  /** `MakeParam`: a record not yet found, with an empty value and the
      declared pattern without its leading dashes. */
  function MakeParam(kind: Kind, name: string, pattern: string, description: string): (p: Param)
    ensures p.kind == kind && p.name == name && p.description == description
    ensures !p.found && p.value == ""
    ensures p.pattern == [] || p.pattern[0] != '-'
    ensures |p.pattern| <= |pattern|
    ensures pattern == Dashes(|pattern| - |p.pattern|) + p.pattern
  {
    var stripped := StripPattern(pattern);
    StripPatternSpec(pattern);
    Param(kind, name, stripped, description, false, "")
  }

  /** Every position held by the positional list or the pattern map is a
      record of the arena. */
  predicate InArena(size: nat, positionals: seq<nat>, byPattern: map<string, nat>) {
    (forall k :: 0 <= k < |positionals| ==> positionals[k] < size) &&
    (forall p :: p in byPattern ==> byPattern[p] < size)
  }

  /** The positional list and the pattern map reach disjoint records: the
      former only positional ones, each at most once, the latter only
      non-positional ones. */
  predicate Separated(params: seq<Param>, positionals: seq<nat>, byPattern: map<string, nat>) {
    InArena(|params|, positionals, byPattern) &&
    (forall k :: 0 <= k < |positionals| ==> params[positionals[k]].kind == Positional) &&
    (forall k, l :: 0 <= k < l < |positionals| ==> positionals[k] != positionals[l]) &&
    (forall p :: p in byPattern ==> params[byPattern[p]].kind != Positional)
  }

  /** The invariant the declaration calls keep: the indices agree with the
      records they reach, and every record's pattern is dash-stripped. */
  predicate WellFormed(params: seq<Param>, positionals: seq<nat>,
                       byName: map<string, nat>, byPattern: map<string, nat>) {
    Separated(params, positionals, byPattern) &&
    (forall n :: n in byName ==> byName[n] < |params| && params[byName[n]].name == n) &&
    (forall p :: p in byPattern ==> params[byPattern[p]].pattern == p) &&
    (forall j :: 0 <= j < |params| ==> params[j].pattern == [] || params[j].pattern[0] != '-')
  }

  /** Parsing changes only `found` and `value`. */
  predicate SameShape(a: seq<Param>, b: seq<Param>) {
    |a| == |b| &&
    forall j :: 0 <= j < |a| ==>
      a[j].kind == b[j].kind && a[j].name == b[j].name &&
      a[j].pattern == b[j].pattern && a[j].description == b[j].description
  }

  /** The part of the registry that parsing writes: the records and the
      sticky error flag. */
  datatype Scan = Scan(params: seq<Param>, error: bool)

  /** The state after one loop iteration and the next value of `i`. */
  datatype Step = Step(scan: Scan, next: nat)

  /** The pattern a token is looked up under: the text before its first `=`,
      dash-stripped. */
  function TokenPattern(token: string): (r: string)
    ensures r == [] || r[0] != '-'
    ensures '=' !in r
  {
    var split := SplitAtEqual(token, token).pattern;
    StripPatternSpec(split);
    StripPattern(split)
  }

  /** The inline value of a token: the text after its first `=`, or "". */
  function InlineValue(token: string): (r: string)
    ensures r != "" ==> '=' in token && |r| < |token|
  {
    SplitAtEqual(token, token).value
  }

  /** One iteration of the loop of `CLI::parse` at index `i`: the token goes
      to the positional at `i - 1` if there is one, otherwise it is matched
      by pattern. */
  function Token(positionals: seq<nat>, byPattern: map<string, nat>, args: seq<string>,
                 i: nat, s: Scan): (r: Step)
    requires 1 <= i < |args|
    requires InArena(|s.params|, positionals, byPattern)
    ensures i < r.next <= |args| && r.next <= i + 2
    ensures |r.scan.params| == |s.params|
  {
    if i - 1 < |positionals| then
      var j := positionals[i - 1];
      Step(Scan(s.params[j := s.params[j].(found := true, value := args[i])], s.error), i + 1)
    else
      MatchToken(byPattern, args, i, s)
  }

  /** A token past the positionals: split at its first `=`, dash-stripped and
      looked up in the pattern map. */
  function MatchToken(byPattern: map<string, nat>, args: seq<string>, i: nat, s: Scan): (r: Step)
    requires 1 <= i < |args|
    requires forall p :: p in byPattern ==> byPattern[p] < |s.params|
    ensures i < r.next <= |args| && r.next <= i + 2
    ensures |r.scan.params| == |s.params|
  {
    var pattern := TokenPattern(args[i]);
    var value := InlineValue(args[i]);
    if pattern in byPattern then
      var j := byPattern[pattern];
      var p := s.params[j].(found := true);
      if TakesValue(p.kind) then
        if |value| > 0 then Step(Scan(s.params[j := p.(value := value)], s.error), i + 1)
        else if i < |args| - 1 then Step(Scan(s.params[j := p.(value := args[i + 1])], s.error), i + 2)
        else Step(Scan(s.params[j := p], true), i + 1)
      else
        Step(Scan(s.params[j := p], s.error || |value| > 0), i + 1)
    else
      Step(Scan(s.params, true), i + 1)
  }

  /** One iteration changes only `found` and `value`. */
  lemma TokenShape(positionals: seq<nat>, byPattern: map<string, nat>, args: seq<string>,
                   i: nat, s: Scan)
    requires 1 <= i < |args|
    requires InArena(|s.params|, positionals, byPattern)
    ensures SameShape(s.params, Token(positionals, byPattern, args, i, s).scan.params)
  {
    if i - 1 >= |positionals| {
      MatchTokenShape(byPattern, args, i, s);
    }
  }

  /** The matched branch changes only `found` and `value` of the record it
      reaches. */
  lemma MatchTokenShape(byPattern: map<string, nat>, args: seq<string>, i: nat, s: Scan)
    requires 1 <= i < |args|
    requires forall p :: p in byPattern ==> byPattern[p] < |s.params|
    ensures SameShape(s.params, MatchToken(byPattern, args, i, s).scan.params)
  {
    var pattern := TokenPattern(args[i]);
    if pattern in byPattern {
      var j := byPattern[pattern];
      var r := MatchToken(byPattern, args, i, s).scan.params;
      assert r[j].kind == s.params[j].kind && r[j].name == s.params[j].name;
      assert forall k :: 0 <= k < |r| && k != j ==> r[k] == s.params[k];
    }
  }

  /** The loop of `CLI::parse` from index `i` to the end of `args`. */
  function ParseFrom(positionals: seq<nat>, byPattern: map<string, nat>, args: seq<string>,
                     i: nat, s: Scan): (r: Scan)
    requires 1 <= i
    requires InArena(|s.params|, positionals, byPattern)
    ensures |r.params| == |s.params|
    decreases |args| - i
  {
    if i >= |args| then s
    else
      var st := Token(positionals, byPattern, args, i, s);
      ParseFrom(positionals, byPattern, args, st.next, st.scan)
  }

  /** One unfolding of the loop: after the token at `i`, the parse goes on
      from the next index. */
  lemma ParseFromStep(positionals: seq<nat>, byPattern: map<string, nat>, args: seq<string>,
                      i: nat, s: Scan)
    requires 1 <= i < |args|
    requires InArena(|s.params|, positionals, byPattern)
    ensures var st := Token(positionals, byPattern, args, i, s);
            ParseFrom(positionals, byPattern, args, i, s) == ParseFrom(positionals, byPattern, args, st.next, st.scan)
  {
  }

  /** Parsing changes only `found` and `value` of the records. */
  lemma {:induction false} ParseFromShape(positionals: seq<nat>, byPattern: map<string, nat>,
                                          args: seq<string>, i: nat, s: Scan)
    requires 1 <= i
    requires InArena(|s.params|, positionals, byPattern)
    ensures SameShape(s.params, ParseFrom(positionals, byPattern, args, i, s).params)
    decreases |args| - i
  {
    if i < |args| {
      var st := Token(positionals, byPattern, args, i, s);
      TokenShape(positionals, byPattern, args, i, s);
      ParseFromShape(positionals, byPattern, args, st.next, st.scan);
    }
  }

  /** `CLI::parse(argc, argv)` on the records and the error flag; `args[0]`
      is the invocation token and is skipped. */
  function Parse(positionals: seq<nat>, byPattern: map<string, nat>, args: seq<string>,
                 s: Scan): (r: Scan)
    requires InArena(|s.params|, positionals, byPattern)
    ensures SameShape(s.params, r.params)
  {
    ParseFromShape(positionals, byPattern, args, 1, s);
    ParseFrom(positionals, byPattern, args, 1, s)
  }

  /** Nothing is rolled back: the error flag once set stays set, and a record
      once found stays found. In particular a second parse whose tokens omit
      a parameter matched by the first leaves it `found`. */
  lemma {:induction false} ParseMonotone(positionals: seq<nat>, byPattern: map<string, nat>,
                                         args: seq<string>, i: nat, s: Scan)
    requires 1 <= i
    requires InArena(|s.params|, positionals, byPattern)
    ensures s.error ==> ParseFrom(positionals, byPattern, args, i, s).error
    ensures forall j :: 0 <= j < |s.params| && s.params[j].found ==>
              ParseFrom(positionals, byPattern, args, i, s).params[j].found
    decreases |args| - i
  {
    if i < |args| {
      var st := Token(positionals, byPattern, args, i, s);
      ParseMonotone(positionals, byPattern, args, st.next, st.scan);
    }
  }

  /** A record that is no positional still ahead and that the pattern map
      does not reach is left as it is. */
  lemma {:induction false} ParseFromUntouched(positionals: seq<nat>, byPattern: map<string, nat>,
                                              args: seq<string>, i: nat, s: Scan, j: nat)
    requires 1 <= i
    requires InArena(|s.params|, positionals, byPattern)
    requires j < |s.params|
    requires forall k :: i - 1 <= k < |positionals| ==> positionals[k] != j
    requires forall p :: p in byPattern ==> byPattern[p] != j
    ensures ParseFrom(positionals, byPattern, args, i, s).params[j] == s.params[j]
    decreases |args| - i
  {
    if i < |args| {
      var st := Token(positionals, byPattern, args, i, s);
      ParseFromUntouched(positionals, byPattern, args, st.next, st.scan, j);
    }
  }

  /** A token at a positional slot is that positional's value, whatever it
      looks like. */
  lemma TokenPositional(positionals: seq<nat>, byPattern: map<string, nat>, args: seq<string>,
                        i: nat, s: Scan)
    requires 1 <= i < |args| && i - 1 < |positionals|
    requires InArena(|s.params|, positionals, byPattern)
    ensures var j := positionals[i - 1];
            Token(positionals, byPattern, args, i, s)
              == Step(Scan(s.params[j := s.params[j].(found := true, value := args[i])], s.error), i + 1)
  {
  }

  /** The positionals still ahead at index `i` receive their tokens. */
  lemma {:induction false} ParseFromPositionals(positionals: seq<nat>, byPattern: map<string, nat>,
                                                args: seq<string>, i: nat, s: Scan)
    requires 1 <= i
    requires Separated(s.params, positionals, byPattern)
    ensures forall k :: i - 1 <= k < |positionals| && k + 1 < |args| ==>
              ParseFrom(positionals, byPattern, args, i, s).params[positionals[k]]
                == s.params[positionals[k]].(found := true, value := args[k + 1])
    decreases |args| - i
  {
    if i < |args| && i - 1 < |positionals| {
      var j := positionals[i - 1];
      var given := s.params[j].(found := true, value := args[i]);
      var t := Scan(s.params[j := given], s.error);
      TokenPositional(positionals, byPattern, args, i, s);
      ParseFromStep(positionals, byPattern, args, i, s);
      assert Separated(t.params, positionals, byPattern);
      ParseFromPositionals(positionals, byPattern, args, i + 1, t);
      assert forall k :: i <= k < |positionals| ==> positionals[k] != j;
      ParseFromUntouched(positionals, byPattern, args, i + 1, t, j);
    }
  }

  /** The first `|positionals|` tokens after the invocation token go to the
      positionals in declared order, whatever they look like (a token such as
      `-x` is still a positional value), and later tokens never overwrite
      them. */
  lemma ParseAssignsPositionals(positionals: seq<nat>, byPattern: map<string, nat>,
                                args: seq<string>, s: Scan)
    requires Separated(s.params, positionals, byPattern)
    ensures forall k :: 0 <= k < |positionals| && k + 1 < |args| ==>
              Parse(positionals, byPattern, args, s).params[positionals[k]]
                == s.params[positionals[k]].(found := true, value := args[k + 1])
  {
    ParseFromPositionals(positionals, byPattern, args, 1, s);
  }

  /** A token past the positionals whose pattern is not declared sets the
      error flag and changes no record. */
  lemma TokenUnknown(positionals: seq<nat>, byPattern: map<string, nat>, args: seq<string>,
                     i: nat, s: Scan)
    requires |positionals| < i < |args|
    requires InArena(|s.params|, positionals, byPattern)
    requires TokenPattern(args[i]) !in byPattern
    ensures Token(positionals, byPattern, args, i, s) == Step(Scan(s.params, true), i + 1)
  {
  }

  /** How a token spelled `-…-p=v` or `-…-p` is looked up: under `p`, with
      inline value `v` or "". */
  lemma TokenSpelling(n: nat, p: string, v: string)
    requires p == [] || p[0] != '-'
    requires '=' !in p
    ensures TokenPattern(Dashes(n) + p + "=" + v) == p
    ensures InlineValue(Dashes(n) + p + "=" + v) == v
    ensures TokenPattern(Dashes(n) + p) == p
    ensures InlineValue(Dashes(n) + p) == ""
  {
    var d := Dashes(n) + p;
    assert '=' !in d;
    SplitAtEqualJoin(d, v, d + "=" + v);
    StripPatternDashes(n, p);
  }

  /** An option given as `-…-p=v` with a non-empty `v` stores `v`, is marked
      found and does not consume the next token. */
  lemma TokenOptionInline(positionals: seq<nat>, byPattern: map<string, nat>, args: seq<string>,
                          i: nat, s: Scan, n: nat, p: string, v: string)
    requires |positionals| < i < |args|
    requires InArena(|s.params|, positionals, byPattern)
    requires p == [] || p[0] != '-'
    requires '=' !in p
    requires args[i] == Dashes(n) + p + "=" + v && v != ""
    requires p in byPattern && TakesValue(s.params[byPattern[p]].kind)
    ensures var j := byPattern[p];
            Token(positionals, byPattern, args, i, s)
              == Step(Scan(s.params[j := s.params[j].(found := true, value := v)], s.error), i + 1)
  {
    TokenSpelling(n, p, v);
  }

  /** An option given as `-…-p` or `-…-p=` (an empty inline value counts as
      none) takes the next token as its value and skips it. */
  lemma TokenOptionNext(positionals: seq<nat>, byPattern: map<string, nat>, args: seq<string>,
                        i: nat, s: Scan, n: nat, p: string)
    requires |positionals| < i < |args| - 1
    requires InArena(|s.params|, positionals, byPattern)
    requires p == [] || p[0] != '-'
    requires '=' !in p
    requires args[i] == Dashes(n) + p || args[i] == Dashes(n) + p + "="
    requires p in byPattern && TakesValue(s.params[byPattern[p]].kind)
    ensures var j := byPattern[p];
            Token(positionals, byPattern, args, i, s)
              == Step(Scan(s.params[j := s.params[j].(found := true, value := args[i + 1])], s.error), i + 2)
  {
    TokenSpelling(n, p, "");
  }

  /** An option that is the last token and has no inline value is still
      marked found, keeps its old value, and sets the error flag. */
  lemma TokenOptionMissingValue(positionals: seq<nat>, byPattern: map<string, nat>, args: seq<string>,
                                s: Scan, n: nat, p: string)
    requires |positionals| < |args| - 1
    requires InArena(|s.params|, positionals, byPattern)
    requires p == [] || p[0] != '-'
    requires '=' !in p
    requires args[|args| - 1] == Dashes(n) + p || args[|args| - 1] == Dashes(n) + p + "="
    requires p in byPattern && TakesValue(s.params[byPattern[p]].kind)
    ensures var j := byPattern[p];
            Token(positionals, byPattern, args, |args| - 1, s)
              == Step(Scan(s.params[j := s.params[j].(found := true)], true), |args|)
  {
    TokenSpelling(n, p, "");
  }

  /** A flag is marked found; an inline value given to it sets the error flag,
      an empty one (`-d=`) does not. */
  lemma TokenFlag(positionals: seq<nat>, byPattern: map<string, nat>, args: seq<string>,
                  i: nat, s: Scan, n: nat, p: string, v: string)
    requires |positionals| < i < |args|
    requires InArena(|s.params|, positionals, byPattern)
    requires p == [] || p[0] != '-'
    requires '=' !in p
    requires args[i] == Dashes(n) + p + "=" + v || (v == "" && args[i] == Dashes(n) + p)
    requires p in byPattern && s.params[byPattern[p]].kind in {Flag, LongFlag}
    ensures var j := byPattern[p];
            Token(positionals, byPattern, args, i, s)
              == Step(Scan(s.params[j := s.params[j].(found := true)], s.error || v != ""), i + 1)
  {
    TokenSpelling(n, p, v);
  }

  /** With no positionals declared, `prog -…-p v` and `prog -…-p=v` leave an
      option in the same state: found, with value `v`. */
  lemma InlineValueSameAsNextToken(byPattern: map<string, nat>, s: Scan,
                                   prog: string, n: nat, p: string, v: string)
    requires InArena(|s.params|, [], byPattern)
    requires p == [] || p[0] != '-'
    requires '=' !in p
    requires v != ""
    requires p in byPattern && TakesValue(s.params[byPattern[p]].kind)
    ensures var j := byPattern[p];
            var expected := Scan(s.params[j := s.params[j].(found := true, value := v)], s.error);
            Parse([], byPattern, [prog, Dashes(n) + p, v], s) == expected &&
            Parse([], byPattern, [prog, Dashes(n) + p + "=" + v], s) == expected
  {
    var j := byPattern[p];
    var expected := Scan(s.params[j := s.params[j].(found := true, value := v)], s.error);
    var apart := [prog, Dashes(n) + p, v];
    TokenOptionNext([], byPattern, apart, 1, s, n, p);
    assert Parse([], byPattern, apart, s) == ParseFrom([], byPattern, apart, 3, expected);
    var joined := [prog, Dashes(n) + p + "=" + v];
    TokenOptionInline([], byPattern, joined, 1, s, n, p, v);
    assert Parse([], byPattern, joined, s) == ParseFrom([], byPattern, joined, 2, expected);
  }
}
