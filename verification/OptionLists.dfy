/** The comma-separated lists of benchmarks and PMU events on the command line. */
module OptionLists {
  import opened Sync

  const WORD32: nat := 0x1_0000_0000

  // ----- what a list means: the pieces between commas ----------------------------------

  function Pieces(s: string): (ps: seq<string>)
    ensures |ps| > 0
  {
    if s == "" then [""]
    else
      var ps := Pieces(s[1..]);
      if s[0] == ',' then [""] + ps else [[s[0]] + ps[0]] + ps[1..]
  }

  /** Pieces put together with commas. */
  function Join(ps: seq<string>): string {
    if ps == [] then "" else if |ps| == 1 then ps[0] else ps[0] + "," + Join(ps[1..])
  }

  /** No piece has a comma, and the pieces joined with commas are the list. */
  lemma {:induction false} PiecesJoin(s: string)
    ensures Join(Pieces(s)) == s && forall p | p in Pieces(s) :: ',' !in p
  {
    if s != "" {
      PiecesJoin(s[1..]);
      var ps := Pieces(s[1..]);
      assert s == [s[0]] + s[1..];
      if s[0] != ',' && |ps| > 1 {
        assert [s[0]] + (ps[0] + "," + Join(ps[1..])) == [s[0]] + ps[0] + "," + Join(ps[1..]);
      }
    }
  }

  function NonEmpty(ps: seq<string>): (r: seq<string>)
    ensures |r| <= |ps|
    ensures |r| == |ps| <==> "" !in ps
    ensures forall p :: p in r <==> p in ps && p != ""
  {
    if ps == [] then [] else (if ps[0] == "" then [] else [ps[0]]) + NonEmpty(ps[1..])
  }

  /** count_chars. */
  method CountChars(s: string, c: char) returns (chars: nat)
    ensures chars == |set i: nat | i < |s| && s[i] == c|
    ensures c == ',' ==> chars + 1 == |Pieces(s)|
  {
    chars := 0;
    ghost var places: set<nat> := {};
    assert s[0..] == s;
    for i := 0 to |s|
      invariant places == (set k: nat | k < i && s[k] == c) && chars == |places|
      invariant c == ',' ==> chars + |Pieces(s[i..])| == |Pieces(s)|
    {
      assert s[i..][0] == s[i] && s[i..][1..] == s[i + 1..];
      if s[i] == c {
        chars := chars + 1;
        places := places + {i};
      }
    }
  }

  // ----- what strtok does with it --------------------------------------------------------

  function Skip(s: string): (t: string)
    ensures |t| <= |s| && (t != "" ==> t[0] != ',')
  {
    if s != "" && s[0] == ',' then Skip(s[1..]) else s
  }

  function Word(s: string): (w: string)
    ensures |w| <= |s|
  {
    if s == "" || s[0] == ',' then "" else [s[0]] + Word(s[1..])
  }

  /** What is left after the first word and the comma that ends it. */
  function AfterWord(s: string): (t: string)
    ensures |t| <= |s| && (s != "" ==> |t| < |s| || Word(s) == "")
  {
    var n := |Word(s)|;
    if n < |s| then s[n + 1..] else s[n..]
  }

  /** All tokens of repeated calls. */
  function Tokens(s: string): seq<string>
    decreases |s|
  {
    var t := Skip(s);
    if t == "" then [] else [Word(t)] + Tokens(AfterWord(t))
  }

  lemma {:induction false} FirstPiece(s: string)
    ensures Pieces(s)[0] == Word(s)
    ensures Pieces(s)[1..] == if |Word(s)| < |s| then Pieces(AfterWord(s)) else []
  {
    if s != "" && s[0] != ',' {
      FirstPiece(s[1..]);
      assert AfterWord(s) == AfterWord(s[1..]);
    }
  }

  /** strtok yields the pieces that are not empty, in order. */
  lemma {:induction false} TokensAreNonEmptyPieces(s: string)
    ensures Tokens(s) == NonEmpty(Pieces(s))
    decreases |s|
  {
    if s == "" {
      assert Tokens(s) == [];
      assert NonEmpty([""]) == [];
    } else if s[0] == ',' {
      TokensAreNonEmptyPieces(s[1..]);
      assert Tokens(s) == Tokens(s[1..]);
      assert Pieces(s)[1..] == Pieces(s[1..]);
    } else {
      FirstPiece(s);
      TokensAreNonEmptyPieces(AfterWord(s));
      assert Tokens("") == [];
    }
  }

  // ----- the two loops of main ---------------------------------------------------------------

  /** The known ones among the names. */
  function Known(known: string -> Option<nat>, names: seq<string>): (r: seq<nat>)
    ensures |r| <= |names|
  {
    if names == [] then []
    else
      var last := names[|names| - 1];
      Known(known, names[..|names| - 1]) + (if known(last).Some? then [known(last).value] else [])
  }

  /** A call of strtok. */
  function Strtok(s: string): (Option<string>, string) {
    var t := Skip(s);
    if t == "" then (None, "") else (Some(Word(t)), AfterWord(t))
  }

  /** The tokens still to come when strtok has just returned arg. */
  function Left(arg: Option<string>, rest: string): (r: seq<string>)
    ensures arg == None <==> r == []
  {
    if arg == None then [] else [arg.value] + Tokens(rest)
  }

  lemma TokensNext(s: string)
    ensures Tokens(s) == Left(Strtok(s).0, Strtok(s).1)
    ensures Strtok(s).0 != None ==> |Strtok(s).1| < |s|
  {
  }

  /** strtok has just returned the k-th name, or NULL after the last. */
  predicate AtName(names: seq<string>, k: nat, arg: Option<string>, rest: string) {
    && k <= |names| && Left(arg, rest) == names[k..]
    && (if k < |names| then arg == Some(names[k]) else arg == None)
  }

  lemma NextName(names: seq<string>, k: nat, rest: string, arg': Option<string>, rest': string)
    requires k < |names| && Tokens(rest) == names[k + 1..] && Left(arg', rest') == Tokens(rest)
    ensures AtName(names, k + 1, arg', rest')
  {
    if k + 1 < |names| {
      assert names[k + 1..][0] == names[k + 1];
    }
  }

  lemma RestOfNames(names: seq<string>, k: nat, arg: Option<string>, rest: string)
    requires AtName(names, k, arg, rest) && k < |names|
    ensures Tokens(rest) == names[k + 1..]
  {
    assert names[k..] == [names[k]] + Tokens(rest);
    assert names[k..][1..] == names[k + 1..];
  }

  /** The 32-bit index of the loop: an unknown name steps it back, below zero if it
      must, and the loop header forward again. */
  method NextIndex(i: nat, found: bool) returns (j: nat)
    requires i < WORD32 - 1
    ensures j == if found then i + 1 else i
  {
    j := i;
    if !found {
      j := (j - 1) % WORD32;
    }
    j := (j + 1) % WORD32;
  }

  lemma KnownNext(known: string -> Option<nat>, names: seq<string>, name: string)
    ensures Known(known, names + [name]) == Known(known, names) + (if known(name).Some? then [known(name).value] else [])
  {
    assert (names + [name])[..|names|] == names;
  }

  /** strtok(NULL, ","). */
  method NextToken(s: string) returns (arg: Option<string>, rest: string)
    ensures Left(arg, rest) == Tokens(s)
    ensures arg != None ==> |rest| < |s|
  {
    TokensNext(s);
    var (next, rest') := Strtok(s);
    return next, rest';
  }

  /** The first call, strtok(opt, ","). */
  method FirstToken(opt: string, ghost names: seq<string>) returns (arg: Option<string>, rest: string)
    requires names == Tokens(opt)
    ensures AtName(names, 0, arg, rest)
  {
    arg, rest := NextToken(opt);
    assert names[0..] == names;
  }

  /** A further call while there are names left. */
  method Advance(ghost names: seq<string>, ghost k: nat, ghost arg: Option<string>, rest: string)
    returns (arg': Option<string>, rest': string)
    requires AtName(names, k, arg, rest) && k < |names|
    ensures AtName(names, k + 1, arg', rest')
    ensures arg' != None ==> |rest'| < |rest|
  {
    RestOfNames(names, k, arg, rest);
    arg', rest' := NextToken(rest);
    NextName(names, k, rest, arg', rest');
  }

  /** The loop over the benchmark names. */
  method FillBenchmarks(benchmarks: array<nat>, opt: string, known: string -> Option<nat>, ghost names: seq<string>)
    returns (count: nat)
    requires names == Tokens(opt) && |names| <= benchmarks.Length < WORD32
    modifies benchmarks
    ensures count <= benchmarks.Length && benchmarks[..count] == Known(known, names)
  {
    var arg, rest := FirstToken(opt, names);
    var i := 0;
    ghost var k := 0;
    while arg != None && i < benchmarks.Length
      invariant i <= k && AtName(names, k, arg, rest)
      invariant benchmarks[..i] == Known(known, names[..k])
      decreases arg != None, |rest|
    {
      KnownUpTo(known, names, k);
      var found := known(arg.value);
      if found.Some? {
        Store(benchmarks, i, found.value);
      }
      arg, rest := Advance(names, k, arg, rest);
      i := NextIndex(i, found.Some?);
      k := k + 1;
    }
    assert names[..k] == names;
    count := i;
  }

  lemma KnownUpTo(known: string -> Option<nat>, names: seq<string>, k: nat)
    requires k < |names|
    ensures Known(known, names[..k + 1]) == Known(known, names[..k]) + (if known(names[k]).Some? then [known(names[k]).value] else [])
  {
    assert names[..k + 1] == names[..k] + [names[k]];
    KnownNext(known, names[..k], names[k]);
  }

  method Store(a: array<nat>, i: nat, x: nat)
    requires i < a.Length
    modifies a
    ensures a[..i + 1] == old(a[..i]) + [x] && a[..i] == old(a[..i])
  {
    a[i] := x;
  }

  /** The benchmark list: unknown names are skipped, all others are taken in order. */
  method ParseBenchmarks(opt: string, known: string -> Option<nat>) returns (benchmarks: array<nat>, count: nat)
    requires |Pieces(opt)| < WORD32
    ensures fresh(benchmarks) && count <= benchmarks.Length == |Pieces(opt)|
    ensures benchmarks[..count] == Known(known, NonEmpty(Pieces(opt)))
  {
    TokensAreNonEmptyPieces(opt);
    var commas := CountChars(opt, ',');
    benchmarks := new nat[commas + 1];
    count := FillBenchmarks(benchmarks, opt, known, NonEmpty(Pieces(opt)));
  }

  /** The loop over the event names. */
  method FillPmcs(pmcs: array<Option<string>>, opt: string, ghost names: seq<string>)
    requires names == Tokens(opt) && |names| <= pmcs.Length
    requires forall k | 0 <= k < pmcs.Length :: pmcs[k] == None
    modifies pmcs
    ensures forall k | 0 <= k < pmcs.Length :: pmcs[k] == if k < |names| then Some(names[k]) else None
  {
    var arg, rest := FirstToken(opt, names);
    var i := 0;
    while arg != None && i < pmcs.Length
      invariant AtName(names, i, arg, rest)
      invariant forall k | 0 <= k < i :: pmcs[k] == Some(names[k])
      invariant forall k | i <= k < pmcs.Length :: pmcs[k] == None
      decreases arg != None, |rest|
    {
      pmcs[i] := arg;
      arg, rest := Advance(names, i, arg, rest);
      i := i + 1;
    }
  }

  /** The event list: the array has an entry for every piece, but only the names that are
      not empty are stored, so every entry is written exactly when no name is empty. */
  method ParsePmcs(opt: string) returns (pmcs: array<Option<string>>)
    ensures fresh(pmcs) && pmcs.Length == if opt == "" then 0 else |Pieces(opt)|
    ensures forall k | 0 <= k < pmcs.Length ::
              pmcs[k] == if k < |NonEmpty(Pieces(opt))| then Some(NonEmpty(Pieces(opt))[k]) else None
    ensures opt != "" ==> ((forall k | 0 <= k < pmcs.Length :: pmcs[k].Some?) <==> "" !in Pieces(opt))
  {
    TokensAreNonEmptyPieces(opt);
    var commas := CountChars(opt, ',');
    var num := (if opt != "" then 1 else 0) + commas;
    pmcs := new Option<string>[num](_ => None);
    if opt != "" {
      ghost var names := NonEmpty(Pieces(opt));
      FillPmcs(pmcs, opt, names);
      assert |names| < num ==> pmcs[|names|] == None;
    }
  }
}
