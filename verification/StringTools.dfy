/** src/tools/string_tools.cpp: tokenising, pid parsing and C-style argument vectors. */
module StringTools {
  import opened Common
  import opened Decimal

  /** What repeated std::getline(stream, token, delimiter) yields: a delimiter at the very end opens no token. */
  function Split(s: string, delimiter: char): seq<string>
    decreases |s|
  {
    if s == "" then [] else
      var k := IndexOf(s, delimiter);
      if k == |s| then [s] else [s[..k]] + Split(s[k + 1..], delimiter)
  }

  function Join(tokens: seq<string>, delimiter: char): string {
    if tokens == [] then ""
    else if |tokens| == 1 then tokens[0]
    else tokens[0] + [delimiter] + Join(tokens[1..], delimiter)
  }

  predicate EndsWith(s: string, c: char) {
    s != "" && s[|s| - 1] == c
  }

  /** What one getline takes off, and what is left for the next. */
  lemma SplitStep(s: string, delimiter: char)
    requires s != ""
    ensures var k := IndexOf(s, delimiter);
      Split(s, delimiter) == if k == |s| then [s[..k]] else [s[..k]] + Split(s[k + 1..], delimiter)
  {
    hide IndexOf;
    var k := IndexOf(s, delimiter);
    assert k == |s| ==> s[..k] == s;
  }

  /** The token loop of splitString. */
  method SplitString(input: string, delimiter: char) returns (tokens: seq<string>)
    ensures tokens == Split(input, delimiter)
  {
    hide Split;
    tokens := [];
    var position := 0;
    NothingToSplit(delimiter);
    while position < |input|
      invariant 0 <= position <= |input|
      invariant Split(input, delimiter) == tokens + Split(input[position..], delimiter)
    {
      var remaining := input[position..];
      var k := IndexOf(remaining, delimiter);
      SplitStep(remaining, delimiter);
      tokens := tokens + [remaining[..k]];
      if k == |remaining| {
        position := |input|;
        assert input[position..] == "";
      } else {
        assert remaining[k + 1..] == input[position + k + 1..];
        position := position + k + 1;
      }
    }
    assert input[position..] == "";
  }

  lemma NothingToSplit(delimiter: char)
    ensures Split("", delimiter) == []
  {
  }

  /** No token contains the delimiter. */
  lemma {:induction false} SplitTokensAreClean(s: string, delimiter: char)
    ensures Clean(Split(s, delimiter), delimiter)
    decreases |s|
  {
    if s == "" {
    } else {
      var k := IndexOf(s, delimiter);
      if k < |s| {
        SplitTokensAreClean(s[k + 1..], delimiter);
      }
    }
  }

  /** Joining the tokens rebuilds the input, up to one delimiter at its end. */
  lemma {:induction false} SplitIsLossless(s: string, delimiter: char)
    ensures s == Join(Split(s, delimiter), delimiter) + (if EndsWith(s, delimiter) then [delimiter] else "")
    decreases |s|
  {
    hide Split, Join;
    NothingToSplit(delimiter);
    if s == "" {
      JoinStep("", [], delimiter);
    } else {
      var k := IndexOf(s, delimiter);
      SplitStep(s, delimiter);
      if k == |s| {
        JoinStep(s, [], delimiter);
        assert s[..k] == s && [s] + [] == [s];
      } else {
        var rest := s[k + 1..];
        SplitIsLossless(rest, delimiter);
        JoinStep(s[..k], Split(rest, delimiter), delimiter);
        SomethingToSplit(rest, delimiter);
        assert s == s[..k] + [delimiter] + rest;
        assert rest != "" ==> EndsWith(s, delimiter) == EndsWith(rest, delimiter);
      }
    }
  }

  lemma JoinStep(token: string, tokens: seq<string>, delimiter: char)
    ensures Join([], delimiter) == ""
    ensures Join([token] + tokens, delimiter)
         == if tokens == [] then token else token + [delimiter] + Join(tokens, delimiter)
  {
    assert ([token] + tokens)[1..] == tokens;
  }

  lemma SomethingToSplit(s: string, delimiter: char)
    ensures Split(s, delimiter) == [] <==> s == ""
  {
  }

  predicate Clean(tokens: seq<string>, delimiter: char) {
    forall i :: 0 <= i < |tokens| ==> delimiter !in tokens[i]
  }

  /** Splitting undoes joining when the last token is not empty. */
  lemma {:induction false} SplitOfJoin(tokens: seq<string>, delimiter: char)
    requires Clean(tokens, delimiter)
    requires tokens != [] && tokens[|tokens| - 1] != ""
    ensures Split(Join(tokens, delimiter), delimiter) == tokens
  {
    if |tokens| == 1 {
      IndexOfAbsent(tokens[0], delimiter);
    } else {
      SplitOfJoin(tokens[1..], delimiter);
      SplitFirst(tokens[0], delimiter, Join(tokens[1..], delimiter));
    }
  }

  /** A delimiter written after the last token, even an empty one, is what makes that token seen. */
  lemma {:induction false} SplitOfTerminatedJoin(tokens: seq<string>, delimiter: char)
    requires Clean(tokens, delimiter)
    requires tokens != []
    ensures Split(Join(tokens, delimiter) + [delimiter], delimiter) == tokens
  {
    if |tokens| == 1 {
      SplitFirst(tokens[0], delimiter, "");
      assert tokens[0] + [delimiter] + "" == tokens[0] + [delimiter];
      assert Split("", delimiter) == [];
    } else {
      var rest := Join(tokens[1..], delimiter);
      SplitOfTerminatedJoin(tokens[1..], delimiter);
      SplitFirst(tokens[0], delimiter, rest + [delimiter]);
      Associate(tokens[0] + [delimiter], rest, [delimiter]);
      assert [tokens[0]] + tokens[1..] == tokens;
    }
  }

  lemma Associate(a: string, b: string, c: string)
    ensures a + b + c == a + (b + c)
  {
  }

  lemma SplitFirst(token: string, delimiter: char, rest: string)
    requires delimiter !in token
    ensures Split(token + [delimiter] + rest, delimiter) == [token] + Split(rest, delimiter)
  {
    var s := token + [delimiter] + rest;
    IndexOfSeparator(token, delimiter, rest);
    assert s[..|token|] == token && s[|token| + 1..] == rest;
  }

  /** strToPid: both conversion failures are reported as -1. */
  function StrToPid(s: string): int {
    match Stoi(s)
    case Value(n) => n
    case InvalidArgument => -1
    case OutOfRange => -1
  }

  /** A conversion failure is -1; so -1 also stands for the numeral -1. */
  lemma StrToPidExactly(s: string)
    ensures StrToPid(s) == -1 <==> Stoi(s) == InvalidArgument || Stoi(s) == OutOfRange || Stoi(s) == Value(-1)
    ensures forall n :: n != -1 ==> (StrToPid(s) == n <==> Stoi(s) == Value(n))
  {
    hide Stoi;
  }

  function NonEmpty(args: seq<string>): seq<string> {
    if args == [] then [] else (if args[0] == "" then [] else [args[0]]) + NonEmpty(args[1..])
  }

  function Pointers(args: seq<string>): (pointers: seq<Option<string>>)
    ensures |pointers| == |args| && forall i :: 0 <= i < |args| ==> pointers[i] == Some(args[i])
  {
    seq(|args|, i requires 0 <= i < |args| => Some(args[i]))
  }

  lemma {:induction false} NonEmptyAt(args: seq<string>, i: nat)
    requires i < |args| && args[i] != ""
    ensures |NonEmpty(args[..i])| < |NonEmpty(args)| && NonEmpty(args)[|NonEmpty(args[..i])|] == args[i]
    ensures "" !in NonEmpty(args)
  {
    assert args == args[..i] + ([args[i]] + args[i + 1..]);
    NonEmptyConcat(args[..i], [args[i]] + args[i + 1..]);
    assert ([args[i]] + args[i + 1..])[1..] == args[i + 1..];
    NoneIsEmpty(args);
  }

  lemma {:induction false} NoneIsEmpty(args: seq<string>)
    ensures "" !in NonEmpty(args) && |NonEmpty(args)| <= |args|
  {
    if args == [] {
    } else {
      NoneIsEmpty(args[1..]);
    }
  }

  lemma {:induction false} NonEmptyConcat(a: seq<string>, b: seq<string>)
    ensures NonEmpty(a + b) == NonEmpty(a) + NonEmpty(b)
  {
    if a == [] {
      assert a + b == b;
    } else {
      NonEmptyConcat(a[1..], b);
      assert (a + b)[1..] == a[1..] + b;
      var first := if a[0] == "" then [] else [a[0]];
      assert NonEmpty(a + b) == first + (NonEmpty(a[1..]) + NonEmpty(b));
    }
  }

  lemma {:induction false} NonEmptyKeeps(args: seq<string>)
    requires forall i :: 0 <= i < |args| ==> args[i] != ""
    ensures NonEmpty(args) == args
  {
    if args == [] {
    } else {
      NonEmptyKeeps(args[1..]);
    }
  }

  /** createCStyleArgs: empty strings are dropped and the null pointer (None) closes the vector. */
  method CreateCStyleArgs(args: seq<string>) returns (pointers: seq<Option<string>>)
    ensures pointers == Pointers(NonEmpty(args)) + [None]
  {
    pointers := [];
    for i := 0 to |args|
      invariant pointers == Pointers(NonEmpty(args[..i]))
    {
      assert args[..i + 1] == args[..i] + [args[i]];
      NonEmptyConcat(args[..i], [args[i]]);
      if args[i] != "" {
        pointers := pointers + [Some(args[i])];
      }
    }
    assert args[..|args|] == args;
    pointers := pointers + [None];
  }
}
