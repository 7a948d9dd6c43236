/**
 * The settings of a quiz: how many questions, the largest number that may
 * appear, which operators are included and whether negatives are allowed.
 * Every setter validates its argument and, when it rejects it, leaves the old
 * value in place.
 */
module Configuration {
  import opened Outcomes
  import opened Questions

  /** The values of the four settings at one moment, as the generator reads them. */
  datatype Config = Config(numQuestions: int, maxNum: int, operations: seq<string>, allowNegative: bool)

  predicate NoDuplicates<T(==)>(s: seq<T>) {
    forall i, j :: 0 <= i < j < |s| ==> s[i] != s[j]
  }

  /** A list of operators the settings may hold: non-empty, legal, each symbol once. */
  predicate ValidOperations(ops: seq<string>) {
    && ops != []
    && NoDuplicates(ops)
    && forall k :: 0 <= k < |ops| ==> IsLegal(ops[k])
  }

  predicate ValidConfig(c: Config) {
    c.numQuestions > 0 && c.maxNum > 0 && ValidOperations(c.operations)
  }

  /** The legal symbols of xs, each kept at its first occurrence, in the order they appear. */
  function FirstSeenLegal(xs: seq<string>): seq<string> {
    if xs == [] then []
    else
      var kept := FirstSeenLegal(xs[..|xs| - 1]);
      var x := xs[|xs| - 1];
      if IsLegal(x) && x !in kept then kept + [x] else kept
  }

  /** The position of the first occurrence of x in xs. */
  function FirstIndex(xs: seq<string>, x: string): (k: nat)
    requires x in xs
    ensures k < |xs| && xs[k] == x && x !in xs[..k]
  {
    if xs[0] == x then 0
    else
      assert x in xs[1..];
      var k := 1 + FirstIndex(xs[1..], x);
      assert xs[..k] == [xs[0]] + xs[1..][..k - 1];
      k
  }

  /** Appending an element does not move the first occurrence of anything already present. */
  lemma FirstIndexAppend(xs: seq<string>, y: string, x: string)
    requires x in xs
    ensures x in xs + [y] && FirstIndex(xs + [y], x) == FirstIndex(xs, x)
  {
    var k := FirstIndex(xs, x);
    assert (xs + [y])[k] == x;
    assert (xs + [y])[..k] == xs[..k];
  }

  lemma FirstIndexLast(xs: seq<string>, x: string)
    requires x !in xs
    ensures x in xs + [x] && FirstIndex(xs + [x], x) == |xs|
  {
  }

  /**
   * s keeps the first occurrence of each legal symbol of xs: no symbol twice,
   * exactly the legal symbols of xs, in the order of their first occurrences in xs.
   */
  ghost predicate KeepsFirstSeen(xs: seq<string>, s: seq<string>) {
    && NoDuplicates(s)
    && (forall x :: x in s <==> x in xs && IsLegal(x))
    && forall i, j :: 0 <= i < j < |s| ==> FirstIndex(xs, s[i]) < FirstIndex(xs, s[j])
  }

  lemma {:induction false} FirstSeenLegalSpec(xs: seq<string>)
    ensures KeepsFirstSeen(xs, FirstSeenLegal(xs))
  {
    if xs != [] {
      var p, x := xs[..|xs| - 1], xs[|xs| - 1];
      assert xs == p + [x];
      FirstSeenLegalSpec(p);
      var kept := FirstSeenLegal(p);
      forall y | y in kept
        ensures y in xs && FirstIndex(xs, y) == FirstIndex(p, y)
      {
        FirstIndexAppend(p, x, y);
      }
      if IsLegal(x) && x !in kept {
        assert x !in p;
        FirstIndexLast(p, x);
        var r := kept + [x];
        forall i | 0 <= i < |kept|
          ensures FirstIndex(xs, r[i]) < FirstIndex(xs, r[|kept|])
        {
          assert r[i] == kept[i] && kept[i] in kept;
        }
      }
    }
  }

  /** The operator lists that `FirstSeenLegal` produces are the ones the settings may hold, when not empty. */
  lemma FirstSeenLegalValid(xs: seq<string>)
    requires FirstSeenLegal(xs) != []
    ensures ValidOperations(FirstSeenLegal(xs))
  {
  }

  /** The filter is empty exactly when xs holds no legal symbol. */
  lemma FirstSeenLegalEmpty(xs: seq<string>)
    ensures FirstSeenLegal(xs) == [] <==> forall k :: 0 <= k < |xs| ==> !IsLegal(xs[k])
  {
  }

  /**
   * When the last symbol x of p + [x] is legal and new, it is the last one
   * kept, and the symbols kept before it are kept for p.
   */
  lemma KeepsFirstSeenNew(p: seq<string>, x: string, s: seq<string>)
    requires IsLegal(x) && x !in p
    requires KeepsFirstSeen(p + [x], s)
    ensures s != [] && s == s[..|s| - 1] + [x] && KeepsFirstSeen(p, s[..|s| - 1])
  {
    assert s != [] && s[|s| - 1] == x;
    assert s == s[..|s| - 1] + [s[|s| - 1]];
  }

  /** When the last symbol x of p + [x] is illegal or already in p, s is kept for p as well. */
  lemma KeepsFirstSeenSkip(p: seq<string>, x: string, s: seq<string>)
    requires !IsLegal(x) || x in p
    requires KeepsFirstSeen(p + [x], s)
    ensures KeepsFirstSeen(p, s)
  {
    assert forall y :: y in s ==> y in p by {
      forall y | y in s ensures y in p {
        assert y in p + [x] && IsLegal(y);
      }
    }
    forall i, j | 0 <= i < j < |s|
      ensures FirstIndex(p, s[i]) < FirstIndex(p, s[j])
    {
      assert s[i] in s && s[j] in s;
      FirstIndexAppend(p, x, s[i]);
      FirstIndexAppend(p, x, s[j]);
    }
  }

  /** One step of the filter: the last symbol is kept exactly when it is legal and new. */
  lemma FirstSeenLegalStep(p: seq<string>, x: string)
    ensures FirstSeenLegal(p + [x]) ==
            if IsLegal(x) && x !in p then FirstSeenLegal(p) + [x] else FirstSeenLegal(p)
  {
    assert (p + [x])[..|p|] == p;
    FirstSeenLegalSpec(p);
  }

  /** `KeepsFirstSeen` determines the list: any list that has it is the filter's output. */
  lemma {:induction false} FirstSeenLegalUnique(xs: seq<string>, s: seq<string>)
    requires KeepsFirstSeen(xs, s)
    ensures s == FirstSeenLegal(xs)
    decreases |xs|, 1
  {
    if s != [] {
      assert s[0] in s;
    }
    if xs != [] {
      var p, x := xs[..|xs| - 1], xs[|xs| - 1];
      assert xs == p + [x];
      if IsLegal(x) && x !in p {
        UniqueWhenNew(p, x, s);
      } else {
        UniqueWhenSkipped(p, x, s);
      }
    }
  }

  /** The step of `FirstSeenLegalUnique` when the last symbol is legal and new. */
  lemma {:induction false} UniqueWhenNew(p: seq<string>, x: string, s: seq<string>)
    requires IsLegal(x) && x !in p
    requires KeepsFirstSeen(p + [x], s)
    ensures s == FirstSeenLegal(p + [x])
    decreases |p| + 1, 0
  {
    KeepsFirstSeenNew(p, x, s);
    FirstSeenLegalUnique(p, s[..|s| - 1]);
    FirstSeenLegalStep(p, x);
  }

  /** The step of `FirstSeenLegalUnique` when the last symbol is illegal or already seen. */
  lemma {:induction false} UniqueWhenSkipped(p: seq<string>, x: string, s: seq<string>)
    requires !IsLegal(x) || x in p
    requires KeepsFirstSeen(p + [x], s)
    ensures s == FirstSeenLegal(p + [x])
    decreases |p| + 1, 0
  {
    KeepsFirstSeenSkip(p, x, s);
    FirstSeenLegalUnique(p, s);
    FirstSeenLegalStep(p, x);
  }

  /** The loop of set_operations: walk the input and append each legal symbol not yet kept. */
  method FilterOperations(operations: seq<string>) returns (legal: seq<string>)
    ensures legal == FirstSeenLegal(operations)
  {
    legal := [];
    for i := 0 to |operations|
      invariant legal == FirstSeenLegal(operations[..i])
    {
      var operator := operations[i];
      assert operations[..i + 1][..i] == operations[..i];
      if IsLegal(operator) && operator !in legal {
        legal := legal + [operator];
      }
    }
    assert operations[..|operations|] == operations;
  }

  class Settings {
    var numQuestions: int
    var maxNum: int
    var operations: seq<string>
    var allowNegative: bool

    function Snapshot(): Config
      reads this
    {
      Config(numQuestions, maxNum, operations, allowNegative)
    }

    /** The invariant every setter keeps. */
    ghost predicate Valid()
      reads this
    {
      ValidConfig(Snapshot())
    }

    /** The defaults: ten questions, numbers up to ten, all four operators, no negatives. */
    constructor ()
      ensures Valid()
      ensures numQuestions == 10 && maxNum == 10
      ensures operations == AllowedOperations && !allowNegative
    {
      numQuestions := 10;
      maxNum := 10;
      operations := ["+", "-", "*", "/"];
      allowNegative := false;
    }

    function GetNumQuestions(): (n: int)
      reads this
      requires Valid()
      ensures n > 0
    {
      numQuestions
    }

    function GetMaxNum(): (n: int)
      reads this
      requires Valid()
      ensures n > 0
    {
      maxNum
    }

    function GetOperations(): (ops: seq<string>)
      reads this
      requires Valid()
      ensures ValidOperations(ops)
    {
      operations
    }

    function GetNegative(): bool
      reads this
    {
      allowNegative
    }

    method SetNumQuestions(n: int) returns (outcome: Outcome)
      requires Valid()
      modifies this`numQuestions
      ensures Valid()
      ensures outcome == if n > 0 then Pass else Fail(NoQuestions)
      ensures numQuestions == if n > 0 then n else old(numQuestions)
    {
      if n > 0 {
        numQuestions := n;
        outcome := Pass;
      } else {
        outcome := Fail(NoQuestions);
      }
    }

    method SetMaxNum(n: int) returns (outcome: Outcome)
      requires Valid()
      modifies this`maxNum
      ensures Valid()
      ensures outcome == if n > 0 then Pass else Fail(NonPositiveMax)
      ensures maxNum == if n > 0 then n else old(maxNum)
    {
      if n > 0 {
        maxNum := n;
        outcome := Pass;
      } else {
        outcome := Fail(NonPositiveMax);
      }
    }

    /** Keeps the first occurrence of each legal symbol of requested; fails when there is none. */
    method SetOperations(requested: seq<string>) returns (outcome: Outcome)
      requires Valid()
      modifies this`operations
      ensures Valid()
      ensures outcome == if FirstSeenLegal(requested) == [] then Fail(NoLegalOperators) else Pass
      ensures operations == if outcome.Pass? then FirstSeenLegal(requested) else old(operations)
    {
      var legal := FilterOperations(requested);
      if |legal| == 0 {
        outcome := Fail(NoLegalOperators);
      } else {
        FirstSeenLegalValid(requested);
        operations := legal;
        outcome := Pass;
      }
    }

    method SetNegative(allow: bool)
      requires Valid()
      modifies this`allowNegative
      ensures Valid()
      ensures allowNegative == allow
    {
      allowNegative := allow;
    }
  }

  /** The filter on the example ["+", "+", "-"] keeps ["+", "-"]. */
  lemma DuplicateSymbolsCollapse()
    ensures FirstSeenLegal(["+", "+", "-"]) == ["+", "-"]
  {
    assert ["+", "+", "-"][..2] == ["+", "+"];
    assert ["+", "+"][..1] == ["+"];
    assert ["+"][..0] == [];
  }

  /** An empty list and a list of symbols such as "@" and "%" are both rejected. */
  lemma IllegalSymbolsRejected()
    ensures FirstSeenLegal([]) == []
    ensures FirstSeenLegal(["@", "%"]) == []
  {
  }
}
