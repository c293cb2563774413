/** Liveness analysis over one function's control-flow graph
    (CodeGenerator::livenessAnalysis), as its comments describe it:
      Out[TAC] = union of In[S] over the successors S of TAC
      In[TAC]  = (Out[TAC] - Kill[TAC]) + Gen[TAC]
    iterated from empty sets until a pass changes nothing.

    The code as written does not do this (see README): its union loop never
    adds anything, it never stores In, and it runs to the end of the whole
    instruction list. This module models the commented algorithm. Each pass
    reads the In sets of the previous pass and computes fresh sets, which
    are committed together at the end of the pass. Sets are kept, as in the
    source, as lists without duplicates. */
module Liveness {
  import opened Tac

  /** The elements of a list, read as a set. */
  ghost function Elems(s: seq<Name>): set<Name> {
    set x | x in s
  }

  predicate NoDups(s: seq<Name>) {
    forall j, k :: 0 <= j < k < |s| ==> s[j] != s[k]
  }

  /** One function's control-flow graph: the instruction list, every
      instruction's successor list, and the region from the BeginFunc at
      `begin` to the EndFunc at `end`. */
  datatype Region = Region(code: seq<Instr>, edges: seq<seq<nat>>, begin: nat, end: nat) {
    ghost predicate WellFormed() {
      begin <= end < |code| && |edges| == |code| &&
      forall i, k :: 0 <= i < |edges| && 0 <= k < |edges[i]| ==> edges[i][k] < |code|
    }

    predicate InRegion(i: int) {
      begin <= i <= end
    }
  }

  ghost function SetsOf(ls: seq<seq<Name>>): (r: seq<set<Name>>)
    ensures |r| == |ls| && forall i :: 0 <= i < |ls| ==> r[i] == Elems(ls[i])
  {
    seq(|ls|, i requires 0 <= i < |ls| => Elems(ls[i]))
  }

  /** The union of the sets S[e] over the successor list `es`. */
  ghost function SuccIn(S: seq<set<Name>>, es: seq<nat>): set<Name>
    requires forall k :: 0 <= k < |es| ==> es[k] < |S|
  {
    if es == [] then {} else SuccIn(S, es[..|es| - 1]) + S[es[|es| - 1]]
  }

  /** In = (Out - Kill) + Gen. */
  ghost function Transfer(ins: Instr, out: set<Name>): set<Name> {
    (out - Elems(KillSet(ins))) + Elems(GenSet(ins))
  }

  /** The Out sets one pass computes from the In sets S. */
  ghost function OutPass(g: Region, S: seq<set<Name>>): (r: seq<set<Name>>)
    requires g.WellFormed() && |S| == |g.code|
    ensures |r| == |S|
  {
    seq(|S|, i requires 0 <= i < |S| => if g.InRegion(i) then SuccIn(S, g.edges[i]) else {})
  }

  /** The In sets one pass computes from the In sets S. */
  ghost function InPass(g: Region, S: seq<set<Name>>): (r: seq<set<Name>>)
    requires g.WellFormed() && |S| == |g.code|
    ensures |r| == |S|
  {
    seq(|S|, i requires 0 <= i < |S| =>
      if g.InRegion(i) then Transfer(g.code[i], SuccIn(S, g.edges[i])) else {})
  }

  /** Pointwise inclusion of two families of sets. */
  ghost predicate Le(S: seq<set<Name>>, T: seq<set<Name>>) {
    |S| == |T| && forall i :: 0 <= i < |S| ==> S[i] <= T[i]
  }

  /** X satisfies every dataflow inequality In >= (Out - Kill) + Gen. */
  ghost predicate IsSolution(g: Region, X: seq<set<Name>>)
    requires g.WellFormed()
  {
    |X| == |g.code| && Le(InPass(g, X), X)
  }

  /** `liveIn` is below every solution: the least fixpoint. */
  ghost predicate Least(g: Region, liveIn: seq<seq<Name>>)
    requires g.WellFormed()
  {
    forall X :: IsSolution(g, X) ==> Le(SetsOf(liveIn), X)
  }

  ghost predicate Bounded(S: seq<set<Name>>, U: set<Name>) {
    forall i :: 0 <= i < |S| ==> S[i] <= U
  }

  /** The names read by the instructions code[lo..hi]. */
  ghost function GenUnion(code: seq<Instr>, lo: nat, hi: nat): set<Name>
    requires lo <= hi <= |code|
    decreases hi - lo
  {
    if lo == hi then {} else Elems(GenSet(code[lo])) + GenUnion(code, lo + 1, hi)
  }

  /** Every name that can ever be live in the region: the names it reads. */
  ghost function Universe(g: Region): set<Name>
    requires g.WellFormed()
  {
    GenUnion(g.code, g.begin, g.end + 1)
  }

  /** Both In and Out are a fixpoint of one pass. */
  ghost predicate Settled(g: Region, liveIn: seq<seq<Name>>, liveOut: seq<seq<Name>>)
    requires g.WellFormed() && |liveIn| == |g.code|
  {
    SetsOf(liveOut) == OutPass(g, SetsOf(liveIn)) && SetsOf(liveIn) == InPass(g, SetsOf(liveIn))
  }

  // ---------------------------------------------------------------------
  // Properties of one pass

  lemma {:induction false} SuccInMono(S: seq<set<Name>>, T: seq<set<Name>>, es: seq<nat>)
    requires Le(S, T)
    requires forall k :: 0 <= k < |es| ==> es[k] < |S|
    ensures SuccIn(S, es) <= SuccIn(T, es)
  {
    if es != [] {
      SuccInMono(S, T, es[..|es| - 1]);
    }
  }

  /** A pass is monotone: larger In sets give larger In and Out sets. */
  lemma PassMono(g: Region, S: seq<set<Name>>, T: seq<set<Name>>)
    requires g.WellFormed() && |S| == |g.code|
    requires Le(S, T)
    ensures Le(InPass(g, S), InPass(g, T)) && Le(OutPass(g, S), OutPass(g, T))
  {
    forall i | 0 <= i < |S| && g.InRegion(i)
      ensures SuccIn(S, g.edges[i]) <= SuccIn(T, g.edges[i])
    {
      SuccInMono(S, T, g.edges[i]);
    }
  }

  lemma {:induction false} SuccInBounded(S: seq<set<Name>>, es: seq<nat>, U: set<Name>)
    requires Bounded(S, U)
    requires forall k :: 0 <= k < |es| ==> es[k] < |S|
    ensures SuccIn(S, es) <= U
  {
    if es != [] {
      SuccInBounded(S, es[..|es| - 1], U);
    }
  }

  lemma {:induction false} GenInUnion(code: seq<Instr>, lo: nat, hi: nat, i: nat)
    requires lo <= i < hi <= |code|
    ensures Elems(GenSet(code[i])) <= GenUnion(code, lo, hi)
    decreases hi - lo
  {
    if i != lo {
      GenInUnion(code, lo + 1, hi, i);
    }
  }

  /** A pass never produces a name that the region does not read. */
  lemma PassBounded(g: Region, S: seq<set<Name>>)
    requires g.WellFormed() && |S| == |g.code|
    requires Bounded(S, Universe(g))
    ensures Bounded(InPass(g, S), Universe(g)) && Bounded(OutPass(g, S), Universe(g))
  {
    var U := Universe(g);
    forall i | 0 <= i < |S|
      ensures InPass(g, S)[i] <= U && OutPass(g, S)[i] <= U
    {
      if g.InRegion(i) {
        var out := SuccIn(S, g.edges[i]);
        SuccInBounded(S, g.edges[i], U);
        GenInUnion(g.code, g.begin, g.end + 1, i);
        assert OutPass(g, S)[i] == out;
        assert InPass(g, S)[i] == (out - Elems(KillSet(g.code[i]))) + Elems(GenSet(g.code[i]));
      }
    }
  }

  // ---------------------------------------------------------------------
  // Termination measure

  lemma CardMono(A: set<Name>, B: set<Name>)
    requires A <= B
    ensures |A| <= |B| && (A != B ==> |A| < |B|)
  {
    assert B == A + (B - A);
    assert A * (B - A) == {};
    if A != B {
      var x :| x in B && x !in A;
      assert x in B - A;
    }
  }

  /** How many names could still be added to the sets S. */
  ghost function Pot(S: seq<set<Name>>, U: set<Name>): nat
    requires Bounded(S, U)
  {
    if S == [] then 0
    else
      CardMono(S[|S| - 1], U);
      Pot(S[..|S| - 1], U) + (|U| - |S[|S| - 1]|)
  }

  lemma {:induction false} PotDecreases(S: seq<set<Name>>, T: seq<set<Name>>, U: set<Name>)
    requires Le(S, T) && Bounded(S, U) && Bounded(T, U)
    ensures Pot(T, U) <= Pot(S, U)
    ensures S != T ==> Pot(T, U) < Pot(S, U)
  {
    if S != [] {
      var n := |S| - 1;
      PotDecreases(S[..n], T[..n], U);
      CardMono(S[n], T[n]);
      if S != T && S[..n] == T[..n] {
        assert S[n] != T[n] by {
          assert S == S[..n] + [S[n]];
          assert T == T[..n] + [T[n]];
        }
      }
    }
  }

  // ---------------------------------------------------------------------
  // List operations on duplicate-free lists

  /** Appends to `acc` each element of `add` that is not already present (the
      union loop and the Gen loop of the source). */
  method AppendAbsent(acc: seq<Name>, add: seq<Name>) returns (r: seq<Name>)
    requires NoDups(acc)
    ensures NoDups(r)
    ensures Elems(r) == Elems(acc) + Elems(add)
  {
    r := acc;
    var k := 0;
    while k < |add|
      invariant 0 <= k <= |add|
      invariant NoDups(r)
      invariant Elems(r) == Elems(acc) + Elems(add[..k])
    {
      assert add[..k + 1] == add[..k] + [add[k]];
      assert Elems(add[..k + 1]) == Elems(add[..k]) + {add[k]};
      if add[k] !in r {
        assert Elems(r + [add[k]]) == Elems(r) + {add[k]};
        r := r + [add[k]];
      }
      k := k + 1;
    }
    assert add[..k] == add;
  }

  lemma RemoveAtElems(r: seq<Name>, j: nat)
    requires NoDups(r) && j < |r|
    ensures NoDups(r[..j] + r[j + 1..])
    ensures Elems(r[..j] + r[j + 1..]) == Elems(r) - {r[j]}
  {
    var t := r[..j] + r[j + 1..];
    assert forall m :: 0 <= m < |t| ==> t[m] == (if m < j then r[m] else r[m + 1]);
    forall x | x in Elems(r) - {r[j]} ensures x in t {
      var m :| 0 <= m < |r| && r[m] == x;
      if m < j { assert t[m] == x; } else { assert t[m - 1] == x; }
    }
  }

  /** The kill loop: removes in place every element of `s` that `kill`
      contains, re-examining the position it just removed from. */
  method RemoveKilled(s: seq<Name>, kill: seq<Name>) returns (r: seq<Name>)
    requires NoDups(s)
    ensures NoDups(r)
    ensures Elems(r) == Elems(s) - Elems(kill)
  {
    r := s;
    var j := 0;
    while j < |r|
      invariant 0 <= j <= |r|
      invariant NoDups(r)
      invariant Elems(s) - Elems(kill) <= Elems(r) <= Elems(s)
      invariant forall m :: 0 <= m < j ==> r[m] !in kill
      decreases |r| - j
    {
      if r[j] in kill {
        RemoveAtElems(r, j);
        r := r[..j] + r[j + 1..];
      } else {
        j := j + 1;
      }
    }
  }

  /** Whether two lists hold the same elements. */
  method SameElems(a: seq<Name>, b: seq<Name>) returns (same: bool)
    ensures same <==> Elems(a) == Elems(b)
  {
    var k := 0;
    while k < |a| && a[k] in b
      invariant 0 <= k <= |a|
      invariant forall m :: 0 <= m < k ==> a[m] in b
    {
      k := k + 1;
    }
    if k < |a| {
      assert a[k] in Elems(a) && a[k] !in Elems(b);
      return false;
    }
    assert Elems(a) <= Elems(b);
    k := 0;
    while k < |b| && b[k] in a
      invariant 0 <= k <= |b|
      invariant forall m :: 0 <= m < k ==> b[m] in a
    {
      k := k + 1;
    }
    if k < |b| {
      assert b[k] in Elems(b) && b[k] !in Elems(a);
      return false;
    }
    assert Elems(b) <= Elems(a);
    return true;
  }

  /** Out[TAC]: the union of the successors' In lists. */
  method SuccessorUnion(liveIn: seq<seq<Name>>, es: seq<nat>) returns (out: seq<Name>)
    requires forall k :: 0 <= k < |es| ==> es[k] < |liveIn|
    ensures NoDups(out)
    ensures Elems(out) == SuccIn(SetsOf(liveIn), es)
  {
    out := [];
    var j := 0;
    while j < |es|
      invariant 0 <= j <= |es|
      invariant NoDups(out)
      invariant Elems(out) == SuccIn(SetsOf(liveIn), es[..j])
    {
      assert es[..j + 1][..j] == es[..j];
      out := AppendAbsent(out, liveIn[es[j]]);
      j := j + 1;
    }
    assert es[..j] == es;
  }

  // ---------------------------------------------------------------------
  // The analysis

  /** The body of a pass for one instruction: Out from the successors' In
      lists, then In' = Out - Kill + Gen. */
  method Visit(g: Region, liveIn: seq<seq<Name>>, i: nat) returns (inPrime: seq<Name>, out: seq<Name>)
    requires g.WellFormed() && |liveIn| == |g.code| && i < |g.code|
    ensures NoDups(inPrime) && NoDups(out)
    ensures Elems(out) == SuccIn(SetsOf(liveIn), g.edges[i])
    ensures Elems(inPrime) == Transfer(g.code[i], Elems(out))
  {
    out := SuccessorUnion(liveIn, g.edges[i]);
    inPrime := RemoveKilled(out, KillSet(g.code[i]));
    inPrime := AppendAbsent(inPrime, GenSet(g.code[i]));
  }

  /** Instruction j's sets differ between two passes. */
  ghost predicate Differs(newIn: seq<seq<Name>>, newOut: seq<seq<Name>>,
                          liveIn: seq<seq<Name>>, liveOut: seq<seq<Name>>, j: int)
    requires 0 <= j < |newIn| == |newOut| == |liveIn| == |liveOut|
  {
    Elems(newIn[j]) != Elems(liveIn[j]) || Elems(newOut[j]) != Elems(liveOut[j])
  }

  /** After a pass has visited instructions begin..i-1: those hold the
      pass's lists, every other entry is still empty. */
  ghost predicate Filled(g: Region, S: seq<set<Name>>, newIn: seq<seq<Name>>, newOut: seq<seq<Name>>, i: int)
    requires g.WellFormed() && |S| == |newIn| == |newOut| == |g.code| && i <= g.end + 1
  {
    (forall j :: 0 <= j < |g.code| && !(g.begin <= j < i) ==> newIn[j] == [] && newOut[j] == []) &&
    (forall j :: g.begin <= j < i ==> NoDups(newIn[j]) && NoDups(newOut[j])) &&
    (forall j :: g.begin <= j < i ==> Elems(newOut[j]) == SuccIn(S, g.edges[j])) &&
    (forall j :: g.begin <= j < i ==> Elems(newIn[j]) == Transfer(g.code[j], Elems(newOut[j])))
  }

  /** Some instruction in lo..hi-1 has different sets in the two passes. */
  ghost predicate SomeDiffers(newIn: seq<seq<Name>>, newOut: seq<seq<Name>>,
                              liveIn: seq<seq<Name>>, liveOut: seq<seq<Name>>, lo: int, hi: int)
    requires 0 <= lo && hi <= |newIn| == |newOut| == |liveIn| == |liveOut|
  {
    exists j :: lo <= j < hi && Differs(newIn, newOut, liveIn, liveOut, j)
  }

  /** Storing instruction i's lists extends the visited prefix by one. */
  lemma FillStep(g: Region, liveIn: seq<seq<Name>>, liveOut: seq<seq<Name>>,
                 newIn: seq<seq<Name>>, newOut: seq<seq<Name>>, i: nat,
                 inPrime: seq<Name>, out: seq<Name>)
    requires g.WellFormed() && |liveIn| == |liveOut| == |newIn| == |newOut| == |g.code|
    requires g.begin <= i <= g.end
    requires Filled(g, SetsOf(liveIn), newIn, newOut, i)
    requires NoDups(inPrime) && NoDups(out)
    requires Elems(out) == SuccIn(SetsOf(liveIn), g.edges[i])
    requires Elems(inPrime) == Transfer(g.code[i], Elems(out))
    ensures Filled(g, SetsOf(liveIn), newIn[i := inPrime], newOut[i := out], i + 1)
    ensures SomeDiffers(newIn[i := inPrime], newOut[i := out], liveIn, liveOut, g.begin, i + 1) <==>
      SomeDiffers(newIn, newOut, liveIn, liveOut, g.begin, i) ||
      Elems(inPrime) != Elems(liveIn[i]) || Elems(out) != Elems(liveOut[i])
  {
    var in1, out1 := newIn[i := inPrime], newOut[i := out];
    assert forall j :: g.begin <= j < i ==>
      (Differs(in1, out1, liveIn, liveOut, j) <==> Differs(newIn, newOut, liveIn, liveOut, j));
    assert Differs(in1, out1, liveIn, liveOut, i) <==>
      Elems(inPrime) != Elems(liveIn[i]) || Elems(out) != Elems(liveOut[i]);
  }

  /** One pass over the region: every instruction's Out and In computed
      afresh from the In sets `liveIn` of the previous pass; `changed` says
      whether any set differs from the previous pass's. */
  method OnePass(g: Region, liveIn: seq<seq<Name>>, liveOut: seq<seq<Name>>)
    returns (newIn: seq<seq<Name>>, newOut: seq<seq<Name>>, changed: bool)
    requires g.WellFormed() && |liveIn| == |liveOut| == |g.code|
    requires forall i :: 0 <= i < |g.code| && !g.InRegion(i) ==> liveIn[i] == [] && liveOut[i] == []
    ensures |newIn| == |newOut| == |g.code|
    ensures forall i :: 0 <= i < |g.code| ==> NoDups(newIn[i]) && NoDups(newOut[i])
    ensures forall i :: 0 <= i < |g.code| && !g.InRegion(i) ==> newIn[i] == [] && newOut[i] == []
    ensures SetsOf(newOut) == OutPass(g, SetsOf(liveIn))
    ensures SetsOf(newIn) == InPass(g, SetsOf(liveIn))
    ensures changed <==> SetsOf(newIn) != SetsOf(liveIn) || SetsOf(newOut) != SetsOf(liveOut)
  {
    ghost var S := SetsOf(liveIn);
    newIn := seq(|g.code|, _ => []);
    newOut := seq(|g.code|, _ => []);
    changed := false;
    var i := g.begin;
    while i <= g.end
      invariant g.begin <= i <= g.end + 1
      invariant |newIn| == |newOut| == |g.code|
      invariant Filled(g, S, newIn, newOut, i)
      invariant changed <==> SomeDiffers(newIn, newOut, liveIn, liveOut, g.begin, i)
    {
      var inPrime, out := Visit(g, liveIn, i);
      var sameIn := SameElems(inPrime, liveIn[i]);
      var sameOut := SameElems(out, liveOut[i]);
      FillStep(g, liveIn, liveOut, newIn, newOut, i, inPrime, out);
      newIn := newIn[i := inPrime];
      newOut := newOut[i := out];
      changed := changed || !sameIn || !sameOut;
      i := i + 1;
    }
    PassSets(g, S, newIn, newOut);
    ChangedSets(g, newIn, newOut, liveIn, liveOut, changed);
  }

  /** The lists of a finished pass, read as sets, are the pass's sets. */
  lemma PassSets(g: Region, S: seq<set<Name>>, newIn: seq<seq<Name>>, newOut: seq<seq<Name>>)
    requires g.WellFormed() && |S| == |newIn| == |newOut| == |g.code|
    requires Filled(g, S, newIn, newOut, g.end + 1)
    ensures forall i :: 0 <= i < |g.code| ==> NoDups(newIn[i]) && NoDups(newOut[i])
    ensures forall i :: 0 <= i < |g.code| && !g.InRegion(i) ==> newIn[i] == [] && newOut[i] == []
    ensures SetsOf(newOut) == OutPass(g, S) && SetsOf(newIn) == InPass(g, S)
  {
    assert forall j :: 0 <= j < |g.code| ==> SetsOf(newOut)[j] == OutPass(g, S)[j];
    assert forall j :: 0 <= j < |g.code| ==> SetsOf(newIn)[j] == InPass(g, S)[j];
  }

  /** Some instruction of the region changed iff the families of sets did. */
  lemma ChangedSets(g: Region, newIn: seq<seq<Name>>, newOut: seq<seq<Name>>,
                    liveIn: seq<seq<Name>>, liveOut: seq<seq<Name>>, changed: bool)
    requires g.WellFormed() && |newIn| == |newOut| == |liveIn| == |liveOut| == |g.code|
    requires forall j :: 0 <= j < |g.code| && !g.InRegion(j) ==>
      newIn[j] == [] && newOut[j] == [] && liveIn[j] == [] && liveOut[j] == []
    requires changed <==> SomeDiffers(newIn, newOut, liveIn, liveOut, g.begin, g.end + 1)
    ensures changed <==> SetsOf(newIn) != SetsOf(liveIn) || SetsOf(newOut) != SetsOf(liveOut)
  {
    if !changed {
      forall j | 0 <= j < |g.code|
        ensures SetsOf(newIn)[j] == SetsOf(liveIn)[j] && SetsOf(newOut)[j] == SetsOf(liveOut)[j]
      {
        if g.InRegion(j) {
          assert !Differs(newIn, newOut, liveIn, liveOut, j);
        }
      }
    } else {
      var j :| g.begin <= j < g.end + 1 && Differs(newIn, newOut, liveIn, liveOut, j);
      assert SetsOf(newIn)[j] != SetsOf(liveIn)[j] || SetsOf(newOut)[j] != SetsOf(liveOut)[j];
    }
  }

  /** A pass from sets below every solution stays below every solution. */
  lemma LeastPass(g: Region, liveIn: seq<seq<Name>>, newIn: seq<seq<Name>>)
    requires g.WellFormed() && |liveIn| == |g.code|
    requires Least(g, liveIn) && SetsOf(newIn) == InPass(g, SetsOf(liveIn))
    ensures Least(g, newIn)
  {
    forall X | IsSolution(g, X) ensures Le(SetsOf(newIn), X) {
      PassMono(g, SetsOf(liveIn), X);
    }
  }

  /** livenessAnalysis: repeats passes from empty sets while any set
      changed. The result is a fixpoint of the dataflow equations (so one
      more pass changes nothing), it is the least solution of the dataflow
      inequalities, it contains only names the region reads, and every set
      is a list without duplicates. */
  method Analyze(g: Region) returns (liveIn: seq<seq<Name>>, liveOut: seq<seq<Name>>)
    requires g.WellFormed()
    ensures |liveIn| == |liveOut| == |g.code|
    ensures forall i :: 0 <= i < |g.code| ==> NoDups(liveIn[i]) && NoDups(liveOut[i])
    ensures forall i :: g.InRegion(i) ==>
      Elems(liveOut[i]) == SuccIn(SetsOf(liveIn), g.edges[i]) &&
      Elems(liveIn[i]) == Transfer(g.code[i], Elems(liveOut[i]))
    ensures forall i :: 0 <= i < |g.code| && !g.InRegion(i) ==> liveIn[i] == [] && liveOut[i] == []
    ensures SetsOf(liveIn) == InPass(g, SetsOf(liveIn))
    ensures SetsOf(liveOut) == OutPass(g, SetsOf(liveIn))
    ensures Least(g, liveIn)
    ensures Bounded(SetsOf(liveIn), Universe(g)) && Bounded(SetsOf(liveOut), Universe(g))
  {
    ghost var U := Universe(g);
    liveIn := seq(|g.code|, _ => []);
    liveOut := seq(|g.code|, _ => []);
    var changed := true;
    while changed
      invariant |liveIn| == |liveOut| == |g.code|
      invariant forall j :: 0 <= j < |g.code| ==> NoDups(liveIn[j]) && NoDups(liveOut[j])
      invariant forall j :: 0 <= j < |g.code| && !g.InRegion(j) ==> liveIn[j] == [] && liveOut[j] == []
      invariant Bounded(SetsOf(liveIn), U) && Bounded(SetsOf(liveOut), U)
      invariant Le(SetsOf(liveIn), InPass(g, SetsOf(liveIn)))
      invariant Least(g, liveIn)
      invariant !changed ==> Settled(g, liveIn, liveOut)
      decreases Pot(SetsOf(liveIn), U), (if Settled(g, liveIn, liveOut) then 0 else 1), (if changed then 1 else 0)
    {
      ghost var S := SetsOf(liveIn);
      ghost var wasSettled := Settled(g, liveIn, liveOut);
      ghost var potBefore := Pot(S, U);
      var newIn, newOut, ch := OnePass(g, liveIn, liveOut);
      PassBounded(g, S);
      PassMono(g, S, InPass(g, S));
      LeastPass(g, liveIn, newIn);
      PotDecreases(S, InPass(g, S), U);
      if SetsOf(newIn) == S {
        assert Settled(g, newIn, newOut);
        if wasSettled {
          assert !ch;
        }
      }
      liveIn, liveOut, changed := newIn, newOut, ch;
    }
    forall i | g.InRegion(i)
      ensures Elems(liveOut[i]) == SuccIn(SetsOf(liveIn), g.edges[i])
      ensures Elems(liveIn[i]) == Transfer(g.code[i], Elems(liveOut[i]))
    {
      assert SetsOf(liveOut)[i] == OutPass(g, SetsOf(liveIn))[i];
      assert SetsOf(liveIn)[i] == InPass(g, SetsOf(liveIn))[i];
    }
  }
}
