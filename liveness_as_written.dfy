/** CodeGenerator::livenessAnalysis as its code is written, beside the
    algorithm its comments describe (module Liveness). Three things part
    the two: the Append of the union loop sits inside the scan of the Out
    list, so nothing is ever added to a list that starts empty; no In list
    is ever stored; and a pass runs from `begin` to the end of the whole
    instruction list. As a result every pass reports a change as soon as
    one instruction from `begin` on reads a name, and the loop that repeats
    passes while something changed never ends. */
module LivenessAsWritten {
  import opened Tac
  import opened Liveness

  /** Index of the first occurrence of x in s, or |s| when there is none. */
  function FirstIndex(s: seq<Name>, x: Name): (r: nat)
    ensures r <= |s| && (r < |s| ==> s[r] == x)
    ensures forall m :: 0 <= m < r ==> s[m] != x
  {
    if s == [] then 0 else if s[0] == x then 0 else 1 + FirstIndex(s[1..], x)
  }

  /** The innermost union loop as written: it scans outSet for elem, but
      appends a copy of elem at every element scanned before the first
      match. An empty list stays empty; a non-empty list without elem gets
      as many copies of elem as it had elements. */
  method AppendAsWritten(outSet0: seq<Name>, elem: Name) returns (outSet: seq<Name>)
    ensures outSet == outSet0 + seq(FirstIndex(outSet0, elem), _ => elem)
  {
    ghost var idx := FirstIndex(outSet0, elem);
    outSet := outSet0;
    var l := 0;
    while l < |outSet|
      invariant 0 <= l <= idx
      invariant outSet == outSet0 + seq(l, _ => elem)
      decreases idx - l
    {
      if outSet[l] == elem {
        break;
      }
      assert seq(l, _ => elem) + [elem] == seq(l + 1, _ => elem);
      outSet := outSet + [elem];
      l := l + 1;
    }
  }

  /** Out[TAC] as written: the union loop over the successors' In lists,
      starting from an empty list, never adds anything. */
  method UnionAsWritten(liveIn: seq<seq<Name>>, es: seq<nat>) returns (outSet: seq<Name>)
    requires forall k :: 0 <= k < |es| ==> es[k] < |liveIn|
    ensures outSet == []
  {
    outSet := [];
    var j := 0;
    while j < |es|
      invariant 0 <= j <= |es| && outSet == []
    {
      var inSet := liveIn[es[j]];
      var k := 0;
      while k < |inSet|
        invariant 0 <= k <= |inSet| && outSet == []
      {
        outSet := AppendAsWritten(outSet, inSet[k]);
        k := k + 1;
      }
      j := j + 1;
    }
  }

  /** The comparison at the end of each instruction's step: every element
      of outSet is looked up in a copy of inPrimeSet and removed from the
      copy; the lists differ when an element is missing or the copy is left
      non-empty. On lists without duplicates this is exactly set
      inequality. */
  method DiffersAsWritten(outSet: seq<Name>, inPrimeSet: seq<Name>) returns (different: bool)
    requires NoDups(outSet) && NoDups(inPrimeSet)
    ensures different <==> Elems(outSet) != Elems(inPrimeSet)
  {
    var temp := inPrimeSet;
    var setsAreDifferent := false;
    var i := 0;
    while i < |outSet|
      invariant 0 <= i <= |outSet|
      invariant NoDups(temp)
      invariant Elems(temp) == Elems(inPrimeSet) - Elems(outSet[..i])
      invariant Elems(outSet[..i]) <= Elems(inPrimeSet)
    {
      assert outSet[..i + 1] == outSet[..i] + [outSet[i]];
      assert outSet[i] !in Elems(outSet[..i]);
      ghost var temp0 := temp;
      var found := false;
      var j := 0;
      while j < |temp|
        invariant 0 <= j <= |temp|
        invariant forall m :: 0 <= m < j ==> temp[m] != outSet[i]
      {
        if outSet[i] == temp[j] {
          assert outSet[i] in Elems(temp0);
          RemoveAtElems(temp, j);
          temp := temp[..j] + temp[j + 1..];
          found := true;
          break;
        }
        j := j + 1;
      }
      if !found {
        assert outSet[i] !in Elems(temp0);
        assert outSet[i] in Elems(outSet) && outSet[i] !in Elems(inPrimeSet);
        setsAreDifferent := true;
        break;
      }
      i := i + 1;
    }
    if !setsAreDifferent {
      assert outSet[..|outSet|] == outSet;
      if |temp| != 0 {
        assert temp[0] in Elems(temp);
      }
    }
    different := setsAreDifferent || |temp| != 0;
  }

  /** One pass of the outer loop as written: it runs from `begin` to the end
      of the whole list, computes Out with the union loop as written,
      In' = Out - Kill + Gen, and compares Out with In'. Nothing is stored,
      so every pass over the same code gives the same answer: a change
      exactly when some instruction from `begin` on reads a name. */
  method PassAsWritten(code: seq<Instr>, edges: seq<seq<nat>>, liveIn: seq<seq<Name>>, begin: nat)
    returns (changed: bool)
    requires begin <= |code| && |edges| == |code| && |liveIn| == |code|
    requires forall i, k :: 0 <= i < |edges| && 0 <= k < |edges[i]| ==> edges[i][k] < |liveIn|
    ensures changed <==> exists i :: begin <= i < |code| && GenSet(code[i]) != []
  {
    changed := false;
    var i := begin;
    while i < |code|
      invariant begin <= i <= |code|
      invariant changed <==> exists j :: begin <= j < i && GenSet(code[j]) != []
    {
      var outSet := UnionAsWritten(liveIn, edges[i]);
      var inPrimeSet := RemoveKilled(outSet, KillSet(code[i]));
      inPrimeSet := AppendAbsent(inPrimeSet, GenSet(code[i]));
      var different := DiffersAsWritten(outSet, inPrimeSet);
      if GenSet(code[i]) != [] {
        assert GenSet(code[i])[0] in Elems(GenSet(code[i]));
      }
      if different {
        changed := true;
      }
      i := i + 1;
    }
  }

  /** A successor whose In list holds x: the union the comments call for
      contains x, while the union loop as written yields an empty list. */
  lemma UnionMisses(x: Name)
    ensures SuccIn(SetsOf([[x]]), [0]) == {x}
  {
    var S := SetsOf([[x]]);
    assert [0][..0] == [];
    assert S[0] == Elems([x]);
    assert Elems([x]) == {x};
  }

  /** The function `BeginFunc; Return x; EndFunc`, with its Return reading
      the slot x: its body reads a name, so every pass as written reports a
      change and the analysis as written never ends; in the analysis the
      comments describe, x is live on entry to the Return in every
      solution. */
  lemma ReturnReadsLive(x: Location)
    requires x.Var?
    ensures var code := [BeginFunc(None), Return(Some(x)), EndFunc];
      exists i :: 0 <= i < |code| && GenSet(code[i]) != []
    ensures var g := Region([BeginFunc(None), Return(Some(x)), EndFunc], [[1], [], []], 0, 2);
      g.WellFormed() && forall S :: |S| == 3 ==> x.name in InPass(g, S)[1]
  {
    var code := [BeginFunc(None), Return(Some(x)), EndFunc];
    assert GenSet(code[1]) == [x.name];
    var g := Region(code, [[1], [], []], 0, 2);
    forall S | |S| == 3 ensures x.name in InPass(g, S)[1] {
      assert InPass(g, S)[1] == Transfer(code[1], SuccIn(S, g.edges[1]));
      assert x.name in Elems(GenSet(code[1]));
    }
  }
}
