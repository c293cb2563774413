/** Control-flow graph construction over one function region of the TAC
    (CodeGenerator::createCFG). Edges are instruction indices. */
module Cfg {
  import opened Tac

  /** The label table maps each bound label to the index of the Label
      instruction that carries it. */
  ghost predicate LabelsMarked(code: seq<Instr>, labels: map<Name, nat>) {
    forall l :: l in labels ==> labels[l] < |code| && code[labels[l]] == Label(l)
  }

  /** Some EndFunc closes the region that starts at `begin`. */
  predicate HasEndFunc(code: seq<Instr>, begin: nat) {
    exists j :: begin <= j < |code| && code[j].EndFunc?
  }

  /** Index of the first EndFunc at or after `begin`: the end of the
      function region. */
  function FirstEndFunc(code: seq<Instr>, begin: nat): (r: nat)
    requires HasEndFunc(code, begin)
    ensures begin <= r < |code| && code[r].EndFunc?
    ensures forall j :: begin <= j < r ==> !code[j].EndFunc?
    decreases |code| - begin
  {
    if code[begin].EndFunc? then begin
    else
      assert HasEndFunc(code, begin + 1) by {
        var j :| begin <= j < |code| && code[j].EndFunc?;
        assert j != begin;
      }
      FirstEndFunc(code, begin + 1)
  }

  /** Every Goto and IfZ of the region names a label that the table binds. */
  predicate JumpsBound(code: seq<Instr>, labels: map<Name, nat>, begin: nat, end: nat)
    requires end <= |code|
  {
    forall i :: begin <= i < end && (code[i].Goto? || code[i].IfZ?) ==> code[i].target in labels
  }

  /** The successors createCFG gives instruction `i` according to its kind:
      a Goto jumps to its label; an IfZ jumps to its label or falls through;
      a Return leaves the function; everything else falls through. */
  function Successors(code: seq<Instr>, labels: map<Name, nat>, i: nat): (r: seq<nat>)
    requires i + 1 < |code|
    requires code[i].Goto? || code[i].IfZ? ==> code[i].target in labels
    ensures |r| == (if code[i].Return? then 0 else if code[i].IfZ? then 2 else 1)
    ensures !code[i].Goto? && !code[i].Return? ==> r[|r| - 1] == i + 1
    ensures LabelsMarked(code, labels) ==> forall k :: 0 <= k < |r| ==> r[k] < |code|
    ensures LabelsMarked(code, labels) && (code[i].Goto? || code[i].IfZ?) ==>
              code[r[0]] == Label(code[i].target)
  {
    match code[i]
    case Goto(l) => [labels[l]]
    case IfZ(_, l) => [labels[l], i + 1]
    case Return(_) => []
    case _ => [i + 1]
  }

  /** createCFG: starting at the BeginFunc at `begin`, appends to each
      instruction of the region its successors, and stops at the first
      EndFunc, which gets none. Returns the extended edge lists and the index
      of that EndFunc. */
  method BuildEdges(code: seq<Instr>, labels: map<Name, nat>, begin: nat, edges0: seq<seq<nat>>)
    returns (edges: seq<seq<nat>>, end: nat)
    requires begin < |code| && code[begin].BeginFunc?
    requires HasEndFunc(code, begin)
    requires JumpsBound(code, labels, begin, FirstEndFunc(code, begin))
    requires |edges0| == |code|
    ensures end == FirstEndFunc(code, begin)
    ensures |edges| == |code|
    ensures forall i :: begin <= i < end ==> edges[i] == edges0[i] + Successors(code, labels, i)
    ensures forall i :: 0 <= i < |code| && !(begin <= i < end) ==> edges[i] == edges0[i]
  {
    var last := FirstEndFunc(code, begin);
    edges := edges0;
    var i := begin;
    while !code[i].EndFunc?
      invariant begin <= i <= last
      invariant |edges| == |code|
      invariant forall j :: begin <= j < i ==> edges[j] == edges0[j] + Successors(code, labels, j)
      invariant forall j :: 0 <= j < |code| && !(begin <= j < i) ==> edges[j] == edges0[j]
      decreases last - i
    {
      match code[i] {
        case Goto(l) =>
          edges := edges[i := edges[i] + [labels[l]]];
        case IfZ(_, l) =>
          edges := edges[i := edges[i] + [labels[l]]];
          edges := edges[i := edges[i] + [i + 1]];
        case Return(_) =>
        case _ =>
          edges := edges[i := edges[i] + [i + 1]];
      }
      i := i + 1;
    }
    end := i;
  }

  /** Every successor in `es` is an instruction index below `n`. */
  ghost predicate EdgesIn(es: seq<seq<nat>>, n: nat) {
    forall i, k :: 0 <= i < |es| && 0 <= k < |es[i]| ==> es[i][k] < n
  }

  /** Appending the successors of a region keeps every edge inside the code. */
  lemma ExtendedEdgesIn(code: seq<Instr>, labels: map<Name, nat>, begin: nat, end: nat,
                        edges0: seq<seq<nat>>, edges: seq<seq<nat>>)
    requires LabelsMarked(code, labels) && end < |code|
    requires JumpsBound(code, labels, begin, end)
    requires |edges0| == |edges| == |code| && EdgesIn(edges0, |code|)
    requires forall i :: begin <= i < end ==> edges[i] == edges0[i] + Successors(code, labels, i)
    requires forall i :: 0 <= i < |code| && !(begin <= i < end) ==> edges[i] == edges0[i]
    ensures EdgesIn(edges, |code|)
  {
    forall i, k | 0 <= i < |edges| && 0 <= k < |edges[i]|
      ensures edges[i][k] < |code|
    {
      if begin <= i < end && k >= |edges0[i]| {
        assert edges[i][k] == Successors(code, labels, i)[k - |edges0[i]|];
      }
    }
  }
}
