/** The control-flow edges of a function, derived from the successor slots
    its terminators hold. A block's predecessor set is not stored anywhere:
    it is computed here from the slot contents, so it cannot drift from
    them. */
module Cfg {
  import opened SilTypes
  import opened SilAst
  import opened Instructions

  /** Successor slot `slot` of the instruction at position `term`. */
  datatype Edge = Edge(term: nat, slot: nat)

  /** Slot `e.slot` of terminator `insts[e.term]` targets `target`. */
  predicate IsEdgeTo<B(==)>(insts: seq<Inst<B>>, e: Edge, target: B) {
    e.term < |insts| && IsTerminator(insts[e.term].kind) &&
    e.slot < |Successors(insts[e.term].kind)| &&
    Successors(insts[e.term].kind)[e.slot] == target
  }

  /** The slots of one instruction, at position `index`, that target `target`. */
  function SlotsTo<B(==)>(t: Inst<B>, index: nat, target: B): set<Edge> {
    if IsTerminator(t.kind) then
      set s | 0 <= s < |Successors(t.kind)| && Successors(t.kind)[s] == target :: Edge(index, s)
    else {}
  }

  /** The predecessor edges of `target`: exactly the slots, over all
      instructions `insts`, whose content is `target`. */
  function Predecessors<B(==)>(insts: seq<Inst<B>>, target: B): (r: set<Edge>)
    ensures forall e :: e in r <==> IsEdgeTo(insts, e, target)
    decreases |insts|
  {
    if insts == [] then {}
    else
      var n := |insts| - 1;
      var r := Predecessors(insts[..n], target) + SlotsTo(insts[n], n, target);
      assert forall e :: IsEdgeTo(insts[..n], e, target) <==> IsEdgeTo(insts, e, target) && e.term < n;
      r
  }

  /** Adding an instruction adds exactly its own slots that target `target`. */
  lemma AppendPredecessors<B>(insts: seq<Inst<B>>, t: Inst<B>, target: B)
    ensures Predecessors(insts + [t], target) ==
            Predecessors(insts, target) + SlotsTo(t, |insts|, target)
  {
    assert (insts + [t])[..|insts|] == insts;
  }

  /** Putting `t` in place of the instruction at `index` (erasing a
      terminator and building another there) removes that instruction's
      edges to `target` and adds those of `t`; every other edge stays. */
  lemma ReplacePredecessors<B>(insts: seq<Inst<B>>, index: nat, t: Inst<B>, target: B)
    requires index < |insts|
    ensures Predecessors(insts[index := t], target) ==
            (Predecessors(insts, target) - SlotsTo(insts[index], index, target)) +
            SlotsTo(t, index, target)
  {
    var after := insts[index := t];
    forall e
      ensures e in Predecessors(after, target) <==>
              e in (Predecessors(insts, target) - SlotsTo(insts[index], index, target)) +
                   SlotsTo(t, index, target)
    {
      if e.term != index {
        assert e.term < |insts| ==> after[e.term] == insts[e.term];
        assert e !in SlotsTo(insts[index], index, target) && e !in SlotsTo(t, index, target);
      }
    }
  }

  /** Only terminators have successors (`getSuccessors` is defined on
      terminators alone), so appending any other instruction leaves every
      block's predecessor edges as they were. */
  lemma {:induction false} NonTerminatorAddsNoEdges<B>(insts: seq<Inst<B>>, t: Inst<B>, target: B)
    requires !IsTerminator(t.kind)
    ensures Predecessors(insts + [t], target) == Predecessors(insts, target)
  {
    AppendPredecessors(insts, t, target);
  }

  /** A branch appended to a function is a predecessor of its destination
      through slot 0, and of no other block. */
  lemma BranchAddsOneEdge<B>(insts: seq<Inst<B>>, destBB: B, target: B)
    ensures Predecessors(insts + [BranchOf(destBB)], target) ==
            Predecessors(insts, target) + (if target == destBB then {Edge(|insts|, 0)} else {})
  {
    AppendPredecessors(insts, BranchOf(destBB), target);
    var succ := Successors(BranchOf<B>(destBB).kind);
    assert succ == [destBB];
  }

  /** A conditional branch appended to a function reaches its true
      destination through slot 0 and its false destination through slot 1. */
  lemma CondBranchAddsTwoEdges<B>(insts: seq<Inst<B>>, loc: Location,
                                  condition: Value, trueBB: B, falseBB: B, target: B)
    ensures Predecessors(insts + [CondBranchOf(loc, condition, trueBB, falseBB)], target) ==
            Predecessors(insts, target) +
            (if target == trueBB then {Edge(|insts|, 0)} else {}) +
            (if target == falseBB then {Edge(|insts|, 1)} else {})
  {
    var t := CondBranchOf(loc, condition, trueBB, falseBB);
    var n := |insts|;
    AppendPredecessors(insts, t, target);
    CondBranchSlots(t, n, target);
  }

  /** The slots of a conditional branch at position `n` that target `target`. */
  lemma CondBranchSlots<B>(t: Inst<B>, n: nat, target: B)
    requires t.kind.CondBranch?
    ensures SlotsTo(t, n, target) ==
            (if target == t.kind.trueBB then {Edge(n, 0)} else {}) +
            (if target == t.kind.falseBB then {Edge(n, 1)} else {})
  {
    var succ := Successors(t.kind);
    assert succ == [t.kind.trueBB, t.kind.falseBB];
    var expected := (if target == t.kind.trueBB then {Edge(n, 0)} else {}) +
                    (if target == t.kind.falseBB then {Edge(n, 1)} else {});
    forall e | e in SlotsTo(t, n, target) ensures e in expected {
      var s :| 0 <= s < 2 && succ[s] == target && e == Edge(n, s);
    }
    forall e | e in expected ensures e in SlotsTo(t, n, target) {
      assert e == Edge(n, e.slot) && e.slot < 2 && succ[e.slot] == target;
    }
  }
}
