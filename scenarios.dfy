/** Client code written against the contracts alone: what a compiler pass
    can rely on when it builds, moves and erases instructions. */
module Scenarios {
  import opened SilTypes
  import opened SilAst
  import opened Instructions
  import opened Cfg
  import opened BlockList
  import opened Construction

  /** Block A gets a branch to empty block B: A's list is that branch, owned
      by A, and B's one predecessor edge is the branch's slot 0. Erasing the
      branch empties A and leaves B without predecessors. */
  method BranchToEmptyBlock() {
    var a := new BasicBlock();
    var b := new BasicBlock();
    var br := new Instruction(BranchOf(b));
    ghost var blocks := {a, b};
    ghost var nodes := {br};
    a.Insert(0, br, blocks, nodes);
    assert a.insts == [br] && br.parentBB == a;
    BranchAddsOneEdge([], b, b);
    assert a.Contents() == [br.inst];
    assert Predecessors(a.Contents(), b) == {Edge(0, 0)};
    br.EraseFromParent(blocks, nodes);
    assert a.insts == [] && br.erased && br.parentBB == null;
    assert Predecessors(a.Contents(), b) == {};
  }

  /** Two instructions spliced from A into B change owner; a third left
      behind in A keeps its owner. */
  method SpliceTwoOfThree(a: BasicBlock, b: BasicBlock, x: Instruction, y: Instruction,
                          z: Instruction)
    requires OwnerInvariant({a, b}, {x, y, z}) && a != b
    requires a.insts == [x, y, z] && b.insts == []
    modifies a, b, x, y, z
  {
    assert a.insts[..0] + a.insts[2..] == [z] && a.insts[0..2] == [x, y];
    b.Splice(0, a, 0, 2, {a, b}, {x, y, z});
    assert b.insts == [x, y] && a.insts == [z];
    assert x.parentBB == b && y.parentBB == b && z.parentBB == a;
  }

  /** A call built from a callee and three arguments stores the count 3,
      reads the arguments back in order and asks the arena for the header
      plus three slots. */
  method CallWithThreeArguments(F: Arena, layout: TrailingLayout, callee: Value,
                                x: Value, y: Value, z: Value)
    requires callee.ty.FunctionTy?
    modifies F
  {
    var call := CreateApply(F, layout, NoLocation, callee, [x, y, z]);
    assert call.inst.kind.callee == callee;
    assert call.inst.kind.args.count == 3;
    assert TrailingContents(call.inst.kind.args) == [x, y, z];
    assert F.requests[|F.requests| - 1].size == layout.headerSize + 3 * layout.slotSize;
  }
}
