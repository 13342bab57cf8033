/** A basic block's instruction list and the owner pointer every
    instruction keeps to its block.

    The three list hooks (`AddNodeToList`, `RemoveNodeFromList`,
    `TransferNodesFromList`) are the only code that writes `parentBB`. The
    list operations built on them (insert, remove, erase, splice) keep
    `OwnerInvariant`: an instruction's `parentBB` is block `b` exactly when
    it is in `b`'s list, so it is in at most one list, and in none when its
    `parentBB` is null. */
module BlockList {
  import opened Seqs
  import opened Instructions

  class Instruction {
    /** The block whose list holds this instruction, or null. */
    var parentBB: BasicBlock?
    /** Set once the instruction has been erased (deleted). */
    var erased: bool
    /** The instruction's location and kind-specific fields. */
    const inst: Inst<BasicBlock>

    /** A new instruction is in no list. */
    constructor (inst: Inst<BasicBlock>)
      ensures this.inst == inst && parentBB == null && !erased
    {
      this.inst := inst;
      parentBB := null;
      erased := false;
    }

    /** `Instruction::removeFromParent`: unlinks this instruction from its
        block without deleting it. */
    method RemoveFromParent(ghost blocks: set<BasicBlock>, ghost nodes: set<Instruction>)
      requires OwnerInvariant(blocks, nodes) && this in nodes && parentBB != null
      modifies parentBB, this`parentBB
      ensures OwnerInvariant(blocks, nodes)
      ensures parentBB == null && erased == old(erased)
      ensures old(parentBB).insts == RemoveAt(old(parentBB.insts), IndexOf(old(parentBB.insts), this))
    {
      parentBB.Remove(this, blocks, nodes);
    }

    /** `Instruction::eraseFromParent`: unlinks this instruction from its
        block and deletes it. */
    method EraseFromParent(ghost blocks: set<BasicBlock>, ghost nodes: set<Instruction>)
      requires OwnerInvariant(blocks, nodes) && this in nodes && parentBB != null
      modifies parentBB, this`parentBB, this`erased
      ensures OwnerInvariant(blocks, nodes)
      ensures parentBB == null && erased
      ensures old(parentBB).insts == RemoveAt(old(parentBB.insts), IndexOf(old(parentBB.insts), this))
    {
      parentBB.Erase(this, blocks, nodes);
    }
  }

  /** Every list is repeat-free and holds only tracked instructions; a
      tracked instruction's `parentBB` is `b` exactly when `b`'s list holds
      it; an owner is always a tracked block; an erased instruction is in no
      list. */
  ghost predicate OwnerInvariant(blocks: set<BasicBlock>, nodes: set<Instruction>)
    reads blocks, nodes
  {
    OwnersExcept(blocks, nodes, [])
  }

  /** `OwnerInvariant` with the owner rule waived for `pending`: nodes a
      splice has already relinked whose transfer hook has not yet run. */
  ghost predicate OwnersExcept(blocks: set<BasicBlock>, nodes: set<Instruction>,
                               pending: seq<Instruction>)
    reads blocks, nodes
  {
    && (forall b :: b in blocks ==> NoDup(b.insts))
    && (forall b, i :: b in blocks && i in b.insts ==> i in nodes)
    && (forall b, i :: b in blocks && i in nodes && i !in pending ==>
          (i.parentBB == b <==> i in b.insts))
    && (forall i :: i in nodes && i.parentBB != null ==> i.parentBB in blocks)
    && (forall i :: i in nodes && i.erased ==> i.parentBB == null)
  }

  class BasicBlock {
    /** The instructions of the block, in execution order. */
    var insts: seq<Instruction>

    constructor ()
      ensures insts == []
    {
      insts := [];
    }

    /** The instruction values of the list, in order. */
    function Contents(): (r: seq<Inst<BasicBlock>>)
      reads this
      ensures |r| == |insts| && forall k :: 0 <= k < |insts| ==> r[k] == insts[k].inst
    {
      var s := insts;
      seq(|s|, k requires 0 <= k < |s| => s[k].inst)
    }

    /** `addNodeToList`: the node joining this block's list must be in no
        list; it then names this block as its parent. */
    method AddNodeToList(i: Instruction)
      requires i.parentBB == null
      modifies i`parentBB
      ensures i.parentBB == this
    {
      i.parentBB := this;
    }

    /** `removeNodeFromList`: the node leaving a list must have a parent;
        it then has none. */
    method RemoveNodeFromList(i: Instruction)
      requires i.parentBB != null
      modifies i`parentBB
      ensures i.parentBB == null
    {
      i.parentBB := null;
    }

    /** `transferNodesFromList`: the nodes `insts[first..last]` have just
        been moved into this list from `src`'s list. Moving within one block
        leaves their parents alone; otherwise each of them now names this
        block. Only these nodes' `parentBB` may change. */
    method TransferNodesFromList(src: BasicBlock, first: nat, last: nat)
      requires first <= last <= |insts|
      modifies (set x | x in insts[first..last])`parentBB
      ensures src == this ==>
                forall k :: first <= k < last ==> insts[k].parentBB == old(insts[k].parentBB)
      ensures src != this ==> forall k :: first <= k < last ==> insts[k].parentBB == this
    {
      if src == this {
        return;
      }
      var k := first;
      while k < last
        invariant first <= k <= last
        invariant forall j :: first <= j < k ==> insts[j].parentBB == this
      {
        insts[k].parentBB := this;
        k := k + 1;
      }
    }

    /** Inserts an unowned, live instruction before position `pos`. */
    method Insert(pos: nat, i: Instruction, ghost blocks: set<BasicBlock>, ghost nodes: set<Instruction>)
      requires OwnerInvariant(blocks, nodes) && this in blocks && i in nodes
      requires pos <= |insts| && i.parentBB == null && !i.erased
      modifies this, i`parentBB
      ensures OwnerInvariant(blocks, nodes)
      ensures insts == old(insts[..pos]) + [i] + old(insts[pos..])
      ensures i.parentBB == this
    {
      assert i !in insts;
      InsertMembers(insts, pos, i);
      insts := insts[..pos] + [i] + insts[pos..];
      AddNodeToList(i);
    }

    /** `iplist::remove`: unlinks `i` from this list; `i` is then unowned. */
    method Remove(i: Instruction, ghost blocks: set<BasicBlock>, ghost nodes: set<Instruction>)
      requires OwnerInvariant(blocks, nodes) && this in blocks && i in insts
      modifies this, i`parentBB
      ensures OwnerInvariant(blocks, nodes)
      ensures insts == RemoveAt(old(insts), IndexOf(old(insts), i))
      ensures i.parentBB == null && i !in insts
    {
      var k := IndexOf(insts, i);
      RemoveAtMembers(insts, k);
      RemoveNodeFromList(i);
      insts := RemoveAt(insts, k);
    }

    /** `iplist::erase`: removes `i` and deletes it. */
    method Erase(i: Instruction, ghost blocks: set<BasicBlock>, ghost nodes: set<Instruction>)
      requires OwnerInvariant(blocks, nodes) && this in blocks && i in insts
      modifies this, i`parentBB, i`erased
      ensures OwnerInvariant(blocks, nodes)
      ensures insts == RemoveAt(old(insts), IndexOf(old(insts), i))
      ensures i.parentBB == null && i.erased && i !in insts
    {
      Remove(i, blocks, nodes);
      i.erased := true;
    }

    /** `iplist::splice`: moves `src.insts[first..last]` so that it sits
        before position `pos` of this list, then runs the transfer hook on
        the moved nodes. Within one block the position may not fall inside
        the range. Every moved node ends up owned by this block; no other
        node's `parentBB` changes. */
    method Splice(pos: nat, src: BasicBlock, first: nat, last: nat,
                  ghost blocks: set<BasicBlock>, ghost nodes: set<Instruction>)
      requires OwnerInvariant(blocks, nodes) && this in blocks && src in blocks
      requires pos <= |insts| && first <= last <= |src.insts|
      requires src == this ==> pos <= first || last <= pos
      modifies this, src, (set x | x in src.insts[first..last])`parentBB
      ensures OwnerInvariant(blocks, nodes)
      ensures src != this ==>
                insts == old(insts[..pos]) + old(src.insts[first..last]) + old(insts[pos..]) &&
                src.insts == old(src.insts[..first]) + old(src.insts[last..])
      ensures src == this ==> insts == MoveRange(old(insts), pos, first, last)
      ensures forall k :: first <= k < last ==> old(src.insts[k]).parentBB == this
      ensures first == last ==> insts == old(insts) && src.insts == old(src.insts)
    {
      if src == this {
        MoveRangeMembers(insts, pos, first, last);
        MoveWithin(pos, first, last, blocks, nodes);
      } else {
        MoveFrom(pos, src, first, last, blocks, nodes);
      }
    }

    /** The same-block case of `Splice`: a reordering of this list, which
        the transfer hook recognises and leaves every parent as it was. */
    method MoveWithin(pos: nat, first: nat, last: nat,
                      ghost blocks: set<BasicBlock>, ghost nodes: set<Instruction>)
      requires OwnerInvariant(blocks, nodes) && this in blocks
      requires first <= last <= |insts| && pos <= |insts| && (pos <= first || last <= pos)
      modifies this, (set x | x in insts[first..last])`parentBB
      ensures OwnerInvariant(blocks, nodes)
      ensures insts == MoveRange(old(insts), pos, first, last)
      ensures forall k :: first <= k < last ==> old(insts[k]).parentBB == this
    {
      MoveRangeMembers(insts, pos, first, last);
      var start := MovedStart(pos, first, last);
      insts := MoveRange(insts, pos, first, last);
      TransferNodesFromList(this, start, start + (last - first));
    }

    /** The cross-block case of `Splice`: the range leaves `src`'s list,
        enters this one, and the transfer hook makes this block its owner. */
    method MoveFrom(pos: nat, src: BasicBlock, first: nat, last: nat,
                    ghost blocks: set<BasicBlock>, ghost nodes: set<Instruction>)
      requires OwnerInvariant(blocks, nodes) && this in blocks && src in blocks && src != this
      requires pos <= |insts| && first <= last <= |src.insts|
      modifies this, src, (set x | x in src.insts[first..last])`parentBB
      ensures OwnerInvariant(blocks, nodes)
      ensures insts == old(insts[..pos]) + old(src.insts[first..last]) + old(insts[pos..])
      ensures src.insts == old(src.insts[..first]) + old(src.insts[last..])
      ensures forall k :: first <= k < last ==> old(src.insts[k]).parentBB == this
    {
      var moved := src.insts[first..last];
      Relink(pos, src, first, last, blocks, nodes);
      Adopt(src, pos, pos + |moved|, blocks, nodes);
    }

    /** The list half of a cross-block splice: `src.insts[first..last]`
        leaves `src`'s list and enters this one before `pos`. No parent is
        written, so the moved nodes still name `src`. */
    method Relink(pos: nat, src: BasicBlock, first: nat, last: nat,
                  ghost blocks: set<BasicBlock>, ghost nodes: set<Instruction>)
      requires OwnerInvariant(blocks, nodes) && this in blocks && src in blocks && src != this
      requires pos <= |insts| && first <= last <= |src.insts|
      modifies this, src
      ensures insts == old(insts[..pos]) + old(src.insts[first..last]) + old(insts[pos..])
      ensures src.insts == old(src.insts[..first]) + old(src.insts[last..])
      ensures OwnersExcept(blocks, nodes, insts[pos..pos + (last - first)])
      ensures forall x :: x in insts[pos..pos + (last - first)] ==> x.parentBB == src
      ensures forall b, x :: b in blocks && x in insts[pos..pos + (last - first)] && x in b.insts ==> b == this
    {
      var moved := src.insts[first..last];
      CutMembers(src.insts, first, last);
      forall x | x in moved ensures x !in insts {
        assert x in src.insts && x.parentBB == src;
      }
      PasteMembers(insts, pos, moved);
      src.insts := src.insts[..first] + src.insts[last..];
      insts := insts[..pos] + moved + insts[pos..];
      assert insts[pos..pos + |moved|] == moved;
      forall b, x | b in blocks && x in moved && x in b.insts ensures b == this {
        assert old(x.parentBB) == src;
      }
    }

    /** The hook half of a cross-block splice: the transfer hook runs on the
        relinked nodes `insts[a..b]`, which are in this list only and still
        name `src`, and each
        of them now names this block. */
    method Adopt(src: BasicBlock, a: nat, b: nat, ghost blocks: set<BasicBlock>, ghost nodes: set<Instruction>)
      requires this in blocks && src != this && a <= b <= |insts|
      requires OwnersExcept(blocks, nodes, insts[a..b])
      requires forall x :: x in insts[a..b] ==> x.parentBB == src
      requires forall c, x :: c in blocks && x in insts[a..b] && x in c.insts ==> c == this
      modifies (set x | x in insts[a..b])`parentBB
      ensures OwnerInvariant(blocks, nodes)
      ensures forall k :: a <= k < b ==> insts[k].parentBB == this
    {
      ghost var pending := insts[a..b];
      TransferNodesFromList(src, a, b);
      forall x | x in pending ensures x.parentBB == this {
        var k :| a <= k < b && insts[k] == x;
      }
      forall c, i | c in blocks && i in nodes ensures (i.parentBB == c <==> i in c.insts) {
        if i !in pending {
          assert i.parentBB == old(i.parentBB);
        }
      }
    }
  }
}
