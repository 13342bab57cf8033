# SIL instructions: a Dafny model

This project models the instruction layer of Swift's SIL intermediate
representation, as implemented in `lib/SIL/Instruction.cpp`. It covers four
things.

- **Owner pointers.** A basic block's instruction list keeps each
  instruction's `ParentBB` up to date through three list hooks. Insertion
  sets it, and the node must have had no parent. Removal clears it, and the
  node must have had one. A splice from another block rewrites it on every
  moved node. A splice within one block leaves it alone.
  `removeFromParent` and `eraseFromParent` are built on these hooks.
- **Variable-arity construction.** `ApplyInst`, `ClosureInst`, `TupleInst`
  and `SpecializeInst` live in one arena allocation: a header, then N
  trailing slots.
- **Result types.** Each instruction kind's constructor fixes its result
  types.
- **Successors.** A terminator's successor slots are dispatched by kind.

Modules:

- `Seqs`: lists without repeats (an intrusive list never holds a node twice).
- `SilTypes` and `SilAst`: the type-system and AST collaborators, reduced to
  the shapes the instruction constructors build or take apart.
- `Instructions`: the closed catalogue (`InstKind`), result types, field
  queries, variable-arity records, terminator successors and the branch
  constructors. All of it is pure.
- `Cfg`: a block's predecessor edges, derived from the successor slots.
- `BlockList`: the classes `BasicBlock` (field `insts: seq<Instruction>`)
  and `Instruction` (field `parentBB`), the hooks and the list operations.
  Every list operation preserves `OwnerInvariant`. That invariant says an
  instruction's `parentBB` is `b` exactly when `b`'s list holds it.
- `Construction`: the instruction constructors, with the fields each stores
  and the result types that follow. These are over concrete blocks
  (`Inst<BasicBlock>`) except the two branch constructors, which `Cfg`
  uses generically and which stay in `Instructions`. Also the `create`
  functions: each makes one request to the function's arena and returns a
  new instruction that is in no block.
- `Scenarios`: client code that uses the contracts alone. It builds a
  branch and erases it, splices two of three instructions, and builds a
  call with three arguments.

What the code does, where one might expect otherwise:

- `AllocVarInst` has one result, the lvalue: its constructors pass a single
  type (`lib/SIL/Instruction.cpp` lines 85-97). Only `AllocBoxInst` and
  `AllocArrayInst` have the two results object-pointer and lvalue.
- `UnreachableInst` and `BranchInst` each have one result, of the empty tuple
  type, which their constructors pass (lines 390-404). `ReturnInst` and
  `CondBranchInst` have none.
- `removeNodeFromList` asserts only that the parent is non-null (line 44).
  It does not check that the parent is the list's own block.

## Model

| member | source | states |
|---|---|---|
| BlockList.BasicBlock.AddNodeToList | lib/SIL/Instruction.cpp:37-40 | requires the node to have no parent; afterwards its parent is this block |
| BlockList.BasicBlock.RemoveNodeFromList | lib/SIL/Instruction.cpp:42-46 | requires a non-null parent; afterwards the parent is null |
| BlockList.BasicBlock.TransferNodesFromList | lib/SIL/Instruction.cpp:48-60 | within one block, every moved node keeps its parent; from another block, every node of the range `[first,last)` names this block; only those nodes' `parentBB` may change (frame) |
| BlockList.BasicBlock.Insert | lib/SIL/Instruction.cpp:37-40 | list insertion through the add hook: the list gains exactly the node at the position, the node's parent becomes this block, and `OwnerInvariant` is preserved |
| BlockList.BasicBlock.Remove | lib/SIL/Instruction.cpp:42-46 | list removal through the remove hook: the list loses exactly that node, its parent becomes null, and `OwnerInvariant` is preserved |
| BlockList.BasicBlock.Erase | lib/SIL/Instruction.cpp:74-79 | removal as above, and the node is marked erased; an erased node is in no list (part of `OwnerInvariant`) |
| BlockList.BasicBlock.Splice | lib/SIL/Instruction.cpp:48-60 | both lists' new contents; every moved node is owned by this block afterwards; an empty range changes nothing; no other parent changes; `OwnerInvariant` is preserved |
| BlockList.BasicBlock.MoveWithin | lib/SIL/Instruction.cpp:52-55 | a splice within one block only reorders the list (`MoveRange`); no parent changes; `OwnerInvariant` is preserved |
| BlockList.BasicBlock.MoveFrom | lib/SIL/Instruction.cpp:57-59 | a splice from another block: the range leaves the source list and enters this one, each moved node's parent is this block, and `OwnerInvariant` is preserved |
| BlockList.BasicBlock.Relink | lib/SIL/Instruction.cpp:48-51 | the list half of a cross-block splice: both lists' new contents; the relinked nodes are in this list only and still name the source block; the owner rule holds for every other node (`OwnersExcept`) |
| BlockList.BasicBlock.Adopt | lib/SIL/Instruction.cpp:57-59 | the hook half: after the transfer hook every relinked node names this block, and `OwnerInvariant` holds again |
| BlockList.Instruction.RemoveFromParent | lib/SIL/Instruction.cpp:67-72 | requires a parent; unlinks the instruction from that block's list without erasing it; `OwnerInvariant` is preserved |
| BlockList.Instruction.EraseFromParent | lib/SIL/Instruction.cpp:74-79 | requires a parent; unlinks the instruction and marks it erased; `OwnerInvariant` is preserved |
| Instructions.FillTrailing | lib/SIL/Instruction.cpp:139-145 | the count field equals N and the trailing slots read back the supplied sequence in order; N = 0 gives an empty payload |
| Instructions.TrailingSlotsFit | lib/SIL/Instruction.cpp:147-153 | with size `sizeof(DERIVED) + N*slot`, each of the N slots lies after the header and inside the allocation, and the last slot ends exactly at the allocation's end |
| Construction.ApplyOf | lib/SIL/Instruction.cpp:155-160 | keeps the callee, stores `NumArgs == N`, reads the args back in order; the result type is the callee's function result |
| Construction.ClosureOf | lib/SIL/Instruction.cpp:167-174 | keeps the callee, stores `NumArgs == N`, reads the args back in order; the result type is the callee's type |
| Construction.TupleOf | lib/SIL/Instruction.cpp:306-309 | stores a count equal to the number of elements and reads the elements back unchanged; the result type is the given type |
| Construction.SpecializeOf | lib/SIL/Instruction.cpp:271-279 | keeps the operand, stores a count equal to the number of substitutions and reads them back unchanged; the result type is the destination type |
| Construction.CreateApply | lib/SIL/Instruction.cpp:162-165 | one arena request of `sizeof(ApplyInst) + N*sizeof(Value)` with the class's alignment; returns a new, unowned `ApplyOf` instruction |
| Construction.CreateClosure | lib/SIL/Instruction.cpp:176-179 | one arena request of `sizeof(ClosureInst) + N*sizeof(Value)`; returns a new, unowned `ClosureOf` instruction |
| Construction.CreateTuple | lib/SIL/Instruction.cpp:299-304 | one arena request of `sizeof(TupleInst) + N*sizeof(Value)`; returns a new, unowned `TupleOf` instruction |
| Construction.CreateSpecialize | lib/SIL/Instruction.cpp:262-269 | one arena request of `sizeof(SpecializeInst) + N*sizeof(Substitution)`; returns a new, unowned `SpecializeOf` instruction |
| Instructions.AllocTypes | lib/SIL/Instruction.cpp:115-125 | exactly two types: the object pointer first, then an lvalue whose rvalue type is the element type |
| Instructions.ResultTypes | lib/SIL/Instruction.cpp:127-371 | at most two results; two exactly for the allocation kinds (object pointer, then lvalue of the element type); none exactly for store, copy-addr, release, dealloc-var, destroy-addr, return and conditional branch; retain and index-addr have the operand's type; apply has the callee's function result; closure has the callee's type |
| Instructions.LoadFromAllocation | lib/SIL/Instruction.cpp:244-247 | loading through an allocation's lvalue result yields the allocation's element type |
| Construction.AllocVarOfDecl | lib/SIL/Instruction.cpp:85-88 | a heap allocation whose `getDecl` gives back the variable and whose one result is the variable's reference type |
| Construction.AllocVarOfType | lib/SIL/Instruction.cpp:90-97 | one result, an lvalue of the element type; `getElementType` gives back the element type; `getDecl` finds a variable exactly when the location is a variable |
| Instructions.GetDecl | lib/SIL/Instruction.cpp:99-107 | some variable exactly when the location is a variable declaration, and then that declaration; none for any other location |
| Instructions.ElementType | lib/SIL/Instruction.cpp:109-113 | the lvalue of the result is the instruction's type (the lvalue cast inverted) |
| Construction.IntegerLiteralOfInt | lib/SIL/Instruction.cpp:195-197 | `getValue` gives back the literal's value; the result type is the expression's type |
| Construction.IntegerLiteralOfChar | lib/SIL/Instruction.cpp:199-201 | `getValue` gives the code point as a 32-bit value; the result type is the expression's type |
| Instructions.IntegerLiteralValue | lib/SIL/Instruction.cpp:207-217 | an integer literal yields its own value; a character literal yields a 32-bit value below 2^32; any other location is excluded, as the unreachable branch does |
| Instructions.MetaType | lib/SIL/Instruction.cpp:318-322 | the metatype is the instruction's only result type |
| Instructions.Successors | lib/SIL/Instruction.cpp:379-388 | only for terminators; at most two slots; none exactly for unreachable and return; the slots are exactly the blocks the instruction refers to |
| Cfg.NonTerminatorAddsNoEdges | lib/SIL/Instruction.cpp:379-380 | successors exist only for terminators, so appending a non-terminator leaves every block's predecessor edges unchanged |
| Construction.UnreachableOf | lib/SIL/Instruction.cpp:390-393 | no successors; one result of the empty tuple type |
| Construction.ReturnOf | lib/SIL/Instruction.cpp:395-398 | keeps the return value; no successors; no result |
| Instructions.BranchOf | lib/SIL/Instruction.cpp:400-404 | the successors are exactly `[DestBB]`; one result of the empty tuple type |
| Instructions.CondBranchOf | lib/SIL/Instruction.cpp:407-414 | keeps the condition; the successors are `[TrueBB, FalseBB]` in that order; no result |
| Cfg.Predecessors | lib/SIL/Instruction.cpp:400-414 | the predecessor edges of a block are exactly the terminator slots whose content is that block |
| Cfg.AppendPredecessors | lib/SIL/Instruction.cpp:400-414 | adding an instruction adds exactly its own slots to each block's predecessor edges |
| Cfg.ReplacePredecessors | lib/SIL/Instruction.cpp:400-414 | replacing an instruction removes exactly the old slots and adds exactly the new ones; every other edge stays |
| Cfg.BranchAddsOneEdge | lib/SIL/Instruction.cpp:400-404 | a new branch is a predecessor of its destination through slot 0, and of no other block |
| Cfg.CondBranchAddsTwoEdges | lib/SIL/Instruction.cpp:407-414 | a new conditional branch reaches its true destination through slot 0 and its false destination through slot 1 |

## Left out

- `getContainingBlock` (lines 29-34) recovers the block from the list's
  address with pointer arithmetic. In the model the hooks are methods of
  the block, so the block is `this`.
- The LLVM intrusive list itself is modelled by sequence updates. Removal
  finds the node by searching the list (`IndexOf`), where the intrusive list
  unlinks it in constant time. Iterator invalidation is not modelled.
- Arena memory is not modelled: byte layout, `llvm::AlignOf`, placement
  `new` and `memcpy`. The trailing region is a sequence, and the arena is
  reduced to the size and alignment requests it receives. The target's
  `sizeof` and `alignof` values are inputs (`TrailingLayout`).
- Memory reclamation on erase is not modelled. An erased instruction is
  only marked `erased`.
- The type system and the AST are collaborators. `ASTContext`,
  `LValueType::get` qualifiers, `getConstantType`, `VarDecl` and the
  literal expressions appear as small datatypes. A constant reference
  carries its type. A variable carries the type `getTypeOfReference` would
  give.
- `FloatLiteralInst::getValue` (floating point) and
  `StringLiteralInst::getValue` are foreign reads from AST nodes. The
  model includes the constructors of these two kinds and their result
  types, but not the reads.
- `IntegerLiteralValue`: the `APInt` carries a width and a value. Only
  the three-way dispatch and the 32-bit width of character literals are
  modelled, not APInt arithmetic.
- The registration of successor slots in the target block's predecessor
  list (`DestBB(this, DestBB)`, `DestBBs[i].init(this)`) is in a header
  that is not part of this model. `Cfg` derives predecessor edges from the
  slot contents instead. Retargeting a slot is also in that header. Only
  replacing a whole instruction is covered (`ReplacePredecessors`).
- The rule that a block ends in exactly one terminator is not enforced
  in `Instruction.cpp`, so the model does not enforce it either.
- Operand lists (`getOperands`) are not in `Instruction.cpp`. The checked
  downcast `dyn_cast` (called at lines 102-103, 210-212 and 381-385) is
  defined by LLVM. The catalogue is a datatype, so a match on `InstKind`
  (or a constructor test such as `k.Branch?`) stands for it.
