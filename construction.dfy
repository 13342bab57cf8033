/** Construction of instructions. Each kind's constructor fixes the fields
    it stores and, through them, its result types. The variable-arity kinds
    (`ApplyInst`, `ClosureInst`, `TupleInst`, `SpecializeInst`) are created
    with one request to the function's arena, sized for the class's header
    plus N trailing slots, and yield a new, unowned instruction whose count
    field is N and whose trailing slots hold the N supplied operands in
    order. */
module Construction {
  import opened SilTypes
  import opened SilAst
  import opened Instructions
  import opened BlockList

  // ---------------------------------------------------------------------
  // Instruction constructors: the fields each kind's constructor stores
  // ---------------------------------------------------------------------

  /** `AllocVarInst(VarDecl*)`: a heap allocation located at the variable. */
  function AllocVarOfDecl(vd: Decl): (r: Inst<BasicBlock>)
    requires vd.VarDecl?
    ensures WellFormed(r) && r.kind.AllocVar? && r.kind.allocKind == Heap
    ensures GetDecl(r) == Some(vd)
    ensures ResultTypes(r) == [vd.referenceType]
  {
    Inst(DeclLoc(vd), AllocVar(Heap, vd.referenceType))
  }

  /** `AllocVarInst(loc, allocKind, elementType)`: one result, the address
      of an `elementType`. */
  function AllocVarOfType(loc: Location, allocKind: AllocKind, elementType: Type): (r: Inst<BasicBlock>)
    ensures WellFormed(r) && r.kind.AllocVar? && r.kind.allocKind == allocKind
    ensures ResultTypes(r) == [LValue(elementType)]
    ensures ElementType(r) == elementType
    ensures GetDecl(r).Some? <==> loc.DeclLoc? && loc.decl.VarDecl?
  {
    Inst(loc, AllocVar(allocKind, LValue(elementType)))
  }

  /** `IntegerLiteralInst(IntegerLiteralExpr*)`. */
  function IntegerLiteralOfInt(e: Expr): (r: Inst<BasicBlock>)
    requires e.IntegerLiteralExpr?
    ensures WellFormed(r) && r.kind.IntegerLiteral?
    ensures IntegerLiteralValue(r) == e.value
    ensures ResultTypes(r) == [e.ty]
  {
    Inst(ExprLoc(e), IntegerLiteral)
  }

  /** `IntegerLiteralInst(CharacterLiteralExpr*)`. */
  function IntegerLiteralOfChar(e: Expr): (r: Inst<BasicBlock>)
    requires e.CharacterLiteralExpr?
    ensures WellFormed(r) && r.kind.IntegerLiteral?
    ensures IntegerLiteralValue(r) == APInt(32, e.codePoint as nat)
    ensures ResultTypes(r) == [e.ty]
  {
    Inst(ExprLoc(e), IntegerLiteral)
  }

  /** `ApplyInst(Loc, Callee, Args)`: the result is the callee's function
      result; the callee is kept and the N arguments read back in order. */
  function ApplyOf(loc: Location, callee: Value, args: seq<Value>): (r: Inst<BasicBlock>)
    requires callee.ty.FunctionTy?
    ensures WellFormed(r) && r.kind.Apply? && r.kind.callee == callee
    ensures r.kind.args.count == |args| && TrailingContents(r.kind.args) == args
    ensures ResultTypes(r) == [callee.ty.result]
  {
    Inst(loc, Apply(callee, FillTrailing(args)))
  }

  /** `ClosureInst(Loc, Callee, Args)`: the result has the callee's type. */
  function ClosureOf(loc: Location, callee: Value, args: seq<Value>): (r: Inst<BasicBlock>)
    ensures WellFormed(r) && r.kind.Closure? && r.kind.callee == callee
    ensures r.kind.args.count == |args| && TrailingContents(r.kind.args) == args
    ensures ResultTypes(r) == [callee.ty]
  {
    Inst(loc, Closure(callee, FillTrailing(args)))
  }

  /** `TupleInst(Loc, Ty, Elems)`. */
  function TupleOf(loc: Location, ty: Type, elements: seq<Value>): (r: Inst<BasicBlock>)
    ensures WellFormed(r) && r.kind.Tuple?
    ensures r.kind.elements.count == |elements| && TrailingContents(r.kind.elements) == elements
    ensures ResultTypes(r) == [ty]
  {
    Inst(loc, Tuple(ty, FillTrailing(elements)))
  }

  /** `SpecializeInst(Loc, Operand, Substitutions, DestTy)`. */
  function SpecializeOf(loc: Location, operand: Value, substitutions: seq<Substitution>,
                           destTy: Type): (r: Inst<BasicBlock>)
    ensures WellFormed(r) && r.kind.Specialize? && r.kind.operand == operand
    ensures r.kind.substitutions.count == |substitutions|
    ensures TrailingContents(r.kind.substitutions) == substitutions
    ensures ResultTypes(r) == [destTy]
  {
    Inst(loc, Specialize(operand, FillTrailing(substitutions), destTy))
  }

  /** `UnreachableInst(F)`: no location, no successors, one `()` result. */
  function UnreachableOf(): (r: Inst<BasicBlock>)
    ensures WellFormed(r) && IsTerminator(r.kind)
    ensures Successors(r.kind) == []
    ensures ResultTypes(r) == [EmptyTuple]
  {
    Inst(NoLocation, Unreachable)
  }

  /** `ReturnInst(Loc, ReturnValue)`: no successors, no result. */
  function ReturnOf(loc: Location, returnValue: Value): (r: Inst<BasicBlock>)
    ensures WellFormed(r) && r.kind.Return? && r.kind.returnValue == returnValue
    ensures Successors(r.kind) == []
    ensures ResultTypes(r) == []
  {
    Inst(loc, Return(returnValue))
  }

  // ---------------------------------------------------------------------
  // Arena allocation of the variable-arity kinds
  // ---------------------------------------------------------------------

  /** One request to the arena: a byte count and an alignment. */
  datatype Allocation = Allocation(size: nat, align: nat)

  /** The target's static layout of one variable-arity class: `sizeof` and
      `alignof` of the class itself, and `sizeof` of one trailing slot. */
  datatype TrailingLayout = TrailingLayout(headerSize: nat, align: nat, slotSize: nat)

  /** The request `create` makes for `count` trailing slots. */
  function RequestFor(layout: TrailingLayout, count: nat): Allocation {
    Allocation(TrailingAllocSize(layout.headerSize, count, layout.slotSize), layout.align)
  }

  /** The function's arena (`Function::allocate`), reduced to the requests
      it has received. */
  class Arena {
    var requests: seq<Allocation>

    constructor ()
      ensures requests == []
    {
      requests := [];
    }

    method Allocate(size: nat, align: nat)
      modifies this
      ensures requests == old(requests) + [Allocation(size, align)]
    {
      requests := requests + [Allocation(size, align)];
    }
  }

  /** `ApplyInst::create` through `FunctionInst::create<ApplyInst>`. */
  method CreateApply(F: Arena, layout: TrailingLayout, loc: Location, callee: Value,
                     args: seq<Value>) returns (i: Instruction)
    requires callee.ty.FunctionTy?
    modifies F
    ensures fresh(i) && i.parentBB == null && !i.erased
    ensures i.inst == ApplyOf(loc, callee, args)
    ensures F.requests == old(F.requests) + [RequestFor(layout, |args|)]
  {
    var request := RequestFor(layout, |args|);
    F.Allocate(request.size, request.align);
    i := new Instruction(ApplyOf(loc, callee, args));
  }

  /** `ClosureInst::create` through `FunctionInst::create<ClosureInst>`. */
  method CreateClosure(F: Arena, layout: TrailingLayout, loc: Location, callee: Value,
                       args: seq<Value>) returns (i: Instruction)
    modifies F
    ensures fresh(i) && i.parentBB == null && !i.erased
    ensures i.inst == ClosureOf(loc, callee, args)
    ensures F.requests == old(F.requests) + [RequestFor(layout, |args|)]
  {
    var request := RequestFor(layout, |args|);
    F.Allocate(request.size, request.align);
    i := new Instruction(ClosureOf(loc, callee, args));
  }

  /** `TupleInst::createImpl`. */
  method CreateTuple(F: Arena, layout: TrailingLayout, loc: Location, ty: Type,
                     elements: seq<Value>) returns (i: Instruction)
    modifies F
    ensures fresh(i) && i.parentBB == null && !i.erased
    ensures i.inst == TupleOf(loc, ty, elements)
    ensures F.requests == old(F.requests) + [RequestFor(layout, |elements|)]
  {
    var request := RequestFor(layout, |elements|);
    F.Allocate(request.size, request.align);
    i := new Instruction(TupleOf(loc, ty, elements));
  }

  /** `SpecializeInst::create`; the slots hold substitutions. */
  method CreateSpecialize(F: Arena, layout: TrailingLayout, loc: Location, operand: Value,
                          substitutions: seq<Substitution>, destTy: Type) returns (i: Instruction)
    modifies F
    ensures fresh(i) && i.parentBB == null && !i.erased
    ensures i.inst == SpecializeOf(loc, operand, substitutions, destTy)
    ensures F.requests == old(F.requests) + [RequestFor(layout, |substitutions|)]
  {
    var request := RequestFor(layout, |substitutions|);
    F.Allocate(request.size, request.align);
    i := new Instruction(SpecializeOf(loc, operand, substitutions, destTy));
  }
}
