/** The closed catalogue of SIL instructions: what each kind stores, the
    result types its constructor fixes, the queries on its fields, the
    variable-arity kinds that keep N operands in trailing storage, and the
    successor dispatch of terminators. The constructors of the kinds that
    hold no block are in module `Construction`.

    The catalogue is generic in `B`, the type of basic-block references a
    terminator holds, so that the block list can store these values without
    a cycle between the two modules. */
module Instructions {
  import opened SilTypes
  import opened SilAst

  datatype Option<T> = None | Some(value: T)

  datatype AllocKind = Heap | Stack

  datatype ConversionKind = ImplicitConvert | Coerce | Downcast

  /** A reference to a SIL function or global (`SILConstant`); opaque here. */
  datatype Constant = Constant(name: string)

  /** A generic substitution (archetype := replacement); opaque here. */
  datatype Substitution = Substitution(archetype: string, replacement: Type)

  /** A header count followed by trailing slots, as laid out in one arena
      allocation: `count` is the stored `NumArgs`/`NumSubstitutions` field and
      `slots` the storage that follows the header. */
  datatype Trailing<T> = Trailing(count: nat, slots: seq<T>)

  /** The header count describes the trailing region exactly. */
  predicate TrailingValid<T>(t: Trailing<T>) {
    t.count == |t.slots|
  }

  /** What the accessors (`getArgs`, `getElements`, `getSubstitutions`)
      return: the first `count` trailing slots. */
  function TrailingContents<T>(t: Trailing<T>): seq<T>
    requires t.count <= |t.slots|
  {
    t.slots[..t.count]
  }

  /** The variable-arity constructors: set the count field to N, then copy
      the N supplied elements into the trailing region. N = 0 is allowed. */
  function FillTrailing<T>(s: seq<T>): (t: Trailing<T>)
    ensures TrailingValid(t) && t.count == |s|
    ensures TrailingContents(t) == s
  {
    Trailing(|s|, s)
  }

  /** Bytes requested from the function's arena for a header of
      `headerSize` bytes followed by `count` slots of `slotSize` bytes. */
  function TrailingAllocSize(headerSize: nat, count: nat, slotSize: nat): nat {
    headerSize + count * slotSize
  }

  /** Byte offset of trailing slot `k`: the slots follow the header. */
  function SlotOffset(headerSize: nat, k: nat, slotSize: nat): nat {
    headerSize + k * slotSize
  }

  /** Every one of the `count` trailing slots lies after the header and
      inside the allocation, and the last one ends exactly where the
      allocation ends. */
  lemma TrailingSlotsFit(headerSize: nat, count: nat, slotSize: nat, k: nat)
    requires k < count
    ensures headerSize <= SlotOffset(headerSize, k, slotSize)
    ensures SlotOffset(headerSize, k, slotSize) + slotSize <= TrailingAllocSize(headerSize, count, slotSize)
    ensures SlotOffset(headerSize, count - 1, slotSize) + slotSize ==
            TrailingAllocSize(headerSize, count, slotSize)
  {
    assert (count - (k + 1)) * slotSize >= 0;
    assert (count - 1) * slotSize + slotSize == count * slotSize;
  }

  /** One constructor per instruction kind, holding the kind's own fields. */
  datatype InstKind<B> =
    | AllocVar(allocKind: AllocKind, ty: Type)
    | AllocBox(elementType: Type)
    | AllocArray(elementType: Type, numElements: Value)
      /** `ApplyInst` and `ClosureInst` are the two `FunctionInst`s. */
    | Apply(callee: Value, args: Trailing<Value>)
    | Closure(callee: Value, args: Trailing<Value>)
    | ConstantRef(constant: Constant, ty: Type)
    | ZeroValue(ty: Type)
      /** The literal kinds keep their expression as their location. */
    | IntegerLiteral
    | FloatLiteral
    | StringLiteral
    | Load(lvalue: Value)
    | Store(src: Value, dest: Value)
    | CopyAddr(src: Value, dest: Value, isTakeOfSrc: bool, isInitializationOfDest: bool)
    | Specialize(operand: Value, substitutions: Trailing<Substitution>, ty: Type)
    | Conversion(conversion: ConversionKind, operand: Value, ty: Type)
    | Tuple(ty: Type, elements: Trailing<Value>)
    | Metatype
    | Extract(operand: Value, fieldNo: uint32, ty: Type)
    | ElementAddr(operand: Value, fieldNo: uint32, ty: Type)
    | RefElementAddr(operand: Value, fieldNo: uint32, ty: Type)
    | Retain(operand: Value)
    | Release(operand: Value)
    | DeallocVar(allocKind: AllocKind, operand: Value)
    | DestroyAddr(operand: Value)
    | IndexAddr(operand: Value, index: uint32)
    | IntegerValue(val: uint64, ty: Type)
    | Unreachable
    | Return(returnValue: Value)
    | Branch(destBB: B)
    | CondBranch(condition: Value, trueBB: B, falseBB: B)

  /** The immutable part of an instruction: its location and its fields. */
  datatype Inst<B> = Inst(loc: Location, kind: InstKind<B>)

  /** What every constructor establishes: the callee of an apply has a
      function type (`castTo<FunctionType>`), trailing counts match their
      regions, and a literal or metatype instruction's location is an
      expression of the matching shape. */
  predicate WellFormed<B>(i: Inst<B>) {
    match i.kind
    case Apply(callee, args) => callee.ty.FunctionTy? && TrailingValid(args)
    case Closure(_, args) => TrailingValid(args)
    case Tuple(_, elements) => TrailingValid(elements)
    case Specialize(_, substitutions, _) => TrailingValid(substitutions)
    case IntegerLiteral =>
      i.loc.ExprLoc? && (i.loc.expr.IntegerLiteralExpr? || i.loc.expr.CharacterLiteralExpr?)
    case FloatLiteral => i.loc.ExprLoc? && i.loc.expr.FloatLiteralExpr?
    case StringLiteral => i.loc.ExprLoc? && i.loc.expr.StringLiteralExpr?
    case Metatype => i.loc.ExprLoc? && i.loc.expr.MetatypeExpr?
    case _ => true
  }

  // ---------------------------------------------------------------------
  // Result types
  // ---------------------------------------------------------------------

  /** Kinds whose constructor passes `getAllocType`: two results. */
  predicate IsAllocation<B>(k: InstKind<B>) {
    k.AllocBox? || k.AllocArray?
  }

  /** Kinds whose constructor passes no type to `Instruction`: no result. */
  predicate HasNoResult<B>(k: InstKind<B>) {
    k.Store? || k.CopyAddr? || k.Release? || k.DeallocVar? || k.DestroyAddr? ||
    k.Return? || k.CondBranch?
  }

  /** `getAllocType`: the object pointer, then the address of an element. */
  function AllocTypes(elementType: Type): (r: seq<Type>)
    ensures |r| == 2 && r[0] == ObjectPointer
    ensures r[1].LValue? && RValueType(r[1]) == elementType
  {
    [ObjectPointer, LValue(elementType)]
  }

  /** The result types each constructor hands to the `Instruction` base. */
  function ResultTypes<B>(i: Inst<B>): (r: seq<Type>)
    requires WellFormed(i)
    ensures |r| <= 2
    ensures |r| == 2 <==> IsAllocation(i.kind)
    ensures |r| == 0 <==> HasNoResult(i.kind)
    ensures IsAllocation(i.kind) ==> r == AllocTypes(i.kind.elementType)
    ensures i.kind.Retain? || i.kind.IndexAddr? ==> r == [i.kind.operand.ty]
    ensures i.kind.Apply? ==> r == [i.kind.callee.ty.result]
    ensures i.kind.Closure? ==> r == [i.kind.callee.ty]
  {
    match i.kind
    case AllocVar(_, ty) => [ty]
    case AllocBox(elementType) => AllocTypes(elementType)
    case AllocArray(elementType, _) => AllocTypes(elementType)
    case Apply(callee, _) => [callee.ty.result]
    case Closure(callee, _) => [callee.ty]
    case ConstantRef(_, ty) => [ty]
    case ZeroValue(ty) => [ty]
    case IntegerLiteral => [i.loc.expr.ty]
    case FloatLiteral => [i.loc.expr.ty]
    case StringLiteral => [i.loc.expr.ty]
    case Load(lvalue) => [RValueType(lvalue.ty)]
    case Store(_, _) => []
    case CopyAddr(_, _, _, _) => []
    case Specialize(_, _, ty) => [ty]
    case Conversion(_, _, ty) => [ty]
    case Tuple(ty, _) => [ty]
    case Metatype => [i.loc.expr.ty]
    case Extract(_, _, ty) => [ty]
    case ElementAddr(_, _, ty) => [ty]
    case RefElementAddr(_, _, ty) => [ty]
    case Retain(operand) => [operand.ty]
    case Release(_) => []
    case DeallocVar(_, _) => []
    case DestroyAddr(_) => []
    case IndexAddr(operand, _) => [operand.ty]
    case IntegerValue(_, ty) => [ty]
    case Unreachable => [EmptyTuple]
    case Return(_) => []
    case Branch(_) => [EmptyTuple]
    case CondBranch(_, _, _) => []
  }

  /** Loading through the address an allocation returns yields a value of
      the allocated element type. */
  lemma LoadFromAllocation<B>(alloc: Inst<B>, loc: Location, def: nat)
    requires IsAllocation(alloc.kind)
    ensures WellFormed(alloc)
    ensures ResultTypes<B>(Inst(loc, Load(Value(def, ResultTypes(alloc)[1])))) ==
            [alloc.kind.elementType]
  {
  }

  // ---------------------------------------------------------------------
  // AllocVar queries
  // ---------------------------------------------------------------------

  /** `AllocVarInst::getDecl`: the variable the allocation is located at,
      or none for a temporary. */
  function GetDecl<B>(i: Inst<B>): (r: Option<Decl>)
    requires i.kind.AllocVar?
    ensures r.Some? <==> i.loc.DeclLoc? && i.loc.decl.VarDecl?
    ensures r.Some? ==> i.loc == DeclLoc(r.value)
  {
    if i.loc.DeclLoc? then
      if i.loc.decl.VarDecl? then Some(i.loc.decl) else None
    else None
  }

  /** `AllocVarInst::getElementType`: the object type of the lvalue the
      instruction produces (the cast to an lvalue type must succeed). */
  function ElementType<B>(i: Inst<B>): (r: Type)
    requires i.kind.AllocVar? && i.kind.ty.LValue?
    ensures LValue(r) == i.kind.ty
  {
    i.kind.ty.objectType
  }

  // ---------------------------------------------------------------------
  // Literal queries
  // ---------------------------------------------------------------------

  /** `IntegerLiteralInst::getValue`: an integer literal's own value, or a
      character literal's code point as a 32-bit integer; the location can
      be nothing else. */
  function IntegerLiteralValue<B>(i: Inst<B>): (r: APInt)
    requires i.kind.IntegerLiteral? && WellFormed(i)
    ensures i.loc.expr.IntegerLiteralExpr? ==> r == i.loc.expr.value
    ensures i.loc.expr.CharacterLiteralExpr? ==> r.width == 32 && r.value < 0x1_0000_0000
  {
    match i.loc.expr
    case IntegerLiteralExpr(value, _) => value
    case CharacterLiteralExpr(codePoint, _) => APInt(32, codePoint as nat)
  }

  /** `MetatypeInst::getMetaType`: the type of the metatype expression,
      which is also the instruction's one result type. */
  function MetaType<B>(i: Inst<B>): (r: Type)
    requires i.kind.Metatype? && WellFormed(i)
    ensures ResultTypes(i) == [r]
  {
    i.loc.expr.ty
  }

  // ---------------------------------------------------------------------
  // Terminators
  // ---------------------------------------------------------------------

  predicate IsTerminator<B>(k: InstKind<B>) {
    k.Unreachable? || k.Return? || k.Branch? || k.CondBranch?
  }

  /** Every block reference an instruction's fields hold. */
  function BlockOperands<B>(k: InstKind<B>): set<B> {
    match k
    case Branch(destBB) => {destBB}
    case CondBranch(_, trueBB, falseBB) => {trueBB, falseBB}
    case _ => {}
  }

  /** `TermInst::getSuccessors`: only for terminators; dispatches to the
      kind's own successor slots, in slot order. */
  function Successors<B>(k: InstKind<B>): (r: seq<B>)
    requires IsTerminator(k)
    ensures |r| <= 2
    ensures r == [] <==> k.Unreachable? || k.Return?
    ensures BlockOperands(k) == set b | b in r
  {
    match k
    case Unreachable => []
    case Return(_) => []
    case CondBranch(_, trueBB, falseBB) => [trueBB, falseBB]
    case Branch(destBB) => [destBB]
  }

  /** `BranchInst(DestBB, F)`: no location, the one slot holds `DestBB`, one
      `()` result. */
  function BranchOf<B>(destBB: B): (r: Inst<B>)
    ensures WellFormed(r) && IsTerminator(r.kind)
    ensures Successors(r.kind) == [destBB]
    ensures ResultTypes(r) == [EmptyTuple]
  {
    Inst(NoLocation, Branch(destBB))
  }

  /** `CondBranchInst(Loc, Condition, TrueBB, FalseBB)`: slot 0 holds the
      true destination and slot 1 the false one; no result. */
  function CondBranchOf<B>(loc: Location, condition: Value, trueBB: B, falseBB: B): (r: Inst<B>)
    ensures WellFormed(r) && r.kind.CondBranch? && r.kind.condition == condition
    ensures Successors(r.kind) == [trueBB, falseBB]
    ensures ResultTypes(r) == []
  {
    Inst(loc, CondBranch(condition, trueBB, falseBB))
  }
}
