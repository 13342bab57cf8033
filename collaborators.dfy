/** The type system as the instruction layer sees it: a comparable handle
    it stores and forwards. Only the shapes the instruction constructors
    build or take apart are spelled out; every other type is `Nominal`. */
module SilTypes {

  newtype uint32 = x: int | 0 <= x < 0x1_0000_0000
  newtype uint64 = x: int | 0 <= x < 0x1_0000_0000_0000_0000

  datatype Type =
    | Nominal(name: string)
      /** Builtin.ObjectPointer (`ASTContext::TheObjectPointerType`). */
    | ObjectPointer
      /** The empty tuple type `()` (`ASTContext::TheEmptyTupleType`). */
    | EmptyTuple
      /** `LValueType::get(objectType, DefaultForType)`: an address of `objectType`. */
    | LValue(objectType: Type)
    | FunctionTy(input: Type, result: Type)

  /** `Type::getRValueType`: strips one lvalue layer, leaves other types alone. */
  function RValueType(t: Type): (r: Type)
    ensures t.LValue? ==> LValue(r) == t
    ensures !t.LValue? ==> r == t
  {
    if t.LValue? then t.objectType else t
  }

  /** A SIL value: the identity of a defining instruction's result together
      with that result's type, which `Value::getType` reads without
      evaluating anything. */
  datatype Value = Value(def: nat, ty: Type)
}

/** The AST as the instruction layer sees it: literal expressions and
    declarations that an instruction keeps as its source location and reads
    its payload from. */
module SilAst {
  import opened SilTypes

  /** An arbitrary-width integer (`llvm::APInt`): a bit width and an
      unsigned value that fits in it. */
  datatype APInt = APInt(width: nat, value: nat)

  datatype Expr =
    | IntegerLiteralExpr(value: APInt, ty: Type)
      /** A character literal; its value is a 32-bit code point. */
    | CharacterLiteralExpr(codePoint: uint32, ty: Type)
    | FloatLiteralExpr(ty: Type)
    | StringLiteralExpr(ty: Type)
    | MetatypeExpr(ty: Type)
    | OtherExpr(ty: Type)

  datatype Decl =
      /** A variable; `referenceType` is what `VarDecl::getTypeOfReference` gives. */
    | VarDecl(name: string, referenceType: Type)
    | OtherDecl(name: string)

  /** `SILLocation`: empty, an expression or a declaration. */
  datatype Location = NoLocation | ExprLoc(expr: Expr) | DeclLoc(decl: Decl)
}
