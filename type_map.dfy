/** getLLVMType and getZeroInit of decafcomp.cc: Decaf type tags to IR types and zero constants. */
module TypeMap {
  import opened Wrappers
  import opened Failures
  import opened Ir

  /** The four type tags getLLVMType knows. */
  predicate IsTypeTag(ty: string) {
    ty == "VoidType" || ty == "IntType" || ty == "BoolType" || ty == "StringType"
  }

  /** getLLVMType: VoidType, IntType, BoolType and StringType; any other tag throws "unknown type". */
  function LlvmType(ty: string): (r: Result<Type, Error>)
    ensures r.Ok? <==> IsTypeTag(ty)
    ensures r.Fail? ==> r.error == UnknownType(ty)
    ensures ty == "VoidType" ==> r == Ok(Void)
    ensures ty == "IntType" ==> r == Ok(I32)
    ensures ty == "BoolType" ==> r == Ok(I1)
    ensures ty == "StringType" ==> r == Ok(I8Ptr)
  {
    if ty == "VoidType" then Ok(Void)
    else if ty == "IntType" then Ok(I32)
    else if ty == "BoolType" then Ok(I1)
    else if ty == "StringType" then Ok(I8Ptr)
    else Fail(UnknownType(ty))
  }

  /** getZeroInit: a zero of the type for IntType and BoolType only. */
  function ZeroInit(ty: string): (r: Result<Value, Error>)
    ensures r.Ok? <==> ty == "IntType" || ty == "BoolType"
    ensures r.Fail? ==> r.error == UnknownType(ty)
    ensures r.Ok? ==> r.value.ConstInt? && r.value.v == 0
  {
    if ty == "IntType" then Ok(ConstInt(I32, 0))
    else if ty == "BoolType" then Ok(ConstInt(I1, 0))
    else Fail(UnknownType(ty))
  }

  /** Where a zero exists it has the type getLLVMType gives the tag. */
  lemma ZeroInitHasItsType(ty: string)
    requires ZeroInit(ty).Ok?
    ensures LlvmType(ty).Ok? && TypeOf(ZeroInit(ty).value) == LlvmType(ty).value
  {
  }

  /** Distinct tags map to distinct types. */
  lemma LlvmTypeInjective(a: string, b: string)
    requires LlvmType(a).Ok? && LlvmType(b).Ok? && a != b
    ensures LlvmType(a).value != LlvmType(b).value
  {
  }
}
