/**
 * The runtime_error messages decafcomp.cc throws, the two exceptions of
 * std::stoi, and one case for behaviour the C++ leaves undefined (a NULL
 * or a wrongly cast pointer reached only through symbol-table contents).
 */
module Failures {
  datatype Error =
    | UnknownType(ty: string)          // "unknown type" (getLLVMType, getZeroInit)
    | NoPackageDefinition              // "no package definition in decaf program"
    | BlockProblem                     // "Block AST Problem"
    | InvalidIfCondition               // "Invalid ifstmt condition"
    | NonExistentVariable(name: string) // "assigning to non existent variable"
    | AssignArrayLocError              // "AssignArrayLoc error"
    | BoolExprError                    // "BoolExpr error"
    | BinaryExprFault(op: string)      // "binary expr fault"
    | UnaryExprFault(op: string)       // "unary expr fault"
    | ScalarCodegen                    // "scalar"
    | IdCodegen                        // "idast"
    | InvalidArgument                  // std::invalid_argument from std::stoi
    | OutOfRange                       // std::out_of_range from std::stoi
    | Undefined(what: string)          // undefined behaviour in the C++
}
