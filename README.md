# Decaf compiler course programs, modelled in Dafny

This project models three programs of a compiler course.

- `decafcomp/answer/decafcomp.cc` compiles a Decaf abstract syntax tree to LLVM IR, each node doing it in its own `Codegen()`.
  - The LLVM library is replaced by an abstract IR (module `Ir`). It has types, values, one instruction record per builder call, basic blocks, and a module holding the builder's insertion block.
  - The symbol table `symtbl` is a stack of maps (module `Scopes`).
  - Other modules hold the type map (`TypeMap`), the numeric conversions `stoi`/`atoi` (`Numerals`) and the string-literal escape handling (`Escapes`).
  - `LowerSpec` states what every `Codegen()` does as a function. It maps the compiler state (module, builder and scope stack) to the `Value*` returned (or NULL), the new state, or the `runtime_error` thrown. It also proves the properties of the lowering: scope-stack balance, the shape of the if/else control flow, width promotion, the default returns and source order.
  - `Lowering` holds the same `Codegen()`s as methods on a mutable `Ir.Builder` and a mutable `Scopes.SymbolTable`, with the loops of the source (`listCodegen`, `returnArgs`, `returnArgsE`, `returnArgsV`, the parameter loop, the argument promotion loop). Each method is proved to end in exactly the state and result the matching `LowerSpec` function gives, so every lemma about the function holds of the method.
- `decafexpr/answer/test.cc` is the pretty-printer of the same tree: every node's `str()`, `getString` and `commaList` (module `DecafAst`, which serves both programs).
- `rmprefix/answer/rmprefix.cc` is a line filter that erases every space and tab wherever it stands (module `RmPrefix`).

Modelling conventions:

- A pointer child that may be NULL is an `Option<Node>`. A `decafStmtList*` child is an `Option` holding a `StmtList` node.
- Undefined behaviour that follows from the tree's shape is a precondition (`LowerSpec.Shaped`). Examples: a NULL child that is dereferenced, a wrong `static_cast`, a string literal without its two quotes, an array field of a type other than Int, Bool or String.
- Undefined behaviour that depends on what the symbol table holds at run time ends in the error `Undefined(..)`. No precondition on a single node can exclude it. Examples: a load through a name that is not declared, a call of a name that is not a function, an indexed name that is not a global array, more arguments than parameters.
- `std::stoi` is modelled with its two exceptions, `invalid_argument` and `out_of_range`. `atoi` reads an optional sign and digits after white space, and gives 0 when no digit comes.
- `std::map::insert` leaves an existing entry in place, and `Scopes.Declare` does the same.
- `Builder.CreateZExt` to the type a value already has returns the value unchanged, as LLVM's IRBuilder does.

The model follows the code where it departs from the language's description. Each case below is described as it is:

- `BlockAST::Codegen` pushes no scope. Only a method body gets one.
- The parameters of a method are bound in the scope that encloses the method, before its body's scope is pushed.
- `AssignVarAST` enters the store instruction under the variable's name. Where the variable lives further out than the front scope, this shadows it with a non-pointer.
- The array index of `ArrayLocExprAST` and `ArrayLValAST` is `atoi` of the rendering of the index expression, which is always 0.
- `ArrayLocExprAST` used as a value yields the element's address, not a load.
- String escapes are expanded more than once. The lowering of a string literal follows the nine loops as written (`Escapes.ExpandAsWritten`). This one is a finding, given below with a corrected decoder (`Escapes.ExpandOnce`) proved on its own.

## Model

| member | source | states |
|---|---|---|
| Scopes.Lookup | decafcomp/answer/decafcomp.cc:40-48 | the binding of the first scope, front to back, that has the name; None (NULL) exactly when no scope has it |
| Scopes.Access | decafcomp/answer/decafcomp.cc:40-48 | the scope-by-scope search loop returns what `Lookup` specifies |
| Scopes.FirstBindingIsLookup | decafcomp/answer/decafcomp.cc:41-45 | the first scope that binds the name gives the result of the lookup |
| Scopes.Declare | decafcomp/answer/decafcomp.cc:125 | insert into the front scope: the name maps to the new value only if the front scope lacked it; no other entry, and no other scope, changes |
| Scopes.LookupAfterDeclare | decafcomp/answer/decafcomp.cc:432 | after a declaration the name resolves to the front scope's entry, which is the earlier one when there was one |
| Scopes.LookupOtherAfterDeclare | decafcomp/answer/decafcomp.cc:770 | a declaration does not change how any other name resolves |
| Scopes.LookupAfterPush | decafcomp/answer/decafcomp.cc:774-775 | pushing an empty scope hides no binding |
| Scopes.ShadowThenPop | decafcomp/answer/decafcomp.cc:774-783 | a name declared in a pushed scope shadows outer bindings, and popping the scope restores the stack beneath |
| Scopes.SymbolTable.PushFront | decafcomp/answer/decafcomp.cc:775 | the stack gains an empty front scope |
| Scopes.SymbolTable.PopFront | decafcomp/answer/decafcomp.cc:783 | the front scope is removed, the rest kept |
| Scopes.SymbolTable.Insert | decafcomp/answer/decafcomp.cc:125 | the table becomes `Declare` of the old table |
| Scopes.SymbolTable.Find | decafcomp/answer/decafcomp.cc:40-48 | the result is `Lookup` over the current table |
| TypeMap.LlvmType | decafcomp/answer/decafcomp.cc:52-63 | VoidType, IntType, BoolType and StringType map to void, i32, i1 and i8*; exactly the other tags fail with "unknown type" |
| TypeMap.ZeroInit | decafcomp/answer/decafcomp.cc:65-72 | a zero exists exactly for IntType and BoolType; any other tag fails with "unknown type" |
| TypeMap.ZeroInitHasItsType | decafcomp/answer/decafcomp.cc:65-72 | each zero has the type the type map gives its tag |
| TypeMap.LlvmTypeInjective | decafcomp/answer/decafcomp.cc:52-63 | distinct tags map to distinct types |
| Numerals.StoI | decafcomp/answer/decafcomp.cc:587 | succeeds exactly when a leading integer exists and fits in int; invalid_argument exactly when there is no digit |
| Numerals.StoIRoundTrip | decafcomp/answer/decafcomp.cc:587 | stoi of the decimal form of any int is that int |
| Numerals.StoIOutOfRange | decafcomp/answer/decafcomp.cc:587 | stoi of the decimal form of a number outside int fails with out_of_range |
| Numerals.Atoi | decafcomp/answer/decafcomp.cc:552 | 0 without a leading integer, else that integer, in int range |
| Numerals.AtoiOfTagged | decafcomp/answer/decafcomp.cc:570 | atoi of a string starting with a letter or a parenthesis is 0 |
| Escapes.Find2 | decafcomp/answer/decafcomp.cc:485 | `find` of a two-character pattern: the first position at or after `from`, or none |
| Escapes.Pass | decafcomp/answer/decafcomp.cc:485-487 | one replace loop leaves no occurrence of its pattern, and never lengthens the string |
| Escapes.PassWithoutPattern | decafcomp/answer/decafcomp.cc:485 | a loop whose pattern is absent changes nothing |
| Escapes.ReplaceLoop | decafcomp/answer/decafcomp.cc:485-487 | the in-place while loop computes `Pass` and ends with the pattern absent; it terminates because each replacement shortens the string |
| Escapes.Unquote | decafcomp/answer/decafcomp.cc:481-483 | the first and last characters are dropped and the rest kept in place |
| Escapes.ExpandAsWritten | decafcomp/answer/decafcomp.cc:480-519 | the literal's processing as written: the quotes dropped, then the nine passes in source order; no two adjacent backslashes are left and the text never grows |
| Escapes.ExpandEscapes | decafcomp/answer/decafcomp.cc:480-519 | the quotes dropped and the nine loops in source order, as written; the result has no two adjacent backslashes and is at most the literal's length minus 2 |
| Escapes.EscapeLetter | decafcomp/answer/decafcomp.cc:513-518 | every character with an escape has a letter that names it |
| Escapes.DecodeEncode | decafcomp/answer/decafcomp.cc:480-519 | decoding each escape once, left to right, inverts the way a string is written in a literal |
| Escapes.ExpandOnce | decafcomp/answer/decafcomp.cc:480-519 | the corrected reading: a literal written from a string s reads back as s |
| Escapes.ExpandOnceExample | decafcomp/answer/decafcomp.cc:485-486 | the literal "a\nb" denotes a, newline, b |
| Escapes.DoubleExpansion | decafcomp/answer/decafcomp.cc:485-519 | the literal "\\\\n" comes out of the nine loops as backslash and newline, whereas it denotes backslash and n |
| Ir.Emit | decafcomp/answer/decafcomp.cc:124 | a builder call appends one instruction to the insertion block and touches no other block; with no insertion block it is placed nowhere |
| Ir.ZExtTo32 | decafcomp/answer/decafcomp.cc:625-627 | zext to i32: an i32 value comes back unchanged, any other value gets a "zexttmp" instruction; the result is an i32 |
| Ir.CreateBlock | decafcomp/answer/decafcomp.cc:338 | a new, empty block of the given function is appended after all others |
| Ir.GrowsTrans | decafcomp/answer/decafcomp.cc:328-369 | module growth composes across consecutive lowerings |
| Ir.GrowsMoved | decafcomp/answer/decafcomp.cc:345-348 | moving the builder to a block created since an earlier state keeps every older block out of reach |
| Ir.Builder.Insert | decafcomp/answer/decafcomp.cc:124 | the builder's new state and value are `Emit` of its old state |
| Ir.Builder.CreateFunction | decafcomp/answer/decafcomp.cc:862 | Function::Create appends the function to the module |
| Ir.Builder.CreateGlobal | decafcomp/answer/decafcomp.cc:911 | new GlobalVariable appends the global to the module |
| Ir.Builder.NewBlock | decafcomp/answer/decafcomp.cc:338 | BasicBlock::Create as `CreateBlock` |
| Ir.Builder.MoveTo | decafcomp/answer/decafcomp.cc:342 | SetInsertPoint moves only the insertion block |
| Ir.Builder.CreateZExt | decafcomp/answer/decafcomp.cc:625 | CreateZExt as `ZExtTo32` |
| DecafAst.Str | decafexpr/answer/test.cc:18-431 | str() of every node class; the rendering is empty exactly for the base class and an empty identifier |
| DecafAst.CommaList | decafexpr/answer/test.cc:29-39 | commaList never returns the empty string, and returns "None" for the empty list |
| DecafAst.GetString | decafexpr/answer/test.cc:21-27 | "None" for a NULL child, the child's rendering otherwise |
| DecafAst.CommaListLoop | decafexpr/answer/test.cc:29-39 | the accumulator loop with its separator rule gives `CommaList`; it is "None" for the empty list and never empty |
| DecafAst.CommaListSeparated | decafexpr/answer/test.cc:29-39 | "None" for the empty list; otherwise, when no element renders as "", the renderings separated by commas |
| DecafAst.CommaListFromFirst | decafexpr/answer/test.cc:33 | in general: elements rendering as "" before the first non-empty one vanish, and every later one adds a comma and its rendering |
| DecafAst.CommaListNoneWhenAllEmpty | decafexpr/answer/test.cc:35-37 | the accumulator is "" exactly when every element renders as "", and then the list renders as "None" |
| DecafAst.LeadingEmptyVanishes | decafexpr/answer/test.cc:18 | a leading element rendering as "" (the base class's str()) adds no comma |
| DecafAst.TrailingEmptyLeavesComma | decafexpr/answer/test.cc:33 | an element rendering as "" after a non-empty accumulator still adds its comma |
| DecafAst.PushBackRendersLast | decafexpr/answer/test.cc:54-55 | an element pushed at the back renders last, after a comma unless it is alone |
| DecafAst.PushFrontRendersFirst | decafexpr/answer/test.cc:53 | an element pushed at the front renders first, followed by the others comma by comma |
| DecafAst.StmtListBuilder.PushFront | decafexpr/answer/test.cc:53 | the element becomes the first of the list |
| DecafAst.StmtListBuilder.PushBack | decafexpr/answer/test.cc:54 | the element becomes the last of the list |
| DecafAst.StmtListBuilder.Size | decafexpr/answer/test.cc:51 | the number of elements |
| DecafAst.StmtListBuilder.Render | decafexpr/answer/test.cc:55 | str() of the list is the rendering of its node, "None" when empty |
| DecafAst.IfWithoutElse | decafexpr/answer/test.cc:154 | the two-argument constructor leaves the else part NULL |
| DecafAst.ReturnNothing | decafexpr/answer/test.cc:126 | the nullary constructor leaves the expression NULL |
| DecafAst.BinaryRendering | decafexpr/answer/test.cc:282 | BinaryExpr(op,left,right), with "None" for a missing operand |
| DecafAst.MissingPartsRenderNone | decafexpr/answer/test.cc:160 | the two-argument if renders its else part as None, and a bare return renders as ReturnStmt(None) |
| DecafAst.UntaggedRenderings | decafexpr/answer/test.cc:330 | a parenthesised expression renders as (inner), and an array l-value as Name,Index (line 247), with no tag |
| LowerSpec.Gen | decafcomp/answer/decafcomp.cc:80 | every Codegen() that succeeds leaves a well-formed state that only extends the module and the front scope |
| LowerSpec.GenOpt | decafcomp/answer/decafcomp.cc:204-209 | a NULL child lowers to nothing and leaves the state alone |
| LowerSpec.GenListSnoc | decafcomp/answer/decafcomp.cc:103-111 | listCodegen's result after one more element is that element's value unless it is NULL |
| LowerSpec.GenListNullKeepsAcc | decafcomp/answer/decafcomp.cc:105-108 | a NULL result means no element gave a value; once a value is held it is never lost |
| LowerSpec.ProgramOrder | decafcomp/answer/decafcomp.cc:226-237 | externs lower first; without a package the error comes only once the externs have lowered, and otherwise the package lowers in the state the externs left |
| LowerSpec.PackageOrder | decafcomp/answer/decafcomp.cc:202-212 | fields lower before methods; the value is the methods' when there is a method list, else the fields' |
| LowerSpec.GenList | decafcomp/answer/decafcomp.cc:103-111 | listCodegen: every element lowered in order; a list that lowers leaves a valid state that only grows; what it computes is stated by `GenListSnoc` and `GenListNullKeepsAcc` |
| LowerSpec.GenProgram | decafcomp/answer/decafcomp.cc:226-237 | ProgramAST::Codegen: a program that lowers leaves a valid state that only grows; what it computes is stated by `ProgramOrder` |
| LowerSpec.GenPackage | decafcomp/answer/decafcomp.cc:202-212 | PackageAST::Codegen: a package that lowers leaves a valid state that only grows; what it computes is stated by `PackageOrder` |
| LowerSpec.GenVarDef | decafcomp/answer/decafcomp.cc:120-128 | VarDefAST::Codegen: the alloca is the value and is entered into the front scope under the variable's name |
| LowerSpec.GenReturn | decafcomp/answer/decafcomp.cc:292-294 | ReturnStatementAST::Codegen: a return that lowers leaves a valid state that only grows; what it computes is stated by `ReturnLowering` |
| LowerSpec.GenArgs | decafcomp/answer/decafcomp.cc:170-177 | returnArgsV: arguments that lower leave a valid state that only grows; what it computes is stated by `ArgsLowering` |
| LowerSpec.GenCall | decafcomp/answer/decafcomp.cc:799-825 | MethodCallAST::Codegen: a call that lowers leaves a valid state that only grows; what it computes is stated by `CallLowering` |
| LowerSpec.GenAssignVar | decafcomp/answer/decafcomp.cc:417-440 | AssignVarAST::Codegen: an assignment that lowers leaves a valid state that only grows; what it computes is stated by `AssignRebinding` |
| LowerSpec.GenNumber | decafcomp/answer/decafcomp.cc:586-588 | NumberExprAST::Codegen: a literal that lowers is a value and changes nothing; what it computes is stated by `NumberLowering` |
| LowerSpec.GenBool | decafcomp/answer/decafcomp.cc:597-604 | BoolExprAST::Codegen: a literal that lowers is a value and changes nothing; what it computes is stated by `BoolLowering` |
| LowerSpec.GenBinary | decafcomp/answer/decafcomp.cc:620-661 | BinaryExprAST::Codegen: an operation that lowers leaves a valid state that only grows; what it computes is stated by `BinaryLowering` |
| LowerSpec.GenUnary | decafcomp/answer/decafcomp.cc:674-681 | UnaryExprAST::Codegen: an operation that lowers leaves a valid state that only grows; what it computes is stated by `UnaryLowering` |
| LowerSpec.GenExtern | decafcomp/answer/decafcomp.cc:859-865 | ExternFunctionAST::Codegen: the declaration is the value and is entered into the front scope under the function's name |
| LowerSpec.GenScalarGlobal | decafcomp/answer/decafcomp.cc:955-966 | AssignGlobalVarAST::Codegen: the global is the value and is entered into the front scope under its name |
| LowerSpec.GenField | decafcomp/answer/decafcomp.cc:894-928 | FieldDeclAST::Codegen: the global is the value and is entered into the front scope under the rendering of the field's name |
| LowerSpec.MethodHeader | decafcomp/answer/decafcomp.cc:741-773 | the header of a method other than main: its function with the declared signature and parameter names is appended, and the builder ends in the new entry block |
| LowerSpec.GenMethod | decafcomp/answer/decafcomp.cc:737-785 | MethodDeclAST::Codegen: a method that lowers leaves a valid state that only grows; what it computes is stated by `MethodLowering` |
| LowerSpec.GenBlock | decafcomp/answer/decafcomp.cc:250-266 | a block that lowers leaves a valid state that only grows; what it computes is stated by `BlockOrder` |
| LowerSpec.BlockOrder | decafcomp/answer/decafcomp.cc:254-265 | a NULL declaration list throws "Block AST Problem"; otherwise the declarations lower first and their error wins, a NULL statement list then throws "Block AST Problem", and with both lists the value and state are the statement list's |
| LowerSpec.GenMethodBlock | decafcomp/answer/decafcomp.cc:695-720 | a method body that lowers leaves a valid state that only grows; what it computes is stated by `MethodBlockValue` |
| LowerSpec.MethodBlockValue | decafcomp/answer/decafcomp.cc:712-719 | declarations lower before statements and each error is passed on; the value is the statement list's when there is one, else the declarations'; with neither list the value is NULL and nothing changes |
| LowerSpec.IfHead | decafcomp/answer/decafcomp.cc:338-340 | ifentry, iftrue, [iffalse], ifend are created, in that order, in the insertion block's function |
| LowerSpec.IfCondition | decafcomp/answer/decafcomp.cc:341-344 | the blocks are the next free ones, and the end block is ifend or, without else, the condbr's false target |
| LowerSpec.GenArm | decafcomp/answer/decafcomp.cc:345-347 | an arm is lowered from its own block on and its code ends with br to the end block |
| LowerSpec.GenIfArms | decafcomp/answer/decafcomp.cc:360-368 | the if's value is the end block, and the builder is left at the end block |
| LowerSpec.IfArmsKeep | decafcomp/answer/decafcomp.cc:360-366 | the arms touch no block other than their own and the ones created meanwhile, and every block keeps its name and function |
| LowerSpec.IfConditionShape | decafcomp/answer/decafcomp.cc:338-359 | before the arms: the prior block ends with br ifentry, ifentry comes after the condition with condbr to iftrue and iffalse or ifend, and the arm blocks are still empty |
| LowerSpec.IfCfg | decafcomp/answer/decafcomp.cc:328-369 | the whole if: the block shape above survives the arms (the prior block's br, ifentry's condbr, block names and parents), and the builder ends at the empty ifend, which is the result |
| LowerSpec.GenIf | decafcomp/answer/decafcomp.cc:334-335 | a NULL condition throws "Invalid ifstmt condition"; the state only grows |
| LowerSpec.ExprLowering | decafcomp/answer/decafcomp.cc:531-833 | an expression that lowers yields a value, leaves the builder in its block and binds no name |
| LowerSpec.ArgsLowering | decafcomp/answer/decafcomp.cc:170-177 | expression arguments give one value each, in order, in the same block |
| LowerSpec.PromoteArgs | decafcomp/answer/decafcomp.cc:807-813 | an integer argument whose type is not its parameter's becomes an i32; every other argument is kept |
| LowerSpec.CallLowering | decafcomp/answer/decafcomp.cc:802-824 | a name that is not a function is an error; otherwise the call ends the block with the promoted arguments, of the callee's return type, named "calltmp" unless void |
| LowerSpec.GenAssignArrayLoc | decafcomp/answer/decafcomp.cc:454-469 | an array assignment that lowers leaves a valid state that only grows; what it computes is stated by `AssignArrayLocLowering` |
| LowerSpec.AssignArrayLocLowering | decafcomp/answer/decafcomp.cc:455-463 | the address lowers before the value and their errors pass in that order; then "AssignArrayLoc error" is thrown exactly when one of them is NULL; otherwise the store of the value through the address ends the block, is the result, and is entered into the front scope under the address's name |
| LowerSpec.AssignRebinding | decafcomp/answer/decafcomp.cc:417-440 | an unknown name throws; otherwise the store is entered under the name, a no-op for a name in the front scope and a shadowing one otherwise |
| LowerSpec.ReadAfterShadowingAssign | decafcomp/answer/decafcomp.cc:432-534 | reading a variable after an assignment that shadowed it loads through a non-pointer |
| LowerSpec.GenString | decafcomp/answer/decafcomp.cc:480-522 | a string literal, with its escapes expanded by the nine loops as written, is an expression: a value, same block, no binding; what it computes is stated by `StringGlobal` |
| LowerSpec.StringGlobal | decafcomp/answer/decafcomp.cc:480-521 | one private constant global of the text the nine loops leave, plus NUL, and an i8* into it ends the block; that text has no two adjacent backslashes and is no longer than the literal without its quotes |
| LowerSpec.GenVariable | decafcomp/answer/decafcomp.cc:531-536 | a variable read is an expression: a value, same block, no binding; what it computes is stated by `VariableLowering` |
| LowerSpec.VariableLowering | decafcomp/answer/decafcomp.cc:532-534 | the read succeeds exactly when the name resolves to a pointer; then a load through that descriptor, named after the variable and of the pointee type, ends the block and is the value |
| LowerSpec.GenElementAddr | decafcomp/answer/decafcomp.cc:548-555 | an element address is an expression: a value, same block, no binding |
| LowerSpec.TaggedIndexIsZero | decafcomp/answer/decafcomp.cc:552 | atoi of the rendering of any expression is 0 |
| LowerSpec.ElementIndexIsZero | decafcomp/answer/decafcomp.cc:566-572 | whatever indexes an array, the element address is taken at index 0 |
| LowerSpec.NumberLowering | decafcomp/answer/decafcomp.cc:586-588 | every int literal lowers to its own value as an i32 constant; one outside int and one without digits throw |
| LowerSpec.BoolLowering | decafcomp/answer/decafcomp.cc:597-604 | exactly True and False lower, to i1 1 and i1 0; anything else throws "BoolExpr error" |
| LowerSpec.Promote | decafcomp/answer/decafcomp.cc:624-629 | integer operands of two different types are both made i32; otherwise both are untouched |
| LowerSpec.BinaryKind | decafcomp/answer/decafcomp.cc:631-661 | exactly the fifteen operator tags have an instruction, each named "...tmp" |
| LowerSpec.BinaryLowering | decafcomp/answer/decafcomp.cc:620-661 | NULL if an operand is NULL; otherwise another tag throws, and one of the fifteen builds its instruction over operands of equal width |
| LowerSpec.UnaryLowering | decafcomp/answer/decafcomp.cc:674-681 | the operand is lowered first; a tag other than UnaryMinus and Not throws, else a neg or not of the operand's type ends the block |
| LowerSpec.GenExternType | decafcomp/answer/decafcomp.cc:842-844 | the type itself is the value, and the state is unchanged |
| LowerSpec.ExternParamTypes | decafcomp/answer/decafcomp.cc:161-168 | one type per extern parameter, each the type map's; the error of the first unknown tag otherwise |
| LowerSpec.ExternLowering | decafcomp/answer/decafcomp.cc:859-865 | a declaration with the mapped types is appended and is the value; an unknown return tag throws |
| LowerSpec.ArrayElemType | decafcomp/answer/decafcomp.cc:898-909 | the element type of an array field is the type map's for its tag |
| LowerSpec.FieldSizeTest | decafcomp/answer/decafcomp.cc:895 | on the two size nodes, rendering other than "Scalar" means an Array size |
| LowerSpec.ArrayFieldLowering | decafcomp/answer/decafcomp.cc:896-913 | an array field is an external, mutable, zero-filled global of atoi(size) elements |
| LowerSpec.ScalarGlobalLowering | decafcomp/answer/decafcomp.cc:955-966 | a scalar global is internal, mutable and zero-initialised; exactly IntType and BoolType succeed |
| LowerSpec.ScalarStringGlobalFails | decafcomp/answer/decafcomp.cc:915-923 | a scalar String field or global fails with "unknown type" |
| LowerSpec.DeclarationBinds | decafcomp/answer/decafcomp.cc:125 | a declaration enters what it creates into the front scope under its name, an earlier front-scope entry winning, and no other name changes |
| LowerSpec.VarDefLowering | decafcomp/answer/decafcomp.cc:120-128 | an alloca of the declared type ends the block and is the value; an unknown tag throws |
| LowerSpec.ReturnLowering | decafcomp/answer/decafcomp.cc:292-294 | the block ends with ret of the expression's value |
| LowerSpec.ParamTypes | decafcomp/answer/decafcomp.cc:150-160 | one type per parameter, each the type map's; the error of the first unknown tag otherwise |
| LowerSpec.ParamNames | decafcomp/answer/decafcomp.cc:757-760 | the arguments are named after the parameters, in order |
| LowerSpec.ParamEmit | decafcomp/answer/decafcomp.cc:768-769 | one parameter's code: an alloca of the parameter's type named after it, then the store of the incoming argument into it, appended to the insertion block; two ids used, nothing else changes |
| LowerSpec.BindParam | decafcomp/answer/decafcomp.cc:768-770 | one parameter: its alloca and the store of the argument are appended, and the alloca is declared under the name |
| LowerSpec.ParamCode | decafcomp/answer/decafcomp.cc:767-772 | the parameter loop's code has two instructions per remaining parameter |
| LowerSpec.ParamCodeAt | decafcomp/answer/decafcomp.cc:767-772 | parameter j's alloca and store sit at offsets 2(j - i) and 2(j - i) + 1, numbered consecutively, in parameter order |
| LowerSpec.ParamsEmit | decafcomp/answer/decafcomp.cc:767-772 | the parameter loop keeps the module well-formed and only growing, and appends to the insertion block exactly the code `ParamCode` lists |
| LowerSpec.ParamsDeclare | decafcomp/answer/decafcomp.cc:770 | entering the parameters' allocas only adds to the front scope and leaves the outer scopes alone |
| LowerSpec.BindParams | decafcomp/answer/decafcomp.cc:767-772 | the whole parameter loop keeps the state valid and within the frame (the module only grows, only the front scope gains names) |
| LowerSpec.BindParamsStep | decafcomp/answer/decafcomp.cc:767-772 | one turn of the loop followed by the rest of it is the loop from that turn on |
| LowerSpec.ParamsDeclareBinds | decafcomp/answer/decafcomp.cc:770 | after the loop every parameter name is bound in the front scope |
| LowerSpec.MainHeader | decafcomp/answer/decafcomp.cc:741-751 | main gets its function and entry block, and the builder moves there |
| LowerSpec.Header | decafcomp/answer/decafcomp.cc:741-773 | either header leaves the builder in the method's new entry block |
| LowerSpec.DefaultRet | decafcomp/answer/decafcomp.cc:777-782 | a default return exists exactly for BoolType, IntType and VoidType |
| LowerSpec.DefaultReturn | decafcomp/answer/decafcomp.cc:777-782 | the block the body ends in then ends with ret i1 0, ret i32 0 or ret void; other tags add nothing |
| LowerSpec.MethodLowering | decafcomp/answer/decafcomp.cc:737-785 | main always gets i32 main() and the result NULL; any other method gets its declared signature and is the result; the pushed scope is popped, so the stack depth is unchanged; the default return ends the block |
| Lowering.Lower | decafcomp/answer/decafcomp.cc:80 | the node's Codegen() ends in the state, and with the value or error, that `Gen` gives |
| Lowering.LowerList | decafcomp/answer/decafcomp.cc:103-111 | the listCodegen loop agrees with `GenList` |
| Lowering.LowerProgram | decafcomp/answer/decafcomp.cc:226-237 | agrees with `GenProgram` |
| Lowering.LowerPackage | decafcomp/answer/decafcomp.cc:202-212 | agrees with `GenPackage` |
| Lowering.LowerBlock | decafcomp/answer/decafcomp.cc:250-266 | agrees with `GenBlock` |
| Lowering.LowerMethodBlock | decafcomp/answer/decafcomp.cc:695-720 | agrees with `GenMethodBlock` |
| Lowering.LowerVarDef | decafcomp/answer/decafcomp.cc:120-128 | agrees with `GenVarDef` |
| Lowering.LowerReturn | decafcomp/answer/decafcomp.cc:292-294 | agrees with `GenReturn` |
| Lowering.LowerIf | decafcomp/answer/decafcomp.cc:328-369 | the step-by-step block creation, branches and insertion-point moves agree with `GenIf` |
| Lowering.LowerIfArms | decafcomp/answer/decafcomp.cc:345-368 | agrees with `GenIfArms` |
| Lowering.LowerArgs | decafcomp/answer/decafcomp.cc:170-177 | the returnArgsV loop agrees with `GenArgs` |
| Lowering.PromoteLoop | decafcomp/answer/decafcomp.cc:807-813 | the loop that overwrites the argument vector in place computes `PromoteArgs` |
| Lowering.LowerCall | decafcomp/answer/decafcomp.cc:799-825 | agrees with `GenCall` |
| Lowering.LowerAssignVar | decafcomp/answer/decafcomp.cc:417-440 | agrees with `GenAssignVar` |
| Lowering.LowerAssignArrayLoc | decafcomp/answer/decafcomp.cc:454-469 | agrees with `GenAssignArrayLoc` |
| Lowering.LowerString | decafcomp/answer/decafcomp.cc:480-522 | runs the nine replace loops (`ExpandEscapes`), then agrees with `GenString`, changing only the builder |
| Lowering.LowerVariable | decafcomp/answer/decafcomp.cc:531-536 | agrees with `GenVariable`, changing only the builder |
| Lowering.LowerElementAddr | decafcomp/answer/decafcomp.cc:548-555 | agrees with `GenElementAddr`, changing only the builder |
| Lowering.LowerNumber | decafcomp/answer/decafcomp.cc:586-588 | the i32 constant of stoi of the literal, or stoi's exception |
| Lowering.LowerBool | decafcomp/answer/decafcomp.cc:597-604 | exactly True and False succeed, as i1 1 and i1 0 |
| Lowering.LowerBinary | decafcomp/answer/decafcomp.cc:620-661 | agrees with `GenBinary` |
| Lowering.LowerUnary | decafcomp/answer/decafcomp.cc:674-681 | agrees with `GenUnary` |
| Lowering.LowerExternType | decafcomp/answer/decafcomp.cc:842-844 | the type map's type as the value, or its error |
| Lowering.ExternArgTypes | decafcomp/answer/decafcomp.cc:161-168 | the returnArgsE loop computes `ExternParamTypes` |
| Lowering.ParamArgTypes | decafcomp/answer/decafcomp.cc:150-160 | the returnArgs loop computes `ParamTypes` |
| Lowering.LowerExtern | decafcomp/answer/decafcomp.cc:859-865 | agrees with `GenExtern` |
| Lowering.LowerScalarGlobal | decafcomp/answer/decafcomp.cc:955-966 | agrees with `GenScalarGlobal` |
| Lowering.LowerField | decafcomp/answer/decafcomp.cc:894-928 | agrees with `GenField`, testing the rendering of the size as the source does |
| Lowering.LowerMethod | decafcomp/answer/decafcomp.cc:737-785 | the push, body, default return and pop agree with `GenMethod` |
| Lowering.BindParamsLoop | decafcomp/answer/decafcomp.cc:767-772 | the parameter loop ends in the state `BindParams` gives |
| RmPrefix.FindBlank | rmprefix/answer/rmprefix.cc:8 | find_first_of(" \t", from): the first blank at or after `from`, or npos when none is left |
| RmPrefix.EraseBlanks | rmprefix/answer/rmprefix.cc:8-12 | the erase loop gives the line with its blanks left out; the output has no blank, and its length is the input's minus the number of blanks |
| RmPrefix.EraseBlankKeepsSqueezed | rmprefix/answer/rmprefix.cc:10-11 | erasing one blank does not change what the filter leaves, so resuming the search at the same position loses nothing |
| RmPrefix.SqueezedHasNoBlank | rmprefix/answer/rmprefix.cc:9 | the output contains no space and no tab |
| RmPrefix.SqueezedKeepsOthers | rmprefix/answer/rmprefix.cc:10 | every other character occurs as often as in the input |
| RmPrefix.SqueezedLength | rmprefix/answer/rmprefix.cc:10 | output length is input length minus the number of spaces and tabs |
| RmPrefix.SqueezedWithoutBlanks | rmprefix/answer/rmprefix.cc:8-9 | a line without space or tab is output unchanged |
| RmPrefix.SqueezedIdempotent | rmprefix/answer/rmprefix.cc:8-12 | filtering the output again changes nothing |

## Left out

- The LLVM library itself is replaced by instruction records: there are no memory semantics, no address arithmetic, no constant folding, no uniquing of value names and no IR verifier.
- WhileStmtAST, ForStmtAST, BreakStatementAST and ContinueStatementAST emit nothing and return NULL; the model does the same and nothing more. The commented-out while body and MethodBlockAST parameter loop are not live code and are not modelled.
- The state after a thrown `runtime_error` is not modelled: an error ends the lowering, and the partly built module is dropped.
- Destructors and memory ownership in both AST files, the parser and the headers it comes with are not part of this model.
- Reading stdin, writing stdout and `exit` in rmprefix are left out; one line's transformation is modelled.
- The code the compiler generates is never run, so its behaviour is not modelled.
- Lowering.LowerNumber: its contract is stated through `StoI`; what that means for the literal's value is the separate lemma `LowerSpec.NumberLowering`.
- LowerSpec.GenList: its own ensures states only validity, the frame and (for expressions) the expression effect; what it computes is proved separately in `GenListSnoc` and `GenListNullKeepsAcc`, to keep the recursive group cheap to verify.
- LowerSpec.GenProgram: its own ensures states only validity, the frame and (for expressions) the expression effect; what it computes is proved separately in `ProgramOrder`, to keep the recursive group cheap to verify.
- LowerSpec.GenPackage: its own ensures states only validity, the frame and (for expressions) the expression effect; what it computes is proved separately in `PackageOrder`, to keep the recursive group cheap to verify.
- LowerSpec.GenReturn: its own ensures states only validity, the frame and (for expressions) the expression effect; what it computes is proved separately in `ReturnLowering`, to keep the recursive group cheap to verify.
- LowerSpec.GenArgs: its own ensures states only validity, the frame and (for expressions) the expression effect; what it computes is proved separately in `ArgsLowering`, to keep the recursive group cheap to verify.
- LowerSpec.GenCall: its own ensures states only validity, the frame and (for expressions) the expression effect; what it computes is proved separately in `CallLowering`, to keep the recursive group cheap to verify.
- LowerSpec.GenAssignVar: its own ensures states only validity, the frame and (for expressions) the expression effect; what it computes is proved separately in `AssignRebinding`, to keep the recursive group cheap to verify.
- LowerSpec.GenBinary: its own ensures states only validity, the frame and (for expressions) the expression effect; what it computes is proved separately in `BinaryLowering`, to keep the recursive group cheap to verify.
- LowerSpec.GenUnary: its own ensures states only validity, the frame and (for expressions) the expression effect; what it computes is proved separately in `UnaryLowering`, to keep the recursive group cheap to verify.
- LowerSpec.GenMethod: its own ensures states only validity, the frame and (for expressions) the expression effect; what it computes is proved separately in `MethodLowering`, to keep the recursive group cheap to verify.
- LowerSpec.GenNumber: its own ensures states only validity, the frame and (for expressions) the expression effect; what it computes is proved separately in `NumberLowering`, to keep the recursive group cheap to verify.
- LowerSpec.GenBool: its own ensures states only validity, the frame and (for expressions) the expression effect; what it computes is proved separately in `BoolLowering`, to keep the recursive group cheap to verify.
- LowerSpec.GenBlock: its own ensures states only validity, the frame and (for expressions) the expression effect; what it computes is proved separately in `BlockOrder`, to keep the recursive group cheap to verify.
- LowerSpec.GenMethodBlock: its own ensures states only validity, the frame and (for expressions) the expression effect; what it computes is proved separately in `MethodBlockValue`, to keep the recursive group cheap to verify.
- LowerSpec.GenAssignArrayLoc: its own ensures states only validity, the frame and (for expressions) the expression effect; what it computes is proved separately in `AssignArrayLocLowering`, to keep the recursive group cheap to verify.
- LowerSpec.GenVariable: its own ensures states only validity, the frame and (for expressions) the expression effect; what it computes is proved separately in `VariableLowering`, to keep the recursive group cheap to verify.
- LowerSpec.GenString: its own ensures states only validity, the frame and (for expressions) the expression effect; what it computes is proved separately in `StringGlobal`, to keep the recursive group cheap to verify.
- The Lowering methods: their contracts tie the new state to the LowerSpec functions of the old state; the properties of the lowering are proved once, about those functions.

## Findings

| source | as written | input that shows it | evidently intended | confidence | as-written member | corrected member |
|---|---|---|---|---|---|---|
| decafcomp/answer/decafcomp.cc:485-519 | nine replace loops run over the whole string one after another, the backslash-backslash loop last, so a character produced by an earlier replacement or a backslash that belongs to an escaped backslash is read again | the literal "\\\\n" (backslash, backslash, n between quotes) comes out as backslash and newline | each escape sequence read once, left to right, so the literal comes out as backslash and n | not executed | Escapes.DoubleExpansion | Escapes.ExpandOnce |
