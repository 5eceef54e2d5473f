/**
 * The Codegen() methods of decafcomp.cc as they run: they move the global
 * Builder step by step and update the symbol table `symtbl` in place.
 * Each method is proved to end in the state, and with the Value* or the
 * error, that the lowering functions of LowerSpec give for the state it
 * started in; what LowerSpec proves about those functions therefore holds
 * of these methods.
 */
module Lowering {
  import opened Wrappers
  import opened Failures
  import opened Ir
  import opened Scopes
  import opened TypeMap
  import opened Numerals
  import opened Escapes
  import opened DecafAst
  import opened LowerSpec

  /** TheModule with Builder, and symtbl, as a value. */
  ghost function StateOf(b: Builder, t: SymbolTable): St
    reads b, t
  {
    St(b.State(), t.scopes)
  }

  /**
   * A Codegen() agrees with the lowering function `g`: the same Value*
   * (None for NULL) and the state `now` is the function's, or the same
   * error is thrown.
   */
  ghost predicate Agrees(r: Result<Option<Value>, Error>, g: Result<Outcome, Error>, now: St) {
    match g
    case Ok(o) => r == Ok(o.val) && now == o.st
    case Fail(e) => r == Fail(e)
  }

  /** The same for a list of values. */
  ghost predicate AgreesValues(r: Result<seq<Value>, Error>, g: Result<ValuesOutcome, Error>, now: St) {
    match g
    case Ok(o) => r == Ok(o.vals) && now == o.st
    case Fail(e) => r == Fail(e)
  }

  /** Values already collected in front of what a list's remainder yields. */
  ghost function After(vals: seq<Value>, g: Result<ValuesOutcome, Error>): Result<ValuesOutcome, Error> {
    match g
    case Ok(o) => Ok(ValuesOutcome(vals + o.vals, o.st))
    case Fail(e) => Fail(e)
  }

  /** Types already collected in front of what a list's remainder yields. */
  ghost function AfterTypes(types: seq<Type>, g: Result<seq<Type>, Error>): Result<seq<Type>, Error> {
    match g
    case Ok(ts) => Ok(types + ts)
    case Fail(e) => Fail(e)
  }

  lemma AfterTypesNothing(g: Result<seq<Type>, Error>)
    ensures AfterTypes([], g) == g
  {
    if g.Ok? {
      assert [] + g.value == g.value;
    }
  }

  lemma AfterNothing(g: Result<ValuesOutcome, Error>)
    ensures After([], g) == g
  {
    if g.Ok? {
      assert [] + g.value.vals == g.value.vals;
    }
  }

  lemma AfterTypesAppend(a: seq<Type>, c: seq<Type>, g: Result<seq<Type>, Error>)
    ensures AfterTypes(a, AfterTypes(c, g)) == AfterTypes(a + c, g)
  {
    if g.Ok? {
      assert a + (c + g.value) == (a + c) + g.value;
    }
  }

  lemma ExternTypesStep(items: seq<Node>, i: nat)
    requires AllExternTypes(items)
    requires i < |items|
    ensures ExternParamTypes(items[i..]) ==
      match LlvmType(items[i].ty)
      case Fail(e) => Fail(e)
      case Ok(ty) => AfterTypes([ty], ExternParamTypes(items[i + 1..]))
  {
    assert items[i..][0] == items[i] && items[i..][1..] == items[i + 1..];
  }

  lemma ParamTypesStep(params: seq<Node>, i: nat)
    requires AllVarDefs(params)
    requires i < |params|
    ensures ParamTypes(params[i..]) ==
      match LlvmType(params[i].ty)
      case Fail(e) => Fail(e)
      case Ok(ty) => AfterTypes([ty], ParamTypes(params[i + 1..]))
  {
    assert params[i..][0] == params[i] && params[i..][1..] == params[i + 1..];
  }

  /** decafAST::Codegen(), dispatched on the node class. */
  method Lower(n: Node, b: Builder, t: SymbolTable) returns (r: Result<Option<Value>, Error>)
    requires Shaped(n) && Valid(StateOf(b, t))
    modifies b, t
    ensures Agrees(r, Gen(n, old(StateOf(b, t))), StateOf(b, t))
    decreases n, 2
  {
    match n
    case Base => r := Fail(Undefined("decafAST has no Codegen of its own"));
    case DecVar(_, _) => r := Fail(Undefined("the compiler has no DecVar node"));
    case StmtList(items) => r := LowerList(items, b, t);
    case Program(_, _) => r := LowerProgram(n, b, t);
    case Package(_, _, _) => r := LowerPackage(n, b, t);
    case Block(_, _) => r := LowerBlock(n, b, t);
    case VarDef(name, ty) => r := LowerVarDef(name, ty, b, t);
    case BreakStmt => r := Ok(None);
    case ContinueStmt => r := Ok(None);
    case ForStmt(_, _, _, _) => r := Ok(None);
    case WhileStmt(_, _) => r := Ok(None);
    case ReturnStmt(_) => r := LowerReturn(n, b, t);
    case IfStmt(_, _, _) => r := LowerIf(n, b, t);
    case MethodCall(_, _) => r := LowerCall(n, b, t);
    case AssignVar(_, _) => r := LowerAssignVar(n, b, t);
    case AssignArrayLoc(_, _) => r := LowerAssignArrayLoc(n, b, t);
    case StringConstant(text) => r := LowerString(text, b, t);
    case VariableExpr(name) => r := LowerVariable(name, b, t);
    case ArrayLocExpr(name, index) => r := LowerElementAddr(name, index.value, b, t);
    case ArrayLVal(name, index) => r := LowerElementAddr(name, index.value, b, t);
    case NumberExpr(value) => r := LowerNumber(value);
    case BoolExpr(value) => r := LowerBool(value);
    case BinaryExpr(_, _, _) => r := LowerBinary(n, b, t);
    case UnaryExpr(_, _) => r := LowerUnary(n, b, t);
    case MethodBlock(_, _) => r := LowerMethodBlock(n, b, t);
    case Method(_, _, _, _) => r := LowerMethod(n, b, t);
    case ParenExpr(inner) => r := Lower(inner.value, b, t);
    case ExternType(ty) => r := LowerExternType(ty);
    case ExternFunction(_, _, _) => r := LowerExtern(n, b, t);
    case FieldDecl(_, _, _) => r := LowerField(n, b, t);
    case ArraySize(_) => r := Ok(None);
    case Scalar => r := Fail(ScalarCodegen);
    case AssignGlobalVar(name, ty, _) => r := LowerScalarGlobal(name, ty, b, t);
    case Ident(_) => r := Fail(IdCodegen);
  }

  /** listCodegen: each element in turn; a non-NULL result replaces the one kept so far. */
  method LowerList(items: seq<Node>, b: Builder, t: SymbolTable) returns (r: Result<Option<Value>, Error>)
    requires AllShaped(items) && Valid(StateOf(b, t))
    modifies b, t
    ensures Agrees(r, GenList(None, items, old(StateOf(b, t))), StateOf(b, t))
    decreases items, 1
  {
    var val: Option<Value> := None;
    var i := 0;
    while i < |items|
      invariant 0 <= i <= |items| && Valid(StateOf(b, t)) && AllShaped(items[i..])
      invariant GenList(None, items, old(StateOf(b, t))) == GenList(val, items[i..], StateOf(b, t))
    {
      assert items[i..][0] == items[i] && items[i..][1..] == items[i + 1..];
      var j :- Lower(items[i], b, t);
      if j.Some? {
        val := j;
      }
      i := i + 1;
    }
    r := Ok(val);
  }

  /** ProgramAST::Codegen */
  method LowerProgram(n: Node, b: Builder, t: SymbolTable) returns (r: Result<Option<Value>, Error>)
    requires n.Program? && Shaped(n) && Valid(StateOf(b, t))
    modifies b, t
    ensures Agrees(r, GenProgram(n, old(StateOf(b, t))), StateOf(b, t))
    decreases n, 1
  {
    var val: Option<Value> := None;
    if n.externs.Some? {
      val :- Lower(n.externs.value, b, t);
    }
    if n.pkg.Some? {
      val :- Lower(n.pkg.value, b, t);
    } else {
      return Fail(NoPackageDefinition);
    }
    r := Ok(val);
  }

  /** PackageAST::Codegen */
  method LowerPackage(n: Node, b: Builder, t: SymbolTable) returns (r: Result<Option<Value>, Error>)
    requires n.Package? && Shaped(n) && Valid(StateOf(b, t))
    modifies b, t
    ensures Agrees(r, GenPackage(n, old(StateOf(b, t))), StateOf(b, t))
    decreases n, 1
  {
    var val: Option<Value> := None;
    if n.fields.Some? {
      val :- Lower(n.fields.value, b, t);
    }
    if n.methods.Some? {
      val :- Lower(n.methods.value, b, t);
    }
    r := Ok(val);
  }

  /** BlockAST::Codegen */
  method LowerBlock(n: Node, b: Builder, t: SymbolTable) returns (r: Result<Option<Value>, Error>)
    requires n.Block? && Shaped(n) && Valid(StateOf(b, t))
    modifies b, t
    ensures Agrees(r, GenBlock(n, old(StateOf(b, t))), StateOf(b, t))
    decreases n, 1
  {
    var val: Option<Value>;
    if n.vars.Some? {
      val :- Lower(n.vars.value, b, t);
    } else {
      return Fail(BlockProblem);
    }
    if n.stmts.Some? {
      val :- Lower(n.stmts.value, b, t);
    } else {
      return Fail(BlockProblem);
    }
    r := Ok(val);
  }

  /** MethodBlockAST::Codegen */
  method LowerMethodBlock(n: Node, b: Builder, t: SymbolTable) returns (r: Result<Option<Value>, Error>)
    requires n.MethodBlock? && Shaped(n) && Valid(StateOf(b, t))
    modifies b, t
    ensures Agrees(r, GenMethodBlock(n, old(StateOf(b, t))), StateOf(b, t))
    decreases n, 1
  {
    if b.insertAt.None? {
      return Fail(Undefined("no insertion block"));
    }
    var val: Option<Value> := None;
    if n.vars.Some? {
      val :- Lower(n.vars.value, b, t);
    }
    if n.stmts.Some? {
      val :- Lower(n.stmts.value, b, t);
    }
    r := Ok(val);
  }

  /** VarDefAST::Codegen */
  method LowerVarDef(name: string, ty: string, b: Builder, t: SymbolTable) returns (r: Result<Option<Value>, Error>)
    requires Valid(StateOf(b, t))
    modifies b, t
    ensures Agrees(r, GenVarDef(name, ty, old(StateOf(b, t))), StateOf(b, t))
  {
    var llType :- LlvmType(ty);
    var alloca := b.Insert(name, Alloca(llType), Ptr(llType));
    t.Insert(name, alloca);
    r := Ok(Some(alloca));
  }

  /** ReturnStatementAST::Codegen */
  method LowerReturn(n: Node, b: Builder, t: SymbolTable) returns (r: Result<Option<Value>, Error>)
    requires n.ReturnStmt? && Shaped(n) && Valid(StateOf(b, t))
    modifies b, t
    ensures Agrees(r, GenReturn(n, old(StateOf(b, t))), StateOf(b, t))
    decreases n, 1
  {
    var e :- Lower(n.expr.value, b, t);
    var ret := b.Insert("", Ret(e), Void);
    r := Ok(Some(ret));
  }

  /** IfStmtAST::Codegen */
  method LowerIf(n: Node, b: Builder, t: SymbolTable) returns (r: Result<Option<Value>, Error>)
    requires n.IfStmt? && Shaped(n) && Valid(StateOf(b, t))
    modifies b, t
    ensures Agrees(r, GenIf(n, old(StateOf(b, t))), StateOf(b, t))
    decreases n, 1
  {
    if n.cond.None? {
      return Fail(InvalidIfCondition);
    }
    if b.insertAt.None? {
      return Fail(Undefined("no insertion block"));
    }
    ghost var s0 := StateOf(b, t);
    var parent := b.blocks[b.insertAt.value].parent;
    var entryBB := b.NewBlock("ifentry", parent);
    var trueBB := b.NewBlock("iftrue", parent);
    var elseBB, endBB;
    if n.elseBody.Some? {
      elseBB := b.NewBlock("iffalse", parent);
      endBB := b.NewBlock("ifend", parent);
    } else {
      endBB := b.NewBlock("ifend", parent);
      elseBB := endBB;
    }
    var blocks := IfBlocks(entryBB, trueBB, elseBB, endBB);
    assert (b.State(), blocks) == IfHead(s0.m, n.elseBody.Some?);
    var br := b.Insert("", Br(entryBB), Void);
    b.MoveTo(entryBB);
    var ifVal :- Lower(n.cond.value, b, t);
    if ifVal.None? {
      return Fail(Undefined("condbr on a NULL condition"));
    }
    var condBr := b.Insert("", CondBr(ifVal.value, trueBB, elseBB), Void);
    assert IfCondition(n, s0) == Ok(IfPrelude(blocks, StateOf(b, t)));
    r := LowerIfArms(n, blocks, s0, b, t);
  }

  /** The rest of IfStmtAST::Codegen: each arm with its br to the end block, then the end block. */
  method LowerIfArms(n: Node, blocks: IfBlocks, ghost base: St, b: Builder, t: SymbolTable)
    returns (r: Result<Option<Value>, Error>)
    requires n.IfStmt? && n.cond.Some? && Shaped(n) && Valid(StateOf(b, t)) && Frame(base, StateOf(b, t))
    requires |base.m.blocks| <= blocks.thenBlock < |b.blocks|
    requires |base.m.blocks| <= blocks.elseBlock < |b.blocks|
    requires |base.m.blocks| <= blocks.endBlock < |b.blocks|
    modifies b, t
    ensures Agrees(r, GenIfArms(n, blocks, base, old(StateOf(b, t))), StateOf(b, t))
    decreases n, 0
  {
    ghost var s := StateOf(b, t);
    b.MoveTo(blocks.thenBlock);
    var thenVal :- Lower(n.body.value, b, t);
    var br := b.Insert("", Br(blocks.endBlock), Void);
    ghost var armState := StateOf(b, t);
    assert GenArm(n.body.value, blocks.thenBlock, blocks.endBlock, s) == Ok(Outcome(thenVal, armState));
    FrameMoved(base, s, blocks.thenBlock, armState);
    if n.elseBody.Some? {
      b.MoveTo(blocks.elseBlock);
      var elseVal :- Lower(n.elseBody.value, b, t);
      var br2 := b.Insert("", Br(blocks.endBlock), Void);
      assert GenArm(n.elseBody.value, blocks.elseBlock, blocks.endBlock, armState)
        == Ok(Outcome(elseVal, StateOf(b, t)));
    }
    b.MoveTo(blocks.endBlock);
    r := Ok(Some(BlockVal(blocks.endBlock, "ifend")));
  }

  /** returnArgsV: the arguments lowered in order, NULL results left out. */
  method LowerArgs(items: seq<Node>, b: Builder, t: SymbolTable) returns (r: Result<seq<Value>, Error>)
    requires AllShaped(items) && Valid(StateOf(b, t))
    modifies b, t
    ensures AgreesValues(r, GenArgs(items, old(StateOf(b, t))), StateOf(b, t))
    decreases items, 1
  {
    var toReturn: seq<Value> := [];
    var i := 0;
    assert items[0..] == items;
    AfterNothing(GenArgs(items, StateOf(b, t)));
    while i < |items|
      invariant 0 <= i <= |items| && Valid(StateOf(b, t))
      invariant GenArgs(items, old(StateOf(b, t))) == After(toReturn, GenArgs(items[i..], StateOf(b, t)))
    {
      ghost var s := StateOf(b, t);
      ArgsStep(items, i, s);
      var j :- Lower(items[i], b, t);
      ghost var h := if j.Some? then [j.value] else [];
      assert GenArgs(items[i..], s) == After(h, GenArgs(items[i + 1..], StateOf(b, t)));
      AfterAppend(toReturn, h, GenArgs(items[i + 1..], StateOf(b, t)));
      if j.Some? {
        toReturn := toReturn + [j.value];
      } else {
        assert toReturn + h == toReturn;
      }
      i := i + 1;
    }
    assert items[i..] == [] && toReturn + [] == toReturn;
    r := Ok(toReturn);
  }

  /** One element of returnArgsV. */
  lemma ArgsStep(items: seq<Node>, i: nat, s: St)
    requires AllShaped(items) && Valid(s) && i < |items|
    ensures AllShaped(items[i..]) && AllShaped(items[i + 1..])
    ensures GenArgs(items[i..], s) ==
      match Gen(items[i], s)
      case Fail(e) => Fail(e)
      case Ok(o) => After(if o.val.Some? then [o.val.value] else [], GenArgs(items[i + 1..], o.st))
  {
    assert items[i..][0] == items[i] && items[i..][1..] == items[i + 1..];
  }

  lemma AfterAppend(a: seq<Value>, c: seq<Value>, g: Result<ValuesOutcome, Error>)
    ensures After(a, After(c, g)) == After(a + c, g)
  {
    if g.Ok? {
      assert a + (c + g.value.vals) == (a + c) + g.value.vals;
    }
  }

  /**
   * MethodCallAST::Codegen: the callee from the symbol table, the
   * arguments, their promotion, and the call.
   */
  method LowerCall(n: Node, b: Builder, t: SymbolTable) returns (r: Result<Option<Value>, Error>)
    requires n.MethodCall? && Shaped(n) && Valid(StateOf(b, t))
    modifies b, t
    ensures Agrees(r, GenCall(n, old(StateOf(b, t))), StateOf(b, t))
    decreases n, 1
  {
    var call := t.Find(n.name);
    assert Shaped(n.args.value);
    var args :- LowerArgs(n.args.value.items, b, t);
    if !(call.Some? && call.value.FunctionVal?) {
      return Fail(Undefined("callee is not a function"));
    }
    if |args| > |call.value.params| {
      return Fail(Undefined("more arguments than parameters"));
    }
    args := PromoteLoop(args, call.value.params, b);
    var isVoid := call.value.ret == Void;
    var val := b.Insert(if isVoid then "" else "calltmp", Call(call.value, args), call.value.ret);
    r := Ok(Some(val));
  }

  /**
   * The promotion loop of MethodCallAST: each integer argument whose type
   * is not its parameter's is replaced in place by its zext.
   */
  method PromoteLoop(vals: seq<Value>, params: seq<Type>, b: Builder) returns (args: seq<Value>)
    requires WellFormed(b.State()) && |vals| <= |params|
    modifies b
    ensures (b.State(), args) == PromoteArgs(old(b.State()), vals, params)
  {
    args := vals;
    var i := 0;
    assert vals[0..] == vals && params[0..] == params && args[..0] == [];
    assert args[..0] + PromoteArgs(b.State(), vals, params).1 == PromoteArgs(b.State(), vals, params).1;
    while i < |args|
      invariant 0 <= i <= |args| == |vals| && WellFormed(b.State())
      invariant args[i..] == vals[i..]
      invariant PromoteArgs(old(b.State()), vals, params) == PromotedSoFar(b.State(), args[..i], vals, params, i)
    {
      ghost var before := args[..i];
      ghost var m := b.State();
      assert args[i] == vals[i];
      if TypeOf(args[i]) != params[i] && TypeOf(args[i]).Int? {
        var promo := b.CreateZExt(args[i]);
        ReplaceAt(args, i, promo);
        args := args[i := promo];
      }
      PromotedSoFarStep(m, before, vals, params, i, b.State(), args[i]);
      TakeOneMore(args, i);
      i := i + 1;
    }
    assert args[..i] == args && vals[i..] == [];
    assert PromoteArgs(b.State(), vals[i..], params[i..]) == (b.State(), []);
    assert args + [] == args;
  }

  lemma ReplaceAt(a: seq<Value>, i: nat, v: Value)
    requires i < |a|
    ensures a[i := v][..i] == a[..i] && a[i := v][i + 1..] == a[i + 1..]
  { }

  lemma TakeOneMore(a: seq<Value>, i: nat)
    requires i < |a|
    ensures a[..i + 1] == a[..i] + [a[i]]
  { }

  /** What the promotion loop has produced after i arguments, with the rest still to come. */
  ghost function PromotedSoFar(m: IrModule, done: seq<Value>, vals: seq<Value>, params: seq<Type>, i: nat)
    : (IrModule, seq<Value>)
    requires WellFormed(m) && i <= |vals| <= |params|
  {
    var p := PromoteArgs(m, vals[i..], params[i..]);
    (p.0, done + p.1)
  }

  lemma PromotedSoFarStep(m: IrModule, done: seq<Value>, vals: seq<Value>, params: seq<Type>, i: nat,
                          m1: IrModule, v: Value)
    requires WellFormed(m) && WellFormed(m1) && i < |vals| <= |params|
    requires (m1, v) == (if TypeOf(vals[i]) != params[i] && TypeOf(vals[i]).Int? then ZExtTo32(m, vals[i])
                         else (m, vals[i]))
    ensures PromotedSoFar(m, done, vals, params, i) == PromotedSoFar(m1, done + [v], vals, params, i + 1)
  {
    PromoteStep(m, vals, params, i);
    var p := PromoteArgs(m1, vals[i + 1..], params[i + 1..]);
    assert done + ([v] + p.1) == (done + [v]) + p.1;
  }

  /** One argument of the promotion loop. */
  lemma PromoteStep(m: IrModule, vals: seq<Value>, params: seq<Type>, i: nat)
    requires WellFormed(m) && |vals| <= |params| && i < |vals|
    ensures PromoteArgs(m, vals[i..], params[i..]) ==
      var (m1, v) := if TypeOf(vals[i]) != params[i] && TypeOf(vals[i]).Int? then ZExtTo32(m, vals[i])
                     else (m, vals[i]);
      var (m2, rest) := PromoteArgs(m1, vals[i + 1..], params[i + 1..]);
      (m2, [v] + rest)
  {
    assert vals[i..][0] == vals[i] && vals[i..][1..] == vals[i + 1..];
    assert params[i..][0] == params[i] && params[i..][1..] == params[i + 1..];
  }

  /** AssignVarAST::Codegen */
  method LowerAssignVar(n: Node, b: Builder, t: SymbolTable) returns (r: Result<Option<Value>, Error>)
    requires n.AssignVar? && Shaped(n) && Valid(StateOf(b, t))
    modifies b, t
    ensures Agrees(r, GenAssignVar(n, old(StateOf(b, t))), StateOf(b, t))
    decreases n, 1
  {
    var checkVal := t.Find(n.name);
    if checkVal.None? {
      return Fail(NonExistentVariable(n.name));
    }
    var alloca := checkVal.value;
    var tempVal :- Lower(n.expr.value, b, t);
    if tempVal.None? {
      return Fail(Undefined("store of a NULL value"));
    }
    if !TypeOf(alloca).Ptr? {
      return Fail(Undefined("store through a non-pointer"));
    }
    var val := b.Insert("", Store(tempVal.value, alloca), Void);
    t.Insert(n.name, val);
    r := Ok(Some(val));
  }

  /** AssignArrayLocAST::Codegen */
  method LowerAssignArrayLoc(n: Node, b: Builder, t: SymbolTable) returns (r: Result<Option<Value>, Error>)
    requires n.AssignArrayLoc? && Shaped(n) && Valid(StateOf(b, t))
    modifies b, t
    ensures Agrees(r, GenAssignArrayLoc(n, old(StateOf(b, t))), StateOf(b, t))
    decreases n, 1
  {
    var lVal :- Lower(n.lval.value, b, t);
    var rVal :- Lower(n.expr.value, b, t);
    if lVal.None? || rVal.None? {
      return Fail(AssignArrayLocError);
    }
    if !TypeOf(lVal.value).Ptr? {
      return Fail(Undefined("store through a non-pointer"));
    }
    var storeVal := b.Insert("", Store(rVal.value, lVal.value), Void);
    t.Insert(NameOf(lVal.value), storeVal);
    r := Ok(Some(storeVal));
  }

  /** MethodArgAST::Codegen: the nine replace loops, then the global string and the cast. */
  method LowerString(text: string, b: Builder, t: SymbolTable) returns (r: Result<Option<Value>, Error>)
    requires |text| >= 2 && Valid(StateOf(b, t))
    modifies b
    ensures Agrees(r, GenString(text, old(StateOf(b, t))), StateOf(b, t))
  {
    if b.insertAt.None? {
      return Fail(Undefined("no insertion block"));
    }
    var temp := ExpandEscapes(text);
    var ty := ArrayOf(I8, |temp| + 1);
    var gs := b.CreateGlobal(Global("globalstring", ty, StringData(temp), PrivateLinkage, true));
    var cast := b.Insert("cast", StructGep(ty, gs, 0), I8Ptr);
    r := Ok(Some(cast));
  }

  /** VariableExprAST::Codegen */
  method LowerVariable(name: string, b: Builder, t: SymbolTable) returns (r: Result<Option<Value>, Error>)
    requires Valid(StateOf(b, t))
    modifies b
    ensures Agrees(r, GenVariable(name, old(StateOf(b, t))), StateOf(b, t))
  {
    var v := t.Find(name);
    if v.None? {
      return Fail(Undefined("load through a NULL descriptor"));
    }
    if !TypeOf(v.value).Ptr? {
      return Fail(Undefined("load through a non-pointer"));
    }
    var load := b.Insert(name, Load(v.value), TypeOf(v.value).pointee);
    r := Ok(Some(load));
  }

  /** ArrayLocExprAST::Codegen and ArrayLValAST::Codegen */
  method LowerElementAddr(name: string, index: Node, b: Builder, t: SymbolTable)
    returns (r: Result<Option<Value>, Error>)
    requires Valid(StateOf(b, t))
    modifies b
    ensures Agrees(r, GenElementAddr(name, index, old(StateOf(b, t))), StateOf(b, t))
  {
    var arrayVal := t.Find(name);
    match arrayVal
    case Some(GlobalVal(gi, ArrayOf(elem, count), gname)) =>
      var idx :- Atoi(Str(index));
      var arrayT := ArrayOf(elem, count);
      var arrayLoc := b.Insert("arrayloc", StructGep(arrayT, GlobalVal(gi, arrayT, gname), 0), Ptr(elem));
      var arrayIndex := b.Insert("arrayindex", Gep(elem, arrayLoc, ConstInt(I32, idx)), Ptr(elem));
      r := Ok(Some(arrayIndex));
    case _ =>
      r := Fail(Undefined("not a global array"));
  }

  /** NumberExprAST::Codegen */
  method LowerNumber(value: string) returns (r: Result<Option<Value>, Error>)
    ensures r == (match StoI(value) case Ok(v) => Ok(Some(ConstInt(I32, v))) case Fail(e) => Fail(e))
  {
    var v :- StoI(value);
    r := Ok(Some(ConstInt(I32, v)));
  }

  /** BoolExprAST::Codegen */
  method LowerBool(value: string) returns (r: Result<Option<Value>, Error>)
    ensures r.Ok? <==> value in {"True", "False"}
    ensures r.Ok? ==> r.value == Some(ConstInt(I1, if value == "True" then 1 else 0))
    ensures r.Fail? ==> r.error == BoolExprError
  {
    if value == "True" {
      r := Ok(Some(ConstInt(I1, 1)));
    } else if value == "False" {
      r := Ok(Some(ConstInt(I1, 0)));
    } else {
      r := Fail(BoolExprError);
    }
  }

  /** BinaryExprAST::Codegen */
  method LowerBinary(n: Node, b: Builder, t: SymbolTable) returns (r: Result<Option<Value>, Error>)
    requires n.BinaryExpr? && Shaped(n) && Valid(StateOf(b, t))
    modifies b, t
    ensures Agrees(r, GenBinary(n, old(StateOf(b, t))), StateOf(b, t))
    decreases n, 1
  {
    var l :- Lower(n.left.value, b, t);
    var rt :- Lower(n.right.value, b, t);
    if l.None? || rt.None? {
      return Ok(None);
    }
    ghost var m0 := b.State();
    var lhs, rhs := l.value, rt.value;
    if TypeOf(lhs) != TypeOf(rhs) && TypeOf(lhs).Int? && TypeOf(rhs).Int? {
      lhs := b.CreateZExt(lhs);
      rhs := b.CreateZExt(rhs);
    }
    assert (b.State(), lhs, rhs) == Promote(m0, l.value, rt.value);
    match BinaryKind(n.op)
    case None =>
      r := Fail(BinaryExprFault(n.op));
    case Some(k) =>
      var v := b.Insert(BinaryName(k), Binary(k, lhs, rhs), BinaryType(k, lhs));
      r := Ok(Some(v));
  }

  /** UnaryExprAST::Codegen */
  method LowerUnary(n: Node, b: Builder, t: SymbolTable) returns (r: Result<Option<Value>, Error>)
    requires n.UnaryExpr? && Shaped(n) && Valid(StateOf(b, t))
    modifies b, t
    ensures Agrees(r, GenUnary(n, old(StateOf(b, t))), StateOf(b, t))
    decreases n, 1
  {
    var v :- Lower(n.operand.value, b, t);
    if n.op != "UnaryMinus" && n.op != "Not" {
      return Fail(UnaryExprFault(n.op));
    }
    if v.None? {
      return Fail(Undefined("operand is NULL"));
    }
    var u;
    if n.op == "UnaryMinus" {
      u := b.Insert("negtmp", Neg(v.value), TypeOf(v.value));
    } else {
      u := b.Insert("nottmp", Not(v.value), TypeOf(v.value));
    }
    r := Ok(Some(u));
  }

  /** ExternTypeAST::Codegen: the IR type itself. */
  method LowerExternType(ty: string) returns (r: Result<Option<Value>, Error>)
    ensures r == (match LlvmType(ty) case Ok(lt) => Ok(Some(TypeVal(lt))) case Fail(e) => Fail(e))
  {
    var lt :- LlvmType(ty);
    r := Ok(Some(TypeVal(lt)));
  }

  /** returnArgsE: the types of an extern's parameters, in order. */
  method ExternArgTypes(items: seq<Node>) returns (r: Result<seq<Type>, Error>)
    requires AllExternTypes(items)
    ensures r == ExternParamTypes(items)
  {
    var toReturn: seq<Type> := [];
    var i := 0;
    assert items[0..] == items;
    AfterTypesNothing(ExternParamTypes(items));
    while i < |items|
      invariant 0 <= i <= |items|
      invariant ExternParamTypes(items) == AfterTypes(toReturn, ExternParamTypes(items[i..]))
    {
      ExternTypesStep(items, i);
      var j :- LlvmType(items[i].ty);
      AfterTypesAppend(toReturn, [j], ExternParamTypes(items[i + 1..]));
      toReturn := toReturn + [j];
      i := i + 1;
    }
    assert items[i..] == [] && toReturn + [] == toReturn;
    r := Ok(toReturn);
  }

  /** returnArgs: the types of a method's parameters, in order. */
  method ParamArgTypes(params: seq<Node>) returns (r: Result<seq<Type>, Error>)
    requires AllVarDefs(params)
    ensures r == ParamTypes(params)
  {
    var toReturn: seq<Type> := [];
    var i := 0;
    assert params[0..] == params;
    AfterTypesNothing(ParamTypes(params));
    while i < |params|
      invariant 0 <= i <= |params|
      invariant ParamTypes(params) == AfterTypes(toReturn, ParamTypes(params[i..]))
    {
      ParamTypesStep(params, i);
      var j :- LlvmType(params[i].ty);
      AfterTypesAppend(toReturn, [j], ParamTypes(params[i + 1..]));
      toReturn := toReturn + [j];
      i := i + 1;
    }
    assert params[i..] == [] && toReturn + [] == toReturn;
    r := Ok(toReturn);
  }

  /** ExternFunctionAST::Codegen */
  method LowerExtern(n: Node, b: Builder, t: SymbolTable) returns (r: Result<Option<Value>, Error>)
    requires n.ExternFunction? && Shaped(n) && Valid(StateOf(b, t))
    modifies b, t
    ensures Agrees(r, GenExtern(n, old(StateOf(b, t))), StateOf(b, t))
  {
    var returnTy :- LlvmType(n.ty);
    var args :- ExternArgTypes(n.params.value.items);
    var val := b.CreateFunction(Function(n.name, returnTy, args, seq(|args|, _ => "")));
    t.Insert(n.name, val);
    r := Ok(Some(val));
  }

  /** AssignGlobalVarAST::Codegen, and the scalar branch of FieldDeclAST::Codegen. */
  method LowerScalarGlobal(name: string, ty: string, b: Builder, t: SymbolTable)
    returns (r: Result<Option<Value>, Error>)
    requires Valid(StateOf(b, t))
    modifies b, t
    ensures Agrees(r, GenScalarGlobal(name, ty, old(StateOf(b, t))), StateOf(b, t))
  {
    var llType :- LlvmType(ty);
    var zero :- ZeroInit(ty);
    var foo := b.CreateGlobal(Global(name, llType, zero, InternalLinkage, false));
    t.Insert(name, foo);
    r := Ok(Some(foo));
  }

  /** FieldDeclAST::Codegen */
  method LowerField(n: Node, b: Builder, t: SymbolTable) returns (r: Result<Option<Value>, Error>)
    requires n.FieldDecl? && Shaped(n) && Valid(StateOf(b, t))
    modifies b, t
    ensures Agrees(r, GenField(n, old(StateOf(b, t))), StateOf(b, t))
  {
    var name := Str(n.id.value);
    FieldSizeTest(n.size);
    if Str(n.size) != "Scalar" {
      var elem := ArrayElemType(n.ty);
      var count :- Atoi(n.size.count);
      var arrayT := ArrayOf(elem, count);
      var foo := b.CreateGlobal(Global(name, arrayT, NullConst(arrayT), ExternalLinkage, false));
      t.Insert(name, foo);
      r := Ok(Some(foo));
    } else {
      r := LowerScalarGlobal(name, n.ty, b, t);
    }
  }

  /**
   * MethodDeclAST::Codegen: the header (main's fixed one, or the declared
   * signature with the parameter loop), a scope pushed for the body, the
   * body, the default return, and the scope popped.
   */
  method LowerMethod(n: Node, b: Builder, t: SymbolTable) returns (r: Result<Option<Value>, Error>)
    requires n.Method? && Shaped(n) && Valid(StateOf(b, t))
    modifies b, t
    ensures Agrees(r, GenMethod(n, old(StateOf(b, t))), StateOf(b, t))
    decreases n, 1
  {
    ghost var s0 := StateOf(b, t);
    var params := n.params.value.items;
    var returnTy :- LlvmType(n.ty);
    var args :- ParamArgTypes(params);
    var func: Option<Value> := None;
    if n.name == "main" {
      var fnIndex := |b.functions|;
      var theFunction := b.CreateFunction(Function("main", I32, [], []));
      t.Insert("main", theFunction);
      var bb := b.NewBlock("entry", fnIndex);
      b.MoveTo(bb);
      assert StateOf(b, t) == MainHeader(s0);
    } else {
      var fnIndex := |b.functions|;
      var f := b.CreateFunction(Function(n.name, returnTy, args, ParamNames(params)));
      t.Insert(n.name, f);
      var bb := b.NewBlock("entry", fnIndex);
      b.MoveTo(bb);
      t.Insert("entry", BlockVal(bb, "entry"));
      BindParamsLoop(fnIndex, params, args, b, t);
      assert StateOf(b, t) == MethodHeader(s0, n.name, returnTy, params, args);
      func := Some(f);
    }
    assert StateOf(b, t) == Header(n, returnTy, args, s0);
    t.PushFront();
    var temp :- Lower(n.body.value, b, t);
    if n.ty == "BoolType" {
      var ret := b.Insert("", Ret(Some(ConstInt(I1, 0))), Void);
    }
    if n.ty == "IntType" {
      var ret := b.Insert("", Ret(Some(ConstInt(I32, 0))), Void);
    }
    if n.ty == "VoidType" {
      var ret := b.Insert("", Ret(None), Void);
    }
    t.PopFront();
    r := Ok(func);
  }

  /** The parameter loop of MethodDeclAST: an alloca and a store per parameter, the alloca entered in the front scope. */
  method BindParamsLoop(fn: nat, params: seq<Node>, types: seq<Type>, b: Builder, t: SymbolTable)
    requires Valid(StateOf(b, t)) && |params| == |types|
    requires AllVarDefs(params)
    modifies b, t
    ensures StateOf(b, t) == BindParams(old(StateOf(b, t)), fn, params, types, 0)
  {
    var i := 0;
    while i < |params|
      invariant 0 <= i <= |params| && Valid(StateOf(b, t))
      invariant BindParams(old(StateOf(b, t)), fn, params, types, 0) == BindParams(StateOf(b, t), fn, params, types, i)
    {
      ghost var before := StateOf(b, t);
      var alloca := b.Insert(params[i].name, Alloca(types[i]), Ptr(types[i]));
      var store := b.Insert("", Store(ArgVal(fn, i, types[i], params[i].name), alloca), Void);
      t.Insert(params[i].name, alloca);
      assert StateOf(b, t) == BindParam(before, fn, params[i].name, types[i], i);
      BindParamsStep(before, fn, params, types, i);
      i := i + 1;
    }
  }
}
