/**
 * An abstract stand-in for the parts of LLVM that decafcomp.cc drives:
 * types, values, instructions, basic blocks, a module, and an IRBuilder
 * with a current insertion block. Every builder call is recorded as an
 * instruction; there is no memory semantics and no address arithmetic.
 */
module Ir {
  import opened Wrappers

  datatype Type =
    | Void
    | Int(bits: nat)                      // i1, i8, i32
    | Ptr(pointee: Type)
    | ArrayOf(elem: Type, count: int)
    | FuncType(ret: Type, params: seq<Type>)
    | LabelType

  const I1: Type := Int(1)
  const I8: Type := Int(8)
  const I32: Type := Int(32)
  const I8Ptr: Type := Ptr(I8)

  datatype Value =
    | ConstInt(ty: Type, v: int)          // Builder.getInt32 / getInt1
    | NullConst(ty: Type)                 // Constant::getNullValue
    | StringData(text: string)            // the initialiser of a global string
    | InstrVal(id: nat, ty: Type, name: string)
    | GlobalVal(index: nat, valueTy: Type, name: string)
    | FunctionVal(index: nat, name: string, ret: Type, params: seq<Type>)
    | ArgVal(fn: nat, pos: nat, ty: Type, name: string)
    | BlockVal(index: nat, name: string)
    | TypeVal(t: Type)                    // an llvm::Type* passed around as an llvm::Value*

  /** getType() */
  function TypeOf(v: Value): Type {
    match v
    case ConstInt(ty, _) => ty
    case NullConst(ty) => ty
    case StringData(text) => ArrayOf(I8, |text| + 1)
    case InstrVal(_, ty, _) => ty
    case GlobalVal(_, valueTy, _) => Ptr(valueTy)
    case FunctionVal(_, _, ret, params) => Ptr(FuncType(ret, params))
    case ArgVal(_, _, ty, _) => ty
    case BlockVal(_, _) => LabelType
    case TypeVal(_) => Void
  }

  /** getName(): constants have no name. */
  function NameOf(v: Value): string {
    match v
    case InstrVal(_, _, name) => name
    case GlobalVal(_, _, name) => name
    case FunctionVal(_, name, _, _) => name
    case ArgVal(_, _, _, name) => name
    case BlockVal(_, name) => name
    case _ => ""
  }

  datatype BinKind = Sub | Add | Mul | SDiv | SRem | Shl | LShr | SLt | SLe | SGt | SGe | And | Or | Eq | Ne

  /** The integer comparisons, whose result is an i1. */
  predicate IsCompare(k: BinKind) {
    k.SLt? || k.SLe? || k.SGt? || k.SGe? || k.Eq? || k.Ne?
  }

  datatype Op =
    | Alloca(allocTy: Type)
    | Load(ptr: Value)
    | Store(val: Value, ptr: Value)
    | Binary(kind: BinKind, lhs: Value, rhs: Value)
    | Neg(operand: Value)
    | Not(operand: Value)
    | ZExt(operand: Value, to: Type)
    | Call(callee: Value, args: seq<Value>)
    | StructGep(aggTy: Type, base: Value, field: nat)
    | Gep(elemTy: Type, base: Value, index: Value)
    | Br(target: nat)
    | CondBr(cond: Value, ifTrue: nat, ifFalse: nat)
    | Ret(result: Option<Value>)          // None: ret void

  datatype Instr = Instr(id: nat, name: string, op: Op, ty: Type)

  datatype Linkage = ExternalLinkage | InternalLinkage | PrivateLinkage

  datatype Global = Global(name: string, valueTy: Type, init: Value, linkage: Linkage, isConstant: bool)

  datatype Function = Function(name: string, ret: Type, params: seq<Type>, argNames: seq<string>)

  datatype BasicBlock = BasicBlock(name: string, parent: nat, instrs: seq<Instr>)

  /**
   * TheModule's functions and globals, every basic block (each naming its
   * function), the Builder's insertion block, and the next instruction id.
   */
  datatype IrModule = IrModule(
    functions: seq<Function>,
    globals: seq<Global>,
    blocks: seq<BasicBlock>,
    insertAt: Option<nat>,
    nextId: nat)

  const EmptyModule: IrModule := IrModule([], [], [], None, 0)

  /** Block references are in range and every block belongs to a function. */
  predicate WellFormed(m: IrModule) {
    && (m.insertAt.Some? ==> m.insertAt.value < |m.blocks|)
    && (forall i :: 0 <= i < |m.blocks| ==> m.blocks[i].parent < |m.functions|)
  }

  // ---------------------------------------------------------------------
  // Builder operations on module values
  // ---------------------------------------------------------------------

  /**
   * Builder.Insert: a new instruction goes at the end of the insertion
   * block; with no insertion block it is created but placed nowhere.
   */
  function Emit(m: IrModule, name: string, op: Op, ty: Type): (r: (IrModule, Value))
    requires WellFormed(m)
    ensures WellFormed(r.0)
    ensures r.1 == InstrVal(m.nextId, ty, name) && TypeOf(r.1) == ty
    ensures r.0.functions == m.functions && r.0.globals == m.globals
    ensures r.0.insertAt == m.insertAt && r.0.nextId == m.nextId + 1 && |r.0.blocks| == |m.blocks|
    ensures forall i :: 0 <= i < |m.blocks| && Some(i) != m.insertAt ==> r.0.blocks[i] == m.blocks[i]
    ensures m.insertAt.Some? ==>
      var b := m.blocks[m.insertAt.value];
      r.0.blocks[m.insertAt.value] == b.(instrs := b.instrs + [Instr(m.nextId, name, op, ty)])
  {
    var ins := Instr(m.nextId, name, op, ty);
    var blocks := if m.insertAt.Some? then
                    var b := m.blocks[m.insertAt.value];
                    m.blocks[m.insertAt.value := b.(instrs := b.instrs + [ins])]
                  else m.blocks;
    (m.(blocks := blocks, nextId := m.nextId + 1), InstrVal(m.nextId, ty, name))
  }

  /** Function::Create: appended to the module. */
  function AddFunction(m: IrModule, f: Function): (r: (IrModule, Value))
    requires WellFormed(m)
    ensures WellFormed(r.0)
    ensures r.0 == m.(functions := m.functions + [f])
    ensures r.1 == FunctionVal(|m.functions|, f.name, f.ret, f.params)
  {
    (m.(functions := m.functions + [f]), FunctionVal(|m.functions|, f.name, f.ret, f.params))
  }

  /** new GlobalVariable(*TheModule, ...): appended to the module. */
  function AddGlobal(m: IrModule, g: Global): (r: (IrModule, Value))
    requires WellFormed(m)
    ensures WellFormed(r.0)
    ensures r.0 == m.(globals := m.globals + [g])
    ensures r.1 == GlobalVal(|m.globals|, g.valueTy, g.name) && TypeOf(r.1) == Ptr(g.valueTy)
  {
    (m.(globals := m.globals + [g]), GlobalVal(|m.globals|, g.valueTy, g.name))
  }

  /** BasicBlock::Create(TheContext, name, parent): appended after the function's other blocks. */
  function CreateBlock(m: IrModule, blockName: string, parent: nat): (r: (IrModule, nat))
    requires WellFormed(m) && parent < |m.functions|
    ensures WellFormed(r.0)
    ensures r.1 == |m.blocks|
    ensures r.0 == m.(blocks := m.blocks + [BasicBlock(blockName, parent, [])])
  {
    (m.(blocks := m.blocks + [BasicBlock(blockName, parent, [])]), |m.blocks|)
  }

  /** Builder.SetInsertPoint(block) */
  function SetInsertPoint(m: IrModule, b: nat): (r: IrModule)
    requires WellFormed(m) && b < |m.blocks|
    ensures WellFormed(r) && r == m.(insertAt := Some(b))
  {
    m.(insertAt := Some(b))
  }

  /**
   * Builder.CreateZExt(v, i32): a value that already is an i32 comes back
   * unchanged, anything else gets a zext instruction named "zexttmp".
   */
  function ZExtTo32(m: IrModule, v: Value): (r: (IrModule, Value))
    requires WellFormed(m)
    ensures WellFormed(r.0) && TypeOf(r.1) == I32
    ensures TypeOf(v) == I32 ==> r == (m, v)
    ensures TypeOf(v) != I32 ==> r == Emit(m, "zexttmp", ZExt(v, I32), I32)
  {
    if TypeOf(v) == I32 then (m, v) else Emit(m, "zexttmp", ZExt(v, I32), I32)
  }

  // ---------------------------------------------------------------------
  // How lowering may change a module
  // ---------------------------------------------------------------------

  /**
   * `after` extends `before`: functions and globals are only appended,
   * blocks are only appended, an existing block keeps its name and
   * function, only the insertion block of `before` may gain instructions
   * (at its end), and the insertion point stays or moves to a new block.
   */
  predicate Grows(before: IrModule, after: IrModule) {
    && before.functions <= after.functions
    && before.globals <= after.globals
    && |before.blocks| <= |after.blocks|
    && before.nextId <= after.nextId
    && (forall i :: 0 <= i < |before.blocks| ==>
          && after.blocks[i].name == before.blocks[i].name
          && after.blocks[i].parent == before.blocks[i].parent
          && (if Some(i) == before.insertAt then before.blocks[i].instrs <= after.blocks[i].instrs
              else after.blocks[i] == before.blocks[i]))
    && (after.insertAt == before.insertAt
        || (after.insertAt.Some? && after.insertAt.value >= |before.blocks|))
  }

  lemma GrowsRefl(m: IrModule)
    ensures Grows(m, m)
  {
  }

  lemma GrowsTrans(a: IrModule, b: IrModule, c: IrModule)
    requires Grows(a, b) && Grows(b, c)
    ensures Grows(a, c)
  {
    forall i | 0 <= i < |a.blocks|
      ensures c.blocks[i].name == a.blocks[i].name && c.blocks[i].parent == a.blocks[i].parent
      ensures if Some(i) == a.insertAt then a.blocks[i].instrs <= c.blocks[i].instrs
              else c.blocks[i] == a.blocks[i]
    {
      if Some(i) != a.insertAt {
        assert Some(i) != b.insertAt;
      }
    }
  }

  /** A block that was not the insertion block is left as it was. */
  lemma GrowsKeeps(a: IrModule, b: IrModule, i: nat)
    requires Grows(a, b) && i < |a.blocks| && Some(i) != a.insertAt
    ensures i < |b.blocks| && b.blocks[i] == a.blocks[i]
  {
  }

  /**
   * Growth across moving the insertion point to a block created since
   * `a`: the code that goes into that block later does not touch a's blocks.
   */
  lemma GrowsMoved(a: IrModule, b: IrModule, j: nat, c: IrModule)
    requires Grows(a, b) && WellFormed(b) && |a.blocks| <= j < |b.blocks|
    requires Grows(SetInsertPoint(b, j), c)
    ensures Grows(a, c)
  {
    var b' := SetInsertPoint(b, j);
    forall i | 0 <= i < |a.blocks|
      ensures c.blocks[i].name == a.blocks[i].name && c.blocks[i].parent == a.blocks[i].parent
      ensures if Some(i) == a.insertAt then a.blocks[i].instrs <= c.blocks[i].instrs
              else c.blocks[i] == a.blocks[i]
    {
      assert Some(i) != b'.insertAt;
      assert c.blocks[i] == b.blocks[i];
    }
  }

  /** Instruction sequences concatenate associatively. */
  lemma InstrsAssoc(a: seq<Instr>, b: seq<Instr>, c: seq<Instr>)
    ensures (a + b) + c == a + (b + c)
  {
  }

  lemma EmitGrows(m: IrModule, name: string, op: Op, ty: Type)
    requires WellFormed(m)
    ensures Grows(m, Emit(m, name, op, ty).0)
  {
  }

  lemma AddFunctionGrows(m: IrModule, f: Function)
    requires WellFormed(m)
    ensures Grows(m, AddFunction(m, f).0)
  {
  }

  lemma AddGlobalGrows(m: IrModule, g: Global)
    requires WellFormed(m)
    ensures Grows(m, AddGlobal(m, g).0)
  {
  }

  lemma CreateBlockGrows(m: IrModule, blockName: string, parent: nat)
    requires WellFormed(m) && parent < |m.functions|
    ensures Grows(m, CreateBlock(m, blockName, parent).0)
  {
  }

  /** Moving the insertion point to a block created after `before`. */
  lemma SetInsertPointGrows(before: IrModule, m: IrModule, b: nat)
    requires WellFormed(m) && Grows(before, m) && |before.blocks| <= b < |m.blocks|
    ensures Grows(before, SetInsertPoint(m, b))
  {
  }

  // ---------------------------------------------------------------------
  // The builder as the mutable object it is in the source
  // ---------------------------------------------------------------------

  /** TheModule together with Builder and its insertion point. */
  class Builder {
    var functions: seq<Function>
    var globals: seq<Global>
    var blocks: seq<BasicBlock>
    var insertAt: Option<nat>
    var nextId: nat

    /** The module and builder state as a value. */
    function State(): IrModule
      reads this
    {
      IrModule(functions, globals, blocks, insertAt, nextId)
    }

    constructor ()
      ensures State() == EmptyModule
    {
      functions, globals, blocks, insertAt, nextId := [], [], [], None, 0;
    }

    method Assign(m: IrModule)
      modifies this
      ensures State() == m
    {
      functions, globals, blocks, insertAt, nextId := m.functions, m.globals, m.blocks, m.insertAt, m.nextId;
    }

    method Insert(name: string, op: Op, ty: Type) returns (v: Value)
      requires WellFormed(State())
      modifies this
      ensures (State(), v) == Emit(old(State()), name, op, ty)
    {
      var r := Emit(State(), name, op, ty);
      Assign(r.0);
      v := r.1;
    }

    method CreateFunction(f: Function) returns (v: Value)
      requires WellFormed(State())
      modifies this
      ensures (State(), v) == AddFunction(old(State()), f)
    {
      v := FunctionVal(|functions|, f.name, f.ret, f.params);
      functions := functions + [f];
    }

    method CreateGlobal(g: Global) returns (v: Value)
      requires WellFormed(State())
      modifies this
      ensures (State(), v) == AddGlobal(old(State()), g)
    {
      v := GlobalVal(|globals|, g.valueTy, g.name);
      globals := globals + [g];
    }

    method NewBlock(blockName: string, parent: nat) returns (b: nat)
      requires WellFormed(State()) && parent < |functions|
      modifies this
      ensures (State(), b) == CreateBlock(old(State()), blockName, parent)
    {
      b := |blocks|;
      blocks := blocks + [BasicBlock(blockName, parent, [])];
    }

    method MoveTo(b: nat)
      requires WellFormed(State()) && b < |blocks|
      modifies this
      ensures State() == SetInsertPoint(old(State()), b)
    {
      insertAt := Some(b);
    }

    method CreateZExt(v: Value) returns (w: Value)
      requires WellFormed(State())
      modifies this
      ensures (State(), w) == ZExtTo32(old(State()), v)
    {
      if TypeOf(v) == I32 {
        w := v;
      } else {
        w := Insert("zexttmp", ZExt(v, I32), I32);
      }
    }
  }
}
