/**
 * The Decaf abstract syntax tree and its textual rendering, str().
 *
 * decafexpr/answer/test.cc and decafcomp/answer/decafcomp.cc declare the same
 * node classes with the same str() methods; the two differ only in the
 * FieldDecl size (a string in test.cc, a node in decafcomp.cc, modelled as a
 * node: a size string s renders as the node Ident(s) does) and in DecVar,
 * which only test.cc has. One datatype serves both. A child pointer that may
 * be NULL is an Option<Node>; a decafStmtList* child is an Option<Node>
 * holding a StmtList node.
 */
module DecafAst {
  import opened Wrappers

  datatype Node =
    | Base                                  // decafAST itself, whose str() is ""
    | StmtList(items: seq<Node>)            // decafStmtList
    | Program(externs: Option<Node>, pkg: Option<Node>)
    | Package(name: string, fields: Option<Node>, methods: Option<Node>)
    | Block(vars: Option<Node>, stmts: Option<Node>)
    | VarDef(name: string, ty: string)
    | BreakStmt
    | ContinueStmt
    | ReturnStmt(expr: Option<Node>)
    | ForStmt(pre: Option<Node>, cond: Option<Node>, step: Option<Node>, body: Option<Node>)
    | IfStmt(cond: Option<Node>, body: Option<Node>, elseBody: Option<Node>)
    | WhileStmt(cond: Option<Node>, body: Option<Node>)
    | MethodCall(name: string, args: Option<Node>)
    | AssignVar(name: string, expr: Option<Node>)
    | AssignArrayLoc(lval: Option<Node>, expr: Option<Node>)
    | StringConstant(text: string)          // MethodArgAST
    | VariableExpr(name: string)
    | ArrayLocExpr(name: string, index: Option<Node>)
    | ArrayLVal(name: string, index: Option<Node>)
    | NumberExpr(value: string)
    | BoolExpr(value: string)
    | BinaryExpr(op: string, left: Option<Node>, right: Option<Node>)
    | UnaryExpr(op: string, operand: Option<Node>)
    | MethodBlock(vars: Option<Node>, stmts: Option<Node>)
    | Method(name: string, ty: string, params: Option<Node>, body: Option<Node>)  // MethodDeclAST
    | ParenExpr(inner: Option<Node>)
    | ExternType(ty: string)
    | ExternFunction(name: string, ty: string, params: Option<Node>)
    | FieldDecl(id: Option<Node>, ty: string, size: Node)
    | ArraySize(count: string)              // ArrayAST
    | Scalar
    | AssignGlobalVar(name: string, ty: string, expr: Option<Node>)
    | Ident(name: string)                   // IdAST
    | DecVar(name: string, ty: string)

  // ---------------------------------------------------------------------
  // Rendering
  // ---------------------------------------------------------------------

  /** getString: the rendering of a child, "None" for a NULL child. */
  function GetString(d: Option<Node>): (r: string)
    ensures d.None? ==> r == "None"
    ensures d.Some? ==> r == Str(d.value)
  {
    match d
    case None => "None"
    case Some(n) => Str(n)
  }

  /** One step of commaList's loop: a comma only once the accumulator is non-empty. */
  function Step(acc: string, x: string): string {
    acc + (if acc == "" then "" else ",") + x
  }

  /** The accumulator of commaList's loop after it has visited the renderings `ss`, front to back. */
  function Fold(ss: seq<string>): string {
    if ss == [] then "" else Step(Fold(ss[..|ss| - 1]), ss[|ss| - 1])
  }

  /** The renderings of the elements of a list, in order. */
  function Renderings(items: seq<Node>): (r: seq<string>)
    decreases items, 0
  {
    seq(|items|, k requires 0 <= k < |items| => Str(items[k]))
  }

  /** commaList: the accumulated renderings, or "None" when they come to "". */
  function CommaList(items: seq<Node>): (r: string)
    ensures r != "" && (items == [] ==> r == "None")
    decreases items, 1
  {
    var s := Fold(Renderings(items));
    if s == "" then "None" else s
  }

  /** str() of every node class. */
  function Str(n: Node): (r: string)
    ensures r == "" <==> n.Base? || n == Ident("")
    decreases n, 2
  {
    match n
    case Base => ""
    case StmtList(items) => CommaList(items)
    case Program(externs, pkg) => "Program(" + GetString(externs) + "," + GetString(pkg) + ")"
    case Package(name, fields, methods) =>
      "Package(" + name + "," + GetString(fields) + "," + GetString(methods) + ")"
    case Block(vars, stmts) => "Block(" + GetString(vars) + "," + GetString(stmts) + ")"
    case VarDef(name, ty) => "VarDef(" + name + "," + ty + ")"
    case BreakStmt => "BreakStmt"
    case ContinueStmt => "ContinueStmt"
    case ReturnStmt(expr) => "ReturnStmt(" + GetString(expr) + ")"
    case ForStmt(pre, cond, step, body) =>
      "ForStmt(" + GetString(pre) + "," + GetString(cond) + "," + GetString(step) + ","
      + GetString(body) + ")"
    case IfStmt(cond, body, elseBody) =>
      "IfStmt(" + GetString(cond) + "," + GetString(body) + "," + GetString(elseBody) + ")"
    case WhileStmt(cond, body) => "WhileStmt(" + GetString(cond) + "," + GetString(body) + ")"
    case MethodCall(name, args) => "MethodCall(" + name + "," + GetString(args) + ")"
    case AssignVar(name, expr) => "AssignVar(" + name + "," + GetString(expr) + ")"
    case AssignArrayLoc(lval, expr) => "AssignArrayLoc(" + GetString(lval) + "," + GetString(expr) + ")"
    case StringConstant(text) => "StringConstant(" + text + ")"
    case VariableExpr(name) => "VariableExpr(" + name + ")"
    case ArrayLocExpr(name, index) => "ArrayLocExpr(" + name + "," + GetString(index) + ")"
    case ArrayLVal(name, index) => name + "," + GetString(index)
    case NumberExpr(value) => "NumberExpr(" + value + ")"
    case BoolExpr(value) => "BoolExpr(" + value + ")"
    case BinaryExpr(op, left, right) =>
      "BinaryExpr(" + op + "," + GetString(left) + "," + GetString(right) + ")"
    case UnaryExpr(op, operand) => "UnaryExpr(" + op + "," + GetString(operand) + ")"
    case MethodBlock(vars, stmts) => "MethodBlock(" + GetString(vars) + "," + GetString(stmts) + ")"
    case Method(name, ty, params, body) =>
      "Method(" + name + "," + ty + "," + GetString(params) + "," + GetString(body) + ")"
    case ParenExpr(inner) => "(" + GetString(inner) + ")"
    case ExternType(ty) => "VarDef(" + ty + ")"
    case ExternFunction(name, ty, params) =>
      "ExternFunction(" + name + "," + ty + "," + GetString(params) + ")"
    case FieldDecl(id, ty, size) => "FieldDecl(" + GetString(id) + "," + ty + "," + Str(size) + ")"
    case ArraySize(count) => "Array(" + count + ")"
    case Scalar => "Scalar"
    case AssignGlobalVar(name, ty, expr) =>
      "AssignGlobalVar(" + name + "," + ty + "," + GetString(expr) + ")"
    case Ident(name) => name
    case DecVar(name, ty) => "(" + name + "," + ty + ")"
  }

  /** The two-argument IfStmtAST constructor: no else part (NULL). */
  function IfWithoutElse(cond: Option<Node>, body: Option<Node>): (r: Node)
    ensures r.IfStmt? && r.cond == cond && r.body == body && r.elseBody.None?
  {
    IfStmt(cond, body, None)
  }

  /** The nullary ReturnStatementAST constructor: no expression (NULL). */
  function ReturnNothing(): (r: Node)
    ensures r.ReturnStmt? && r.expr.None?
  {
    ReturnStmt(None)
  }

  // ---------------------------------------------------------------------
  // commaList as the loop it is in the source
  // ---------------------------------------------------------------------

  /** The accumulator loop of commaList, proved to compute CommaList. */
  method CommaListLoop(items: seq<Node>) returns (s: string)
    ensures s == CommaList(items)
    ensures items == [] ==> s == "None"
    ensures s != ""
  {
    ghost var rs := Renderings(items);
    s := "";
    var i := 0;
    while i < |items|
      invariant 0 <= i <= |items|
      invariant s == Fold(rs[..i])
    {
      assert rs[..i + 1][..i] == rs[..i];
      s := s + (if s == "" then "" else ",") + Str(items[i]);
      i := i + 1;
    }
    assert rs[..i] == rs;
    if s == "" {
      s := "None";
    }
  }

  // ---------------------------------------------------------------------
  // Reference definitions and the lemmas relating commaList to them
  // ---------------------------------------------------------------------

  /** Every rendering is the empty string (as the base class's str() is). */
  predicate AllEmpty(ss: seq<string>) {
    forall k :: 0 <= k < |ss| ==> ss[k] == ""
  }

  /** Each rendering preceded by a comma. */
  function Commas(ss: seq<string>): string {
    if ss == [] then "" else "," + ss[0] + Commas(ss[1..])
  }

  /** The renderings separated by commas. */
  function Separated(ss: seq<string>): string
    requires ss != []
  {
    ss[0] + Commas(ss[1..])
  }

  lemma {:induction false} CommasAppend(ss: seq<string>, x: string)
    ensures Commas(ss + [x]) == Commas(ss) + "," + x
  {
    if ss == [] {
      assert Commas([x][1..]) == "";
    } else {
      assert (ss + [x])[0] == ss[0];
      assert (ss + [x])[1..] == ss[1..] + [x];
      CommasAppend(ss[1..], x);
    }
  }

  /** The accumulator stays "" exactly as long as every rendering so far was "". */
  lemma {:induction false} FoldEmptyIff(ss: seq<string>)
    ensures Fold(ss) == "" <==> AllEmpty(ss)
  {
    if ss != [] {
      var init := ss[..|ss| - 1];
      FoldEmptyIff(init);
      assert forall k :: 0 <= k < |init| ==> init[k] == ss[k];
    }
  }

  /**
   * The accumulator from the first non-empty rendering on: the renderings
   * before it contribute nothing, and every rendering after it contributes
   * a comma and itself, even one that is "".
   */
  lemma {:induction false} FoldFromFirst(ss: seq<string>, i: nat)
    requires i < |ss| && ss[i] != ""
    requires AllEmpty(ss[..i])
    ensures Fold(ss) == ss[i] + Commas(ss[i + 1..])
  {
    var n := |ss|;
    var init := ss[..n - 1];
    if i == n - 1 {
      assert init == ss[..i];
      FoldEmptyIff(init);
      assert ss[i + 1..] == [];
    } else {
      assert init[..i] == ss[..i];
      FoldFromFirst(init, i);
      assert init[i + 1..] == ss[i + 1..n - 1];
      CommasAppend(ss[i + 1..n - 1], ss[n - 1]);
      assert ss[i + 1..n - 1] + [ss[n - 1]] == ss[i + 1..];
    }
  }

  /** The first non-empty rendering, given that one exists at or before `i`. */
  lemma {:induction false} FirstNonEmpty(ss: seq<string>, i: nat) returns (first: nat)
    requires i < |ss| && ss[i] != ""
    ensures first <= i && ss[first] != "" && AllEmpty(ss[..first])
  {
    if AllEmpty(ss[..i]) {
      first := i;
    } else {
      var j :| 0 <= j < i && ss[..i][j] != "";
      first := FirstNonEmpty(ss, j);
    }
  }

  /**
   * commaList in general: skip the elements that render as "" up to the
   * first one that does not; from there on, every element adds a comma
   * and its rendering.
   */
  lemma CommaListFromFirst(items: seq<Node>, i: nat)
    requires i < |items| && Str(items[i]) != ""
    requires forall k :: 0 <= k < i ==> Str(items[k]) == ""
    ensures CommaList(items) == Str(items[i]) + Commas(Renderings(items[i + 1..]))
  {
    var rs := Renderings(items);
    assert AllEmpty(rs[..i]) by {
      forall k | 0 <= k < i
        ensures rs[..i][k] == ""
      {
        assert rs[..i][k] == rs[k] == Str(items[k]);
      }
    }
    FoldFromFirst(rs, i);
    RenderingsDrop(items, i + 1);
  }

  /** The renderings of a suffix are the suffix of the renderings. */
  lemma RenderingsDrop(items: seq<Node>, j: nat)
    requires j <= |items|
    ensures Renderings(items)[j..] == Renderings(items[j..])
  {
  }

  /**
   * When no element renders as "", commaList is the renderings separated
   * by commas, and "None" for the empty list.
   */
  lemma CommaListSeparated(items: seq<Node>)
    requires forall k :: 0 <= k < |items| ==> Str(items[k]) != ""
    ensures items == [] ==> CommaList(items) == "None"
    ensures items != [] ==> CommaList(items) == Separated(Renderings(items))
  {
    if items != [] {
      var rs := Renderings(items);
      assert rs[..0] == [];
      FoldFromFirst(rs, 0);
    }
  }

  /**
   * The accumulator comes to "" exactly when every element renders as ""
   * (so also for the empty list), and then the list renders as "None".
   */
  lemma CommaListNoneWhenAllEmpty(items: seq<Node>)
    ensures Fold(Renderings(items)) == "" <==> forall k :: 0 <= k < |items| ==> Str(items[k]) == ""
    ensures (forall k :: 0 <= k < |items| ==> Str(items[k]) == "") ==> CommaList(items) == "None"
  {
    var rs := Renderings(items);
    FoldEmptyIff(rs);
    assert AllEmpty(rs) <==> forall k :: 0 <= k < |items| ==> Str(items[k]) == "" by {
      assert forall k :: 0 <= k < |items| ==> rs[k] == Str(items[k]);
    }
  }

  /** A leading element that renders as "" adds no comma before the next one. */
  lemma LeadingEmptyVanishes(x: Node, items: seq<Node>)
    requires Str(x) == ""
    ensures CommaList([x] + items) == CommaList(items)
  {
    var rs := Renderings(items);
    var all := Renderings([x] + items);
    assert all == [""] + rs;
    if AllEmpty(rs) {
      assert AllEmpty(all);
      FoldEmptyIff(rs);
      FoldEmptyIff(all);
    } else {
      var i :| 0 <= i < |rs| && rs[i] != "";
      var first := FirstNonEmpty(rs, i);
      assert all[..first + 1] == [""] + rs[..first];
      FoldFromFirst(rs, first);
      FoldFromFirst(all, first + 1);
      assert all[first + 2..] == rs[first + 1..];
    }
  }

  /** An element that renders as "" after a non-empty rendering still costs a comma. */
  lemma TrailingEmptyLeavesComma(items: seq<Node>, x: Node)
    requires Fold(Renderings(items)) != "" && Str(x) == ""
    ensures CommaList(items + [x]) == CommaList(items) + ","
  {
    var rs := Renderings(items);
    assert Renderings(items + [x]) == rs + [""];
    assert (rs + [""])[..|rs|] == rs;
  }

  /** push_back: an element with a non-empty rendering renders last, after a comma unless it is alone. */
  lemma PushBackRendersLast(items: seq<Node>, x: Node)
    requires Str(x) != ""
    ensures CommaList(items + [x])
      == (if Fold(Renderings(items)) == "" then Str(x) else CommaList(items) + "," + Str(x))
  {
    var rs := Renderings(items);
    assert Renderings(items + [x]) == rs + [Str(x)];
    assert (rs + [Str(x)])[..|rs|] == rs;
  }

  /** push_front: an element with a non-empty rendering renders first, and the rest follow it comma by comma. */
  lemma PushFrontRendersFirst(x: Node, items: seq<Node>)
    requires Str(x) != ""
    ensures CommaList([x] + items) == Str(x) + Commas(Renderings(items))
  {
    var all := [x] + items;
    CommaListFromFirst(all, 0);
    assert all[1..] == items;
  }

  // ---------------------------------------------------------------------
  // decafStmtList as the mutable list it is in the source
  // ---------------------------------------------------------------------

  /** A decafStmtList under construction: the parser's push_front / push_back. */
  class StmtListBuilder {
    var stmts: seq<Node>

    constructor ()
      ensures stmts == []
    {
      stmts := [];
    }

    method PushFront(e: Node)
      modifies this
      ensures stmts == [e] + old(stmts)
    {
      stmts := [e] + stmts;
    }

    method PushBack(e: Node)
      modifies this
      ensures stmts == old(stmts) + [e]
    {
      stmts := stmts + [e];
    }

    /** size() */
    function Size(): (r: nat)
      reads this
      ensures r == |stmts|
    {
      |stmts|
    }

    /** The list as a node of the tree. */
    function AsNode(): (r: Node)
      reads this
      ensures r.StmtList? && r.items == stmts
    {
      StmtList(stmts)
    }

    /** str(): commaList over the elements. */
    method Render() returns (s: string)
      ensures s == Str(AsNode())
      ensures stmts == [] ==> s == "None"
    {
      s := CommaListLoop(stmts);
    }
  }

  // ---------------------------------------------------------------------
  // Renderings of particular node shapes
  // ---------------------------------------------------------------------

  /** A binary expression renders its operator and both operands in order, "None" for an absent one. */
  lemma BinaryRendering(op: string, left: Option<Node>, right: Option<Node>)
    ensures Str(BinaryExpr(op, left, right))
      == "BinaryExpr(" + op + "," + (if left.None? then "None" else Str(left.value)) + ","
         + (if right.None? then "None" else Str(right.value)) + ")"
  {
  }

  /** The two-argument if and the nullary return render their missing part as "None". */
  lemma MissingPartsRenderNone(cond: Node, body: Node)
    ensures Str(IfWithoutElse(Some(cond), Some(body)))
      == "IfStmt(" + Str(cond) + "," + Str(body) + ",None)"
    ensures Str(ReturnNothing()) == "ReturnStmt(None)"
  {
  }

  /** A parenthesised expression and an array l-value carry no tag. */
  lemma UntaggedRenderings(inner: Node, name: string, index: Node)
    ensures Str(ParenExpr(Some(inner))) == "(" + Str(inner) + ")"
    ensures Str(ArrayLVal(name, Some(index))) == name + "," + Str(index)
  {
  }
}
