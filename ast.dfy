/** The closed subset of the syntax tree that the class rewriter inspects and builds.
    Nodes the rewriter never looks into are kept as opaque text. */
module Ast {

  datatype Option<+T> = None | Some(value: T)

  /** The leading comments attached to a node; empty when it has none. */
  type Comments = seq<string>

  /** Expressions. `Function` is a function expression (the only value the rewriter treats
      as a method), `Object` an object literal. `Dot` is a member access whose property is
      the identifier `prop`, read as `obj.prop` or `obj[prop]` alike: the rewriter looks at
      the property's name and never at whether the access is computed; the accesses it
      builds itself are `obj.prop`. Everything else (literals, arrow functions, ...) is
      `Opaque`. */
  datatype Expr =
    | Function(params: seq<string>, body: seq<Stmt>)
    | Object(entries: seq<Property>)
    | Ident(name: string)
    | This
    | SuperKw
    | Spread(arg: Expr)
    | Dot(obj: Expr, prop: string)
    | Call(callee: Expr, args: seq<Expr>)
    | Assign(left: Expr, right: Expr, comments: Comments)
    | Opaque(text: string)

  /** One `key: value` entry of an object literal, with its leading comments. */
  datatype Property = Property(key: string, value: Expr, comments: Comments)

  /** Statements. `SharedSuper` is the one `super(...)` node of the template, which every
      rewritten superclass call points to; its arguments are held by the rewriter. */
  datatype Stmt =
    | ExprStmt(expr: Expr, comments: Comments)
    | OtherStmt(text: string, comments: Comments)
    | SharedSuper

  /** Top-level statements of a module. `ClassSlot` is the program node holding the
      generated `module.exports = class ...` statement and the hoisted statements. */
  datatype TopItem =
    | ExportsAssign(rhs: Expr)
    | VarDecl(binding: string, init: Expr)
    | OtherItem(text: string)
    | ClassSlot

  /** An element of the generated class body after the constructor. */
  datatype ClassElement =
    | StaticMethod(key: string, value: Expr, comments: Comments)
    | InstanceMethod(prop: Property)

  /** The template's superclass call arguments: `...arguments`. */
  const ForwardArgs: seq<Expr> := [Spread(Ident("arguments"))]

  /** The names the templates carry before they are filled in. */
  const TemplateId := "Foo"
  const TemplateSuper := "Bar"

  /** The member keys that the passes consume. */
  const Specials: set<string> := {"constructor", "__extends", "__static"}

  /** `X.__super(...)` as a statement: a call whose callee is a member access named `__super`. */
  predicate IsSuperCall(s: Stmt) {
    s.ExprStmt? && s.expr.Call? && s.expr.callee.Dot? && s.expr.callee.prop == "__super"
  }

  /** An expression statement assigning to a member access whose property is `key`. */
  predicate AssignsProp(s: Stmt, key: string) {
    s.ExprStmt? && s.expr.Assign? && s.expr.left.Dot? && s.expr.left.prop == key
  }

  /** A call whose callee is a member access named `defineClass`. */
  predicate IsDefineClass(init: Expr) {
    init.Call? && init.callee.Dot? && init.callee.prop == "defineClass"
  }

  predicate KeyIs(slot: Option<Property>, key: string) {
    slot.Some? && slot.value.key == key
  }

  /** A remaining member whose value is a function expression. */
  predicate IsMethodSlot(slot: Option<Property>) {
    slot.Some? && slot.value.value.Function?
  }

  /** A remaining member whose value is anything but a function expression. */
  predicate IsDataSlot(slot: Option<Property>) {
    slot.Some? && !slot.value.value.Function?
  }

  /** The same statement with its leading comments replaced. */
  function WithComments(s: Stmt, c: Comments): Stmt {
    match s
    case ExprStmt(e, _) => ExprStmt(e, c)
    case OtherStmt(t, _) => OtherStmt(t, c)
    case SharedSuper => SharedSuper
  }

  /** The statement without its leading comments: two statements with equal shapes differ
      at most in their comments. */
  function Shape(s: Stmt): Stmt {
    WithComments(s, [])
  }

  predicate SameShape(a: seq<Stmt>, b: seq<Stmt>) {
    |a| == |b| && forall k :: 0 <= k < |a| ==> Shape(a[k]) == Shape(b[k])
  }

  /** The constructor's statements are all expression statements of the parsed module: the
      merge reads the expression of each one and fails on any other statement, and the
      shared `super(...)` node is never among them before the merge. */
  predicate ExprStmtsOnly(body: seq<Stmt>) {
    forall k :: 0 <= k < |body| ==> body[k].ExprStmt?
  }

  /** The member shapes the passes can process without failing. */
  predicate ShapedMember(p: Property) {
    && (p.key == "constructor" ==> p.value.Function? && ExprStmtsOnly(p.value.body))
    && (p.key == "__static" ==> p.value.Object?)
  }

  predicate ShapedMembers(ms: seq<Property>) {
    forall j :: 0 <= j < |ms| ==> ShapedMember(ms[j])
  }

  predicate ShapedSlots(ps: seq<Option<Property>>) {
    forall i :: 0 <= i < |ps| ==> ps[i].Some? ==> ShapedMember(ps[i].value)
  }

  /** A top-level item the scan can inspect: a declaration's initialiser is a call, and a
      `defineClass` call has an object literal of processable members as second argument. */
  predicate ShapedItem(it: TopItem) {
    it.VarDecl? ==>
      && it.init.Call?
      && (IsDefineClass(it.init) ==>
            |it.init.args| >= 2 && it.init.args[1].Object? && ShapedMembers(it.init.args[1].entries))
  }

  predicate ShapedItems(items: seq<TopItem>) {
    forall a :: 0 <= a < |items| ==> ShapedItem(items[a])
  }

  /** A module as the parser gives it: items the scan can inspect, and no class slot, which
      only the rewrite puts in. */
  predicate ParsedItems(items: seq<TopItem>) {
    ShapedItems(items) && ClassSlot !in items
  }
}
