/** The passes of the class rewriter as pure functions: each one says what a pass leaves in
    the class under construction, given the member slots it walks and the state before it.
    The folds take the members from the back, so that the state after the first `i`
    members of a forward loop is the function of `ps[..i]`. */
module Passes {
  import opened Ast

  /** The class under construction: the fields of the templates that the passes fill in.
      `ctor` is None while the template constructor is in place; `ctorBody` is the
      statement list of whichever constructor is in place; `superArgs` are the arguments of
      the shared `super(...)` node; `trailing` are the statements placed after the class. */
  datatype State = State(
    className: Option<string>,
    superName: Option<string>,
    superArgs: seq<Expr>,
    ctor: Option<Property>,
    ctorBody: seq<Stmt>,
    elements: seq<ClassElement>,
    trailing: seq<Stmt>)

  /** The templates as declared: class `Foo extends Bar` whose constructor is
      `super(...arguments)`, and no class name found yet. */
  const Initial := State(None, Some(TemplateSuper), ForwardArgs, None, [SharedSuper], [], [])

  /** The member list of a matched declaration, every slot still filled. */
  function Slots(ms: seq<Property>): (r: seq<Option<Property>>)
    ensures |r| == |ms| && forall i :: 0 <= i < |ms| ==> r[i] == Some(ms[i])
  {
    seq(|ms|, i requires 0 <= i < |ms| => Some(ms[i]))
  }

  /** The slots after every member with `key` has been nulled out. */
  function Drop(ps: seq<Option<Property>>, key: string): (r: seq<Option<Property>>)
    ensures |r| == |ps|
    ensures forall i :: 0 <= i < |ps| ==> !KeyIs(r[i], key)
    ensures forall i :: 0 <= i < |ps| && KeyIs(ps[i], key) ==> r[i] == None
    ensures forall i :: 0 <= i < |ps| && !KeyIs(ps[i], key) ==> r[i] == ps[i]
  {
    if ps == [] then []
    else
      var last := ps[|ps| - 1];
      Drop(ps[..|ps| - 1], key) + [if KeyIs(last, key) then None else last]
  }

  // ---------------------------------------------------------------- constructor merge

  /** The constructor statements after the merge: each `X.__super(...)` statement is the
      shared `super(...)` node, every other statement stays where it was. */
  function Merged(body: seq<Stmt>): (r: seq<Stmt>)
    ensures |r| == |body|
    ensures forall k :: 0 <= k < |body| ==> r[k] == if IsSuperCall(body[k]) then SharedSuper else body[k]
  {
    if body == [] then []
    else
      var last := body[|body| - 1];
      Merged(body[..|body| - 1]) + [if IsSuperCall(last) then SharedSuper else last]
  }

  /** The index of the last `X.__super(...)` statement, or -1 when there is none. */
  function LastSuper(body: seq<Stmt>): (r: int)
    ensures -1 <= r < |body|
    ensures r == -1 <==> forall k :: 0 <= k < |body| ==> !IsSuperCall(body[k])
    ensures r >= 0 ==> IsSuperCall(body[r]) && forall k :: r < k < |body| ==> !IsSuperCall(body[k])
  {
    if body == [] then -1
    else if IsSuperCall(body[|body| - 1]) then |body| - 1
    else LastSuper(body[..|body| - 1])
  }

  /** The arguments the shared `super(...)` node carries after the merge of `body`: those of
      the last `__super` call, or `args` unchanged when there is no such call. */
  function SuperArgsAfter(body: seq<Stmt>, args: seq<Expr>): seq<Expr> {
    var k := LastSuper(body);
    if k == -1 then args else body[k].expr.args
  }

  /** One `constructor` member merged: it becomes the class constructor. */
  function MergeCtor(p: Property, s: State): State
    requires p.value.Function?
  {
    s.(ctor := Some(p), ctorBody := Merged(p.value.body), superArgs := SuperArgsAfter(p.value.body, s.superArgs))
  }

  /** The constructor pass over all slots. */
  function MergeCtors(ps: seq<Option<Property>>, s: State): State
    requires ShapedSlots(ps)
  {
    if ps == [] then s
    else
      var prev := MergeCtors(ps[..|ps| - 1], s);
      var last := ps[|ps| - 1];
      if KeyIs(last, "constructor") then MergeCtor(last.value, prev) else prev
  }

  /** One more slot walked by the constructor pass. */
  lemma MergeCtorsStep(ps: seq<Option<Property>>, s: State, i: int)
    requires ShapedSlots(ps) && 0 <= i < |ps|
    ensures MergeCtors(ps[..i + 1], s)
         == if KeyIs(ps[i], "constructor") then MergeCtor(ps[i].value, MergeCtors(ps[..i], s)) else MergeCtors(ps[..i], s)
  {
    assert ps[..i + 1][..i] == ps[..i];
  }

  // ---------------------------------------------------------------- extends

  /** The name read from an `__extends` value: only an identifier has one. */
  function NameOf(e: Expr): Option<string> {
    if e.Ident? then Some(e.name) else None
  }

  /** The superclass name after the extends pass. */
  function ExtendsName(ps: seq<Option<Property>>, cur: Option<string>): Option<string> {
    if ps == [] then cur
    else
      var last := ps[|ps| - 1];
      if KeyIs(last, "__extends") then NameOf(last.value.value) else ExtendsName(ps[..|ps| - 1], cur)
  }

  // ---------------------------------------------------------------- statics

  /** The static methods built from the function-valued entries of a `__static` object. */
  function StaticMethods(es: seq<Property>): seq<ClassElement> {
    if es == [] then []
    else
      var last := es[|es| - 1];
      StaticMethods(es[..|es| - 1]) +
        (if last.value.Function? then [StaticMethod(last.key, last.value, last.comments)] else [])
  }

  /** `name.key = value` for one static entry. */
  function StaticAssign(name: string, p: Property): Stmt {
    ExprStmt(Assign(Dot(Ident(name), p.key), p.value, []), [])
  }

  /** The statements hoisted after the class for the other entries of a `__static` object. */
  function StaticAssigns(name: string, es: seq<Property>): seq<Stmt> {
    if es == [] then []
    else
      var last := es[|es| - 1];
      StaticAssigns(name, es[..|es| - 1]) + (if last.value.Function? then [] else [StaticAssign(name, last)])
  }

  /** One `__static` member processed. */
  function AddStatics(es: seq<Property>, name: string, s: State): State {
    s.(elements := s.elements + StaticMethods(es), trailing := s.trailing + StaticAssigns(name, es))
  }

  /** The statics pass over all slots. */
  function ApplyStatics(ps: seq<Option<Property>>, name: string, s: State): State
    requires ShapedSlots(ps)
  {
    if ps == [] then s
    else
      var prev := ApplyStatics(ps[..|ps| - 1], name, s);
      var last := ps[|ps| - 1];
      if KeyIs(last, "__static") then AddStatics(last.value.value.entries, name, prev) else prev
  }

  // ---------------------------------------------------------------- methods

  /** The instance methods: every remaining function-valued member, in member order. */
  function MethodElements(ps: seq<Option<Property>>): seq<ClassElement> {
    if ps == [] then []
    else
      var last := ps[|ps| - 1];
      MethodElements(ps[..|ps| - 1]) + (if IsMethodSlot(last) then [InstanceMethod(last.value)] else [])
  }

  // ---------------------------------------------------------------- properties

  /** The index of the first statement assigning to a member named `key`, or -1. */
  function FindAssign(body: seq<Stmt>, key: string): (r: int)
    ensures -1 <= r < |body|
    ensures r == -1 <==> forall k :: 0 <= k < |body| ==> !AssignsProp(body[k], key)
    ensures r >= 0 ==> AssignsProp(body[r], key) && forall k :: 0 <= k < r ==> !AssignsProp(body[k], key)
  {
    if body == [] then -1
    else if AssignsProp(body[0], key) then 0
    else
      var r := FindAssign(body[1..], key);
      if r == -1 then -1 else r + 1
  }

  /** Statements that differ only in their comments assign the same members. */
  lemma ShapeKeepsAssign(s: Stmt, t: Stmt, key: string)
    requires Shape(s) == Shape(t)
    ensures AssignsProp(s, key) == AssignsProp(t, key)
  {
  }

  /** The search ignores comments, so moving comments does not change what it finds. */
  lemma {:induction false} FindAssignShape(a: seq<Stmt>, b: seq<Stmt>, key: string)
    requires SameShape(a, b)
    ensures FindAssign(a, key) == FindAssign(b, key)
  {
    if a != [] {
      ShapeKeepsAssign(a[0], b[0], key);
      FindAssignShape(a[1..], b[1..], key);
    }
  }

  /** `this.key = value`, the member's comments on the assignment. */
  function NewAssign(p: Property): Stmt {
    ExprStmt(Assign(Dot(This, p.key), p.value, p.comments), [])
  }

  /** The assignments created for the data members that `base` does not assign yet. */
  function Created(ps: seq<Option<Property>>, base: seq<Stmt>): seq<Stmt> {
    if ps == [] then []
    else
      var last := ps[|ps| - 1];
      Created(ps[..|ps| - 1], base) +
        (if IsDataSlot(last) && FindAssign(base, last.value.key) == -1 then [NewAssign(last.value)] else [])
  }

  /** `base` after each data member that it already assigns has put its comments on the
      first such assignment. */
  function Recomment(ps: seq<Option<Property>>, base: seq<Stmt>): (r: seq<Stmt>)
    ensures SameShape(r, base)
  {
    if ps == [] then base
    else
      var prev := Recomment(ps[..|ps| - 1], base);
      var last := ps[|ps| - 1];
      if IsDataSlot(last) && FindAssign(base, last.value.key) >= 0 then
        var k := FindAssign(base, last.value.key);
        prev[k := WithComments(prev[k], last.value.comments)]
      else prev
  }

  /** The properties pass: the created assignments go in front of the constructor body. */
  function PlaceProperties(ps: seq<Option<Property>>, s: State): State {
    s.(ctorBody := Created(ps, s.ctorBody) + Recomment(ps, s.ctorBody))
  }

  // ---------------------------------------------------------------- one declaration

  /** The slots the statics and methods passes see, and those the properties pass sees. */
  function AfterExtends(ms: seq<Property>): seq<Option<Property>> {
    Drop(Drop(Slots(ms), "constructor"), "__extends")
  }

  function Remaining(ms: seq<Property>): seq<Option<Property>> {
    Drop(AfterExtends(ms), "__static")
  }

  /** All passes run for one matched declaration `binding = NS.defineClass(name, {ms})`. */
  function Transform(s: State, binding: string, ms: seq<Property>): State
    requires ShapedMembers(ms)
  {
    Members(Header(s, binding, ms), binding, ms)
  }

  /** The name, constructor and superclass passes. */
  function Header(s: State, binding: string, ms: seq<Property>): State
    requires ShapedMembers(ms)
  {
    var s1 := MergeCtors(Slots(ms), s.(className := Some(binding)));
    s1.(superName := ExtendsName(Drop(Slots(ms), "constructor"), s1.superName))
  }

  /** The statics, methods and properties passes. */
  function Members(s: State, binding: string, ms: seq<Property>): State
    requires ShapedMembers(ms)
  {
    var s3 := ApplyStatics(AfterExtends(ms), binding, s);
    var s4 := s3.(elements := s3.elements + MethodElements(Remaining(ms)));
    PlaceProperties(Remaining(ms), s4)
  }

  // ---------------------------------------------------------------- the module scan

  predicate IsMatch(it: TopItem) {
    it.VarDecl? && IsDefineClass(it.init)
  }

  /** The member list of a matched declaration. */
  function MembersOf(it: TopItem): seq<Property>
    requires IsMatch(it) && ShapedItem(it)
  {
    it.init.args[1].entries
  }

  /** What the scan leaves: the module's top-level items and the class state. */
  datatype Scan = Scan(body: seq<TopItem>, state: State)

  /** The scan from index `k` on, where `n` is the length the body had when the scan began:
      a `module.exports = ...` item is removed (so the item after it is never visited), a
      matched declaration is replaced by the class slot and transformed. */
  function ScanFrom(body: seq<TopItem>, k: nat, n: nat, s: State): Scan
    requires ShapedItems(body)
    decreases n - k
  {
    if k >= n || k >= |body| then Scan(body, s)
    else
      var it := body[k];
      if it.ExportsAssign? then ScanFrom(body[..k] + body[k + 1..], k + 1, n, s)
      else if IsMatch(it) then ScanFrom(body[k := ClassSlot], k + 1, n, Transform(s, it.binding, MembersOf(it)))
      else ScanFrom(body, k + 1, n, s)
  }

  // ---------------------------------------------------------------- the output

  /** The generated constructor: its parameters, statements and comments. */
  datatype Ctor = Ctor(params: seq<string>, body: seq<Stmt>, comments: Comments)

  /** `class id extends superName { ctor elements }`. */
  datatype ClassDecl = ClassDecl(id: string, superName: Option<string>, ctor: Option<Ctor>, elements: seq<ClassElement>)

  /** A top-level item of the output: an untouched item, the exported class, or a statement
      hoisted after it. */
  datatype OutItem = Kept(item: TopItem) | ExportClass(decl: ClassDecl) | Hoisted(stmt: Stmt)

  /** The statement a constructor statement stands for, the shared node resolved. */
  function Resolve(st: Stmt, args: seq<Expr>): Stmt {
    if st == SharedSuper then ExprStmt(Call(SuperKw, args), []) else st
  }

  function ResolveAll(body: seq<Stmt>, args: seq<Expr>): (r: seq<Stmt>)
    ensures |r| == |body| && forall k :: 0 <= k < |body| ==> r[k] == Resolve(body[k], args)
  {
    seq(|body|, k requires 0 <= k < |body| => Resolve(body[k], args))
  }

  /** The constructor in place: the merged member, or the template's. */
  function CtorOf(s: State): Ctor {
    match s.ctor
    case Some(p) => Ctor(if p.value.Function? then p.value.params else [], ResolveAll(s.ctorBody, s.superArgs), p.comments)
    case None => Ctor([], ResolveAll(s.ctorBody, s.superArgs), [])
  }

  /** The class the templates describe once the passes are done; `kept` says whether the
      constructor is still at the head of the class body. */
  function ClassOf(s: State, kept: bool): ClassDecl {
    ClassDecl(
      if s.className.Some? then s.className.value else TemplateId,
      s.superName,
      if kept then Some(CtorOf(s)) else None,
      s.elements)
  }

  function Hoist(ts: seq<Stmt>): (r: seq<OutItem>)
    ensures |r| == |ts| && forall k :: 0 <= k < |ts| ==> r[k] == Hoisted(ts[k])
  {
    seq(|ts|, k requires 0 <= k < |ts| => Hoisted(ts[k]))
  }

  /** The output items of a scanned body: each class slot prints the class followed by the
      hoisted statements. */
  function Emit(body: seq<TopItem>, decl: ClassDecl, trailing: seq<Stmt>): seq<OutItem> {
    if body == [] then []
    else
      (if body[0] == ClassSlot then [ExportClass(decl)] + Hoist(trailing) else [Kept(body[0])])
        + Emit(body[1..], decl, trailing)
  }

  /** The constructor is dropped exactly when its statement list has one statement. */
  function CtorKept(s: State): bool {
    |s.ctorBody| != 1
  }

  /** The whole rewrite of one parsed module: None when no declaration matched (nothing is
      printed), otherwise the rewritten top-level items. */
  function Convert(items: seq<TopItem>): Option<seq<OutItem>>
    requires ParsedItems(items)
  {
    var sc := ScanFrom(items, 0, |items|, Initial);
    if sc.state.className.None? then None
    else Some(Emit(sc.body, ClassOf(sc.state, CtorKept(sc.state)), sc.state.trailing))
  }
}
