/** What the rewrite of one declaration promises, proved about the passes. */
module Facts {
  import opened Ast
  import opened Passes

  /** No slot carries `key`. */
  predicate NoKey(ps: seq<Option<Property>>, key: string) {
    forall i :: 0 <= i < |ps| ==> !KeyIs(ps[i], key)
  }

  /** Slot `j` is the last one that carries `key`. */
  predicate LastKeyAt(ps: seq<Option<Property>>, key: string, j: int) {
    0 <= j < |ps| && KeyIs(ps[j], key) && forall i :: j < i < |ps| ==> !KeyIs(ps[i], key)
  }

  /** Slot `j` is the only one that carries `key`. */
  predicate OnlyKeyAt(ps: seq<Option<Property>>, key: string, j: int) {
    LastKeyAt(ps, key, j) && forall i :: 0 <= i < j ==> !KeyIs(ps[i], key)
  }

  /** A member key is one of the names of `ms`. */
  predicate HasMember(ms: seq<Property>, key: string) {
    exists j :: 0 <= j < |ms| && ms[j].key == key
  }

  // ================================================================ constructor merge

  /** The constructor pass touches only the constructor, its body and the super arguments. */
  lemma {:induction false} MergeCtorsKeeps(ps: seq<Option<Property>>, s: State)
    requires ShapedSlots(ps)
    ensures var r := MergeCtors(ps, s);
      r.className == s.className && r.superName == s.superName && r.elements == s.elements && r.trailing == s.trailing
  {
    if ps != [] {
      MergeCtorsKeeps(ps[..|ps| - 1], s);
    }
  }

  /** Without a `constructor` member the template constructor stays. */
  lemma {:induction false} MergeCtorsNone(ps: seq<Option<Property>>, s: State)
    requires ShapedSlots(ps) && NoKey(ps, "constructor")
    ensures MergeCtors(ps, s) == s
  {
    if ps != [] {
      MergeCtorsNone(ps[..|ps| - 1], s);
    }
  }

  /** The last `constructor` member is the one that ends up in the class. */
  lemma {:induction false} MergeCtorsLast(ps: seq<Option<Property>>, s: State, j: int)
    requires ShapedSlots(ps) && LastKeyAt(ps, "constructor", j)
    ensures MergeCtors(ps, s) == MergeCtor(ps[j].value, MergeCtors(ps[..j], s))
  {
    if |ps| - 1 > j {
      assert ps[..|ps| - 1][..j] == ps[..j];
      MergeCtorsLast(ps[..|ps| - 1], s, j);
    }
  }

  /** The constructor of a class built from one declaration: with one `constructor` member
      it is that member, whose `__super` statements are the shared `super(...)` call
      carrying the arguments of the last of them; with none it is `super(...arguments)`. */
  lemma ConstructorMerge(b: string, ms: seq<Property>)
    requires ShapedMembers(ms)
    ensures var h := Header(Initial, b, ms);
      && (!HasMember(ms, "constructor") ==>
            h.ctor == None && h.ctorBody == [SharedSuper] && h.superArgs == ForwardArgs)
      && (forall j :: OnlyKeyAt(Slots(ms), "constructor", j) ==>
            && h.ctor == Some(ms[j])
            && h.ctorBody == Merged(ms[j].value.body)
            && h.superArgs == SuperArgsAfter(ms[j].value.body, ForwardArgs))
  {
    var ps := Slots(ms);
    var s := Initial.(className := Some(b));
    if !HasMember(ms, "constructor") {
      MergeCtorsNone(ps, s);
    }
    forall j | OnlyKeyAt(ps, "constructor", j)
      ensures MergeCtors(ps, s) == MergeCtor(ms[j], s)
    {
      MergeCtorsLast(ps, s, j);
      MergeCtorsNone(ps[..j], s);
    }
  }

  /** Rendered, the merged constructor has `super(args)` wherever the member had a
      `__super` statement, `args` being those of the last such statement, and every other
      statement where it was. */
  lemma RenderedMerge(body: seq<Stmt>, args: seq<Expr>)
    requires ExprStmtsOnly(body)
    ensures var r := ResolveAll(Merged(body), SuperArgsAfter(body, args));
      && |r| == |body|
      && forall k :: 0 <= k < |body| ==>
           r[k] == if IsSuperCall(body[k]) then ExprStmt(Call(SuperKw, body[LastSuper(body)].expr.args), []) else body[k]
  {
  }

  // ================================================================ extends

  lemma {:induction false} ExtendsNone(ps: seq<Option<Property>>, cur: Option<string>)
    requires NoKey(ps, "__extends")
    ensures ExtendsName(ps, cur) == cur
  {
    if ps != [] {
      ExtendsNone(ps[..|ps| - 1], cur);
    }
  }

  lemma {:induction false} ExtendsLast(ps: seq<Option<Property>>, cur: Option<string>, j: int)
    requires LastKeyAt(ps, "__extends", j)
    ensures ExtendsName(ps, cur) == NameOf(ps[j].value.value)
  {
    if |ps| - 1 > j {
      ExtendsLast(ps[..|ps| - 1], cur, j);
    }
  }

  /** The superclass of a class built from one declaration is the identifier of its last
      `__extends` member (none when that value is not an identifier), and the template's
      `Bar` when there is no `__extends` member. */
  lemma Superclass(b: string, ms: seq<Property>)
    requires ShapedMembers(ms)
    ensures var h := Header(Initial, b, ms);
      && (!HasMember(ms, "__extends") ==> h.superName == Some(TemplateSuper))
      && (forall j :: LastKeyAt(Slots(ms), "__extends", j) ==> h.superName == NameOf(ms[j].value))
  {
    var ps := Slots(ms);
    var s := Initial.(className := Some(b));
    MergeCtorsKeeps(ps, s);
    var dropped := Drop(ps, "constructor");
    if !HasMember(ms, "__extends") {
      ExtendsNone(dropped, MergeCtors(ps, s).superName);
    }
    forall j | LastKeyAt(ps, "__extends", j)
      ensures ExtendsName(dropped, MergeCtors(ps, s).superName) == NameOf(ms[j].value)
    {
      ExtendsLast(dropped, MergeCtors(ps, s).superName, j);
    }
  }

  // ================================================================ statics

  /** The static methods of all `__static` members, in member order. */
  function StaticElementsOf(ps: seq<Option<Property>>): seq<ClassElement>
    requires ShapedSlots(ps)
  {
    if ps == [] then []
    else
      var last := ps[|ps| - 1];
      StaticElementsOf(ps[..|ps| - 1]) + (if KeyIs(last, "__static") then StaticMethods(last.value.value.entries) else [])
  }

  /** The statements hoisted after the class for all `__static` members, in member order. */
  function HoistedOf(ps: seq<Option<Property>>, name: string): seq<Stmt>
    requires ShapedSlots(ps)
  {
    if ps == [] then []
    else
      var last := ps[|ps| - 1];
      HoistedOf(ps[..|ps| - 1], name) + (if KeyIs(last, "__static") then StaticAssigns(name, last.value.value.entries) else [])
  }

  /** The statics pass only appends: to the class body and after the class. */
  lemma {:induction false} ApplyStaticsAppends(ps: seq<Option<Property>>, name: string, s: State)
    requires ShapedSlots(ps)
    ensures ApplyStatics(ps, name, s)
         == s.(elements := s.elements + StaticElementsOf(ps), trailing := s.trailing + HoistedOf(ps, name))
  {
    if ps != [] {
      var init := ps[..|ps| - 1];
      ApplyStaticsAppends(init, name, s);
      var last := ps[|ps| - 1];
      if KeyIs(last, "__static") {
        var es := last.value.value.entries;
        assert s.elements + StaticElementsOf(init) + StaticMethods(es) == s.elements + (StaticElementsOf(init) + StaticMethods(es));
        assert s.trailing + HoistedOf(init, name) + StaticAssigns(name, es) == s.trailing + (HoistedOf(init, name) + StaticAssigns(name, es));
      }
    }
  }

  /** Each function-valued entry of a `__static` object gives a static method with its key,
      value and comments, and every static method comes from such an entry. */
  lemma {:induction false} StaticMethodsFrom(es: seq<Property>)
    ensures forall p :: p in es && p.value.Function? ==> StaticMethod(p.key, p.value, p.comments) in StaticMethods(es)
    ensures forall e :: e in StaticMethods(es) ==>
      e.StaticMethod? && e.value.Function? && Property(e.key, e.value, e.comments) in es
  {
    if es != [] {
      StaticMethodsFrom(es[..|es| - 1]);
      assert es == es[..|es| - 1] + [es[|es| - 1]];
    }
  }

  /** Each other entry gives `name.key = value` after the class, and every hoisted
      statement comes from such an entry. */
  lemma {:induction false} StaticAssignsFrom(name: string, es: seq<Property>)
    ensures forall p :: p in es && !p.value.Function? ==> StaticAssign(name, p) in StaticAssigns(name, es)
    ensures forall st :: st in StaticAssigns(name, es) ==>
      exists p :: p in es && !p.value.Function? && st == StaticAssign(name, p)
  {
    if es != [] {
      StaticAssignsFrom(name, es[..|es| - 1]);
      assert es == es[..|es| - 1] + [es[|es| - 1]];
    }
  }

  /** Both kinds of statics keep the order of the entries: the statics of a concatenation
      are the concatenation of the statics. */
  lemma {:induction false} StaticsInOrder(name: string, es1: seq<Property>, es2: seq<Property>)
    ensures StaticMethods(es1 + es2) == StaticMethods(es1) + StaticMethods(es2)
    ensures StaticAssigns(name, es1 + es2) == StaticAssigns(name, es1) + StaticAssigns(name, es2)
  {
    if es2 == [] {
      assert es1 + es2 == es1;
    } else {
      var init := es2[..|es2| - 1];
      var last := es2[|es2| - 1];
      StaticsInOrder(name, es1, init);
      var both := es1 + es2;
      assert both[..|both| - 1] == es1 + init && both[|both| - 1] == last;
      var m := if last.value.Function? then [StaticMethod(last.key, last.value, last.comments)] else [];
      var a := if last.value.Function? then [] else [StaticAssign(name, last)];
      assert StaticMethods(both) == StaticMethods(es1) + StaticMethods(init) + m;
      assert StaticMethods(es1) + StaticMethods(init) + m == StaticMethods(es1) + (StaticMethods(init) + m);
      assert StaticAssigns(name, both) == StaticAssigns(name, es1) + StaticAssigns(name, init) + a;
      assert StaticAssigns(name, es1) + StaticAssigns(name, init) + a == StaticAssigns(name, es1) + (StaticAssigns(name, init) + a);
    }
  }

  // ================================================================ methods

  /** Every remaining function-valued member is an instance method, and every instance
      method is such a member. */
  lemma {:induction false} MethodElementsFrom(ps: seq<Option<Property>>)
    ensures forall i :: 0 <= i < |ps| && IsMethodSlot(ps[i]) ==> InstanceMethod(ps[i].value) in MethodElements(ps)
    ensures forall e :: e in MethodElements(ps) ==> e.InstanceMethod? && e.prop.value.Function? && Some(e.prop) in ps
  {
    if ps != [] {
      MethodElementsFrom(ps[..|ps| - 1]);
      assert ps == ps[..|ps| - 1] + [ps[|ps| - 1]];
    }
  }

  /** The instance methods keep the member order. */
  lemma {:induction false} MethodsInOrder(ps1: seq<Option<Property>>, ps2: seq<Option<Property>>)
    ensures MethodElements(ps1 + ps2) == MethodElements(ps1) + MethodElements(ps2)
  {
    if ps2 == [] {
      assert ps1 + ps2 == ps1;
    } else {
      var init := ps2[..|ps2| - 1];
      var last := ps2[|ps2| - 1];
      MethodsInOrder(ps1, init);
      var both := ps1 + ps2;
      assert both[..|both| - 1] == ps1 + init && both[|both| - 1] == last;
      var m := if IsMethodSlot(last) then [InstanceMethod(last.value)] else [];
      assert MethodElements(both) == MethodElements(ps1) + MethodElements(init) + m;
      assert MethodElements(ps1) + MethodElements(init) + m == MethodElements(ps1) + (MethodElements(init) + m);
    }
  }

  // ================================================================ the consumed members

  /** After the constructor, extends and statics passes, exactly the members with the
      consumed keys are gone, so none of them becomes a method or a property. */
  lemma SpecialsConsumed(ms: seq<Property>, base: seq<Stmt>)
    ensures |Remaining(ms)| == |ms|
    ensures forall i :: 0 <= i < |ms| ==> Remaining(ms)[i] == if ms[i].key in Specials then None else Some(ms[i])
    ensures forall e :: e in MethodElements(Remaining(ms)) ==> e.InstanceMethod? && e.prop.key !in Specials
    ensures forall st :: st in Created(Remaining(ms), base) ==>
      st.ExprStmt? && st.expr.Assign? && st.expr.left.Dot? && st.expr.left.prop !in Specials
  {
    MethodElementsFrom(Remaining(ms));
    CreatedFrom(Remaining(ms), base);
  }

  // ================================================================ properties

  /** A created assignment exists for each data member the constructor does not assign,
      and each created assignment is for such a member. */
  lemma {:induction false} CreatedFrom(ps: seq<Option<Property>>, base: seq<Stmt>)
    ensures forall i :: 0 <= i < |ps| && IsDataSlot(ps[i]) && FindAssign(base, ps[i].value.key) == -1 ==>
      NewAssign(ps[i].value) in Created(ps, base)
    ensures forall st :: st in Created(ps, base) ==>
      exists p :: Some(p) in ps && !p.value.Function? && FindAssign(base, p.key) == -1 && st == NewAssign(p)
  {
    if ps != [] {
      CreatedFrom(ps[..|ps| - 1], base);
      assert ps == ps[..|ps| - 1] + [ps[|ps| - 1]];
    }
  }

  /** The created assignments keep the member order. */
  lemma {:induction false} CreatedInOrder(ps1: seq<Option<Property>>, ps2: seq<Option<Property>>, base: seq<Stmt>)
    ensures Created(ps1 + ps2, base) == Created(ps1, base) + Created(ps2, base)
  {
    if ps2 == [] {
      assert ps1 + ps2 == ps1;
    } else {
      var init := ps2[..|ps2| - 1];
      var last := ps2[|ps2| - 1];
      CreatedInOrder(ps1, init, base);
      var both := ps1 + ps2;
      assert both[..|both| - 1] == ps1 + init && both[|both| - 1] == last;
      var c := if IsDataSlot(last) && FindAssign(base, last.value.key) == -1 then [NewAssign(last.value)] else [];
      assert Created(both, base) == Created(ps1, base) + Created(init, base) + c;
      assert Created(ps1, base) + Created(init, base) + c == Created(ps1, base) + (Created(init, base) + c);
    }
  }

  /** After the properties pass every data member is assigned in the constructor: either
      by the statement it already had or by the one created for it. */
  lemma EveryDataMemberAssigned(ps: seq<Option<Property>>, base: seq<Stmt>)
    ensures forall i :: 0 <= i < |ps| && IsDataSlot(ps[i]) ==>
      FindAssign(Created(ps, base) + Recomment(ps, base), ps[i].value.key) != -1
  {
    var created := Created(ps, base);
    var kept := Recomment(ps, base);
    var body := created + kept;
    CreatedFrom(ps, base);
    forall i | 0 <= i < |ps| && IsDataSlot(ps[i])
      ensures FindAssign(body, ps[i].value.key) != -1
    {
      var key := ps[i].value.key;
      var k := FindAssign(base, key);
      if k == -1 {
        var n :| 0 <= n < |created| && created[n] == NewAssign(ps[i].value);
        assert AssignsProp(body[n], key);
      } else {
        ShapeKeepsAssign(kept[k], base[k], key);
        assert AssignsProp(body[|created| + k], key);
      }
    }
  }

  /** Setting comments depends only on the statement's shape. */
  lemma CommentsOnShape(a: Stmt, b: Stmt, c: Comments)
    requires Shape(a) == Shape(b)
    ensures WithComments(a, c) == WithComments(b, c)
  {
  }

  /** Data member `ps[i]` moves its comments to statement `j`. */
  predicate MovesTo(slot: Option<Property>, base: seq<Stmt>, j: int) {
    IsDataSlot(slot) && FindAssign(base, slot.value.key) == j
  }

  /** A statement that no data member's key finds keeps its comments. */
  lemma {:induction false} CommentsKept(ps: seq<Option<Property>>, base: seq<Stmt>, j: int)
    requires 0 <= j < |base|
    requires forall i :: 0 <= i < |ps| ==> !MovesTo(ps[i], base, j)
    ensures Recomment(ps, base)[j] == base[j]
  {
    if ps != [] {
      CommentsKept(ps[..|ps| - 1], base, j);
    }
  }

  /** A statement found for a data member carries the comments of the last data member
      that finds it. */
  lemma {:induction false} CommentsMoved(ps: seq<Option<Property>>, base: seq<Stmt>, j: int, i: int)
    requires 0 <= i < |ps| && 0 <= j < |base| && MovesTo(ps[i], base, j)
    requires forall l :: i < l < |ps| ==> !MovesTo(ps[l], base, j)
    ensures Recomment(ps, base)[j] == WithComments(base[j], ps[i].value.comments)
  {
    var init := ps[..|ps| - 1];
    if i == |ps| - 1 {
      CommentsOnShape(Recomment(init, base)[j], base[j], ps[i].value.comments);
    } else {
      CommentsMoved(init, base, j, i);
    }
  }

  // ================================================================ the class of one declaration

  /** Every pass after the constructor merge keeps the class name. */
  lemma ClassNameIsBinding(s: State, b: string, ms: seq<Property>)
    requires ShapedMembers(ms)
    ensures Transform(s, b, ms).className == Some(b)
  {
    MergeCtorsKeeps(Slots(ms), s.(className := Some(b)));
    ApplyStaticsAppends(AfterExtends(ms), b, Header(s, b, ms));
  }

  /** The class body built from one declaration, after its constructor: the static methods
      of the `__static` members, then the remaining function-valued members, each group in
      member order; after the class come the hoisted static properties. */
  lemma ClassBodyOrder(b: string, ms: seq<Property>)
    requires ShapedMembers(ms)
    ensures var t := Transform(Initial, b, ms);
      && t.elements == StaticElementsOf(AfterExtends(ms)) + MethodElements(Remaining(ms))
      && t.trailing == HoistedOf(AfterExtends(ms), b)
  {
    MergeCtorsKeeps(Slots(ms), Initial.(className := Some(b)));
    ApplyStaticsAppends(AfterExtends(ms), b, Header(Initial, b, ms));
  }

  lemma {:induction false} StaticsNone(ps: seq<Option<Property>>, name: string)
    requires ShapedSlots(ps) && NoKey(ps, "__static")
    ensures StaticElementsOf(ps) == [] && HoistedOf(ps, name) == []
  {
    if ps != [] {
      StaticsNone(ps[..|ps| - 1], name);
    }
  }

  lemma {:induction false} StaticsLast(ps: seq<Option<Property>>, name: string, j: int)
    requires ShapedSlots(ps) && LastKeyAt(ps, "__static", j)
    ensures StaticElementsOf(ps) == StaticElementsOf(ps[..j]) + StaticMethods(ps[j].value.value.entries)
    ensures HoistedOf(ps, name) == HoistedOf(ps[..j], name) + StaticAssigns(name, ps[j].value.value.entries)
  {
    if |ps| - 1 > j {
      assert ps[..|ps| - 1][..j] == ps[..j];
      StaticsLast(ps[..|ps| - 1], name, j);
    }
  }

  /** With one `__static` member, the class body after the constructor is its static
      methods followed by the instance methods, and after the class come its other entries
      as `ClassName.key = value`. */
  lemma OneStaticMember(b: string, ms: seq<Property>, j: int)
    requires ShapedMembers(ms) && OnlyKeyAt(Slots(ms), "__static", j)
    ensures var t := Transform(Initial, b, ms);
      && t.elements == StaticMethods(ms[j].value.entries) + MethodElements(Remaining(ms))
      && t.trailing == StaticAssigns(b, ms[j].value.entries)
  {
    ClassBodyOrder(b, ms);
    StaticsOfOne(b, ms, j);
  }

  lemma StaticsOfOne(b: string, ms: seq<Property>, j: int)
    requires ShapedMembers(ms) && OnlyKeyAt(Slots(ms), "__static", j)
    ensures StaticElementsOf(AfterExtends(ms)) == StaticMethods(ms[j].value.entries)
    ensures HoistedOf(AfterExtends(ms), b) == StaticAssigns(b, ms[j].value.entries)
  {
    var ps := AfterExtends(ms);
    OnlyStaticSlot(ms, j);
    StaticsLast(ps, b, j);
    StaticsNone(ps[..j], b);
  }

  /** The one `__static` member is still the only `__static` slot after the first passes. */
  lemma OnlyStaticSlot(ms: seq<Property>, j: int)
    requires OnlyKeyAt(Slots(ms), "__static", j)
    ensures var ps := AfterExtends(ms);
      LastKeyAt(ps, "__static", j) && ps[j] == Some(ms[j]) && NoKey(ps[..j], "__static")
  {
    var ps := AfterExtends(ms);
    var slots := Slots(ms);
    StaticSlotsKept(ms);
    assert KeyIs(slots[j], "__static");
    forall i | j < i < |ps| ensures !KeyIs(ps[i], "__static") {
      assert !KeyIs(slots[i], "__static");
    }
    forall i | 0 <= i < j ensures !KeyIs(ps[..j][i], "__static") {
      assert !KeyIs(slots[i], "__static");
    }
  }

  /** The constructor and extends passes leave the `__static` slots where they were. */
  lemma StaticSlotsKept(ms: seq<Property>)
    ensures |AfterExtends(ms)| == |ms|
    ensures forall i :: 0 <= i < |ms| ==> KeyIs(AfterExtends(ms)[i], "__static") == (ms[i].key == "__static")
    ensures forall i :: 0 <= i < |ms| && ms[i].key == "__static" ==> AfterExtends(ms)[i] == Some(ms[i])
  {
  }

  /** Without data members the properties pass leaves the constructor as it is. */
  lemma {:induction false} NoDataNoChange(ps: seq<Option<Property>>, base: seq<Stmt>)
    requires forall i :: 0 <= i < |ps| ==> !IsDataSlot(ps[i])
    ensures Created(ps, base) == [] && Recomment(ps, base) == base
  {
    if ps != [] {
      NoDataNoChange(ps[..|ps| - 1], base);
    }
  }

  /** A class with neither a `constructor` member nor data members is left with the
      template `super(...arguments)` alone, and so loses its constructor. */
  lemma DefaultConstructorElided(b: string, ms: seq<Property>)
    requires ShapedMembers(ms) && !HasMember(ms, "constructor")
    requires forall j :: 0 <= j < |ms| && ms[j].key !in Specials ==> ms[j].value.Function?
    ensures var t := Transform(Initial, b, ms);
      t.ctorBody == [SharedSuper] && !CtorKept(t) && ClassOf(t, CtorKept(t)).ctor == None
  {
    ConstructorMerge(b, ms);
    var h := Header(Initial, b, ms);
    ApplyStaticsAppends(AfterExtends(ms), b, h);
    SpecialsConsumed(ms, h.ctorBody);
    NoDataNoChange(Remaining(ms), h.ctorBody);
  }

  /** The elision looks only at the length: in a class without data members, a
      `constructor` member with a single statement, whatever it is, is dropped together
      with that statement. */
  lemma LoneStatementElided(b: string, ms: seq<Property>, j: nat)
    requires ShapedMembers(ms) && OnlyKeyAt(Slots(ms), "constructor", j)
    requires |ms[j].value.body| == 1
    requires forall i :: 0 <= i < |ms| && ms[i].key !in Specials ==> ms[i].value.Function?
    ensures var t := Transform(Initial, b, ms);
      && t.ctor == Some(ms[j]) && |t.ctorBody| == 1
      && !CtorKept(t) && ClassOf(t, CtorKept(t)).ctor == None
  {
    ConstructorMerge(b, ms);
    var h := Header(Initial, b, ms);
    assert |h.ctorBody| == 1;
    NoDataKeepsCtor(h, b, ms);
  }

  /** Without data members the statics, methods and properties passes leave the constructor
      and its statements as the header passes made them. */
  lemma NoDataKeepsCtor(h: State, b: string, ms: seq<Property>)
    requires ShapedMembers(ms)
    requires forall i :: 0 <= i < |ms| && ms[i].key !in Specials ==> ms[i].value.Function?
    ensures Members(h, b, ms).ctor == h.ctor && Members(h, b, ms).ctorBody == h.ctorBody
  {
    ApplyStaticsAppends(AfterExtends(ms), b, h);
    SpecialsConsumed(ms, h.ctorBody);
    NoDataNoChange(Remaining(ms), h.ctorBody);
  }

  // ================================================================ the module scan

  /** The scan read front to back, and first the items it leaves: each visited
      `module.exports = ...` item is removed and the item after it is passed over as it is;
      each visited `defineClass` declaration becomes the class slot; every other item stays. */
  function Walked(items: seq<TopItem>): seq<TopItem>
    decreases |items|
  {
    if items == [] then []
    else if items[0].ExportsAssign? then
      if |items| == 1 then [] else [items[1]] + Walked(items[2..])
    else [if IsMatch(items[0]) then ClassSlot else items[0]] + Walked(items[1..])
  }

  /** The templates after the front-to-back scan: each visited declaration is transformed on
      the shared templates, in order; the item after a `module.exports` item adds nothing. */
  function Visited(items: seq<TopItem>, s: State): State
    requires ShapedItems(items)
    decreases |items|
  {
    if items == [] then s
    else if items[0].ExportsAssign? then
      if |items| == 1 then s else Visited(items[2..], s)
    else if IsMatch(items[0]) then Visited(items[1..], Transform(s, items[0].binding, MembersOf(items[0])))
    else Visited(items[1..], s)
  }

  /** The index-based walk with its splices is the front-to-back reading: from index `k`
      on, the part already walked stays and the rest is read by `Walked` and `Visited`. */
  lemma {:induction false} ScanIsWalk(body: seq<TopItem>, k: nat, n: nat, s: State)
    requires ShapedItems(body) && k <= |body| <= n
    ensures ScanFrom(body, k, n, s) == Scan(body[..k] + Walked(body[k..]), Visited(body[k..], s))
    decreases n - k
  {
    if k == |body| {
      assert body[..k] == body;
    } else {
      var it := body[k];
      if it.ExportsAssign? {
        var b := body[..k] + body[k + 1..];
        assert ScanFrom(body, k, n, s) == ScanFrom(b, k + 1, n, s);
        if k + 1 == |body| {
          assert b == body[..k];
        } else {
          ScanIsWalk(b, k + 1, n, s);
          ExportsStep(body, k, s);
        }
      } else if IsMatch(it) {
        var t := Transform(s, it.binding, MembersOf(it));
        var b := body[k := ClassSlot];
        assert ScanFrom(body, k, n, s) == ScanFrom(b, k + 1, n, t);
        ScanIsWalk(b, k + 1, n, t);
        MatchStep(body, k, s);
      } else {
        assert ScanFrom(body, k, n, s) == ScanFrom(body, k + 1, n, s);
        ScanIsWalk(body, k + 1, n, s);
        KeepStep(body, k, s);
      }
    }
  }

  lemma ExportsStep(body: seq<TopItem>, k: nat, s: State)
    requires ShapedItems(body) && k + 1 < |body| && body[k].ExportsAssign?
    ensures var b := body[..k] + body[k + 1..];
      && b[..k + 1] + Walked(b[k + 1..]) == body[..k] + Walked(body[k..])
      && Visited(b[k + 1..], s) == Visited(body[k..], s)
  {
    var b := body[..k] + body[k + 1..];
    var x := body[k..];
    assert x[0] == body[k] && x[1] == body[k + 1] && x[2..] == body[k + 2..] == b[k + 1..];
    assert b[..k + 1] == body[..k] + [body[k + 1]];
  }

  lemma MatchStep(body: seq<TopItem>, k: nat, s: State)
    requires ShapedItems(body) && k < |body| && IsMatch(body[k])
    ensures var b := body[k := ClassSlot];
      && b[..k + 1] + Walked(b[k + 1..]) == body[..k] + Walked(body[k..])
      && Visited(b[k + 1..], Transform(s, body[k].binding, MembersOf(body[k]))) == Visited(body[k..], s)
  {
    var b := body[k := ClassSlot];
    var x := body[k..];
    assert x[0] == body[k] && x[1..] == body[k + 1..] == b[k + 1..];
    assert b[..k + 1] == body[..k] + [ClassSlot];
  }

  lemma KeepStep(body: seq<TopItem>, k: nat, s: State)
    requires ShapedItems(body) && k < |body| && !body[k].ExportsAssign? && !IsMatch(body[k])
    ensures && body[..k + 1] + Walked(body[k + 1..]) == body[..k] + Walked(body[k..])
            && Visited(body[k + 1..], s) == Visited(body[k..], s)
  {
    var x := body[k..];
    assert x[0] == body[k] && x[1..] == body[k + 1..];
    assert body[..k + 1] == body[..k] + [body[k]];
  }

  /** The whole module: the scan is the front-to-back reading. */
  lemma ScanOfModule(items: seq<TopItem>, s: State)
    requires ShapedItems(items)
    ensures ScanFrom(items, 0, |items|, s) == Scan(Walked(items), Visited(items, s))
  {
    ScanIsWalk(items, 0, |items|, s);
    assert items[0..] == items;
  }

  /** Only `defineClass` declarations are rewritten: every item of the scanned module is the
      class slot or an item of the input, and every item that is neither a declaration that
      matches nor a `module.exports` statement is kept. */
  lemma {:induction false} OnlyDefineClassRewritten(items: seq<TopItem>)
    ensures forall x :: x in Walked(items) ==> x == ClassSlot || x in items
    ensures forall x :: x in items && !IsMatch(x) && !x.ExportsAssign? ==> x in Walked(items)
    decreases |items|
  {
    if items != [] {
      if items[0].ExportsAssign? {
        if |items| > 1 {
          OnlyDefineClassRewritten(items[2..]);
          assert items == [items[0], items[1]] + items[2..];
        }
      } else {
        OnlyDefineClassRewritten(items[1..]);
        assert items == [items[0]] + items[1..];
      }
    }
  }

  /** A class slot appears in the scanned module only when some item matches. */
  lemma {:induction false} SlotOnlyFromMatch(items: seq<TopItem>)
    requires ClassSlot !in items
    ensures ClassSlot in Walked(items) ==> exists a :: 0 <= a < |items| && IsMatch(items[a])
    decreases |items|
  {
    if items != [] && ClassSlot in Walked(items) {
      if items[0].ExportsAssign? {
        if |items| > 1 {
          assert ClassSlot !in items[2..];
          SlotOnlyFromMatch(items[2..]);
          var a :| 0 <= a < |items[2..]| && IsMatch(items[2..][a]);
          assert IsMatch(items[a + 2]);
        }
      } else if !IsMatch(items[0]) {
        assert ClassSlot !in items[1..];
        SlotOnlyFromMatch(items[1..]);
        var a :| 0 <= a < |items[1..]| && IsMatch(items[1..][a]);
        assert IsMatch(items[a + 1]);
      }
    }
  }

  /** No top-level item is a `module.exports = ...` statement. */
  predicate NoExports(items: seq<TopItem>) {
    forall a :: 0 <= a < |items| ==> !items[a].ExportsAssign?
  }

  /** Without `module.exports` items every item is visited: each declaration that matches is
      replaced by the class slot and every other item is kept in place. */
  lemma {:induction false} EveryDeclarationVisited(items: seq<TopItem>)
    requires NoExports(items)
    ensures |Walked(items)| == |items|
    ensures forall a :: 0 <= a < |items| ==> Walked(items)[a] == if IsMatch(items[a]) then ClassSlot else items[a]
    decreases |items|
  {
    if items != [] {
      EveryDeclarationVisited(items[1..]);
    }
  }

  /** Without a declaration that matches, the templates are left as they were. */
  lemma {:induction false} VisitedKeepsState(items: seq<TopItem>, s: State)
    requires ShapedItems(items)
    requires forall a :: 0 <= a < |items| ==> !IsMatch(items[a])
    ensures Visited(items, s) == s
    decreases |items|
  {
    if items != [] {
      if items[0].ExportsAssign? {
        if |items| > 1 {
          VisitedKeepsState(items[2..], s);
        }
      } else {
        VisitedKeepsState(items[1..], s);
      }
    }
  }

  /** One declaration that matches, not right behind a `module.exports` statement: it is
      visited, so it leaves a class slot and the templates hold that declaration's class. */
  lemma {:induction false} VisitOneDeclaration(items: seq<TopItem>, s: State, a: nat)
    requires ShapedItems(items) && a < |items| && IsMatch(items[a])
    requires forall c :: 0 <= c < |items| && c != a ==> !IsMatch(items[c])
    requires a > 0 ==> !items[a - 1].ExportsAssign?
    ensures Visited(items, s) == Transform(s, items[a].binding, MembersOf(items[a]))
    ensures ClassSlot in Walked(items)
    decreases |items|
  {
    if items[0].ExportsAssign? {
      VisitOneDeclaration(items[2..], s, a - 2);
      assert Walked(items) == [items[1]] + Walked(items[2..]);
    } else if a == 0 {
      VisitedKeepsState(items[1..], Transform(s, items[0].binding, MembersOf(items[0])));
      assert Walked(items)[0] == ClassSlot;
    } else {
      VisitOneDeclaration(items[1..], s, a - 1);
      assert Walked(items) == [items[0]] + Walked(items[1..]);
    }
  }

  /** The output is printed item by item, in order. */
  lemma {:induction false} EmitInOrder(b1: seq<TopItem>, b2: seq<TopItem>, decl: ClassDecl, trailing: seq<Stmt>)
    ensures Emit(b1 + b2, decl, trailing) == Emit(b1, decl, trailing) + Emit(b2, decl, trailing)
  {
    if b1 != [] {
      EmitInOrder(b1[1..], b2, decl, trailing);
      assert (b1 + b2)[1..] == b1[1..] + b2;
    } else {
      assert b1 + b2 == b2;
    }
  }

  /** One item's output: a class slot prints the class and then the hoisted statements, every
      other item prints as it was. */
  lemma EmitOne(it: TopItem, decl: ClassDecl, trailing: seq<Stmt>)
    ensures it == ClassSlot ==> Emit([it], decl, trailing) == [ExportClass(decl)] + Hoist(trailing)
    ensures it != ClassSlot ==> Emit([it], decl, trailing) == [Kept(it)]
  {
    assert [it][1..] == [];
  }

  /** A module with one `defineClass` declaration that does not directly follow a
      `module.exports` statement prints the class built from that declaration, named after
      its binding, at the declaration's place; other `module.exports` statements are
      removed or passed over as `Walked` says. */
  lemma SingleDeclaration(items: seq<TopItem>, a: nat)
    requires ParsedItems(items) && a < |items| && IsMatch(items[a])
    requires forall c :: 0 <= c < |items| && c != a ==> !IsMatch(items[c])
    requires a > 0 ==> !items[a - 1].ExportsAssign?
    ensures var t := Transform(Initial, items[a].binding, MembersOf(items[a]));
      && t.className == Some(items[a].binding)
      && ClassSlot in Walked(items)
      && Convert(items) == Some(Emit(Walked(items), ClassOf(t, CtorKept(t)), t.trailing))
  {
    ScanOfModule(items, Initial);
    VisitOneDeclaration(items, Initial, a);
    ClassNameIsBinding(Initial, items[a].binding, MembersOf(items[a]));
  }

  /** The usual legacy file, the declaration followed by `module.exports = X`: the export is
      removed and the class, followed by the hoisted statements, is all that is printed. */
  lemma DeclarationThenExports(d: TopItem, e: Expr)
    requires IsMatch(d) && ShapedItem(d)
    ensures var t := Transform(Initial, d.binding, MembersOf(d));
      Convert([d, ExportsAssign(e)]) == Some([ExportClass(ClassOf(t, CtorKept(t)))] + Hoist(t.trailing))
  {
    var items := [d, ExportsAssign(e)];
    SingleDeclaration(items, 0);
    assert items[1..] == [ExportsAssign(e)];
    assert Walked(items) == [ClassSlot];
    var t := Transform(Initial, d.binding, MembersOf(d));
    EmitOne(ClassSlot, ClassOf(t, CtorKept(t)), t.trailing);
    assert [ClassSlot] + [] == [ClassSlot];
  }

  /** A module without a `defineClass` declaration that matches prints nothing. */
  lemma NoDeclarationNoOutput(items: seq<TopItem>)
    requires ParsedItems(items)
    requires forall a :: 0 <= a < |items| ==> !IsMatch(items[a])
    ensures Convert(items) == None
  {
    ScanOfModule(items, Initial);
    VisitedKeepsState(items, Initial);
  }

  /** The item after a visited `module.exports` statement is never visited: it stays as it
      was, at the statement's place, and adds nothing to the templates. */
  lemma ExportsSkipsNext(body: seq<TopItem>, k: nat, n: nat, s: State)
    requires ShapedItems(body) && k + 1 < |body| <= n && body[k].ExportsAssign?
    ensures var sc := ScanFrom(body, k, n, s);
      && |sc.body| > k && sc.body[k] == body[k + 1]
      && sc.state == Visited(body[k + 2..], s)
  {
    ScanIsWalk(body, k, n, s);
    var x := body[k..];
    assert x[0] == body[k] && x[1] == body[k + 1] && x[2..] == body[k + 2..];
  }

  /** So in the module `module.exports = e` followed by a `defineClass` declaration, the
      declaration is not rewritten and nothing is printed. */
  lemma ExportsHidesNextItem(e: Expr, d: TopItem)
    requires IsMatch(d) && ShapedItem(d)
    ensures ScanFrom([ExportsAssign(e), d], 0, 2, Initial) == Scan([d], Initial)
    ensures Convert([ExportsAssign(e), d]) == None
  {
    var items := [ExportsAssign(e), d];
    assert items[..0] + items[1..] == [d];
  }

  // ================================================================ a worked declaration

  const SuperX := ExprStmt(Call(Dot(Ident("X"), "__super"), [Ident("x")]), [])
  const SetA := ExprStmt(Assign(Dot(This, "a"), Ident("x"), []), [])

  /** The members of `const X = NS.defineClass('a.b.X', { __extends: Base, constructor(x) {
      X.__super(x); this.a = x }, b: 5, __static: { c: 10 } })`. */
  const WorkedMembers := [
    Property("__extends", Ident("Base"), []),
    Property("constructor", Function(["x"], [SuperX, SetA]), []),
    Property("b", Opaque("5"), []),
    Property("__static", Object([Property("c", Opaque("10"), [])]), [])]

  /** The worked members are of shapes the passes process. */
  lemma WorkedShaped(ms: seq<Property>)
    requires ms == WorkedMembers
    ensures ShapedMembers(ms) && ExprStmtsOnly(ms[1].value.body)
  {
    assert ms[1].value.body == [SuperX, SetA];
  }

  /** The worked declaration's header: it extends `Base`, and its constructor is the member's
      with the shared super call taking `x`. */
  lemma WorkedHeader()
    ensures var h := Header(Initial, "X", WorkedMembers);
      && h.className == Some("X") && h.superName == Some("Base") && h.ctor == Some(WorkedMembers[1])
      && h.ctorBody == [SharedSuper, SetA] && h.superArgs == [Ident("x")]
      && h.elements == [] && h.trailing == []
  {
    var ms := WorkedMembers;
    WorkedShaped(ms);
    var ps := Slots(ms);
    assert OnlyKeyAt(ps, "constructor", 1);
    assert LastKeyAt(ps, "__extends", 0);
    ConstructorMerge("X", ms);
    Superclass("X", ms);
    MergeCtorsKeeps(ps, Initial.(className := Some("X")));
    assert Merged([SuperX, SetA]) == [SharedSuper, SetA];
    assert SuperArgsAfter([SuperX, SetA], ForwardArgs) == [Ident("x")];
  }

  const WorkedRest: seq<Option<Property>> := [None, None, Some(Property("b", Opaque("5"), [])), None]

  /** After the first three passes only `b: 5` is left of the worked declaration. */
  lemma WorkedRemaining()
    ensures Remaining(WorkedMembers) == WorkedRest
  {
    SpecialsConsumed(WorkedMembers, []);
  }

  /** The worked declaration's properties pass: `b` is not assigned by the constructor, so
      `this.b = 5` is created and the constructor's own statements stay as they were. */
  lemma WorkedProperties()
    ensures Created(WorkedRest, [SharedSuper, SetA]) == [NewAssign(WorkedMembers[2])]
    ensures Recomment(WorkedRest, [SharedSuper, SetA]) == [SharedSuper, SetA]
    ensures MethodElements(WorkedRest) == []
  {
    var base := [SharedSuper, SetA];
    var rem := WorkedRest;
    assert FindAssign(base, "b") == -1;
    var r3 := rem[..3];
    var r2: seq<Option<Property>> := [None, None];
    assert r3[..2] == r2;
    NoDataNoChange(r2, base);
    assert Created(r3, base) == Created(r2, base) + [NewAssign(WorkedMembers[2])];
    assert Created(rem, base) == Created(r3, base);
    assert MethodElements(r2) == [] by {
      assert r2[..1] == [None];
    }
    assert MethodElements(r3) == MethodElements(r2);
    assert MethodElements(rem) == MethodElements(r3);
  }

  /** The worked declaration's statics pass: `c: 10` is hoisted as `X.c = 10`. */
  lemma WorkedStatics()
    ensures StaticElementsOf(AfterExtends(WorkedMembers)) == []
    ensures HoistedOf(AfterExtends(WorkedMembers), "X") == [ExprStmt(Assign(Dot(Ident("X"), "c"), Opaque("10"), []), [])]
  {
    assert OnlyKeyAt(Slots(WorkedMembers), "__static", 3);
    StaticsOfOne("X", WorkedMembers, 3);
    var cs := [Property("c", Opaque("10"), [])];
    assert cs[..0] == [];
    assert StaticMethods(cs) == [];
  }

  /** The worked declaration: the class extends `Base`; its constructor is the member with
      parameter `x`, and puts the created `this.b = 5` ahead of `super(x)`; it has no
      methods; `X.c = 10` follows the class. */
  lemma WorkedDeclaration(ms: seq<Property>)
    requires ms == WorkedMembers
    ensures var t := Transform(Initial, "X", ms);
      && t.className == Some("X")
      && t.superName == Some("Base")
      && CtorKept(t)
      && t.ctor == Some(ms[1])
      && ClassOf(t, true).ctor == Some(Ctor(["x"], ResolveAll(t.ctorBody, t.superArgs), []))
      && ResolveAll(t.ctorBody, t.superArgs)
         == [ExprStmt(Assign(Dot(This, "b"), Opaque("5"), []), []), ExprStmt(Call(SuperKw, [Ident("x")]), []), SetA]
      && t.elements == []
      && t.trailing == [ExprStmt(Assign(Dot(Ident("X"), "c"), Opaque("10"), []), [])]
  {
    WorkedHeader();
    var h := Header(Initial, "X", ms);
    WorkedMembersPass(h, ms);
    WorkedRendered(h.superArgs);
  }

  /** The statics, methods and properties passes of the worked declaration, from a header
      state whose constructor body is the member's and which has no elements yet. */
  lemma WorkedMembersPass(h: State, ms: seq<Property>)
    requires ms == WorkedMembers
    requires h.ctorBody == [SharedSuper, SetA] && h.elements == [] && h.trailing == []
    ensures Members(h, "X", ms)
         == h.(ctorBody := [NewAssign(WorkedMembers[2]), SharedSuper, SetA],
               trailing := [ExprStmt(Assign(Dot(Ident("X"), "c"), Opaque("10"), []), [])])
  {
    WorkedShaped(ms);
    WorkedRemaining();
    WorkedProperties();
    WorkedStatics();
    ApplyStaticsAppends(AfterExtends(ms), "X", h);
    var s3 := ApplyStatics(AfterExtends(ms), "X", h);
    assert s3 == h.(trailing := [ExprStmt(Assign(Dot(Ident("X"), "c"), Opaque("10"), []), [])]);
    assert s3.elements + MethodElements(Remaining(ms)) == [];
  }

  /** The worked constructor rendered with the shared node's arguments `x`. */
  lemma WorkedRendered(args: seq<Expr>)
    requires args == [Ident("x")]
    ensures ResolveAll([NewAssign(WorkedMembers[2]), SharedSuper, SetA], args)
         == [ExprStmt(Assign(Dot(This, "b"), Opaque("5"), []), []), ExprStmt(Call(SuperKw, [Ident("x")]), []), SetA]
  {
  }
}
