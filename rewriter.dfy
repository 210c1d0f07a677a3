/** One run of the rewriter over a parsed module, as the source performs it: the templates
    are objects whose fields the passes overwrite, the member list of a matched declaration
    is an array whose slots the passes null out, and the module body is an array that the
    scan splices while it walks it. */
module Rewriter {
  import opened Ast
  import opened Passes

  class FileRewrite {
    /** The module's top-level statements. */
    var body: seq<TopItem>
    /** The class name found, None until a declaration matches. */
    var className: Option<string>
    /** The template class's superclass identifier; None when set from a value that has no name. */
    var superName: Option<string>
    /** The arguments of the one shared `super(...)` node. */
    var superArgs: seq<Expr>
    /** The constructor member in the class body's first slot, None while it holds the template. */
    var ctor: Option<Property>
    /** The statements of the constructor in the first slot. */
    var ctorBody: seq<Stmt>
    /** Whether the first slot of the class body is still there. */
    var ctorKept: bool
    /** The class body after its first slot. */
    var elements: seq<ClassElement>
    /** The statements placed after the class statement. */
    var trailing: seq<Stmt>
    /** The member slots of the declaration being transformed. */
    var props: seq<Option<Property>>

    function Snapshot(): State
      reads this
    {
      State(className, superName, superArgs, ctor, ctorBody, elements, trailing)
    }

    /** The output the run has built: nothing when no class name was found. */
    function Output(): Option<seq<OutItem>>
      reads this
    {
      if className.None? then None
      else Some(Emit(body, ClassOf(Snapshot(), ctorKept), trailing))
    }

    /** The templates, freshly declared, and the parsed module. */
    constructor (items: seq<TopItem>)
      ensures body == items && Snapshot() == Initial && ctorKept && props == []
    {
      body := items;
      className := None;
      superName := Some(TemplateSuper);
      superArgs := ForwardArgs;
      ctor := None;
      ctorBody := [SharedSuper];
      ctorKept := true;
      elements := [];
      trailing := [];
      props := [];
    }

    /** Walks the module body, transforming each matched declaration, then drops the
        constructor when it has a single statement. */
    method Process()
      requires ParsedItems(body)
      modifies this
      ensures var sc := ScanFrom(old(body), 0, |old(body)|, old(Snapshot()));
        body == sc.body && Snapshot() == sc.state
      ensures ctorKept == (old(ctorKept) && CtorKept(Snapshot()))
      ensures old(Snapshot()) == Initial && old(ctorKept) ==> Output() == Convert(old(body))
    {
      var n := |body|;
      var a := 0;
      while a < n
        invariant a <= n
        invariant ShapedItems(body)
        invariant ScanFrom(body, a, n, Snapshot()) == ScanFrom(old(body), 0, n, old(Snapshot()))
        invariant ctorKept == old(ctorKept)
      {
        if a < |body| {
          var item := body[a];
          if item.ExportsAssign? {
            body := body[..a] + body[a + 1..];
          } else if item.VarDecl? && IsDefineClass(item.init) {
            body := body[a := ClassSlot];
            RewriteDeclaration(item.binding, item.init.args[1].entries);
          }
        }
        a := a + 1;
      }
      if |ctorBody| == 1 {
        ctorKept := false;
      }
    }

    /** All passes for one matched declaration, in the source's order. */
    method RewriteDeclaration(binding: string, ms: seq<Property>)
      requires ShapedMembers(ms)
      modifies this
      ensures Snapshot() == Transform(old(Snapshot()), binding, ms)
      ensures body == old(body) && ctorKept == old(ctorKept)
    {
      RewriteHeader(binding, ms);
      RewriteMembers(binding, ms);
    }

    /** The class name, the constructor and the superclass. */
    method RewriteHeader(binding: string, ms: seq<Property>)
      requires ShapedMembers(ms)
      modifies this
      ensures Snapshot() == Header(old(Snapshot()), binding, ms)
      ensures props == AfterExtends(ms) && className == Some(binding)
      ensures body == old(body) && ctorKept == old(ctorKept)
    {
      className := Some(binding);
      props := Slots(ms);
      ghost var named := Snapshot();
      assert named == old(Snapshot()).(className := Some(binding));
      MergeConstructor();
      ghost var merged := Snapshot();
      assert merged == MergeCtors(Slots(ms), named);
      FindExtends();
      assert Snapshot() == merged.(superName := ExtendsName(Drop(Slots(ms), "constructor"), merged.superName));
    }

    /** The statics, the methods and the properties. */
    method RewriteMembers(binding: string, ms: seq<Property>)
      requires ShapedMembers(ms)
      requires props == AfterExtends(ms) && className == Some(binding)
      modifies this
      ensures Snapshot() == Members(old(Snapshot()), binding, ms)
      ensures body == old(body) && ctorKept == old(ctorKept)
    {
      EachStatic();
      EachMethod();
      PlaceProps();
    }

    /** Merges the constructor statements of one `constructor` member: each `__super`
        call statement becomes the shared node, which takes that call's arguments. */
    method MergeStatements(stmts: seq<Stmt>) returns (merged: seq<Stmt>)
      modifies this`superArgs
      ensures merged == Merged(stmts)
      ensures superArgs == SuperArgsAfter(stmts, old(superArgs))
    {
      merged := stmts;
      var k := 0;
      while k < |merged|
        invariant k <= |merged| == |stmts|
        invariant forall j :: 0 <= j < k ==> merged[j] == if IsSuperCall(stmts[j]) then SharedSuper else stmts[j]
        invariant forall j :: k <= j < |stmts| ==> merged[j] == stmts[j]
        invariant superArgs == SuperArgsAfter(stmts[..k], old(superArgs))
      {
        assert stmts[..k + 1][..k] == stmts[..k];
        if IsSuperCall(merged[k]) {
          superArgs := merged[k].expr.args;
          merged := merged[k := SharedSuper];
        }
        k := k + 1;
      }
      assert stmts[..k] == stmts;
    }

    /** One `constructor` member merged and put in the class body's first slot. */
    method MergeMember(p: Property)
      requires p.value.Function? && ExprStmtsOnly(p.value.body)
      modifies this`superArgs, this`ctorBody, this`ctor
      ensures Snapshot() == MergeCtor(p, old(Snapshot()))
    {
      var merged := MergeStatements(p.value.body);
      ctorBody := merged;
      ctor := Some(p);
    }

    /** The constructor pass. */
    method MergeConstructor()
      requires ShapedSlots(props)
      modifies this`props, this`superArgs, this`ctorBody, this`ctor
      ensures props == Drop(old(props), "constructor")
      ensures Snapshot() == MergeCtors(old(props), old(Snapshot()))
    {
      var i := 0;
      while i < |props|
        invariant i <= |props| == |old(props)|
        invariant forall j :: 0 <= j < i ==> props[j] == if KeyIs(old(props)[j], "constructor") then None else old(props)[j]
        invariant forall j :: i <= j < |props| ==> props[j] == old(props)[j]
        invariant Snapshot() == MergeCtors(old(props)[..i], old(Snapshot()))
      {
        MergeCtorsStep(old(props), old(Snapshot()), i);
        var slot := props[i];
        if slot.Some? && slot.value.key == "constructor" {
          MergeMember(slot.value);
          props := props[i := None];
        }
        i := i + 1;
      }
      assert old(props)[..i] == old(props);
    }

    /** The extends pass. */
    method FindExtends()
      modifies this`props, this`superName
      ensures props == Drop(old(props), "__extends")
      ensures superName == ExtendsName(old(props), old(superName))
    {
      var i := 0;
      while i < |props|
        invariant i <= |props| == |old(props)|
        invariant forall j :: 0 <= j < i ==> props[j] == if KeyIs(old(props)[j], "__extends") then None else old(props)[j]
        invariant forall j :: i <= j < |props| ==> props[j] == old(props)[j]
        invariant superName == ExtendsName(old(props)[..i], old(superName))
      {
        assert old(props)[..i + 1][..i] == old(props)[..i];
        var slot := props[i];
        if slot.Some? && slot.value.key == "__extends" {
          superName := NameOf(slot.value.value);
          props := props[i := None];
        }
        i := i + 1;
      }
      assert old(props)[..i] == old(props);
    }

    /** The entries of one `__static` object: function values become static methods at
        the end of the class body, the others `ClassName.key = value` after the class. */
    method AddStaticEntries(es: seq<Property>, name: string)
      modifies this`elements, this`trailing
      ensures elements == old(elements) + StaticMethods(es)
      ensures trailing == old(trailing) + StaticAssigns(name, es)
    {
      var j := 0;
      while j < |es|
        invariant j <= |es|
        invariant elements == old(elements) + StaticMethods(es[..j])
        invariant trailing == old(trailing) + StaticAssigns(name, es[..j])
      {
        assert es[..j + 1][..j] == es[..j];
        var e := es[j];
        if e.value.Function? {
          elements := elements + [StaticMethod(e.key, e.value, e.comments)];
        } else {
          trailing := trailing + [StaticAssign(name, e)];
        }
        j := j + 1;
      }
      assert es[..j] == es;
    }

    /** The statics pass. */
    method EachStatic()
      requires ShapedSlots(props) && className.Some?
      modifies this`props, this`elements, this`trailing
      ensures props == Drop(old(props), "__static")
      ensures Snapshot() == ApplyStatics(old(props), className.value, old(Snapshot()))
    {
      var i := 0;
      while i < |props|
        invariant i <= |props| == |old(props)|
        invariant forall j :: 0 <= j < i ==> props[j] == if KeyIs(old(props)[j], "__static") then None else old(props)[j]
        invariant forall j :: i <= j < |props| ==> props[j] == old(props)[j]
        invariant Snapshot() == ApplyStatics(old(props)[..i], className.value, old(Snapshot()))
      {
        assert old(props)[..i + 1][..i] == old(props)[..i];
        var slot := props[i];
        if slot.Some? && slot.value.key == "__static" {
          AddStaticEntries(slot.value.value.entries, className.value);
          props := props[i := None];
        }
        i := i + 1;
      }
      assert old(props)[..i] == old(props);
    }

    /** The methods pass: the slots stay as they are. */
    method EachMethod()
      modifies this`elements
      ensures elements == old(elements) + MethodElements(props)
    {
      var i := 0;
      while i < |props|
        invariant i <= |props|
        invariant elements == old(elements) + MethodElements(props[..i])
      {
        assert props[..i + 1][..i] == props[..i];
        if IsMethodSlot(props[i]) {
          elements := elements + [InstanceMethod(props[i].value)];
        }
        i := i + 1;
      }
      assert props[..i] == props;
    }

    /** The properties pass: builds the assignments for the data members the constructor
        does not assign yet (moving the comments of the others onto the existing
        assignment), then puts them in front of the constructor body. */
    method PlaceProps()
      modifies this`ctorBody
      ensures ctorBody == Created(props, old(ctorBody)) + Recomment(props, old(ctorBody))
    {
      ghost var base := ctorBody;
      var created: seq<Stmt> := [];
      var i := 0;
      while i < |props|
        invariant i <= |props|
        invariant created == Created(props[..i], base)
        invariant ctorBody == Recomment(props[..i], base)
      {
        assert props[..i + 1][..i] == props[..i];
        var slot := props[i];
        if IsDataSlot(slot) {
          FindAssignShape(ctorBody, base, slot.value.key);
          var index := FindAssign(ctorBody, slot.value.key);
          if index == -1 {
            created := created + [NewAssign(slot.value)];
          } else {
            ctorBody := ctorBody[index := WithComments(ctorBody[index], slot.value.comments)];
          }
        }
        i := i + 1;
      }
      assert props[..i] == props;
      ctorBody := created + ctorBody;
    }
  }
}
