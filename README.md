# es6-class rewriter, modelled in Dafny

The es6-class tool rewrites a legacy class declaration, `const X = NS.defineClass('a.b.X', { ... })`,
into `module.exports = class X extends S { ... }`, followed by the hoisted static-property
assignments. The work happens in `processFile`. It fills in three node templates (the shared
`super(...arguments)` statement, the class body and the program holding the class) with a fixed
sequence of passes over the declaration's member list:

1. match the declaration;
2. merge the constructor;
3. read `__extends`;
4. expand `__static`;
5. append the instance methods;
6. place the data members in the constructor;
7. drop a one-statement constructor.

The model has four modules:

- `Ast` (`ast.dfy`): the closed subset of the syntax tree that the passes read and build. A node
  the passes never look into is opaque text, and comments are opaque strings on the nodes. The
  class slot and the shared `super(...)` node exist only in the rewrite: `ParsedItems` keeps the
  class slot out of a parsed module, and `ExprStmtsOnly` keeps the shared node out of a parsed
  constructor.
- `Passes` (`passes.dfy`): one pure function per pass. Each says what the templates hold after the
  pass, given the member slots it walks and the state before it. `Convert` is the whole rewrite of
  one parsed module.
- `Rewriter` (`rewriter.dfy`): the class `FileRewrite`. Its fields are the templates and the
  closure variables the source mutates: the module body, the class name, the superclass name, the
  shared super arguments, the constructor slot, the class body, the trailing statements and the
  member slots. Each pass is a method with a `while` loop that nulls out slots, appends, overwrites
  by index or splices, as the source does. Each method is proved to leave exactly the state the
  matching `Passes` function describes.
- `Facts` (`facts.dfy`): what the passes promise, proved about those functions. It covers the
  constructor merge, the superclass, the statics, the order of the class body, the consumed
  members, the property placement, the elision and the module scan. The scan walks the module by
  index while splicing out `module.exports` items, so the item after each is passed over;
  `Walked` and `Visited` read the same scan front to back, and `ScanIsWalk` proves the two agree.
  It closes with one worked declaration.

The shared `super(...)` node is the statement `SharedSuper`, and its arguments are a field of the
rewriter. Every merged `__super` statement is that one node, so all of them print with the
arguments of the last `__super` call, also across several declarations of one file. `Resolve`
turns the node into `super(args)` only when the class is rendered.

## Model

| member | source | states |
|---|---|---|
| Passes.Drop | es6-class/index.js:109 | after a pass nulls out one key, no slot holds that key, its slots are empty, and every other slot is unchanged |
| Passes.Merged | es6-class/index.js:101-105 | the merged constructor has the same length; each `X.__super(...)` statement is the shared node, and every other statement stays at its position |
| Passes.LastSuper | es6-class/index.js:101-103 | -1 exactly when no statement is a `__super` call; otherwise the index of the last one |
| Passes.FindAssign | es6-class/index.js:172-177 | -1 exactly when no statement assigns a member named `key`; otherwise the first index that does |
| Passes.FindAssignShape | es6-class/index.js:172-196 | moving comments between statements does not change what the search finds |
| Passes.ShapeKeepsAssign | es6-class/index.js:173-176 | whether a statement assigns a member does not depend on its comments |
| Passes.Recomment | es6-class/index.js:195-197 | the comment move leaves every statement of the constructor as it was, apart from its comments |
| Rewriter.FileRewrite.constructor | es6-class/index.js:8-76 | a fresh run holds the templates: class `Foo extends Bar`, constructor `super(...arguments)`, empty class body after it, no trailing statements, no class name |
| Rewriter.FileRewrite.Process | es6-class/index.js:81-206 | the walk leaves the body and templates the scan function describes, including the item skipped after each splice; the constructor stays exactly when its statement list does not have length 1; from fresh templates the output is `Convert` of the module |
| Rewriter.FileRewrite.RewriteDeclaration | es6-class/index.js:92-199 | all passes for one matched declaration leave the state `Transform` describes; the module body is untouched |
| Rewriter.FileRewrite.RewriteHeader | es6-class/index.js:92-119 | sets the class name to the binding; leaves the constructor and superclass `Header` describes, with the constructor and `__extends` slots nulled out |
| Rewriter.FileRewrite.RewriteMembers | es6-class/index.js:121-199 | the statics, methods and properties passes leave the state `Members` describes |
| Rewriter.FileRewrite.MergeStatements | es6-class/index.js:101-106 | the statements become `Merged`, and the shared node carries the arguments of the last `__super` call, or keeps its own when there is none |
| Rewriter.FileRewrite.MergeMember | es6-class/index.js:100-108 | one `constructor` member, merged, becomes the constructor in place, and the shared node takes its last `__super` arguments |
| Rewriter.FileRewrite.MergeConstructor | es6-class/index.js:99-111 | nulls out exactly the `constructor` slots; the last such member, merged, is the constructor in place |
| Rewriter.FileRewrite.FindExtends | es6-class/index.js:114-119 | nulls out exactly the `__extends` slots; the superclass is the name read from the last one, or stays as it was |
| Rewriter.FileRewrite.AddStaticEntries | es6-class/index.js:124-155 | appends the static methods of the function-valued entries to the class body and `ClassName.key = value` for the others after the class, in entry order |
| Rewriter.FileRewrite.EachStatic | es6-class/index.js:122-158 | nulls out exactly the `__static` slots and expands each of them in member order; nothing but the slots, the class body and the trailing statements changes |
| Rewriter.FileRewrite.EachMethod | es6-class/index.js:161-165 | appends each remaining function-valued member to the class body in member order; the slots are untouched |
| Rewriter.FileRewrite.PlaceProps | es6-class/index.js:168-199 | the constructor becomes the created assignments followed by its own statements with the comments moved |
| Facts.MergeCtorsKeeps | es6-class/index.js:99-111 | the constructor pass changes only the constructor, its body and the super arguments |
| Facts.MergeCtorsNone | es6-class/index.js:99-111 | without a `constructor` member the constructor pass changes nothing |
| Facts.MergeCtorsLast | es6-class/index.js:99-111 | the last `constructor` member is the one in place, merged over the state the earlier members left |
| Facts.ConstructorMerge | es6-class/index.js:99-111 | for one declaration: without a `constructor` member the constructor is `super(...arguments)`; with one, it is that member with its `__super` statements merged, and the shared node takes the last call's arguments |
| Facts.RenderedMerge | es6-class/index.js:101-105 | rendered, every `__super` statement is `super(args of the last __super call)`, and every other statement keeps its position |
| Facts.ExtendsNone | es6-class/index.js:114-119 | without an `__extends` slot the superclass is unchanged |
| Facts.ExtendsLast | es6-class/index.js:114-119 | the superclass is the name read from the last `__extends` slot |
| Facts.Superclass | es6-class/index.js:56-118 | for one declaration: without `__extends` the superclass is the template's `Bar`; otherwise it is the identifier of the last `__extends` value, and none when that value is not an identifier |
| Facts.ApplyStaticsAppends | es6-class/index.js:122-158 | the statics pass only appends, to the class body and after the class |
| Facts.StaticMethodsFrom | es6-class/index.js:126-137 | each function-valued static entry gives a static method with its key, value and comments, and every static method comes from one |
| Facts.StaticAssignsFrom | es6-class/index.js:138-153 | each other static entry gives `ClassName.key = value`, and every hoisted statement comes from one |
| Facts.StaticsInOrder | es6-class/index.js:124 | static methods and hoisted statements keep the entry order |
| Facts.MethodElementsFrom | es6-class/index.js:161-165 | every remaining function-valued member is an instance method, and every instance method is one |
| Facts.MethodsInOrder | es6-class/index.js:161-165 | the instance methods keep the member order |
| Facts.SpecialsConsumed | es6-class/index.js:109-170 | after the first three passes exactly the `constructor`, `__extends` and `__static` slots are empty, so none of them becomes an instance method or a created assignment |
| Facts.CreatedFrom | es6-class/index.js:169-194 | an assignment `this.key = value` is created for each data member the constructor does not assign, and only for those |
| Facts.CreatedInOrder | es6-class/index.js:169-199 | the created assignments keep the member order |
| Facts.EveryDataMemberAssigned | es6-class/index.js:168-199 | afterwards the constructor assigns every data member |
| Facts.CommentsOnShape | es6-class/index.js:196 | setting a statement's comments does not depend on the comments it had |
| Facts.CommentsKept | es6-class/index.js:195-197 | a statement that no data member finds keeps its comments |
| Facts.CommentsMoved | es6-class/index.js:195-197 | a statement found by data members carries the comments of the last of them |
| Facts.ClassNameIsBinding | es6-class/index.js:92-96 | after a matched declaration the class name is its binding name |
| Facts.ClassBodyOrder | es6-class/index.js:122-165 | after the constructor, the class body is the static methods of the `__static` members, then the remaining function-valued members; the hoisted statements follow the class |
| Facts.StaticsNone | es6-class/index.js:122-158 | without a `__static` slot there are no static methods and no hoisted statements |
| Facts.StaticsLast | es6-class/index.js:122-158 | the last `__static` slot contributes its static methods and hoisted statements after those of the earlier slots |
| Facts.StaticsOfOne | es6-class/index.js:122-158 | with one `__static` member, the static methods and hoisted statements are exactly its own |
| Facts.StaticSlotsKept | es6-class/index.js:109-117 | the constructor and extends passes leave the `__static` slots in place |
| Facts.OneStaticMember | es6-class/index.js:122-165 | with one `__static` member, the class body after the constructor is its static methods and then the instance methods, and its other entries follow the class |
| Facts.NoDataNoChange | es6-class/index.js:168-199 | without data members the properties pass leaves the constructor as it was |
| Facts.DefaultConstructorElided | es6-class/index.js:203-206 | a declaration with neither a `constructor` member nor data members keeps only `super(...arguments)`, so the constructor is removed |
| Facts.LoneStatementElided | es6-class/index.js:168-206 | in a declaration without data members, a `constructor` member with a single statement, an assignment or a lone `__super` call alike, is removed together with that statement, because the source checks only the length |
| Facts.NoDataKeepsCtor | es6-class/index.js:122-199 | without data members the statics, methods and properties passes leave the constructor and its statements as they were |
| Facts.ScanIsWalk | es6-class/index.js:81-96 | the index-based walk, which splices out each `module.exports` item and so passes over the item after it, is the front-to-back reading: from any index on, the items already walked stay and the rest is what `Walked` and `Visited` say |
| Facts.ScanOfModule | es6-class/index.js:81-96 | over the whole module, the scan leaves the items `Walked` lists and the templates `Visited` builds |
| Facts.OnlyDefineClassRewritten | es6-class/index.js:81-95 | for every module: each item of the scanned module is the class slot or an item of the input, and every input item that is neither a declaration whose callee property is `defineClass` nor a `module.exports` statement is kept |
| Facts.SlotOnlyFromMatch | es6-class/index.js:89-95 | a class slot appears in the scanned module only when some declaration's callee property is `defineClass` |
| Facts.EveryDeclarationVisited | es6-class/index.js:81-95 | without `module.exports` items nothing is passed over: the scanned module has the same length, each matching declaration is replaced in place by the class slot and every other item stays in place |
| Facts.VisitedKeepsState | es6-class/index.js:89-91 | without a matching declaration the templates are left as they were |
| Facts.VisitOneDeclaration | es6-class/index.js:81-199 | a single matching declaration that does not directly follow a `module.exports` statement is visited: a class slot appears and the templates hold all passes run for that declaration |
| Facts.ExportsSkipsNext | es6-class/index.js:81-87 | for any module: the item after a visited `module.exports` statement moves into its place unvisited, as it was, and adds nothing to the templates |
| Facts.ExportsHidesNextItem | es6-class/index.js:81-87 | so in the module `module.exports = e` followed by a `defineClass` declaration, the declaration is not rewritten and nothing is produced |
| Facts.EmitInOrder | es6-class/index.js:208-211 | the module is printed item by item: the output of two concatenated parts is the output of the first followed by that of the second |
| Facts.EmitOne | es6-class/index.js:40-66 | a class slot prints `module.exports = class ...` followed by the hoisted statements; any other item prints as it was |
| Facts.SingleDeclaration | es6-class/index.js:81-206 | a module with one matching declaration, not directly after a `module.exports` statement and with `module.exports` items anywhere else, prints the class built from it, named after its binding, in place of its class slot, with the other items as the walk leaves them |
| Facts.DeclarationThenExports | es6-class/index.js:81-206 | the usual file, the declaration followed by `module.exports = X`: the export is removed and only the class and the hoisted statements are printed |
| Facts.NoDeclarationNoOutput | es6-class/index.js:76-91 | for every module, with or without `module.exports` items: without a matching declaration nothing is produced |
| Facts.WorkedHeader | es6-class/index.js:99-119 | for `{ __extends: Base, constructor(x) { X.__super(x); this.a = x }, b: 5, __static: { c: 10 } }` the class extends `Base`, the constructor is the `constructor` member with its `__super` call merged, and the shared node takes `x` |
| Facts.WorkedRemaining | es6-class/index.js:109-158 | in the same declaration only `b: 5` is left after the constructor, extends and statics passes |
| Facts.WorkedStatics | es6-class/index.js:122-158 | in the same declaration the statics pass adds no static method and hoists `X.c = 10` |
| Facts.WorkedProperties | es6-class/index.js:161-199 | in the same declaration, `b: 5` creates `this.b = 5`; the constructor's own statements are untouched, and there are no methods |
| Facts.WorkedMembersPass | es6-class/index.js:122-199 | the statics, methods and properties passes put `this.b = 5` ahead of the constructor's statements and `X.c = 10` after the class, and change nothing else |
| Facts.WorkedDeclaration | es6-class/index.js:81-206 | the same declaration gives class `X` extending `Base`, whose kept constructor is the `constructor` member with parameter `x` and renders as `{ this.b = 5; super(x); this.a = x }`; it has no methods and `X.c = 10` follows the class |

## Left out

- Reading the file, replacing tabs, parsing, attaching comments, generating and formatting code,
  the regular-expression clean-up and printing the result (es6-class/index.js:68-78, 208-234).
  These are I/O and calls into parser and printer libraries. The model starts from the parsed
  top-level items and ends with the output items.
- The command-line glob loop (es6-class/index.js:239-249): file discovery and callbacks.
- publish/index.js is not part of this model. It is made of directory scanning, prompts, file
  rewrites and `git`/`npm` commands.
- Node shapes on which the source throws are excluded by preconditions, not modelled as errors
  (`ShapedItems`, `ShapedMembers`). These are:
  - a declaration whose initialiser has no callee (a literal, a member access, a missing initialiser);
  - a `constructor` member whose value has no block body (an arrow function with an expression body, a literal);
  - a constructor statement that is not an expression statement;
  - a `__static` value that is not an object literal;
  - a `defineClass` call without an object literal as its second argument.
- Shapes the source accepts but the model does not represent:
  - a `new` expression as initialiser (`new NS.defineClass(...)`, `new Foo()`): the source reads
    its callee like a call's, so the first is rewritten and the second passed over; `ShapedItem`
    admits only calls;
  - an arrow function with a block body as `constructor` value: the source merges its
    statements like a function expression's; `ShapedMember` admits only function expressions;
  - a declaration with several declarators: the source inspects only the first
    (es6-class/index.js:89-93), and when it matches, the whole declaration, later declarators
    included, is replaced by the class; `VarDecl` holds one binding.
- Rewriter.FileRewrite.Process: the shape preconditions also cover items after a splice, which the source never visits
  and so would not throw on. This is stronger than the source needs.
- A top-level assignment whose left side is not a member expression makes the source throw while
  it looks for `module.exports` (es6-class/index.js:83). The model treats such statements as
  opaque items.
- Member keys are identifier names, written `b: v` or `[b]: v` alike, as the source reads only
  the key's `.name`. String-literal keys and other computed keys, whose `.name` the source reads
  as undefined, are not modelled.
- `Dot` does not keep whether a member access is computed. The source never reads that flag, so
  `this[b] = v` in a constructor, `X[__super](x)`, `module[exports] = X` and `NS[defineClass](...)`
  are read like their dotted forms, and the model reads them the same way. The nodes the source
  copies into its output keep their own flag when printed; the model's output does not show it.
- Method bodies, argument expressions and member values are opaque. No pass looks into them,
  except the constructor statements and the `__static` object.
- Several richer behaviours are absent from the source, which the model follows:
  - a `super(...)` call is not moved to the front of the constructor (new assignments go ahead of it);
  - there is no deferred-initialisation method;
  - a dotted `__extends` value gives no name;
  - `__super` calls inside ordinary methods are not rewritten;
  - static properties carry no comments;
  - the constructor is dropped by statement count, not by content.
- `Rewriter.FileRewrite` keeps the module body and the templates as sequences. It does not
  capture JavaScript object identity beyond the shared `super(...)` node. When a file holds two
  `defineClass` declarations, both class slots print the same class, which the model captures
  because `Emit` prints the one class at every slot.
