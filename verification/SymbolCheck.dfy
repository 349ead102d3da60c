/**
 The symbol table of the answer checker (eco/ei_check.py): which attributes a class has, judged over
 all its bases, and when a dotted name may be reported as wrong.
 */
module SymbolCheck {
  import opened Collections

  type Name = string

  datatype Entry = Entry(home: Name, bases: seq<Name>, methods: set<Name>, attrs: set<Name>,
                         components: map<Name, Option<Name>>, unknowable: bool, decorators: seq<Name>)

  datatype Decorator = Decorator(names: set<Name>, unknowable: bool)

  datatype Symbols = Symbols(classes: map<Name, seq<Entry>>, functions: set<Name>, decorators: map<Name, Decorator>,
                             modules: map<Name, set<Name>>)

  /** Base classes that add nothing. */
  const PLAIN_BASES: set<Name> := {"object", "Protocol", "Generic", "ABC"}

  // ---------------------------------------------------------------- what is reachable

  predicate Found(s: Symbols, name: Name) { name !in PLAIN_BASES && name in s.classes && s.classes[name] != [] }

  function BasesOf(entries: seq<Entry>): set<Name> { set e, b | e in entries && b in e.bases :: b }

  /** The names a class leads to: the bases of every entry of that name. */
  function Bases(s: Symbols, name: Name): set<Name> { if Found(s, name) then BasesOf(s.classes[name]) else {} }

  ghost predicate Chain(s: Symbols, path: seq<Name>) {
    path != [] && forall i :: 0 <= i < |path| - 1 ==> path[i + 1] in Bases(s, path[i])
  }

  ghost predicate Reaches(s: Symbols, cls: Name, name: Name) {
    exists path :: Chain(s, path) && path[0] == cls && path[|path| - 1] == name
  }

  /** An entry of a reachable class. */
  ghost predicate Judged(s: Symbols, cls: Name, e: Entry) {
    exists name :: Reaches(s, cls, name) && Found(s, name) && e in s.classes[name]
  }

  predicate SuppliedByDecorator(s: Symbols, e: Entry, attr: Name) {
    exists d :: d in e.decorators && d in s.decorators && attr in s.decorators[d].names
  }

  predicate SuppliedBy(s: Symbols, e: Entry, attr: Name) {
    attr in e.methods || attr in e.components || attr in e.attrs || SuppliedByDecorator(s, e, attr)
  }

  /** Some reachable class or one of its decorators has the attribute. */
  ghost predicate Supplied(s: Symbols, cls: Name, attr: Name) {
    exists e :: Judged(s, cls, e) && SuppliedBy(s, e, attr)
  }

  predicate EntryUnknowable(s: Symbols, e: Entry) {
    e.unknowable || exists d :: d in e.decorators && d in s.decorators && s.decorators[d].unknowable
  }

  /** Something reachable is dynamic, outside the table or dynamically decorated. */
  ghost predicate BeyondJudging(s: Symbols, cls: Name) {
    || (exists name :: Reaches(s, cls, name) && name !in PLAIN_BASES && !Found(s, name))
    || (exists e :: Judged(s, cls, e) && EntryUnknowable(s, e))
  }

  lemma ReachesSelf(s: Symbols, cls: Name)
    ensures Reaches(s, cls, cls)
  {
    assert Chain(s, [cls]) && [cls][0] == cls && [cls][|[cls]| - 1] == cls;
  }

  lemma ReachesBase(s: Symbols, cls: Name, name: Name, base: Name)
    requires Reaches(s, cls, name) && base in Bases(s, name)
    ensures Reaches(s, cls, base)
  {
    var path :| Chain(s, path) && path[0] == cls && path[|path| - 1] == name;
    var longer := path + [base];
    assert Chain(s, longer) && longer[0] == cls && longer[|longer| - 1] == base;
  }

  lemma {:induction false} ClosedHasAllReachable(s: Symbols, closed: set<Name>, path: seq<Name>)
    requires Chain(s, path) && path[0] in closed
    requires forall n :: n in closed ==> Bases(s, n) <= closed
    ensures path[|path| - 1] in closed
  {
    if |path| > 1 {
      assert path[1] in Bases(s, path[0]);
      var rest := path[1..];
      forall i | 0 <= i < |rest| - 1 ensures rest[i + 1] in Bases(s, rest[i]) {
        assert path[i + 2] in Bases(s, path[i + 1]);
      }
      ClosedHasAllReachable(s, closed, rest);
    }
  }

  // ---------------------------------------------------------------- the worklist

  function Flatten(s: Symbols, names: seq<Name>): seq<Entry>
    requires forall n :: n in names ==> Found(s, n)
  {
    if names == [] then []
    else
      assert names[|names| - 1] in names && Found(s, names[|names| - 1]);
      Flatten(s, names[..|names| - 1]) + s.classes[names[|names| - 1]]
  }

  ghost function AllNames(s: Symbols, cls: Name): set<Name> {
    {cls} + set n, e, b | n in s.classes && e in s.classes[n] && b in e.bases :: b
  }

  ghost predicate NoRepeats(names: seq<Name>) {
    forall i, j :: 0 <= i < j < |names| ==> names[i] != names[j]
  }

  ghost function SetOf(names: seq<Name>): set<Name> { set n | n in names }

  /** The reachable names found so far and those still to look at. */
  ghost predicate WorkOk(s: Symbols, cls: Name, seen: set<Name>, todo: seq<Name>) {
    && (forall n :: n in seen || n in todo ==> Reaches(s, cls, n) && n in AllNames(s, cls))
    && (forall n, b :: n in seen && b in Bases(s, n) ==> b in seen || b in todo)
    && (cls in seen || cls in todo)
  }

  ghost predicate SeenUnknowable(s: Symbols, seen: set<Name>) {
    exists n :: n in seen && NameUnknowable(s, n)
  }

  lemma BasesInAllNames(s: Symbols, cls: Name, name: Name)
    ensures Bases(s, name) <= AllNames(s, cls)
  {
  }

  lemma FinishedWork(s: Symbols, cls: Name, seen: set<Name>)
    requires WorkOk(s, cls, seen, [])
    ensures forall n :: n in seen <==> Reaches(s, cls, n)
    ensures SeenUnknowable(s, seen) <==> BeyondJudging(s, cls)
  {
    forall n ensures n in seen <==> Reaches(s, cls, n) {
      if Reaches(s, cls, n) {
        var path :| Chain(s, path) && path[0] == cls && path[|path| - 1] == n;
        ClosedHasAllReachable(s, seen, path);
      }
    }
    if SeenUnknowable(s, seen) {
      var n :| n in seen && NameUnknowable(s, n);
      if Found(s, n) {
        var e :| e in s.classes[n] && EntryUnknowable(s, e);
        assert Judged(s, cls, e);
      }
    }
  }

  /** Look at one entry of a class. */
  method LookAt(s: Symbols, e: Entry) returns (unknowable: bool)
    ensures unknowable <==> EntryUnknowable(s, e)
  {
    unknowable := e.unknowable;
    for i := 0 to |e.decorators|
      invariant unknowable <==> e.unknowable || exists d :: d in e.decorators[..i] && d in s.decorators && s.decorators[d].unknowable
    {
      var d := e.decorators[i];
      assert e.decorators[..i + 1] == e.decorators[..i] + [d];
      if d in s.decorators && s.decorators[d].unknowable { unknowable := true; }
    }
    assert e.decorators[..|e.decorators|] == e.decorators;
  }

  /** Look at all entries of one name: the bases they add and whether one is unknowable. */
  method LookAtAll(s: Symbols, found: seq<Entry>) returns (bases: seq<Name>, unknowable: bool)
    ensures SetOf(bases) == BasesOf(found)
    ensures unknowable <==> exists e :: e in found && EntryUnknowable(s, e)
  {
    bases, unknowable := [], false;
    for i := 0 to |found|
      invariant SetOf(bases) == BasesOf(found[..i])
      invariant unknowable <==> exists e :: e in found[..i] && EntryUnknowable(s, e)
    {
      assert found[..i + 1] == found[..i] + [found[i]];
      var u := LookAt(s, found[i]);
      unknowable := unknowable || u;
      assert SetOf(bases + found[i].bases) == SetOf(bases) + SetOf(found[i].bases);
      assert BasesOf(found[..i + 1]) == BasesOf(found[..i]) + SetOf(found[i].bases);
      bases := bases + found[i].bases;
    }
    assert found[..|found|] == found;
  }

  /** Taking a name off the list and adding the names it leads to keeps the work in order. */
  lemma WorkGoesOn(s: Symbols, cls: Name, seen: set<Name>, todo: seq<Name>, name: Name, bases: seq<Name>)
    requires WorkOk(s, cls, seen, todo + [name])
    requires SetOf(bases) == Bases(s, name) || (bases == [] && name in seen)
    ensures WorkOk(s, cls, seen + {name}, todo + bases)
  {
    assert name in todo + [name];
    forall b | b in bases ensures Reaches(s, cls, b) && b in AllNames(s, cls) {
      assert b in SetOf(bases);
      ReachesBase(s, cls, name, b);
      BasesInAllNames(s, cls, name);
    }
    forall n, b | n in seen + {name} && b in Bases(s, n) ensures b in seen + {name} || b in todo + bases {
      if n in seen {
        assert b in seen || b in todo + [name];
      } else {
        assert b in SetOf(bases);
      }
    }
  }

  /** Whether a name makes the answer unknowable. */
  ghost predicate NameUnknowable(s: Symbols, name: Name) {
    name !in PLAIN_BASES && (!Found(s, name) || exists e :: e in s.classes[name] && EntryUnknowable(s, e))
  }

  /** What looking at one name gives: the entries of its class, the names they lead to, and whether it
      makes the answer unknowable. */
  method LookAtName(s: Symbols, name: Name) returns (found: seq<Entry>, bases: seq<Name>, unknowable: bool)
    ensures Found(s, name) ==> found == s.classes[name]
    ensures !Found(s, name) ==> found == []
    ensures SetOf(bases) == Bases(s, name)
    ensures unknowable <==> NameUnknowable(s, name)
  {
    found, bases, unknowable := [], [], false;
    if name in PLAIN_BASES { return; }
    if name !in s.classes || s.classes[name] == [] {
      unknowable := true;
      return;
    }
    found := s.classes[name];
    bases, unknowable := LookAtAll(s, found);
  }

  /** `order` has the known classes among the names seen, each once. */
  ghost predicate Visited(s: Symbols, seen: set<Name>, order: seq<Name>) {
    NoRepeats(order) && forall n :: n in order <==> n in seen && Found(s, n)
  }

  lemma {:induction false} NameVisited(s: Symbols, seen: set<Name>, order: seq<Name>, name: Name)
    requires Visited(s, seen, order) && name !in seen
    ensures if Found(s, name) then
              Visited(s, seen + {name}, order + [name]) && Flatten(s, order + [name]) == Flatten(s, order) + s.classes[name]
            else Visited(s, seen + {name}, order)
  {
    assert (order + [name])[..|order|] == order;
  }

  lemma UnknowableWith(s: Symbols, seen: set<Name>, name: Name)
    ensures SeenUnknowable(s, seen + {name}) <==> SeenUnknowable(s, seen) || NameUnknowable(s, name)
  {
    assert NameUnknowable(s, name) ==> name in seen + {name};
    forall n | n in seen && NameUnknowable(s, n) ensures SeenUnknowable(s, seen + {name}) { assert n in seen + {name}; }
  }

  /** Every class entry `cls` stands for, with its bases, and whether anything in it is beyond judging.
      `order` lists the classes in the order visited. */
  method Mro(s: Symbols, cls: Name) returns (entries: seq<Entry>, unknowable: bool, ghost order: seq<Name>)
    ensures NoRepeats(order) && forall n :: n in order <==> Reaches(s, cls, n) && Found(s, n)
    ensures entries == Flatten(s, order)
    ensures unknowable <==> BeyondJudging(s, cls)
  {
    var seen: set<Name>, todo := {}, [cls];
    entries, unknowable, order := [], false, [];
    ReachesSelf(s, cls);
    while todo != []
      invariant WorkOk(s, cls, seen, todo)
      invariant Visited(s, seen, order) && entries == Flatten(s, order)
      invariant unknowable <==> SeenUnknowable(s, seen)
      decreases AllNames(s, cls) - seen, |todo|
    {
      var name := todo[|todo| - 1];
      assert name in todo && todo == todo[..|todo| - 1] + [name];
      todo := todo[..|todo| - 1];
      if name in seen {
        WorkGoesOn(s, cls, seen, todo, name, []);
        assert seen + {name} == seen && todo + [] == todo;
        continue;
      }
      var found, bases, u := LookAtName(s, name);
      WorkGoesOn(s, cls, seen, todo, name, bases);
      NameVisited(s, seen, order, name);
      UnknowableWith(s, seen, name);
      seen, todo := seen + {name}, todo + bases;
      unknowable := unknowable || u;
      if found != [] {
        entries := entries + found;
        order := order + [name];
      }
    }
    FinishedWork(s, cls, seen);
  }

  lemma {:induction false} FlattenMember(s: Symbols, names: seq<Name>, e: Entry)
    requires forall n :: n in names ==> Found(s, n)
    ensures e in Flatten(s, names) <==> exists n :: n in names && e in s.classes[n]
  {
    if names != [] {
      var front, last := names[..|names| - 1], names[|names| - 1];
      assert names == front + [last];
      FlattenMember(s, front, e);
    }
  }

  lemma {:induction false} EntriesAreJudged(s: Symbols, cls: Name, order: seq<Name>, e: Entry)
    requires forall n :: n in order <==> Reaches(s, cls, n) && Found(s, n)
    ensures e in Flatten(s, order) <==> Judged(s, cls, e)
  {
    FlattenMember(s, order, e);
  }

  // ---------------------------------------------------------------- attributes

  /** What `attribute` answers: not to be judged, not there, or there -- as a method, as a component of a
      class (if its class is known), or as something else. */
  datatype Answer = Unknown | Missing | Method | Component(cls: Option<Name>) | Plain

  predicate Present(a: Answer) { a.Method? || a.Component? || a.Plain? }

  /** What an entry that has the attribute says about it: methods come before components, and these
      before anything else. */
  ghost predicate SaidBy(s: Symbols, e: Entry, attr: Name, a: Answer) {
    && SuppliedBy(s, e, attr) && Present(a)
    && (a.Method? <==> attr in e.methods)
    && (a.Component? <==> attr !in e.methods && attr in e.components)
    && (a.Component? ==> a.cls == e.components[attr])
  }

  /** What one entry says about the attribute. */
  method AttributeOf(s: Symbols, e: Entry, attr: Name) returns (a: Answer)
    ensures if SuppliedBy(s, e, attr) then SaidBy(s, e, attr, a) else a == Unknown
  {
    if attr in e.methods { return Method; }
    if attr in e.components { return Component(e.components[attr]); }
    if attr in e.attrs { return Plain; }
    for i := 0 to |e.decorators|
      invariant forall d :: d in e.decorators[..i] && d in s.decorators ==> attr !in s.decorators[d].names
    {
      var d := e.decorators[i];
      if d in s.decorators && attr in s.decorators[d].names { return Plain; }
      assert e.decorators[..i + 1] == e.decorators[..i] + [d];
    }
    assert e.decorators[..|e.decorators|] == e.decorators;
    a := Unknown;
  }

  /** What the first entry that has the attribute says. */
  method FirstAnswer(s: Symbols, entries: seq<Entry>, attr: Name) returns (a: Answer)
    ensures a == Unknown <==> forall e :: e in entries ==> !SuppliedBy(s, e, attr)
    ensures a != Unknown ==> exists e :: e in entries && SaidBy(s, e, attr, a)
  {
    for i := 0 to |entries|
      invariant forall e :: e in entries[..i] ==> !SuppliedBy(s, e, attr)
    {
      a := AttributeOf(s, entries[i], attr);
      assert entries[i] in entries;
      if a != Unknown { return; }
      assert entries[..i + 1] == entries[..i] + [entries[i]];
    }
    assert entries[..|entries|] == entries;
    a := Unknown;
  }

  ghost predicate Said(s: Symbols, cls: Name, attr: Name, a: Answer) {
    exists e :: Judged(s, cls, e) && SaidBy(s, e, attr, a)
  }

  /** Whether a class has an attribute. "Missing" is answered only when no reachable class and no
      decorator of one has it and nothing reachable is beyond judging; "present" exactly when one has it. */
  method Attribute(s: Symbols, cls: Name, attr: Name) returns (a: Answer)
    ensures Present(a) <==> Supplied(s, cls, attr)
    ensures a == Missing <==> Found(s, cls) && !Supplied(s, cls, attr) && !BeyondJudging(s, cls)
    ensures Present(a) ==> Said(s, cls, attr, a)
  {
    var entries, unknowable, order := Mro(s, cls);
    forall e ensures e in entries <==> Judged(s, cls, e) { EntriesAreJudged(s, cls, order, e); }
    NothingWithoutClass(s, cls);
    if entries == [] { return Unknown; }
    assert entries[0] in entries;
    a := FirstAnswer(s, entries, attr);
    if a == Unknown && !unknowable { a := Missing; }
  }

  /** A class that is not in the table, or is a plain base, leads nowhere. */
  lemma NothingWithoutClass(s: Symbols, cls: Name)
    ensures Found(s, cls) <==> exists e :: Judged(s, cls, e)
  {
    if Found(s, cls) {
      ReachesSelf(s, cls);
      assert Judged(s, cls, s.classes[cls][0]);
    } else {
      forall name | Reaches(s, cls, name) ensures name == cls {
        var path :| Chain(s, path) && path[0] == cls && path[|path| - 1] == name;
        if |path| > 1 { FirstStep(s, path); }
      }
    }
  }

  lemma FirstStep(s: Symbols, path: seq<Name>)
    requires Chain(s, path) && |path| > 1
    ensures Found(s, path[0]) && path[1] in Bases(s, path[0])
  {
    assert path[0 + 1] in Bases(s, path[0]);
  }

  predicate Dunder(n: Name) { |n| >= 2 && n[0] == '_' && n[1] == '_' }

  /** The members offered for a class: everything a reachable class or decorator supplies, without
      double-underscore names. */
  method Members(s: Symbols, cls: Name) returns (out: set<Name>)
    ensures forall n :: n in out <==> Supplied(s, cls, n) && !Dunder(n)
  {
    var entries, unknowable, order := Mro(s, cls);
    forall e ensures e in entries <==> Judged(s, cls, e) { EntriesAreJudged(s, cls, order, e); }
    out := {};
    for i := 0 to |entries|
      invariant forall n :: n in out <==> exists e :: e in entries[..i] && SuppliedBy(s, e, n)
    {
      var e := entries[i];
      assert entries[..i + 1] == entries[..i] + [e];
      ghost var before := out;
      out := out + e.methods + e.components.Keys + e.attrs;
      ghost var base := out;
      for k := 0 to |e.decorators|
        invariant forall n :: n in out <==> n in base || exists d :: d in e.decorators[..k] && d in s.decorators && n in s.decorators[d].names
      {
        var d := e.decorators[k];
        assert e.decorators[..k + 1] == e.decorators[..k] + [d];
        if d in s.decorators { out := out + s.decorators[d].names; }
      }
      assert e.decorators[..|e.decorators|] == e.decorators;
      assert forall n :: n in out <==> n in before || SuppliedBy(s, e, n);
      forall n ensures n in out <==> exists x :: x in entries[..i + 1] && SuppliedBy(s, x, n) {
        if SuppliedBy(s, e, n) { assert e in entries[..i + 1]; }
      }
    }
    assert entries[..|entries|] == entries;
    out := set n | n in out && !Dunder(n);
  }

  // ---------------------------------------------------------------- dotted names

  datatype Ref = ModuleRef(name: Name) | ClassRef(name: Name) | FunctionRef(name: Name)

  datatype MemberAnswer = NoMember | SomethingElse | Refers(ref: Ref)

  /** What a name is in a module. */
  function ModuleMember(s: Symbols, home: Name, name: Name): (m: MemberAnswer)
    ensures m == NoMember <==> home + "." + name !in s.modules && !(home in s.modules && name in s.modules[home])
    ensures m.Refers? && m.ref.ClassRef? ==> exists e :: name in s.classes && e in s.classes[name] && e.home == home
  {
    var full := home + "." + name;
    if full in s.modules then Refers(ModuleRef(full))
    else if home in s.modules && name in s.modules[home] then
      if name in s.classes && exists e :: e in s.classes[name] && e.home == home then Refers(ClassRef(name))
      else if full in s.functions then Refers(FunctionRef(full))
      else SomethingElse
    else NoMember
  }

  /** The checker denies the attribute. */
  ghost predicate Denied(s: Symbols, r: Ref, attr: Name) {
    match r
    case ModuleRef(m) => ModuleMember(s, m, attr) == NoMember
    case ClassRef(c) => Found(s, c) && !Supplied(s, c, attr) && !BeyondJudging(s, c)
    case FunctionRef(_) => false
  }

  /** `m` is a module inside package `package`. */
  predicate Below(m: Name, package: Name) { package + "." <= m }

  /** What Python gives every object whatever its class says, `__class__` and the other names of `object`,
      and what every module has besides, as `__file__`; the sets depend on its version. */
  datatype Inherent = Inherent(objects: set<Name>, modules: set<Name>)

  /** As of Python 3.11: the names of `object` with those a class statement adds, and those `import` sets. */
  function Python(): Inherent {
    Inherent({"__class__", "__delattr__", "__dict__", "__dir__", "__doc__", "__eq__", "__format__", "__ge__",
              "__getattribute__", "__getstate__", "__gt__", "__hash__", "__init__", "__init_subclass__", "__le__",
              "__lt__", "__module__", "__ne__", "__new__", "__reduce__", "__reduce_ex__", "__repr__", "__setattr__",
              "__sizeof__", "__str__", "__subclasshook__", "__weakref__"},
             {"__builtins__", "__cached__", "__file__", "__loader__", "__name__", "__package__", "__spec__"})
  }

  /** The table shows that a module has no such name: the module is in the table, the name is not
      defined in it nor one that all modules have, and no module of the table has that name or lies below
      it. */
  ghost predicate NotInModule(s: Symbols, py: Inherent, home: Name, name: Name) {
    && home in s.modules && name !in s.modules[home] && name !in py.objects + py.modules
    && forall m :: m in s.modules ==> m != home + "." + name && !Below(m, home + "." + name)
  }

  /** The table shows that the attribute is not there. */
  ghost predicate ShownAbsent(s: Symbols, py: Inherent, r: Ref, attr: Name) {
    match r
    case ModuleRef(m) => NotInModule(s, py, m, attr)
    case ClassRef(c) => Found(s, c) && !Supplied(s, c, attr) && !BeyondJudging(s, c) && attr !in py.objects
    case FunctionRef(_) => false
  }

  /** Whether the table covers a name: of a class all but those every object has; of a module of the table
      all but those every module has and those below which a module lies. */
  predicate Covered(s: Symbols, py: Inherent, r: Ref, attr: Name) {
    match r
    case ModuleRef(home) =>
      && home in s.modules && attr !in py.objects + py.modules
      && forall m :: m in s.modules ==> !Below(m, home + "." + attr)
    case ClassRef(_) => attr !in py.objects
    case FunctionRef(_) => false
  }

  /** What the table shows to be absent is denied. A denial is justified exactly when the table covers the
      name. */
  lemma DenialJustifiedIff(s: Symbols, py: Inherent, r: Ref, attr: Name)
    ensures ShownAbsent(s, py, r, attr) ==> Denied(s, r, attr)
    ensures Denied(s, r, attr) ==> (ShownAbsent(s, py, r, attr) <==> Covered(s, py, r, attr))
  {
  }

  /** A table with one class that adds nothing to `object`. */
  function TableWithOneClass(): Symbols {
    Symbols(map["A" := [Entry("m", [], {}, {}, map[], false, [])]], {}, map[], map["m" := {"A"}])
  }

  lemma OnlyOneClass(name: Name)
    requires Reaches(TableWithOneClass(), "A", name)
    ensures name == "A"
  {
    var s := TableWithOneClass();
    var path :| Chain(s, path) && path[0] == "A" && path[|path| - 1] == name;
    if |path| > 1 { FirstStep(s, path); }
  }

  lemma DeniedOfOneClass(attr: Name)
    ensures Denied(TableWithOneClass(), ClassRef("A"), attr)
  {
    forall name | Reaches(TableWithOneClass(), "A", name) ensures name == "A" { OnlyOneClass(name); }
  }

  /** The checker denies that the class has a `__class__`. */
  lemma NamesOfEveryObjectAreDenied()
    ensures Denied(TableWithOneClass(), ClassRef("A"), "__class__")
    ensures !ShownAbsent(TableWithOneClass(), Python(), ClassRef("A"), "__class__")
  {
    DeniedOfOneClass("__class__");
  }

  /** Every package that holds a module of the table is in the table. */
  ghost predicate PackagesKnown(s: Symbols) {
    forall m, package :: m in s.modules && Below(m, package) ==> package in s.modules
  }

  /** With every package in the table a denial about its modules is justified exactly when the name is none
      that every module has. */
  lemma PackagesKnownJustifies(s: Symbols, py: Inherent, home: Name, name: Name)
    requires PackagesKnown(s) && home in s.modules && Denied(s, ModuleRef(home), name)
    ensures ShownAbsent(s, py, ModuleRef(home), name) <==> name !in py.objects + py.modules
  {
  }

  /** A directory of modules that is no package, as eco has some: the table has the package above it and
      the module in it, but not the directory. */
  function TableWithGap(): Symbols {
    Symbols(map[], {}, map[], map["eco.manual_control" := {"menu"}, "eco.manual_control.hardware.generate_stl" := {}])
  }

  lemma DirectoryWithoutInitIsDenied(py: Inherent)
    ensures Denied(TableWithGap(), ModuleRef("eco.manual_control"), "hardware")
    ensures !ShownAbsent(TableWithGap(), py, ModuleRef("eco.manual_control"), "hardware")
    ensures !PackagesKnown(TableWithGap())
  {
    var s, directory := TableWithGap(), "eco.manual_control" + "." + "hardware";
    assert directory == "eco.manual_control.hardware";
    assert |directory| == 27 && |"eco.manual_control.hardware.generate_stl"| == 40 && |"eco.manual_control"| == 18;
    assert |"hardware"| == 8 && |"menu"| == 4;
    assert "eco.manual_control.hardware.generate_stl" in s.modules;
    assert directory + "." == "eco.manual_control.hardware.generate_stl"[..28];
    assert Below("eco.manual_control.hardware.generate_stl", directory);
  }

  /** The table shows what the attribute is. */
  ghost predicate ShownTo(s: Symbols, r: Ref, attr: Name, next: Ref) {
    match r
    case ModuleRef(m) => ModuleMember(s, m, attr) == Refers(next)
    case ClassRef(c) => next.ClassRef? && next.name != "" && Said(s, c, attr, Component(Some(next.name)))
    case FunctionRef(_) => false
  }

  predicate NamesClass(a: Answer) { a.Component? && a.cls.Some? && a.cls.value != "" }

  /** The table leaves no doubt that the attribute leads on: all that is said about it names a class. */
  ghost predicate LeadsOn(s: Symbols, r: Ref, attr: Name) {
    match r
    case ModuleRef(m) => ModuleMember(s, m, attr).Refers?
    case ClassRef(c) => Supplied(s, c, attr) && forall a :: Said(s, c, attr, a) ==> NamesClass(a)
    case FunctionRef(_) => false
  }

  /** Each reference follows from the one before by the next attribute. */
  ghost predicate Follows(s: Symbols, chain: seq<Ref>, attrs: seq<Name>) {
    && 0 < |chain| <= |attrs| + 1
    && forall i :: 0 <= i < |chain| - 1 ==> ShownTo(s, chain[i], attrs[i], chain[i + 1])
  }

  /** One step of a walk: the absence is shown, the next reference is, or nothing more is known. */
  datatype StepAnswer = Absent | Next(ref: Ref) | NothingKnown

  method StepFrom(s: Symbols, r: Ref, attr: Name) returns (a: StepAnswer)
    ensures a == Absent <==> Denied(s, r, attr)
    ensures a.Next? ==> ShownTo(s, r, attr, a.ref)
    ensures LeadsOn(s, r, attr) ==> a.Next?
  {
    match r
    case ModuleRef(m) =>
      var member := ModuleMember(s, m, attr);
      a := if member == NoMember then Absent else if member.Refers? then Next(member.ref) else NothingKnown;
    case ClassRef(c) =>
      var answer := Attribute(s, c, attr);
      a := if answer == Missing then Absent
           else if NamesClass(answer) then Next(ClassRef(answer.cls.value))
           else NothingKnown;
    case FunctionRef(_) =>
      a := NothingKnown;
  }

  /** The attributes before position `n` lead to where attribute `n` is shown to be absent. */
  ghost predicate ReportJustified(s: Symbols, py: Inherent, start: Ref, attrs: seq<Name>, n: nat) {
    n < |attrs| && exists chain ::
      && |chain| == n + 1 && Follows(s, chain, attrs) && chain[0] == start && ShownAbsent(s, py, chain[n], attrs[n])
  }

  /** Two ways of following a name that stay within modules are the same. */
  lemma {:induction false} OneWayThroughModules(s: Symbols, start: Ref, attrs: seq<Name>, a: seq<Ref>, b: seq<Ref>)
    requires Follows(s, a, attrs) && Follows(s, b, attrs) && a[0] == start == b[0] && |a| == |b|
    requires a[|a| - 1].ModuleRef?
    ensures a == b
    decreases |a|
  {
    var n := |a| - 1;
    if n > 0 {
      assert ShownTo(s, a[n - 1], attrs[n - 1], a[n]) && ShownTo(s, b[n - 1], attrs[n - 1], b[n]);
      assert Follows(s, a[..n], attrs) && Follows(s, b[..n], attrs);
      OneWayThroughModules(s, start, attrs, a[..n], b[..n]);
      assert a[n - 1] == a[..n][n - 1] == b[..n][n - 1] == b[n - 1];
      assert a == a[..n] + [a[n]] && b == b[..n] + [b[n]];
    }
  }

  /** A report is justified exactly when the denial it ends with is. */
  lemma ReportJustifiedIff(s: Symbols, py: Inherent, start: Ref, attrs: seq<Name>, chain: seq<Ref>)
    requires Follows(s, chain, attrs) && chain[0] == start && |chain| <= |attrs|
    requires Denied(s, chain[|chain| - 1], attrs[|chain| - 1])
    ensures var n := |chain| - 1;
            ReportJustified(s, py, start, attrs, n) <==> Covered(s, py, chain[n], attrs[n])
  {
    var n := |chain| - 1;
    DenialJustifiedIff(s, py, chain[n], attrs[n]);
    if ReportJustified(s, py, start, attrs, n) {
      var other: seq<Ref> :| |other| == n + 1 && Follows(s, other, attrs) && other[0] == start && ShownAbsent(s, py, other[n], attrs[n]);
      SameKindOfEnd(s, start, attrs, chain, other);
    }
  }

  /** Two ways of following a name end in the same module, or both outside modules. */
  lemma SameKindOfEnd(s: Symbols, start: Ref, attrs: seq<Name>, a: seq<Ref>, b: seq<Ref>)
    requires Follows(s, a, attrs) && Follows(s, b, attrs) && a[0] == start == b[0] && |a| == |b|
    ensures a[|a| - 1].ModuleRef? || b[|b| - 1].ModuleRef? ==> a[|a| - 1] == b[|b| - 1]
  {
    if a[|a| - 1].ModuleRef? {
      OneWayThroughModules(s, start, attrs, a, b);
    } else if b[|b| - 1].ModuleRef? {
      OneWayThroughModules(s, start, attrs, b, a);
    }
  }

  /** Follow a dotted name from a module or class. The position reported is the first attribute that is
      denied, after every attribute before it was shown to lead on; nothing is reported where the table
      cannot tell. `chain` is how far the name was followed: to its end, or to where the table leaves
      a doubt. The report is justified exactly when the table covers the name. */
  method WalkStatic(s: Symbols, start: Ref, attrs: seq<Name>, ghost py: Inherent) returns (reported: Option<nat>, ghost chain: seq<Ref>)
    ensures Follows(s, chain, attrs) && chain[0] == start
    ensures reported == Some(|chain| - 1) <==> |chain| <= |attrs| && Denied(s, chain[|chain| - 1], attrs[|chain| - 1])
    ensures reported.Some? ==> reported.value == |chain| - 1
    ensures |chain| <= |attrs| ==> !LeadsOn(s, chain[|chain| - 1], attrs[|chain| - 1])
    ensures reported.Some? ==>
              var last := chain[reported.value];
              ReportJustified(s, py, start, attrs, reported.value) <==> Covered(s, py, last, attrs[reported.value])
  {
    var r := start;
    chain := [start];
    for i := 0 to |attrs|
      invariant |chain| == i + 1 && Follows(s, chain, attrs) && chain[0] == start && chain[i] == r
    {
      var a := StepFrom(s, r, attrs[i]);
      if a == Absent {
        ReportJustifiedIff(s, py, start, attrs, chain);
        return Some(i), chain;
      }
      if a == NothingKnown { return None, chain; }
      r := a.ref;
      chain := chain + [r];
    }
    reported := None;
  }

  /** The judgement passes down to bases: a reachable base outside the table, or a dynamic one, puts the
      class beyond judging, and what a base has the class has. */
  lemma BasesCount(s: Symbols, cls: Name, base: Name, attr: Name)
    requires Reaches(s, cls, base)
    ensures Supplied(s, base, attr) ==> Supplied(s, cls, attr)
    ensures BeyondJudging(s, base) ==> BeyondJudging(s, cls)
  {
    forall name | Reaches(s, base, name) ensures Reaches(s, cls, name) {
      var p :| Chain(s, p) && p[0] == cls && p[|p| - 1] == base;
      var q :| Chain(s, q) && q[0] == base && q[|q| - 1] == name;
      JoinedChain(s, p, q);
    }
    forall e | Judged(s, base, e) ensures Judged(s, cls, e) {}
  }

  lemma JoinedChain(s: Symbols, p: seq<Name>, q: seq<Name>)
    requires Chain(s, p) && Chain(s, q) && p[|p| - 1] == q[0]
    ensures Chain(s, p + q[1..]) && (p + q[1..])[0] == p[0] && (p + q[1..])[|p + q[1..]| - 1] == q[|q| - 1]
  {
    var r := p + q[1..];
    forall i | 0 <= i < |r| - 1 ensures r[i + 1] in Bases(s, r[i]) {
      if i < |p| - 1 {
        assert p[i + 1] in Bases(s, p[i]);
      } else {
        assert q[i - |p| + 2] in Bases(s, q[i - |p| + 1]);
      }
    }
  }
}
