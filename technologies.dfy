/**
 * The technology component: a named group of ship models, engines and
 * weapons, loaded field by field from its saved form and written back out
 * as a list of child nodes.
 *
 * A model, engine or weapon is referred to by its name, the key under which
 * its registry holds it; a registry is the set of names it resolves. A saved
 * technology is the list of its child nodes, each a (tag, text) pair.
 */
module Technologies {

  /** A child node of a saved component: its tag and its text. */
  datatype Child = Child(tag: string, value: string)

  /** A saved component: its tag (the component name) and its children. */
  datatype Node = Node(tag: string, children: seq<Child>)

  /** The names the model, engine and weapon registries resolve. */
  datatype Catalogs = Catalogs(models: set<string>, engines: set<string>, weapons: set<string>)

  /** The fields of a technology, as a value. */
  datatype TechValue = TechValue(name: string, models: seq<string>, engines: seq<string>, weapons: seq<string>)

  const EMPTY_TECHNOLOGY := TechValue("", [], [], [])

  /** The effect of one (subName, value) pair on a technology being loaded. */
  function ParseField(t: TechValue, cat: Catalogs, subName: string, value: string): TechValue {
    if subName == "name" then t.(name := value)
    else if subName == "model" then (if value in cat.models then t.(models := t.models + [value]) else t)
    else if subName == "engine" then (if value in cat.engines then t.(engines := t.engines + [value]) else t)
    else if subName == "weapon" then (if value in cat.weapons then t.(weapons := t.weapons + [value]) else t)
    else t
  }

  /** Loading a list of children, one field at a time, in order. */
  function ParseChildren(t: TechValue, cat: Catalogs, children: seq<Child>): TechValue
    decreases |children|
  {
    if children == [] then t
    else ParseChildren(ParseField(t, cat, children[0].tag, children[0].value), cat, children[1..])
  }

  /** One child with the given tag per name, in list order. */
  function Group(tag: string, names: seq<string>): (cs: seq<Child>)
    ensures |cs| == |names|
    ensures forall i | 0 <= i < |names| :: cs[i] == Child(tag, names[i])
  {
    seq(|names|, i requires 0 <= i < |names| => Child(tag, names[i]))
  }

  /** The children a technology is saved as: its name, then its models, weapons and engines. */
  function XmlChildren(t: TechValue): (cs: seq<Child>)
    ensures |cs| == 1 + |t.models| + |t.weapons| + |t.engines|
    ensures cs[0] == Child("name", t.name)
    ensures forall i | 0 <= i < |t.models| :: cs[1 + i] == Child("model", t.models[i])
    ensures forall i | 0 <= i < |t.weapons| :: cs[1 + |t.models| + i] == Child("weapon", t.weapons[i])
    ensures forall i | 0 <= i < |t.engines| ::
      cs[1 + |t.models| + |t.weapons| + i] == Child("engine", t.engines[i])
    ensures forall i | 1 <= i < |cs| :: cs[i].tag != "name"
  {
    [Child("name", t.name)] + Group("model", t.models) + Group("weapon", t.weapons) + Group("engine", t.engines)
  }

  /** The names of a list that a registry resolves, in order. */
  function Resolved(names: seq<string>, registry: set<string>): (rs: seq<string>)
    ensures forall n | n in rs :: n in names && n in registry
  {
    if names == [] then []
    else Resolved(names[..|names| - 1], registry)
         + (if names[|names| - 1] in registry then [names[|names| - 1]] else [])
  }

  /** No resolved name is dropped: every name of the list the registry resolves is kept. */
  lemma {:induction false} ResolvedKeeps(names: seq<string>, registry: set<string>, n: string)
    requires n in names && n in registry
    ensures n in Resolved(names, registry)
  {
    var last := names[|names| - 1];
    if last != n {
      ResolvedKeeps(names[..|names| - 1], registry, n);
    }
  }

  /** A list whose every name resolves is kept whole. */
  lemma {:induction false} ResolvedAll(names: seq<string>, registry: set<string>)
    requires forall n | n in names :: n in registry
    ensures Resolved(names, registry) == names
  {
    if names != [] {
      var init := names[..|names| - 1];
      assert forall n | n in init :: n in names;
      ResolvedAll(init, registry);
      assert names == init + [names[|names| - 1]];
    }
  }

  /** A single name is kept exactly when it resolves. */
  lemma ResolvedSingle(n: string, registry: set<string>)
    ensures Resolved([n], registry) == if n in registry then [n] else []
  {
    assert [n][..0] == [];
  }

  /** Adding one name at the end adds it to the result exactly when the registry resolves it. */
  lemma ResolvedSnoc(s: seq<string>, x: string, registry: set<string>)
    ensures Resolved(s + [x], registry) == Resolved(s, registry) + (if x in registry then [x] else [])
  {
    assert (s + [x])[..|s|] == s;
  }

  /** Resolution keeps order and multiplicity: it distributes over concatenation. */
  lemma {:induction false} ResolvedAppend(a: seq<string>, b: seq<string>, registry: set<string>)
    ensures Resolved(a + b, registry) == Resolved(a, registry) + Resolved(b, registry)
    decreases |b|
  {
    if b == [] {
      assert a + b == a;
    } else {
      var b' := b[..|b| - 1];
      var last := b[|b| - 1];
      var tail := if last in registry then [last] else [];
      calc {
        Resolved(a + b, registry);
        { assert a + b == (a + b') + [last]; ResolvedSnoc(a + b', last, registry); }
        Resolved(a + b', registry) + tail;
        { ResolvedAppend(a, b', registry); }
        (Resolved(a, registry) + Resolved(b', registry)) + tail;
        Resolved(a, registry) + (Resolved(b', registry) + tail);
        { assert b == b' + [last]; ResolvedSnoc(b', last, registry); }
        Resolved(a, registry) + Resolved(b, registry);
      }
    }
  }

  lemma {:induction false} ParseChildrenAppend(t: TechValue, cat: Catalogs, a: seq<Child>, b: seq<Child>)
    ensures ParseChildren(t, cat, a + b) == ParseChildren(ParseChildren(t, cat, a), cat, b)
    decreases |a|
  {
    if a != [] {
      assert (a + b)[0] == a[0];
      assert (a + b)[1..] == a[1..] + b;
      ParseChildrenAppend(ParseField(t, cat, a[0].tag, a[0].value), cat, a[1..], b);
    } else {
      assert a + b == b;
    }
  }

  /** Loading a group of model children appends the resolved ones to the model list and nothing else. */
  lemma {:induction false} ParseModelGroup(t: TechValue, cat: Catalogs, names: seq<string>)
    ensures ParseChildren(t, cat, Group("model", names)) == t.(models := t.models + Resolved(names, cat.models))
    decreases |names|
  {
    if names != [] {
      var init := names[..|names| - 1];
      assert Group("model", names) == Group("model", init) + [Child("model", names[|names| - 1])];
      ParseChildrenAppend(t, cat, Group("model", init), [Child("model", names[|names| - 1])]);
      ParseModelGroup(t, cat, init);
    }
  }

  /** Loading a group of weapon children appends the resolved ones to the weapon list and nothing else. */
  lemma {:induction false} ParseWeaponGroup(t: TechValue, cat: Catalogs, names: seq<string>)
    ensures ParseChildren(t, cat, Group("weapon", names)) == t.(weapons := t.weapons + Resolved(names, cat.weapons))
    decreases |names|
  {
    if names != [] {
      var init := names[..|names| - 1];
      assert Group("weapon", names) == Group("weapon", init) + [Child("weapon", names[|names| - 1])];
      ParseChildrenAppend(t, cat, Group("weapon", init), [Child("weapon", names[|names| - 1])]);
      ParseWeaponGroup(t, cat, init);
    }
  }

  /** Loading a group of engine children appends the resolved ones to the engine list and nothing else. */
  lemma {:induction false} ParseEngineGroup(t: TechValue, cat: Catalogs, names: seq<string>)
    ensures ParseChildren(t, cat, Group("engine", names)) == t.(engines := t.engines + Resolved(names, cat.engines))
    decreases |names|
  {
    if names != [] {
      var init := names[..|names| - 1];
      assert Group("engine", names) == Group("engine", init) + [Child("engine", names[|names| - 1])];
      ParseChildrenAppend(t, cat, Group("engine", init), [Child("engine", names[|names| - 1])]);
      ParseEngineGroup(t, cat, init);
    }
  }

  /** Every model, engine and weapon of the technology is known to its registry. */
  predicate AllResolve(t: TechValue, cat: Catalogs) {
    && (forall n | n in t.models :: n in cat.models)
    && (forall n | n in t.engines :: n in cat.engines)
    && (forall n | n in t.weapons :: n in cat.weapons)
  }

  /**
   * Save then load: loading the children a technology is saved as rebuilds
   * the technology, provided the registries still know every item; items
   * they no longer know are dropped, the rest keep their order.
   */
  lemma SaveThenLoad(t: TechValue, cat: Catalogs)
    ensures ParseChildren(EMPTY_TECHNOLOGY, cat, XmlChildren(t))
         == TechValue(t.name, Resolved(t.models, cat.models), Resolved(t.engines, cat.engines),
                      Resolved(t.weapons, cat.weapons))
    ensures AllResolve(t, cat) ==> ParseChildren(EMPTY_TECHNOLOGY, cat, XmlChildren(t)) == t
  {
    var head := [Child("name", t.name)];
    var ms := Group("model", t.models);
    var ws := Group("weapon", t.weapons);
    var es := Group("engine", t.engines);
    assert XmlChildren(t) == head + ms + ws + es;
    ParseChildrenAppend(EMPTY_TECHNOLOGY, cat, head + ms + ws, es);
    ParseChildrenAppend(EMPTY_TECHNOLOGY, cat, head + ms, ws);
    ParseChildrenAppend(EMPTY_TECHNOLOGY, cat, head, ms);
    var t1 := ParseChildren(EMPTY_TECHNOLOGY, cat, head);
    assert t1 == TechValue(t.name, [], [], []);
    ParseModelGroup(t1, cat, t.models);
    var t2 := ParseChildren(t1, cat, ms);
    ParseWeaponGroup(t2, cat, t.weapons);
    var t3 := ParseChildren(t2, cat, ws);
    ParseEngineGroup(t3, cat, t.engines);
    if AllResolve(t, cat) {
      ResolvedAll(t.models, cat.models);
      ResolvedAll(t.engines, cat.engines);
      ResolvedAll(t.weapons, cat.weapons);
    }
  }

  class Technology {
    var name: string
    var models: seq<string>
    var engines: seq<string>
    var weapons: seq<string>

    function Value(): TechValue
      reads this
    {
      TechValue(name, models, engines, weapons)
    }

    /** The empty technology a loader fills in. */
    constructor Empty()
      ensures Value() == EMPTY_TECHNOLOGY
    {
      name := "";
      models := [];
      engines := [];
      weapons := [];
    }

    constructor (name: string, models: seq<string>, engines: seq<string>, weapons: seq<string>)
      ensures Value() == TechValue(name, models, engines, weapons)
    {
      this.name := name;
      this.models := models;
      this.engines := engines;
      this.weapons := weapons;
    }

    /** Assignment: copies every field of the other technology. */
    method Assign(other: Technology)
      modifies this
      ensures Value() == old(other.Value())
    {
      name := other.name;
      models := other.models;
      engines := other.engines;
      weapons := other.weapons;
    }

    /**
     * Loads one field. "name" sets the name; "model", "engine" and "weapon"
     * append the named item to its list when the registry resolves it and
     * otherwise log an error; any other field is ignored. Always succeeds.
     */
    method ParserCB(cat: Catalogs, sectionName: string, subName: string, value: string) returns (ok: bool)
      modifies this
      ensures ok
      ensures Value() == ParseField(old(Value()), cat, subName, value)
      ensures subName == "name" ==> name == value && models == old(models) && engines == old(engines) && weapons == old(weapons)
      ensures subName == "model" && value in cat.models ==>
        models == old(models) + [value] && engines == old(engines) && weapons == old(weapons)
      ensures subName == "engine" && value in cat.engines ==>
        engines == old(engines) + [value] && models == old(models) && weapons == old(weapons)
      ensures subName == "weapon" && value in cat.weapons ==>
        weapons == old(weapons) + [value] && models == old(models) && engines == old(engines)
      ensures subName != "name" ==> name == old(name)
      ensures (subName == "model" && value !in cat.models) || (subName == "engine" && value !in cat.engines)
           || (subName == "weapon" && value !in cat.weapons) || subName !in {"name", "model", "engine", "weapon"}
           ==> Value() == old(Value())
    {
      if subName == "name" {
        name := value;
      } else if subName == "model" {
        if value in cat.models {
          models := models + [value];
        }
      } else if subName == "engine" {
        if value in cat.engines {
          engines := engines + [value];
        }
      } else if subName == "weapon" {
        if value in cat.weapons {
          weapons := weapons + [value];
        }
      }
      ok := true;
    }

    /** Writes the technology out: a name child, then one child per model, weapon and engine, in list order. */
    method ToXMLNode(componentName: string) returns (section: Node)
      ensures section == Node(componentName, XmlChildren(Value()))
    {
      var children := [Child("name", name)];
      var i := 0;
      while i < |models|
        invariant 0 <= i <= |models|
        invariant children == [Child("name", name)] + Group("model", models[..i])
      {
        assert Group("model", models[..i + 1]) == Group("model", models[..i]) + [Child("model", models[i])];
        children := children + [Child("model", models[i])];
        i := i + 1;
      }
      assert models[..i] == models;
      ghost var prefix := children;
      i := 0;
      while i < |weapons|
        invariant 0 <= i <= |weapons|
        invariant children == prefix + Group("weapon", weapons[..i])
      {
        assert Group("weapon", weapons[..i + 1]) == Group("weapon", weapons[..i]) + [Child("weapon", weapons[i])];
        children := children + [Child("weapon", weapons[i])];
        i := i + 1;
      }
      assert weapons[..i] == weapons;
      prefix := children;
      i := 0;
      while i < |engines|
        invariant 0 <= i <= |engines|
        invariant children == prefix + Group("engine", engines[..i])
      {
        assert Group("engine", engines[..i + 1]) == Group("engine", engines[..i]) + [Child("engine", engines[i])];
        children := children + [Child("engine", engines[i])];
        i := i + 1;
      }
      assert engines[..i] == engines;
      section := Node(componentName, children);
    }
  }

  /** The collection of technologies: the component names used when it is saved. */
  class Technologies {
    var rootName: string
    var componentName: string

    constructor ()
      ensures rootName == "" && componentName == ""
    {
      rootName := "";
      componentName := "";
    }
  }

  /** Holder of the process-wide Technologies instance. */
  class TechnologiesSingleton {
    var instance: Technologies?

    constructor ()
      ensures instance == null
    {
      instance := null;
    }

    /** Creates the instance on the first call only, naming its root "technologies" and its components "technology". */
    method Instance() returns (t: Technologies)
      modifies this
      ensures instance == t
      ensures old(instance) != null ==> t == old(instance) && unchanged(t)
      ensures old(instance) == null ==> fresh(t) && t.rootName == "technologies" && t.componentName == "technology"
    {
      if instance == null {
        var created := new Technologies();
        created.rootName := "technologies";
        created.componentName := "technology";
        instance := created;
      }
      t := instance;
    }
  }
}
