/**
 * Host functions scripts call: name lists and sprite lists as 1-based
 * tables, sprite handles tagged by draw order, look-up of a sprite by ID,
 * and the get/set pairs that expose a registered model, planet, weapon,
 * engine or technology as a table of fields.
 *
 * A host function receives the values on the interpreter stack as its
 * argument list and answers with a HostResult. Each registry is a map from
 * a name to the record registered under it; the setters overwrite the
 * registered record in place.
 */
module LuaHost {
  import opened Outcomes
  import opened LuaValues
  import Technologies

  // Draw orders: higher numbers are drawn later (on top).
  const DRAW_ORDER_PLANET := 0
  const DRAW_ORDER_WEAPON := 1
  const DRAW_ORDER_SHIP := 2
  const DRAW_ORDER_PLAYER := 3
  const DRAW_ORDER_EFFECT := 4

  /** What the host functions see of a sprite: its ID, its draw order and its name. */
  datatype Sprite = Sprite(id: int, drawOrder: int, name: string)

  // ---------------------------------------------------------------- tables

  /** The entries of a table holding the values at indices 1, 2, ... in order. */
  function ArrayEntries(vals: seq<LuaValue>): map<TableKey, LuaValue> {
    if vals == [] then map[]
    else ArrayEntries(vals[..|vals| - 1])[KInt(|vals|) := vals[|vals| - 1]]
  }

  /** The table of a list has exactly the indices 1..n, the i-th value at index i. */
  lemma {:induction false} ArrayEntriesLayout(vals: seq<LuaValue>)
    ensures forall k | k in ArrayEntries(vals) :: k.KInt? && 1 <= k.index <= |vals|
    ensures forall i | 1 <= i <= |vals| :: KInt(i) in ArrayEntries(vals) && ArrayEntries(vals)[KInt(i)] == vals[i - 1]
    ensures |ArrayEntries(vals)| == |vals|
  {
    if vals != [] {
      ArrayEntriesLayout(vals[..|vals| - 1]);
    }
  }

  function StringValues(names: seq<string>): (vs: seq<LuaValue>)
    ensures |vs| == |names|
    ensures forall i | 0 <= i < |names| :: vs[i] == LString(names[i])
  {
    seq(|names|, i requires 0 <= i < |names| => LString(names[i]))
  }

  /** The table of a list of names: the i-th name at index i. */
  function NameTable(names: seq<string>): (v: LuaValue)
    ensures ListsNames(v, names)
  {
    ArrayEntriesLayout(StringValues(names));
    LTable(ArrayEntries(StringValues(names)))
  }

  /** Appending a value to the list adds it at the next index and leaves the earlier entries. */
  lemma ArrayEntriesSnoc(vals: seq<LuaValue>, v: LuaValue)
    ensures ArrayEntries(vals + [v]) == ArrayEntries(vals)[KInt(|vals| + 1) := v]
  {
    assert (vals + [v])[..|vals|] == vals;
  }

  /** Builds the table of a list of names, one index at a time. */
  method PushNames(names: seq<string>) returns (table: LuaValue)
    ensures table == NameTable(names)
    ensures |table.entries| == |names|
    ensures forall i | 1 <= i <= |names| :: table.entries[KInt(i)] == LString(names[i - 1])
  {
    ghost var vals := StringValues(names);
    var entries: map<TableKey, LuaValue> := map[];
    var index := 1;
    while index <= |names|
      invariant 1 <= index <= |names| + 1
      invariant entries == ArrayEntries(vals[..index - 1])
    {
      ArrayEntriesSnoc(vals[..index - 1], LString(names[index - 1]));
      assert vals[..index - 1] + [LString(names[index - 1])] == vals[..index];
      entries := entries[KInt(index) := LString(names[index - 1])];
      index := index + 1;
    }
    assert vals[..index - 1] == vals;
    table := LTable(entries);
    ArrayEntriesLayout(vals);
  }

  /** The value is a table holding exactly the names, the i-th at index i. */
  predicate ListsNames(v: LuaValue, names: seq<string>) {
    && v.LTable? && |v.entries| == |names|
    && forall i | 1 <= i <= |names| :: KInt(i) in v.entries && v.entries[KInt(i)] == LString(names[i - 1])
  }

  // --------------------------------------------------------------- sprites

  /** The draw orders a script may hold a handle to: ships, the player and planets. */
  predicate ScriptVisible(order: int) {
    order == DRAW_ORDER_SHIP || order == DRAW_ORDER_PLAYER || order == DRAW_ORDER_PLANET
  }

  /**
   * The handle pushed for a sprite, and whether an error is logged for it.
   * Ships and the player get the ship metatable, planets the planet one; any
   * other sprite gets a bare handle and an error in the log.
   */
  function PushSprite(s: Sprite): (r: (LuaValue, bool))
    ensures r.0.LSprite? && r.0.id == s.id
    ensures r.0.tag == ShipTag <==> s.drawOrder == DRAW_ORDER_SHIP || s.drawOrder == DRAW_ORDER_PLAYER
    ensures r.0.tag == PlanetTag <==> s.drawOrder == DRAW_ORDER_PLANET
    ensures r.1 <==> !ScriptVisible(s.drawOrder)
  {
    if s.drawOrder == DRAW_ORDER_SHIP || s.drawOrder == DRAW_ORDER_PLAYER then (LSprite(s.id, ShipTag), false)
    else if s.drawOrder == DRAW_ORDER_PLANET then (LSprite(s.id, PlanetTag), false)
    else (LSprite(s.id, Untagged), true)
  }

  /** The debug assertion on the draw order as written: a bitwise test against the three visible orders. */
  function AssertMaskAsWritten(order: bv32): bool {
    order & (DRAW_ORDER_SHIP as bv32 | DRAW_ORDER_PLAYER as bv32 | DRAW_ORDER_PLANET as bv32) != 0
  }

  /**
   * The planet order is 0, so the mask is 3: the assertion rejects every
   * planet, which the tagging handles, and accepts weapons, which it logs as
   * an error.
   */
  lemma AssertMaskMisclassifies()
    ensures !AssertMaskAsWritten(DRAW_ORDER_PLANET as bv32) && ScriptVisible(DRAW_ORDER_PLANET)
    ensures AssertMaskAsWritten(DRAW_ORDER_WEAPON as bv32) && !ScriptVisible(DRAW_ORDER_WEAPON)
  {
  }

  /** The intended assertion holds exactly for the sprites the handle tagging accepts without logging. */
  lemma ScriptVisibleMatchesTagging(s: Sprite)
    ensures ScriptVisible(s.drawOrder) <==> PushSprite(s).0.tag != Untagged
    ensures ScriptVisible(s.drawOrder) <==> !PushSprite(s).1
  {
  }

  /** The handles of a list of sprites, in order. */
  function Handles(sprites: seq<Sprite>): (hs: seq<LuaValue>)
    ensures |hs| == |sprites|
    ensures forall i | 0 <= i < |sprites| :: hs[i] == PushSprite(sprites[i]).0
  {
    seq(|sprites|, i requires 0 <= i < |sprites| => PushSprite(sprites[i]).0)
  }

  /**
   * The table the ship and planet lists are returned as: the handle of the
   * i-th sprite at index i. The sprites are those the sprite manager lists
   * for the requested kind.
   */
  method PushSprites(sprites: seq<Sprite>) returns (table: LuaValue)
    ensures table == LTable(ArrayEntries(Handles(sprites)))
    ensures |table.entries| == |sprites|
    ensures forall i | 1 <= i <= |sprites| ::
      KInt(i) in table.entries && table.entries[KInt(i)] == PushSprite(sprites[i - 1]).0
      && table.entries[KInt(i)].id == sprites[i - 1].id
  {
    ghost var vals := Handles(sprites);
    var entries: map<TableKey, LuaValue> := map[];
    var index := 1;
    while index <= |sprites|
      invariant 1 <= index <= |sprites| + 1
      invariant entries == ArrayEntries(vals[..index - 1])
    {
      ArrayEntriesSnoc(vals[..index - 1], PushSprite(sprites[index - 1]).0);
      assert vals[..index - 1] + [PushSprite(sprites[index - 1]).0] == vals[..index];
      entries := entries[KInt(index) := PushSprite(sprites[index - 1]).0];
      index := index + 1;
    }
    assert vals[..index - 1] == vals;
    table := LTable(entries);
    ArrayEntriesLayout(vals);
  }

  /** getSprite: one argument, a sprite ID, answered with the handle of the sprite registered under it. */
  function GetSpriteByID(args: seq<LuaValue>, sprites: map<int, Sprite>): (r: HostResult)
    ensures !r.Crashed?
    ensures r == Raised(WrongArity(|args|, 1)) <==> |args| != 1
    ensures |args| == 1 && ToNumber(args[0]).None? ==> r == Raised(BadArgument(1))
    ensures |args| == 1 && ToNumber(args[0]).Some? ==>
      var id := ToNumber(args[0]).value;
      && (r == Raised(NoSuchId(id)) <==> id !in sprites)
      && (id in sprites ==> r == Returned([PushSprite(sprites[id]).0]) && r.values[0].id == sprites[id].id)
  {
    if |args| != 1 then Raised(WrongArity(|args|, 1))
    else match ToNumber(args[0])
      case None => Raised(BadArgument(1))
      case Some(id) =>
        if id !in sprites then Raised(NoSuchId(id))
        else Returned([PushSprite(sprites[id]).0])
  }

  /**
   * A handle is a weak reference: it resolves to the same handle while its
   * sprite is registered, and to "no such ID" once the sprite is removed.
   */
  lemma HandleResolvesUntilRemoved(sprites: map<int, Sprite>, id: int)
    requires id in sprites && sprites[id].id == id
    ensures GetSpriteByID([LNumber(id)], sprites).Returned?
    ensures var h := GetSpriteByID([LNumber(id)], sprites).values[0];
      GetSpriteByID([LNumber(h.id)], sprites) == GetSpriteByID([LNumber(id)], sprites)
      && GetSpriteByID([LNumber(h.id)], sprites - {id}) == Raised(NoSuchId(id))
  {
  }

  // ------------------------------------------------------------ registries

  /** Every record of a registry is registered under its own name. */
  predicate KeyedByName<T>(registry: map<string, T>, nameOf: T -> string) {
    forall k | k in registry :: nameOf(registry[k]) == k
  }

  /**
   * A number field read with luaL_checkint or luaL_checknumber: the check
   * passes exactly for a number or a numeric string; a missing field is nil
   * and fails it.
   */
  function NumberField(t: map<TableKey, LuaValue>, name: string): (r: Option<int>)
    ensures r.Some? <==>
      (KStr(name) in t && (t[KStr(name)].LNumber? || (t[KStr(name)].LString? && ParseDecimal(t[KStr(name)].s).Some?)))
    ensures KStr(name) in t && t[KStr(name)].LNumber? ==> r == Some(t[KStr(name)].n)
  {
    ToNumber(Field(t, name))
  }

  /**
   * A string field read with luaL_checkstring: the check passes exactly for
   * a string or a number; a missing field is nil and fails it.
   */
  function TextField(t: map<TableKey, LuaValue>, name: string): (r: Option<string>)
    ensures r.Some? <==> KStr(name) in t && (t[KStr(name)].LString? || t[KStr(name)].LNumber?)
    ensures KStr(name) in t && t[KStr(name)].LString? ==> r == Some(t[KStr(name)].s)
  {
    ToText(Field(t, name))
  }

  function BoolNumber(b: bool): int {
    if b then 1 else 0
  }

  /** The checks every setter makes before reading fields: one argument, and a table. */
  function SetterArgument(args: seq<LuaValue>): (r: Result<map<TableKey, LuaValue>, ScriptError>)
    ensures r == Err(WrongArity(|args|, 1)) <==> |args| != 1
    ensures r.Ok? <==> |args| == 1 && args[0].LTable?
    ensures r.Ok? ==> r.value == args[0].entries
    ensures |args| == 1 && !args[0].LTable? ==> r == Err(NotATable)
  {
    if |args| != 1 then Err(WrongArity(|args|, 1))
    else if !args[0].LTable? then Err(NotATable)
    else Ok(args[0].entries)
  }

  /** The checks every getter makes: one argument, convertible to a name. */
  function GetterName(args: seq<LuaValue>): (r: Result<string, ScriptError>)
    ensures r == Err(WrongArity(|args|, 1)) <==> |args| != 1
    ensures r.Ok? <==> |args| == 1 && ToText(args[0]).Some?
    ensures r.Ok? ==> r.value == ToText(args[0]).value
    ensures |args| == 1 && ToText(args[0]).None? ==> r == Err(BadArgument(1))
  {
    if |args| != 1 then Err(WrongArity(|args|, 1))
    else match ToText(args[0])
      case None => Err(BadArgument(1))
      case Some(name) => Ok(name)
  }

  // ---------------------------------------------------------------- models

  /** A ship model; the float fields (mass, rotation, top speed) are carried as opaque numbers. */
  datatype Model = Model(name: string, image: string, engine: string, mass: int, thrust: int,
                         rotation: int, maxSpeed: int, maxHull: int)

  function ModelInfo(m: Model): map<TableKey, LuaValue> {
    map[KStr("Name") := LString(m.name), KStr("Mass") := LNumber(m.mass), KStr("Thrust") := LNumber(m.thrust),
        KStr("Engine") := LString(m.engine), KStr("Rotation") := LNumber(m.rotation),
        KStr("MaxSpeed") := LNumber(m.maxSpeed), KStr("MaxHull") := LNumber(m.maxHull)]
  }

  /** Each field of a model's table reads back the model's value. */
  lemma ModelInfoFields(m: Model)
    ensures Field(ModelInfo(m), "Name") == LString(m.name)
    ensures Field(ModelInfo(m), "Engine") == LString(m.engine)
    ensures NumberField(ModelInfo(m), "Mass") == Some(m.mass)
    ensures NumberField(ModelInfo(m), "Thrust") == Some(m.thrust)
    ensures NumberField(ModelInfo(m), "Rotation") == Some(m.rotation)
    ensures NumberField(ModelInfo(m), "MaxSpeed") == Some(m.maxSpeed)
    ensures NumberField(ModelInfo(m), "MaxHull") == Some(m.maxHull)
  {
  }

  /** getModelInfo as written: an unknown model name dereferences a null pointer. */
  function GetModelInfoAsWritten(args: seq<LuaValue>, models: map<string, Model>): (r: HostResult)
    ensures GetterName(args).Err? ==> r == Raised(GetterName(args).error)
    ensures GetterName(args).Ok? ==> (r.Crashed? <==> GetterName(args).value !in models)
  {
    match GetterName(args)
    case Err(e) => Raised(e)
    case Ok(name) =>
      if name !in models then Crashed
      else Returned([LTable(ModelInfo(models[name]))])
  }

  /** getModelInfo with the missing check added: an unknown name is a script error. */
  function GetModelInfo(args: seq<LuaValue>, models: map<string, Model>): (r: HostResult)
    ensures !r.Crashed?
    ensures GetterName(args).Err? ==> r == Raised(GetterName(args).error)
    ensures GetterName(args).Ok? && GetterName(args).value !in models ==>
      r == Raised(NoSuchName(GetterName(args).value))
    ensures !GetModelInfoAsWritten(args, models).Crashed? ==> r == GetModelInfoAsWritten(args, models)
  {
    match GetterName(args)
    case Err(e) => Raised(e)
    case Ok(name) =>
      if name !in models then Raised(NoSuchName(name))
      else Returned([LTable(ModelInfo(models[name]))])
  }

  /** An unregistered model name makes the as-written getter crash. */
  lemma UnknownModelCrashes(models: map<string, Model>, name: string)
    requires name !in models
    ensures GetModelInfoAsWritten([LString(name)], models) == Crashed
    ensures GetModelInfo([LString(name)], models) == Raised(NoSuchName(name))
  {
  }

  /** Every field setModelInfo reads is present with the type it is read as ("Engine" included). */
  predicate ModelTableValid(t: map<TableKey, LuaValue>) {
    && TextField(t, "Name").Some? && NumberField(t, "Mass").Some? && NumberField(t, "Thrust").Some?
    && TextField(t, "Engine").Some? && NumberField(t, "Rotation").Some? && NumberField(t, "MaxSpeed").Some?
    && NumberField(t, "MaxHull").Some?
  }

  /** The model a valid table replaces an old one with: the table's fields, the old image and engine. */
  function ModelFromTable(t: map<TableKey, LuaValue>, old_: Model): Model
    requires ModelTableValid(t)
  {
    Model(TextField(t, "Name").value, old_.image, old_.engine, NumberField(t, "Mass").value,
          NumberField(t, "Thrust").value, NumberField(t, "Rotation").value,
          NumberField(t, "MaxSpeed").value, NumberField(t, "MaxHull").value)
  }

  /**
   * setModelInfo: after the argument checks and the field reads, the model
   * registered under the table's Name is replaced; an unknown Name changes
   * nothing. Returns the result and the registry afterwards.
   */
  function ModelUpdate(args: seq<LuaValue>, models: map<string, Model>): (r: (HostResult, map<string, Model>))
    ensures SetterArgument(args).Err? ==> r == (Raised(SetterArgument(args).error), models)
    ensures SetterArgument(args).Ok? && !ModelTableValid(SetterArgument(args).value) ==> r == (Raised(BadArgument(2)), models)
    ensures SetterArgument(args).Ok? && ModelTableValid(SetterArgument(args).value) ==>
      && r.0 == Returned([])
      && (TextField(SetterArgument(args).value, "Name").value !in models ==> r.1 == models)
    ensures r.0.Raised? || r.0 == Returned([])
    ensures r.1.Keys == models.Keys
    ensures forall k | k in models :: r.1[k].image == models[k].image && r.1[k].engine == models[k].engine
    ensures forall k | k in models && r.1[k] != models[k] ::
      r.0 == Returned([]) && k == TextField(args[0].entries, "Name").value
    ensures r.0 == Returned([]) ==>
      var t := args[0].entries;
      var name := TextField(t, "Name").value;
      name in models ==> r.1[name] == ModelFromTable(t, models[name])
  {
    match SetterArgument(args)
    case Err(e) => (Raised(e), models)
    case Ok(t) =>
      if !ModelTableValid(t) then (Raised(BadArgument(2)), models)
      else
        var name := TextField(t, "Name").value;
        if name !in models then (Returned([]), models)
        else (Returned([]), models[name := ModelFromTable(t, models[name])])
  }

  /** Reading a model's table and writing it straight back leaves the registry as it was. */
  lemma ModelGetThenSet(models: map<string, Model>, name: string)
    requires KeyedByName(models, (m: Model) => m.name)
    requires name in models
    ensures GetModelInfo([LString(name)], models).Returned?
    ensures ModelUpdate(GetModelInfo([LString(name)], models).values, models) == (Returned([]), models)
  {
    var m := models[name];
    var t := ModelInfo(m);
    assert Field(t, "Name") == LString(m.name);
    assert Field(t, "Mass") == LNumber(m.mass);
    assert Field(t, "Thrust") == LNumber(m.thrust);
    assert Field(t, "Engine") == LString(m.engine);
    assert Field(t, "Rotation") == LNumber(m.rotation);
    assert Field(t, "MaxSpeed") == LNumber(m.maxSpeed);
    assert Field(t, "MaxHull") == LNumber(m.maxHull);
    assert ModelFromTable(t, m) == m;
    assert models[name := m] == models;
  }

  /** A table without a usable Mass fails luaL_checknumber: the setter raises "bad argument #2" and changes nothing. */
  lemma MissingFieldIsBadArgument(models: map<string, Model>, t: map<TableKey, LuaValue>)
    requires KStr("Mass") !in t || t[KStr("Mass")].LBool?
    ensures ModelUpdate([LTable(t)], models) == (Raised(BadArgument(2)), models)
  {
    assert SetterArgument([LTable(t)]) == Ok(t);
    assert !ModelTableValid(t);
  }

  /** After a table is written to a registered model, reading the model back gives the table's values and the old engine. */
  lemma ModelSetThenGet(models: map<string, Model>, t: map<TableKey, LuaValue>)
    requires ModelTableValid(t)
    requires TextField(t, "Name").value in models
    ensures var name := TextField(t, "Name").value;
      var got := GetModelInfo([LString(name)], ModelUpdate([LTable(t)], models).1);
      && got.Returned?
      && var info := got.values[0].entries;
      && Field(info, "Name") == LString(name)
      && NumberField(info, "Mass") == NumberField(t, "Mass")
      && NumberField(info, "Thrust") == NumberField(t, "Thrust")
      && NumberField(info, "Rotation") == NumberField(t, "Rotation")
      && NumberField(info, "MaxSpeed") == NumberField(t, "MaxSpeed")
      && NumberField(info, "MaxHull") == NumberField(t, "MaxHull")
      && Field(info, "Engine") == LString(models[name].engine)
  {
    var name := TextField(t, "Name").value;
    var m := ModelFromTable(t, models[name]);
    assert SetterArgument([LTable(t)]) == Ok(t);
    assert ModelUpdate([LTable(t)], models).1 == models[name := m];
    assert GetterName([LString(name)]) == Ok(name);
    ModelInfoFields(m);
  }

  // --------------------------------------------------------------- planets

  /** A planet; influence, militia ships and technologies are not exposed to the setter. */
  datatype Planet = Planet(name: string, alliance: string, landable: bool, traffic: int, militiaSize: int,
                           influence: int, militia: seq<string>, technologies: seq<string>)

  function PlanetInfo(p: Planet): map<TableKey, LuaValue> {
    map[KStr("Name") := LString(p.name), KStr("Alliance") := LString(p.alliance),
        KStr("Traffic") := LNumber(p.traffic), KStr("Militia") := LNumber(p.militiaSize),
        KStr("Landable") := LNumber(BoolNumber(p.landable))]
  }

  /** Each field of a planet's table reads back the planet's value; Landable is 1 or 0. */
  lemma PlanetInfoFields(p: Planet)
    ensures Field(PlanetInfo(p), "Name") == LString(p.name)
    ensures Field(PlanetInfo(p), "Alliance") == LString(p.alliance)
    ensures NumberField(PlanetInfo(p), "Traffic") == Some(p.traffic)
    ensures NumberField(PlanetInfo(p), "Militia") == Some(p.militiaSize)
    ensures NumberField(PlanetInfo(p), "Landable") == Some(if p.landable then 1 else 0)
  {
  }

  /** Every sprite drawn as a planet is a planet registered under the sprite's name. */
  predicate PlanetSpritesRegistered(sprites: map<int, Sprite>, planets: map<string, Planet>) {
    forall id | id in sprites && sprites[id].drawOrder == DRAW_ORDER_PLANET :: sprites[id].name in planets
  }

  /** getPlanetInfo as written: the sprite is used before checking that the ID refers to one. */
  function GetPlanetInfoAsWritten(args: seq<LuaValue>, sprites: map<int, Sprite>, planets: map<string, Planet>)
    : (r: HostResult)
    requires PlanetSpritesRegistered(sprites, planets)
    ensures r == Raised(WrongArity(|args|, 1)) <==> |args| != 1
    ensures |args| == 1 && ToNumber(args[0]).Some? ==> (r.Crashed? <==> ToNumber(args[0]).value !in sprites)
  {
    if |args| != 1 then Raised(WrongArity(|args|, 1))
    else match ToNumber(args[0])
      case None => Raised(BadArgument(1))
      case Some(id) =>
        if id !in sprites then Crashed
        else if sprites[id].drawOrder != DRAW_ORDER_PLANET then Raised(NotAPlanet(id))
        else Returned([LTable(PlanetInfo(planets[sprites[id].name]))])
  }

  /** getPlanetInfo with the missing check added: an unknown ID is a script error. */
  function GetPlanetInfo(args: seq<LuaValue>, sprites: map<int, Sprite>, planets: map<string, Planet>)
    : (r: HostResult)
    requires PlanetSpritesRegistered(sprites, planets)
    ensures !r.Crashed?
    ensures r == Raised(WrongArity(|args|, 1)) <==> |args| != 1
    ensures |args| == 1 && ToNumber(args[0]).None? ==> r == Raised(BadArgument(1))
    ensures |args| == 1 && ToNumber(args[0]).Some? ==>
      var id := ToNumber(args[0]).value;
      && (id !in sprites ==> r == Raised(NoSuchId(id)))
      && (id in sprites ==> (r == Raised(NotAPlanet(id)) <==> sprites[id].drawOrder != DRAW_ORDER_PLANET))
    ensures !GetPlanetInfoAsWritten(args, sprites, planets).Crashed? ==> r == GetPlanetInfoAsWritten(args, sprites, planets)
  {
    if |args| != 1 then Raised(WrongArity(|args|, 1))
    else match ToNumber(args[0])
      case None => Raised(BadArgument(1))
      case Some(id) =>
        if id !in sprites then Raised(NoSuchId(id))
        else if sprites[id].drawOrder != DRAW_ORDER_PLANET then Raised(NotAPlanet(id))
        else Returned([LTable(PlanetInfo(planets[sprites[id].name]))])
  }

  /** An unregistered ID makes the as-written getter crash. */
  lemma UnknownPlanetCrashes(sprites: map<int, Sprite>, planets: map<string, Planet>, id: int)
    requires PlanetSpritesRegistered(sprites, planets)
    requires id !in sprites
    ensures GetPlanetInfoAsWritten([LNumber(id)], sprites, planets) == Crashed
    ensures GetPlanetInfo([LNumber(id)], sprites, planets) == Raised(NoSuchId(id))
  {
  }

  predicate PlanetTableValid(t: map<TableKey, LuaValue>) {
    && TextField(t, "Name").Some? && TextField(t, "Alliance").Some? && NumberField(t, "Traffic").Some?
    && NumberField(t, "Militia").Some? && NumberField(t, "Landable").Some?
  }

  /** The planet a valid table replaces an old one with; Landable is true when non-zero. */
  function PlanetFromTable(t: map<TableKey, LuaValue>, old_: Planet): Planet
    requires PlanetTableValid(t)
  {
    Planet(TextField(t, "Name").value, TextField(t, "Alliance").value, NumberField(t, "Landable").value != 0,
           NumberField(t, "Traffic").value, NumberField(t, "Militia").value,
           old_.influence, old_.militia, old_.technologies)
  }

  /** setPlanetInfo: the planet registered under the table's Name is replaced; an unknown Name changes nothing. */
  function PlanetUpdate(args: seq<LuaValue>, planets: map<string, Planet>): (r: (HostResult, map<string, Planet>))
    ensures SetterArgument(args).Err? ==> r == (Raised(SetterArgument(args).error), planets)
    ensures SetterArgument(args).Ok? && !PlanetTableValid(SetterArgument(args).value) ==> r == (Raised(BadArgument(2)), planets)
    ensures SetterArgument(args).Ok? && PlanetTableValid(SetterArgument(args).value) ==>
      && r.0 == Returned([])
      && (TextField(SetterArgument(args).value, "Name").value !in planets ==> r.1 == planets)
    ensures r.0.Raised? || r.0 == Returned([])
    ensures r.1.Keys == planets.Keys
    ensures forall k | k in planets ::
      && r.1[k].influence == planets[k].influence
      && r.1[k].militia == planets[k].militia
      && r.1[k].technologies == planets[k].technologies
    ensures forall k | k in planets && r.1[k] != planets[k] ::
      r.0 == Returned([]) && k == TextField(args[0].entries, "Name").value
    ensures r.0 == Returned([]) ==>
      var t := args[0].entries;
      var name := TextField(t, "Name").value;
      name in planets ==> r.1[name] == PlanetFromTable(t, planets[name])
  {
    match SetterArgument(args)
    case Err(e) => (Raised(e), planets)
    case Ok(t) =>
      if !PlanetTableValid(t) then (Raised(BadArgument(2)), planets)
      else
        var name := TextField(t, "Name").value;
        if name !in planets then (Returned([]), planets)
        else (Returned([]), planets[name := PlanetFromTable(t, planets[name])])
  }

  /** Reading a planet's table by its sprite ID and writing it straight back leaves the planets as they were. */
  lemma PlanetGetThenSet(sprites: map<int, Sprite>, planets: map<string, Planet>, id: int)
    requires PlanetSpritesRegistered(sprites, planets)
    requires KeyedByName(planets, (p: Planet) => p.name)
    requires id in sprites && sprites[id].drawOrder == DRAW_ORDER_PLANET
    ensures GetPlanetInfo([LNumber(id)], sprites, planets).Returned?
    ensures PlanetUpdate(GetPlanetInfo([LNumber(id)], sprites, planets).values, planets) == (Returned([]), planets)
  {
    var p := planets[sprites[id].name];
    var t := PlanetInfo(p);
    assert Field(t, "Name") == LString(p.name);
    assert Field(t, "Alliance") == LString(p.alliance);
    assert Field(t, "Traffic") == LNumber(p.traffic);
    assert Field(t, "Militia") == LNumber(p.militiaSize);
    assert Field(t, "Landable") == LNumber(BoolNumber(p.landable));
    assert PlanetFromTable(t, p) == p;
    assert planets[p.name := p] == planets;
  }

  /**
   * After a table is written to a registered planet, reading any planet
   * sprite of that name gives the table's values, with Landable read back as
   * 1 or 0.
   */
  lemma PlanetSetThenGet(sprites: map<int, Sprite>, planets: map<string, Planet>, t: map<TableKey, LuaValue>, id: int)
    requires PlanetSpritesRegistered(sprites, planets)
    requires PlanetTableValid(t)
    requires id in sprites && sprites[id].drawOrder == DRAW_ORDER_PLANET
    requires sprites[id].name == TextField(t, "Name").value
    ensures PlanetSpritesRegistered(sprites, PlanetUpdate([LTable(t)], planets).1)
    ensures var got := GetPlanetInfo([LNumber(id)], sprites, PlanetUpdate([LTable(t)], planets).1);
      && got.Returned? && |got.values| == 1 && got.values[0].LTable?
      && var info := got.values[0].entries;
      && Field(info, "Name") == LString(TextField(t, "Name").value)
      && Field(info, "Alliance") == LString(TextField(t, "Alliance").value)
      && NumberField(info, "Traffic") == NumberField(t, "Traffic")
      && NumberField(info, "Militia") == NumberField(t, "Militia")
      && NumberField(info, "Landable") == Some(if NumberField(t, "Landable").value != 0 then 1 else 0)
  {
    var name := TextField(t, "Name").value;
    var p := PlanetFromTable(t, planets[name]);
    assert SetterArgument([LTable(t)]) == Ok(t);
    assert PlanetUpdate([LTable(t)], planets).1 == planets[name := p];
    PlanetInfoFields(p);
  }

  // --------------------------------------------------------------- weapons

  datatype Weapon = Weapon(name: string, image: string, picture: string, weaponType: int, payload: int,
                           velocity: int, acceleration: int, ammoType: int, ammoConsumption: int,
                           fireDelay: int, lifetime: int, sound: string)

  function WeaponInfo(w: Weapon): map<TableKey, LuaValue> {
    map[KStr("Name") := LString(w.name), KStr("Payload") := LNumber(w.payload),
        KStr("Velocity") := LNumber(w.velocity), KStr("Acceleration") := LNumber(w.acceleration),
        KStr("FireDelay") := LNumber(w.fireDelay), KStr("Lifetime") := LNumber(w.lifetime)]
  }

  /** getWeaponInfo: an unknown weapon name is a script error. */
  function GetWeaponInfo(args: seq<LuaValue>, weapons: map<string, Weapon>): (r: HostResult)
    ensures !r.Crashed?
    ensures GetterName(args).Err? ==> r == Raised(GetterName(args).error)
    ensures GetterName(args).Ok? ==>
      var name := GetterName(args).value;
      && (r == Raised(NoSuchName(name)) <==> name !in weapons)
      && (name in weapons ==> r == Returned([LTable(WeaponInfo(weapons[name]))]))
  {
    match GetterName(args)
    case Err(e) => Raised(e)
    case Ok(name) =>
      if name !in weapons then Raised(NoSuchName(name))
      else Returned([LTable(WeaponInfo(weapons[name]))])
  }

  predicate WeaponTableValid(t: map<TableKey, LuaValue>) {
    && TextField(t, "Name").Some? && NumberField(t, "Payload").Some? && NumberField(t, "Velocity").Some?
    && NumberField(t, "Acceleration").Some? && NumberField(t, "FireDelay").Some? && NumberField(t, "Lifetime").Some?
  }

  /** The weapon a valid table replaces an old one with: image, picture, type, ammunition and sound are kept. */
  function WeaponFromTable(t: map<TableKey, LuaValue>, old_: Weapon): Weapon
    requires WeaponTableValid(t)
  {
    Weapon(TextField(t, "Name").value, old_.image, old_.picture, old_.weaponType, NumberField(t, "Payload").value,
           NumberField(t, "Velocity").value, NumberField(t, "Acceleration").value, old_.ammoType,
           old_.ammoConsumption, NumberField(t, "FireDelay").value, NumberField(t, "Lifetime").value, old_.sound)
  }

  /** setWeaponInfo: the weapon registered under the table's Name is replaced; an unknown Name changes nothing. */
  function WeaponUpdate(args: seq<LuaValue>, weapons: map<string, Weapon>): (r: (HostResult, map<string, Weapon>))
    ensures SetterArgument(args).Err? ==> r == (Raised(SetterArgument(args).error), weapons)
    ensures SetterArgument(args).Ok? && !WeaponTableValid(SetterArgument(args).value) ==> r == (Raised(BadArgument(2)), weapons)
    ensures SetterArgument(args).Ok? && WeaponTableValid(SetterArgument(args).value) ==>
      && r.0 == Returned([])
      && (TextField(SetterArgument(args).value, "Name").value !in weapons ==> r.1 == weapons)
    ensures r.0.Raised? || r.0 == Returned([])
    ensures r.1.Keys == weapons.Keys
    ensures forall k | k in weapons ::
      && r.1[k].image == weapons[k].image && r.1[k].picture == weapons[k].picture
      && r.1[k].weaponType == weapons[k].weaponType && r.1[k].ammoType == weapons[k].ammoType
      && r.1[k].ammoConsumption == weapons[k].ammoConsumption && r.1[k].sound == weapons[k].sound
    ensures forall k | k in weapons && r.1[k] != weapons[k] ::
      r.0 == Returned([]) && k == TextField(args[0].entries, "Name").value
    ensures r.0 == Returned([]) ==>
      var t := args[0].entries;
      var name := TextField(t, "Name").value;
      name in weapons ==> r.1[name] == WeaponFromTable(t, weapons[name])
  {
    match SetterArgument(args)
    case Err(e) => (Raised(e), weapons)
    case Ok(t) =>
      if !WeaponTableValid(t) then (Raised(BadArgument(2)), weapons)
      else
        var name := TextField(t, "Name").value;
        if name !in weapons then (Returned([]), weapons)
        else (Returned([]), weapons[name := WeaponFromTable(t, weapons[name])])
  }

  /** Reading a weapon's table and writing it straight back leaves the registry as it was. */
  lemma WeaponGetThenSet(weapons: map<string, Weapon>, name: string)
    requires KeyedByName(weapons, (w: Weapon) => w.name)
    requires name in weapons
    ensures GetWeaponInfo([LString(name)], weapons).Returned?
    ensures WeaponUpdate(GetWeaponInfo([LString(name)], weapons).values, weapons) == (Returned([]), weapons)
  {
    var w := weapons[name];
    var t := WeaponInfo(w);
    assert Field(t, "Name") == LString(w.name);
    assert Field(t, "Payload") == LNumber(w.payload);
    assert Field(t, "Velocity") == LNumber(w.velocity);
    assert Field(t, "Acceleration") == LNumber(w.acceleration);
    assert Field(t, "FireDelay") == LNumber(w.fireDelay);
    assert Field(t, "Lifetime") == LNumber(w.lifetime);
    assert WeaponFromTable(t, w) == w;
    assert weapons[name := w] == weapons;
  }

  // --------------------------------------------------------------- engines

  datatype Engine = Engine(name: string, thrustSound: string, force: int, msrp: int, foldDrive: bool, flare: string)

  function EngineInfo(e: Engine): map<TableKey, LuaValue> {
    map[KStr("Name") := LString(e.name), KStr("Force") := LNumber(e.force), KStr("Animation") := LString(e.flare),
        KStr("MSRP") := LNumber(e.msrp), KStr("Fold Drive") := LNumber(BoolNumber(e.foldDrive))]
  }

  /** getEngineInfo: an unknown engine name is a script error. */
  function GetEngineInfo(args: seq<LuaValue>, engines: map<string, Engine>): (r: HostResult)
    ensures !r.Crashed?
    ensures GetterName(args).Err? ==> r == Raised(GetterName(args).error)
    ensures GetterName(args).Ok? ==>
      var name := GetterName(args).value;
      && (r == Raised(NoSuchName(name)) <==> name !in engines)
      && (name in engines ==> r == Returned([LTable(EngineInfo(engines[name]))]))
  {
    match GetterName(args)
    case Err(e) => Raised(e)
    case Ok(name) =>
      if name !in engines then Raised(NoSuchName(name))
      else Returned([LTable(EngineInfo(engines[name]))])
  }

  predicate EngineTableValid(t: map<TableKey, LuaValue>) {
    && TextField(t, "Name").Some? && NumberField(t, "Force").Some? && TextField(t, "Animation").Some?
    && NumberField(t, "MSRP").Some? && NumberField(t, "Fold Drive").Some?
  }

  /** The engine a valid table replaces an old one with: the thrust sound is kept; the fold drive is on when non-zero. */
  function EngineFromTable(t: map<TableKey, LuaValue>, old_: Engine): Engine
    requires EngineTableValid(t)
  {
    Engine(TextField(t, "Name").value, old_.thrustSound, NumberField(t, "Force").value, NumberField(t, "MSRP").value,
           NumberField(t, "Fold Drive").value != 0, TextField(t, "Animation").value)
  }

  /** setEngineInfo: the engine registered under the table's Name is replaced; an unknown Name changes nothing. */
  function EngineUpdate(args: seq<LuaValue>, engines: map<string, Engine>): (r: (HostResult, map<string, Engine>))
    ensures SetterArgument(args).Err? ==> r == (Raised(SetterArgument(args).error), engines)
    ensures SetterArgument(args).Ok? && !EngineTableValid(SetterArgument(args).value) ==> r == (Raised(BadArgument(2)), engines)
    ensures SetterArgument(args).Ok? && EngineTableValid(SetterArgument(args).value) ==>
      && r.0 == Returned([])
      && (TextField(SetterArgument(args).value, "Name").value !in engines ==> r.1 == engines)
    ensures r.0.Raised? || r.0 == Returned([])
    ensures r.1.Keys == engines.Keys
    ensures forall k | k in engines :: r.1[k].thrustSound == engines[k].thrustSound
    ensures forall k | k in engines && r.1[k] != engines[k] ::
      r.0 == Returned([]) && k == TextField(args[0].entries, "Name").value
    ensures r.0 == Returned([]) ==>
      var t := args[0].entries;
      var name := TextField(t, "Name").value;
      name in engines ==> r.1[name] == EngineFromTable(t, engines[name])
  {
    match SetterArgument(args)
    case Err(e) => (Raised(e), engines)
    case Ok(t) =>
      if !EngineTableValid(t) then (Raised(BadArgument(2)), engines)
      else
        var name := TextField(t, "Name").value;
        if name !in engines then (Returned([]), engines)
        else (Returned([]), engines[name := EngineFromTable(t, engines[name])])
  }

  /** Reading an engine's table and writing it straight back leaves the registry as it was. */
  lemma EngineGetThenSet(engines: map<string, Engine>, name: string)
    requires KeyedByName(engines, (e: Engine) => e.name)
    requires name in engines
    ensures GetEngineInfo([LString(name)], engines).Returned?
    ensures EngineUpdate(GetEngineInfo([LString(name)], engines).values, engines) == (Returned([]), engines)
  {
    var e := engines[name];
    var t := EngineInfo(e);
    assert Field(t, "Name") == LString(e.name);
    assert Field(t, "Force") == LNumber(e.force);
    assert Field(t, "Animation") == LString(e.flare);
    assert Field(t, "MSRP") == LNumber(e.msrp);
    assert Field(t, "Fold Drive") == LNumber(BoolNumber(e.foldDrive));
    assert EngineFromTable(t, e) == e;
    assert engines[name := e] == engines;
  }

  // ---------------------------------------------------------- technologies

  /** getTechnologyInfo: three tables, the technology's model, weapon and engine names in list order. */
  function TechnologyInfo(args: seq<LuaValue>, techs: map<string, Technologies.TechValue>): (r: HostResult)
    ensures !r.Crashed?
    ensures GetterName(args).Err? ==> r == Raised(GetterName(args).error)
    ensures GetterName(args).Ok? ==> (r == Raised(NoSuchName(GetterName(args).value)) <==> GetterName(args).value !in techs)
    ensures r.Returned? ==> |r.values| == 3
    ensures r.Returned? ==>
      var t := techs[GetterName(args).value];
      ListsNames(r.values[0], t.models) && ListsNames(r.values[1], t.weapons) && ListsNames(r.values[2], t.engines)
  {
    match GetterName(args)
    case Err(e) => Raised(e)
    case Ok(name) =>
      if name !in techs then Raised(NoSuchName(name))
      else
        var t := techs[name];
        Returned([NameTable(t.models), NameTable(t.weapons), NameTable(t.engines)])
  }

  /** A technology saved and loaded again shows scripts the same three tables, when every item still resolves. */
  lemma TechnologyInfoSurvivesSaveAndLoad(techs: map<string, Technologies.TechValue>, name: string,
                                          cat: Technologies.Catalogs)
    requires name in techs && Technologies.AllResolve(techs[name], cat)
    ensures var reloaded := Technologies.ParseChildren(Technologies.EMPTY_TECHNOLOGY, cat,
                                                        Technologies.XmlChildren(techs[name]));
      TechnologyInfo([LString(name)], techs[name := reloaded]) == TechnologyInfo([LString(name)], techs)
  {
    Technologies.SaveThenLoad(techs[name], cat);
  }

  /** setTechnologyInfo: checks its argument and changes nothing (it is not implemented). */
  function SetTechnologyInfo(args: seq<LuaValue>): (r: HostResult)
    ensures r == Returned([]) <==> SetterArgument(args).Ok?
    ensures SetterArgument(args).Err? ==> r == Raised(SetterArgument(args).error)
  {
    match SetterArgument(args)
    case Err(e) => Raised(e)
    case Ok(_) => Returned([])
  }

  /** The registries the setters overwrite in place, and the ones the getters read. */
  class Registries {
    var models: map<string, Model>
    var planets: map<string, Planet>
    var weapons: map<string, Weapon>
    var engines: map<string, Engine>
    var technologies: map<string, Technologies.TechValue>

    constructor ()
      ensures models == map[] && planets == map[] && weapons == map[] && engines == map[] && technologies == map[]
    {
      models := map[];
      planets := map[];
      weapons := map[];
      engines := map[];
      technologies := map[];
    }

    method SetModelInfo(args: seq<LuaValue>) returns (r: HostResult)
      modifies this`models
      ensures (r, models) == ModelUpdate(args, old(models))
    {
      var t: map<TableKey, LuaValue>;
      match SetterArgument(args) {
        case Err(e) => return Raised(e);
        case Ok(entries) => t := entries;
      }
      if !ModelTableValid(t) {
        return Raised(BadArgument(2));
      }
      var name := TextField(t, "Name").value;
      if name !in models {
        return Returned([]);
      }
      models := models[name := ModelFromTable(t, models[name])];
      r := Returned([]);
    }

    method SetPlanetInfo(args: seq<LuaValue>) returns (r: HostResult)
      modifies this`planets
      ensures (r, planets) == PlanetUpdate(args, old(planets))
    {
      var t: map<TableKey, LuaValue>;
      match SetterArgument(args) {
        case Err(e) => return Raised(e);
        case Ok(entries) => t := entries;
      }
      if !PlanetTableValid(t) {
        return Raised(BadArgument(2));
      }
      var name := TextField(t, "Name").value;
      if name !in planets {
        return Returned([]);
      }
      planets := planets[name := PlanetFromTable(t, planets[name])];
      r := Returned([]);
    }

    method SetWeaponInfo(args: seq<LuaValue>) returns (r: HostResult)
      modifies this`weapons
      ensures (r, weapons) == WeaponUpdate(args, old(weapons))
    {
      var t: map<TableKey, LuaValue>;
      match SetterArgument(args) {
        case Err(e) => return Raised(e);
        case Ok(entries) => t := entries;
      }
      if !WeaponTableValid(t) {
        return Raised(BadArgument(2));
      }
      var name := TextField(t, "Name").value;
      if name !in weapons {
        return Returned([]);
      }
      weapons := weapons[name := WeaponFromTable(t, weapons[name])];
      r := Returned([]);
    }

    method SetEngineInfo(args: seq<LuaValue>) returns (r: HostResult)
      modifies this`engines
      ensures (r, engines) == EngineUpdate(args, old(engines))
    {
      var t: map<TableKey, LuaValue>;
      match SetterArgument(args) {
        case Err(e) => return Raised(e);
        case Ok(entries) => t := entries;
      }
      if !EngineTableValid(t) {
        return Raised(BadArgument(2));
      }
      var name := TextField(t, "Name").value;
      if name !in engines {
        return Returned([]);
      }
      engines := engines[name := EngineFromTable(t, engines[name])];
      r := Returned([]);
    }

    /** Pushes the model, weapon and engine tables of the named technology. */
    method GetTechnologyInfo(args: seq<LuaValue>) returns (r: HostResult)
      ensures r == TechnologyInfo(args, technologies)
    {
      var name: string;
      match GetterName(args) {
        case Err(e) => return Raised(e);
        case Ok(n) => name := n;
      }
      if name !in technologies {
        return Raised(NoSuchName(name));
      }
      var tech := technologies[name];
      var modelTable := PushNames(tech.models);
      var weaponTable := PushNames(tech.weapons);
      var engineTable := PushNames(tech.engines);
      r := Returned([modelTable, weaponTable, engineTable]);
    }
  }
}
