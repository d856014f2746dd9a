# Epiar input dispatcher, script bridge and technologies — a Dafny model

This project models three pieces of the Epiar space-trading engine and proves properties of them.

**The input dispatcher** (`Input`). Once per frame it drains the platform's queued device events into a batch of engine events. Along the way it keeps a table of held keys:

- Escape on either edge asks to quit.
- Any other key-down enqueues a Down event, then a Typed event whose character takes shift into account.
- Each held key then adds a Pressed event, in ascending key order.

The batch passes through the UI, the console and the heads-up display; each claims the events it wants. The script command bound to each remaining event then runs. Scripts bind commands with `RegisterKey`, where the first binding of an event wins, and unbind them with `UnRegisterKey`.

**The script bridge** (`Lua`). It covers:

- the life cycle of the single embedded Lua interpreter: Init, Close, and the lazy initialisation done by Load and Run;
- the output buffer drained by GetOutput;
- `Call`, which pushes typed arguments and retrieves typed results according to a signature string such as `"ds>i"`;
- the host functions scripts call: name and sprite tables, sprite handles tagged by draw order, sprite look-up by ID, and the `get`/`set` pairs that expose a model, planet, weapon, engine or technology as a table.

**Technologies**. A technology is a named group of ship models, engines and weapons. It is loaded field by field (`parserCB`) and saved as a list of child nodes (`ToXMLNode`).

How the modules map to the source:

| Module | File | Source |
|---|---|---|
| `InputEvents` | `input_events.dfy` | event values, mouse-button classification, typed-character mapping |
| `InputSystem` | `input.dfy` | one frame as values (`Drain`, `PressedEvents`, `Chain`, `CommandsFor`) and the class `Input` proved against them |
| `LuaValues` | `lua_values.dfy` | values crossing the script boundary, and the coercions `lua_isnumber`/`lua_tonumber` and `lua_isstring`/`lua_tostring` |
| `LuaRuntime` | `lua_runtime.dfy` | the life-cycle state machine with the class `Lua`, and the `Call` protocol |
| `LuaHost` | `lua_host.dfy` | the host functions, and the class `Registries` whose setters overwrite records in place |
| `Technologies` | `technologies.dfy` | the `Technology` class, its save/load round trip and the singleton |

The interpreter and the platform are abstract. Each is replaced by a parameter:

- whether an interpreter can be created;
- whether a file loads and executes;
- what a called script function returns;
- the drained device events;
- the tick count;
- the consumers' claim predicates.

Close (`Source/Utilities/lua.cpp:190-199`) closes the interpreter but never clears `luaInitialized`; when the runtime is not initialised it only warns that Lua cannot be deinitialised. So an Init after Close is refused. `LuaRuntime.InitAfterClose` states the consequence.

## Model

| member | source | states |
|---|---|---|
| LuaValues.ToNumber | Source/Utilities/lua.cpp:130-141 | a number converts to itself, a string to its decimal value, anything else to nothing |
| LuaValues.NumberText | Source/Utilities/lua.cpp:144-147 | a number written with "%.14g": below 10^14 in magnitude its exact decimal text, from 10^14 on an exponent form containing 'e' |
| LuaValues.ExponentForm | Source/Utilities/lua.cpp:144-147 | the exponent form always contains the exponent marker 'e' |
| LuaValues.DigitCountBetween | Source/Utilities/lua.cpp:144-147 | a number from 10^k up to 10^(k+1) is written with k + 1 digits |
| LuaValues.FifteenDigitNumbers | Source/Utilities/lua.cpp:144-147 | every number from 10^14 up to 10^15 has decimal exponent 14 and so takes the exponent form |
| LuaValues.FifteenthDigitRounded | Source/Utilities/lua.cpp:144-147 | "%.14g" keeps 14 significant digits: 10^14 keeps the digits of 10^13, and a fifteenth digit is rounded away, ties going to the even neighbour |
| LuaValues.ToText | Source/Utilities/lua.cpp:144-147 | exactly strings and numbers convert; a string converts to itself; a number below 10^14 in magnitude to its exact decimal text, a larger one to an exponent form |
| LuaValues.NumberTextRoundTrip | Source/Utilities/lua.cpp:144-147 | a number below 10^14 in magnitude converted to text converts back to the same number |
| InputEvents.KeyStateOf | Source/Input/input.cpp:336 | the integer a script gives converts to a key state whose enum value is that integer; 0..3 are the named states |
| InputEvents.CheckMouseState | Source/Input/input.cpp:142-157 | left, middle and right map to their up/down states; the wheel yields an event on release only; the result is unhandled exactly for other buttons and wheel presses, and otherwise names the same button, as a release exactly when up |
| InputEvents.TypedLetter | Source/Input/input.cpp:248-297 | Return and keypad Enter type a newline; without shift a key types its own code; with shift letters are upper-cased, digits go through ")!@#$%^&*(" and the punctuation through its table, semicolon staying ';'; any other key types its own code |
| InputEvents.ShiftedOneAndEnter | Source/Input/input.cpp:257-292 | shift+1 types '!'; Enter types a newline with or without shift |
| InputSystem.UnhandledButtonEnqueuesNothing | Source/Input/input.cpp:187-203 | a button transition classified as unhandled leaves the frame unchanged |
| InputSystem.Drain | Source/Input/input.cpp:81-116 | draining keeps one held flag per key code and only appends to the batch |
| InputSystem.PressedEvents | Source/Input/input.cpp:118-122 | one Pressed event per held key, for held keys only, in strictly ascending key order |
| InputSystem.Unclaimed | Source/Input/input.cpp:124-127 | every event left is one of the batch the consumer does not claim, and no more events are left than the batch holds |
| InputSystem.UnclaimedKeeps | Source/Input/input.cpp:124-127 | every event of the batch the consumer does not claim is left |
| InputSystem.UnclaimedSingle | Source/Input/input.cpp:124-127 | a single event is left exactly when the consumer does not claim it |
| InputSystem.UnclaimedSnoc | Source/Input/input.cpp:124-127 | an event added at the end of the batch is added at the end of what is left exactly when the consumer does not claim it |
| InputSystem.UnclaimedAppend | Source/Input/input.cpp:124-127 | the events left of a concatenated batch are the concatenated leftovers of its parts; with UnclaimedSingle, the leftovers keep batch order and multiplicity |
| InputSystem.CommandsFor | Source/Input/input.cpp:302-309 | at most one command per event of the batch, each a bound command |
| InputSystem.Insert | Source/Input/input.cpp:313-316 | registration adds a binding only for an unbound event; existing bindings, including one for the same event, are unchanged |
| InputSystem.RegisterThenUnregister | Source/Input/input.cpp:313-323 | registering then unregistering an event removes it and leaves every other binding |
| InputSystem.CommandsForAppend | Source/Input/input.cpp:302-309 | the commands of a concatenated batch are the concatenation of the commands of its parts |
| InputSystem.BoundEventRuns | Source/Input/input.cpp:302-309 | every bound event of the batch runs its command |
| InputSystem.AbsentBindingIgnored | Source/Input/input.cpp:302-309 | a binding for an event not in the batch plays no part |
| InputSystem.ClaimedEventNeverTriggers | Source/Input/input.cpp:124-128 | an event claimed by the UI, the console or the heads-up display never runs its bound command |
| InputSystem.DrainQuit | Source/Input/input.cpp:77-138 | the frame reports quit iff a window close or an Escape key event was drained |
| InputSystem.StepHeld | Source/Input/input.cpp:208-246 | one device event changes a key's held flag only when it is a non-Escape down (held) or up (released) of that key |
| InputSystem.DrainHeld | Source/Input/input.cpp:208-246 | after draining, a key is held iff its last transition was down, or it was held before and did not move |
| InputSystem.BoundKeyDownRunsCommand | Source/Input/input.cpp:77-138 | a bound key-down that no consumer claims runs its command in the same frame |
| InputSystem.Utf8LeadByte | Source/Input/input.cpp:334 | the first byte of a character's UTF-8 encoding: ASCII is itself, any other character a lead byte of at least 0xC0 |
| InputSystem.TriggerKey | Source/Input/input.cpp:330-335 | the trigger key is the number if the argument is numeric; else the first byte of the string read as a signed char: 0 for the empty string, the code of an ASCII character, a negative value for any other; nothing for values that are neither |
| InputSystem.NonAsciiKeyIsNegative | Source/Input/input.cpp:334-335 | the key string "é" names key -61 (its lead byte 0xC3 as a signed char); "q" names the code of 'q' |
| InputSystem.KeyEventArgs | Source/Input/input.cpp:330-336 | the key event is formed iff the key and state arguments convert, and it is the event of the trigger key with the state numbered by the state argument; a bad key is an error on argument 1, otherwise a bad state on argument 2 |
| InputSystem.BindingArgs | Source/Input/input.cpp:327-343 | RegisterKey needs exactly 3 arguments; it succeeds iff the key event is formed and the third argument converts to text, giving that event and that text; otherwise the key event's error |
| InputSystem.RegisteredKeyDownRuns | Source/Input/input.cpp:327-343 | RegisterKey(k, 1, command) binds the key-down of k, and once registered on an unbound key-down an unclaimed press of k runs the command |
| InputSystem.UnbindingArgs | Source/Input/input.cpp:347-362 | UnRegisterKey needs exactly 2 arguments, and with 2 names the same key event, or fails with the same error, as the key event arguments |
| InputSystem.UnbindingMatchesBinding | Source/Input/input.cpp:327-362 | UnRegisterKey with the same key and state names the event RegisterKey bound |
| InputSystem.Input.constructor | Source/Input/input.cpp:71-73 | no key is held; the batch is empty, and the bindings and the last mouse move start at the static members' initial values (an empty map and 0) |
| InputSystem.Input.Update | Source/Input/input.cpp:77-138 | held keys, quit and the last mouse move are those of draining the events; the commands run are those bound to what the consumers leave of the drained events plus the pressed events; the batch is empty afterwards and the bindings unchanged, since running a command has no effect in this model |
| InputSystem.Input.Dispatch | Source/Input/input.cpp:124-134 | the commands run are those bound to what the UI, the console and the heads-up display leave of the batch; the batch is emptied |
| InputSystem.Input.DrainEvents | Source/Input/input.cpp:81-116 | the polling loop leaves the batch, held keys and quit flag equal to draining the events in order |
| InputSystem.Input.EmitHeldKeys | Source/Input/input.cpp:118-122 | appends exactly the pressed events of the held keys, in key order |
| InputSystem.Input.HandleMouseMotion | Source/Input/input.cpp:161-173 | appends a motion event and records the tick count |
| InputSystem.Input.HandleMouseDown | Source/Input/input.cpp:177-189 | appends the classified press, or nothing when it is unhandled |
| InputSystem.Input.HandleMouseUp | Source/Input/input.cpp:193-204 | appends the classified release, or nothing when it is unhandled |
| InputSystem.Input.HandleKeyDown | Source/Input/input.cpp:208-226 | Escape: quit, nothing appended, held keys untouched; otherwise Down then Typed appended and only that key becomes held |
| InputSystem.Input.HandleKeyUp | Source/Input/input.cpp:230-246 | Escape: quit, nothing appended, held keys untouched; otherwise Up appended and only that key is released |
| InputSystem.Input.PushTypeEvent | Source/Input/input.cpp:248-298 | appends the Typed event for the character the key types under the current shift state |
| InputSystem.Input.HandleLuaCallBacks | Source/Input/input.cpp:302-309 | runs the bound command of each bound event, in batch order |
| InputSystem.Input.RegisterCallBack | Source/Input/input.cpp:313-316 | the bindings become the first-wins insert of the event |
| InputSystem.Input.UnRegisterCallBack | Source/Input/input.cpp:320-323 | the event's binding is removed, if any, and nothing else changes |
| InputSystem.Input.RegisterKey | Source/Input/input.cpp:327-343 | valid arguments insert the binding; otherwise the error is raised and the bindings are unchanged |
| InputSystem.Input.UnRegisterKey | Source/Input/input.cpp:347-362 | valid arguments remove the binding; otherwise the error is raised and the bindings are unchanged |
| LuaRuntime.InitStep | Source/Utilities/lua.cpp:168-188 | refused with no change when already initialised; otherwise succeeds iff the interpreter is created, leaving the runtime initialised with an open interpreter |
| LuaRuntime.CloseStep | Source/Utilities/lua.cpp:190-199 | succeeds iff initialised, then closes the interpreter; the initialised flag never changes |
| LuaRuntime.LoadStep | Source/Utilities/lua.cpp:39-61 | initialises only when not initialised; succeeds iff initialisation (if needed) succeeds and the file loads and executes |
| LuaRuntime.RunStep | Source/Utilities/lua.cpp:66-82 | initialises only when not initialised, and always answers false |
| LuaRuntime.StepsKeepConsistent | Source/Utilities/lua.cpp:168-199 | every step keeps "initialised iff an interpreter exists" |
| LuaRuntime.InitTwice | Source/Utilities/lua.cpp:168-172 | a second Init after a successful one is refused and changes nothing |
| LuaRuntime.SecondCloseReachesClosedInterpreter | Source/Utilities/lua.cpp:190-199 | after a successful Close the interpreter is closed but the flag is still set, so a second Close passes the flag check and closes it again |
| LuaRuntime.InitAfterClose | Source/Utilities/lua.cpp:190-199 | after Init and Close, Close succeeded but a new Init is still refused |
| LuaRuntime.LazyInitialization | Source/Utilities/lua.cpp:39-75 | Load and Run initialise only an uninitialised runtime, and Load fails if that initialisation fails |
| LuaRuntime.ArgCount | Source/Utilities/lua.cpp:96-119 | the number of leading type letters of the signature: all letters before it are types, the one after it is not |
| LuaRuntime.SplitSig | Source/Utilities/lua.cpp:96-122 | the signature fails with "invalid option" iff the first non-type character before '>' is not '>'; otherwise the arguments are the leading type letters and the results everything after '>' |
| LuaRuntime.Pushed | Source/Utilities/lua.cpp:100-111 | one pushed value per argument, in order |
| LuaRuntime.Convert | Source/Utilities/lua.cpp:128-152 | 'd'/'i' accept exactly convertible numbers, 's' exactly strings and numbers, any other letter is an invalid option |
| LuaRuntime.Collect | Source/Utilities/lua.cpp:127-154 | all results convert iff retrieval succeeds, giving one value per letter; otherwise the error is that of the first failing result |
| LuaRuntime.CallArguments | Source/Utilities/lua.cpp:96-121 | the function receives one value per argument letter, strings for 's' |
| LuaRuntime.CallResults | Source/Utilities/lua.cpp:121-154 | a successful call returns one value per result letter, a string exactly for 's' |
| LuaRuntime.MissingResultIsWrongType | Source/Utilities/lua.cpp:121-147 | a function returning fewer values than result letters makes the call fail |
| LuaRuntime.PushArguments | Source/Utilities/lua.cpp:96-119 | the argument loop fails as the signature's split does, or pushes the arguments and stops after '>' |
| LuaRuntime.RetrieveResults | Source/Utilities/lua.cpp:127-154 | the result loop computes the in-order retrieval |
| LuaRuntime.Call | Source/Utilities/lua.cpp:87-157 | the call follows the signature protocol: argument check, call with the expected count, result retrieval |
| LuaRuntime.Lua.constructor | Source/Utilities/lua.cpp:35-37 | uninitialised, no interpreter, empty buffer |
| LuaRuntime.Lua.Init | Source/Utilities/lua.cpp:168-188 | performs the Init step on the runtime's fields |
| LuaRuntime.Lua.Close | Source/Utilities/lua.cpp:190-199 | performs the Close step on the runtime's fields |
| LuaRuntime.Lua.Load | Source/Utilities/lua.cpp:39-61 | performs the Load step on the runtime's fields |
| LuaRuntime.Lua.Run | Source/Utilities/lua.cpp:66-82 | performs the Run step on the runtime's fields |
| LuaRuntime.Lua.GetOutput | Source/Utilities/lua.cpp:160-166 | returns the previous buffer exactly and leaves it empty |
| LuaHost.ArrayEntriesLayout | Source/Utilities/lua.cpp:417-428 | a list's table has exactly the indices 1..n, index i holding the i-th value |
| LuaHost.NameTable | Source/Utilities/lua.cpp:417-428 | the table of a name list holds exactly the names, name i at index i |
| LuaHost.PushNames | Source/Utilities/lua.cpp:417-428 | the table has one entry per name, name i at index i |
| LuaHost.PushSprite | Source/Utilities/lua.cpp:387-404 | the handle carries the sprite's ID; ships and the player get the ship tag, planets the planet tag; an error is logged exactly for other draw orders |
| LuaHost.AssertMaskMisclassifies | Source/Utilities/lua.cpp:390 | the debug assertion rejects planets and accepts weapons |
| LuaHost.ScriptVisibleMatchesTagging | Source/Utilities/lua.cpp:390-403 | the corrected assertion holds exactly for the sprites tagged without an error |
| LuaHost.Handles | Source/Utilities/lua.cpp:544-552 | one handle per sprite, in list order |
| LuaHost.PushSprites | Source/Utilities/lua.cpp:530-556 | the sprite table holds the handle of sprite i at index i |
| LuaHost.GetSpriteByID | Source/Utilities/lua.cpp:512-528 | wrong arity and a non-numeric ID are errors; an unknown ID raises "no such ID"; a known ID answers the sprite's handle |
| LuaHost.HandleResolvesUntilRemoved | Source/Utilities/lua.cpp:512-528 | a handle's ID resolves to the same handle while its sprite exists, and to "no such ID" after removal |
| LuaHost.NumberField | Source/Utilities/lua.cpp:448-468 | the luaL_checkint/luaL_checknumber check on a field passes exactly for a number or a numeric string, reading a number as itself; a missing field fails it |
| LuaHost.TextField | Source/Utilities/lua.cpp:470-479 | the luaL_checkstring check on a field passes exactly for a string or a number, reading a string as itself; a missing field fails it |
| LuaHost.MissingFieldIsBadArgument | Source/Utilities/lua.cpp:632-633 | a table whose Mass is missing or a boolean makes setModelInfo raise "bad argument #2" and change nothing |
| LuaHost.SetterArgument | Source/Utilities/lua.cpp:625-631 | setters require exactly one argument, which must be a table |
| LuaHost.GetterName | Source/Utilities/lua.cpp:606-610 | getters require exactly one argument convertible to a name |
| LuaHost.ModelInfoFields | Source/Utilities/lua.cpp:613-620 | the model's table holds its name, engine name, mass, thrust, rotation, top speed and hull under the source's field names |
| LuaHost.GetModelInfoAsWritten | Source/Utilities/lua.cpp:606-623 | argument errors are raised; an unknown model name crashes |
| LuaHost.GetModelInfo | Source/Utilities/lua.cpp:606-623 | never crashes; an unknown name raises "no such name"; agrees with the as-written getter wherever that does not crash |
| LuaHost.UnknownModelCrashes | Source/Utilities/lua.cpp:611-614 | an unregistered name crashes the as-written getter and is an error in the corrected one |
| LuaHost.ModelUpdate | Source/Utilities/lua.cpp:625-646 | arity, non-table and bad fields are errors with no change; only the model under the table's Name changes, taking the table's fields and keeping its image and engine; a valid table always succeeds with no results, and one with an unknown Name changes nothing |
| LuaHost.ModelGetThenSet | Source/Utilities/lua.cpp:606-646 | writing back the table a model was read as leaves the registry unchanged |
| LuaHost.ModelSetThenGet | Source/Utilities/lua.cpp:606-646 | after a set, reading the model gives the table's values, and the old engine rather than the table's |
| LuaHost.GetPlanetInfoAsWritten | Source/Utilities/lua.cpp:648-666 | wrong arity is an error; a numeric ID crashes exactly when no sprite has it |
| LuaHost.PlanetInfoFields | Source/Utilities/lua.cpp:659-664 | the planet's table holds its name, alliance, traffic, militia size and landable flag (1 or 0) under the source's field names |
| LuaHost.GetPlanetInfo | Source/Utilities/lua.cpp:648-666 | never crashes; an unknown ID raises "no such ID", a non-planet sprite "not a planet"; agrees with the as-written getter wherever that does not crash |
| LuaHost.UnknownPlanetCrashes | Source/Utilities/lua.cpp:652-654 | an unregistered ID crashes the as-written getter and is an error in the corrected one |
| LuaHost.PlanetUpdate | Source/Utilities/lua.cpp:668-686 | errors change nothing; a valid table always succeeds with no results, and one with an unknown Name changes nothing; only the planet under the table's Name changes, keeping influence, militia and technologies |
| LuaHost.PlanetGetThenSet | Source/Utilities/lua.cpp:648-686 | writing back the table a planet was read as leaves the planets unchanged |
| LuaHost.PlanetSetThenGet | Source/Utilities/lua.cpp:648-686 | after a table is written to a registered planet, reading any planet sprite of that name gives the table's name, alliance, traffic and militia, and Landable as 1 or 0 |
| LuaHost.GetWeaponInfo | Source/Utilities/lua.cpp:688-705 | an unknown weapon raises "no such name"; a known one answers its table |
| LuaHost.WeaponUpdate | Source/Utilities/lua.cpp:707-726 | errors change nothing; a valid table always succeeds with no results, and one with an unknown Name changes nothing; only the weapon under the table's Name changes, keeping image, picture, type, ammunition and sound |
| LuaHost.WeaponGetThenSet | Source/Utilities/lua.cpp:688-726 | writing back the table a weapon was read as leaves the registry unchanged |
| LuaHost.GetEngineInfo | Source/Utilities/lua.cpp:728-744 | an unknown engine raises "no such name"; a known one answers its table |
| LuaHost.EngineUpdate | Source/Utilities/lua.cpp:746-764 | errors change nothing; a valid table always succeeds with no results, and one with an unknown Name changes nothing; only the engine under the table's Name changes, keeping its thrust sound |
| LuaHost.EngineGetThenSet | Source/Utilities/lua.cpp:728-764 | writing back the table an engine was read as leaves the registry unchanged |
| LuaHost.TechnologyInfo | Source/Utilities/lua.cpp:766-812 | an unknown technology raises "no such name"; a known one answers three tables holding its model, weapon and engine names at indices 1..n, in list order |
| LuaHost.TechnologyInfoSurvivesSaveAndLoad | Source/Utilities/lua.cpp:766-812 | a technology saved and loaded again shows scripts the same tables when all its items resolve |
| LuaHost.SetTechnologyInfo | Source/Utilities/lua.cpp:814-824 | succeeds exactly when the argument checks pass, changing nothing |
| LuaHost.Registries.constructor | Source/Utilities/lua.cpp:606-824 | every registry the getters and setters use starts empty |
| LuaHost.Registries.SetModelInfo | Source/Utilities/lua.cpp:625-646 | overwrites the model registry as the model update says |
| LuaHost.Registries.SetPlanetInfo | Source/Utilities/lua.cpp:668-686 | overwrites the planet registry as the planet update says |
| LuaHost.Registries.SetWeaponInfo | Source/Utilities/lua.cpp:707-726 | overwrites the weapon registry as the weapon update says |
| LuaHost.Registries.SetEngineInfo | Source/Utilities/lua.cpp:746-764 | overwrites the engine registry as the engine update says |
| LuaHost.Registries.GetTechnologyInfo | Source/Utilities/lua.cpp:766-812 | the three table-building loops answer what the technology-info getter specifies |
| Technologies.Group | Source/Engine/technologies.cpp:92-105 | one child with the group's tag per name, in list order |
| Technologies.XmlChildren | Source/Engine/technologies.cpp:86-110 | exactly one name child, first; then one model, weapon and engine child per item, each group in list order |
| Technologies.Resolved | Source/Engine/technologies.cpp:56-76 | every name kept is one of the list the registry resolves |
| Technologies.ResolvedKeeps | Source/Engine/technologies.cpp:56-76 | every name of the list the registry resolves is kept |
| Technologies.ResolvedAll | Source/Engine/technologies.cpp:56-76 | a list whose every name resolves is kept whole |
| Technologies.ResolvedSingle | Source/Engine/technologies.cpp:56-76 | a single name is kept exactly when the registry resolves it |
| Technologies.ResolvedSnoc | Source/Engine/technologies.cpp:56-76 | a name added at the end of the list is added at the end of what is kept exactly when the registry resolves it |
| Technologies.ResolvedAppend | Source/Engine/technologies.cpp:56-76 | resolving a concatenated list resolves the parts in turn; with ResolvedSingle, the kept names keep list order and multiplicity |
| Technologies.ParseChildrenAppend | Source/Engine/technologies.cpp:53-79 | loading a concatenation loads the parts in turn |
| Technologies.ParseModelGroup | Source/Engine/technologies.cpp:56-62 | loading model children appends the resolved models and changes nothing else |
| Technologies.ParseWeaponGroup | Source/Engine/technologies.cpp:70-76 | loading weapon children appends the resolved weapons and changes nothing else |
| Technologies.ParseEngineGroup | Source/Engine/technologies.cpp:63-69 | loading engine children appends the resolved engines and changes nothing else |
| Technologies.SaveThenLoad | Source/Engine/technologies.cpp:53-109 | loading a saved technology rebuilds it, minus the items no longer registered |
| Technologies.Technology.Empty | Source/Engine/technologies.cpp:23 | the empty technology |
| Technologies.Technology.constructor | Source/Engine/technologies.cpp:43-50 | the fields are the given name and lists |
| Technologies.Technology.Assign | Source/Engine/technologies.cpp:27-34 | every field becomes the other technology's |
| Technologies.Technology.ParserCB | Source/Engine/technologies.cpp:53-79 | always true; "name" sets only the name; a resolved model/engine/weapon is appended to its list only; an unresolved one or an unknown field changes nothing |
| Technologies.Technology.ToXMLNode | Source/Engine/technologies.cpp:86-110 | the node has the component name and the saved children |
| Technologies.Technologies.constructor | Source/Engine/technologies.cpp:128-131 | a collection is created with empty root and component names, which Instance then sets |
| Technologies.TechnologiesSingleton.constructor | Source/Engine/technologies.cpp:122 | no instance exists before the first call |
| Technologies.TechnologiesSingleton.Instance | Source/Engine/technologies.cpp:126-133 | the first call creates the instance named "technologies"/"technology"; later calls return it unchanged |

Helpers that only compute a specification value carry no row of their own: `Field` in `LuaValues` (a table look-up that reads nil for a missing key); `Step`, `Batch`, `Chain` and `SignedChar` in `InputSystem`; `CallSpec` and `Adjust` in `LuaRuntime`; the digit and rounding helpers of `LuaValues` (`Pow10`, `DigitCount`, `RoundHalfEven`, `Significand`, `Mantissa`, `ExponentText`); the field parsers of `Technologies`. The rows of the lemmas and methods built on them state their properties.

## Left out

- SDL event polling, enabling the mouse pointer and the mouse-fade timer (`input.cpp:81`, `input.cpp:130-132`): platform I/O and the clock. The drained events and the tick count are parameters.
- The bodies of the UI, console and heads-up display input handlers are not part of this model. Each is a claim predicate that removes the events it claims.
- InputSystem.Unclaimed: each consumer is a stateless claim predicate on a single event. A claim that depends on the event's position in the batch, on earlier events or on the consumer's own state (focus moved by a click, say) is not captured, and ClaimedEventNeverTriggers holds under that abstraction.
- Running a bound command in the interpreter is not modelled. `HandleLuaCallBacks` returns the commands it runs, in order.
- InputSystem.Input.HandleLuaCallBacks: the bindings are fixed for the whole dispatch loop. A command that calls `RegisterKey` or `UnRegisterKey` while it runs can change the binding the loop looks up for a later event of the same batch; the model does not capture that. `InputSystem.Input.Update` states the bindings are unchanged for the same reason.
- The `InputEvent` stream operator and the debug printing: output only.
- The key-state numbering (up 0, down 1, pressed 2, typed 3) is inferred from the stream operator's table, because the input header is not part of this model.
- The mouse handlers' `if (state)` guard (`input.cpp:187`, `input.cpp:202`) is read as "the state is not unhandled". That assumes the unhandled mouse state is enum value 0, which the input header fixes and this model does not include.
- `eventMappings` and `lastMouseMove` are static members in the source (`input.cpp:22-23`), shared by every `Input` and written by the static `RegisterKey`/`UnRegisterKey` callbacks. The model makes them fields of one `Input` object, initialised by its constructor. That matches the source for the single `Input` the engine creates; several instances sharing one binding table are not captured.
- The binding table is keyed by `InputEvent` through the header's `operator<`, which is not part of this model. The model assumes two events name the same binding exactly when they are equal in type, state, key and coordinates.
- Key codes are assumed below `SDLK_LAST`, as the platform reports them.
- The Lua VM: opening the libraries, registering the host functions and the sub-namespaces, loading, executing and calling. These are replaced by success/failure parameters and a function from arguments to results.
- Load and Run after a Close use the closed interpreter. The model does not distinguish a closed interpreter from an open one there.
- LuaRuntime.CloseStep: a second Close calls `lua_close` on an interpreter that was already freed, which is undefined behaviour in the source. The model reports it as a successful Close that leaves the interpreter closed; `SecondCloseReachesClosedInterpreter` states when it happens.
- Who appends to the output buffer is not part of this model.
- LuaRuntime.Call: models a call on an initialised interpreter. The source uses the interpreter state without initialising it first, so a Call before Init dereferences a null state; the model does not capture that.
- LuaRuntime.Call: the interpreter's stack-size check ("too many arguments") is not modelled.
- LuaRuntime.Call: the signature is the characters before its terminating NUL.
- LuaRuntime.Convert: numbers are integers in this model, so the `(int)` truncation of a fractional 'i' result and double precision for 'd' are not modelled.
- LuaValues.ToText: numbers are integers, so "%.14g" is modelled on integral values only. Fractions, and doubles beyond 2^53 whose exact value differs from the integer, are not modelled.
- LuaValues.ToNumber: a numeric string is an optional minus sign followed by decimal digits. Hexadecimal, exponents, fractions and surrounding spaces are not modelled.
- Float fields (mass, rotation, top speed) and `luaL_checkint`'s truncation are not modelled: they are carried as integers.
- Camera, simulation pause, options, console echo, stack dump, alliance/nearest-sprite functions and the spatial query behind `getSprites` with three arguments (`lua.cpp:250-351`, `lua.cpp:482-509`, `lua.cpp:578-604`) are not modelled. They are wrappers over subsystems not part of this model, or floating point. `PushSprites` takes the sprite list the sprite manager returns.
- Logging is not modelled, except the error `pushSprite` logs for an unexpected draw order.
- A model's engine is held by name; a model without an engine is not modelled.
- `getPlanetInfo` casts the sprite to a planet. The model reads the planet registered under the sprite's name, and requires every planet-ordered sprite to be registered that way.
- libxml node construction and the `PPA_MATCHES` macro: children are (tag, text) pairs and the macro is an equality test. Model, engine and weapon pointers are held as names, and their registries as sets of names.
- `Technology::_dbg_PrintInfo`, `GetTechnology` and `newComponent`: debug output or declared only.
- `trig.cpp` and `sprite.h` beyond its draw-order constants: floating point and accessors.

## Findings

| source | as written | input that shows it | evidently intended | confidence | as-written member | corrected member |
|---|---|---|---|---|---|---|
| Source/Utilities/lua.cpp:390 | `assert(order & (SHIP \| PLAYER \| PLANET))` with `DRAW_ORDER_PLANET` = 0, so the mask is 3 | a planet sprite (order 0), as `getPlanets` pushes: `0 & 3 == 0` fails the assertion in a debug build; a weapon (order 1) passes it | the order is one of ship, player or planet, the cases the switch below tags | high, not executed | LuaHost.AssertMaskAsWritten | LuaHost.ScriptVisible |
| Source/Utilities/lua.cpp:611-614 | the model found by name is dereferenced without a NULL check | `getModelInfo("no such model")` | a script error for an unknown name, as `getWeaponInfo` raises | high, not executed | LuaHost.GetModelInfoAsWritten | LuaHost.GetModelInfo |
| Source/Utilities/lua.cpp:652-654 | the sprite found by ID is dereferenced without a NULL check | `getPlanetInfo(n)` for an ID no sprite has | a script error for an unknown ID, as `getSpriteByID` raises | high, not executed | LuaHost.GetPlanetInfoAsWritten | LuaHost.GetPlanetInfo |
