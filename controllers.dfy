/**
 * Game controllers: buttons with a pressed flag, controllers that route
 * `keydown`/`keyup` signals to their buttons (through an alias table for
 * remapped buttons), keyboard bindings, the touch and joystick variants, and
 * the registry that creates a controller from its type name.
 *
 * A controller's built-in signal handlers are modelled directly; every event
 * triggered on a controller is recorded, in call order, in `emitted`, which is
 * what listeners registered by the game would observe.
 */
module GameControllers {
  import opened Js

  datatype Kind =
    | OneButton | TwoButtons | TwoActionButtons | FourButtons | FiveButtons
    | SixButtons | TwoArrowsOneButton | TwoArrowsTwoButtons | FourArrows
    | Touch | Joystick | JoystickWithButton

  predicate IsJoystick(k: Kind)
  {
    k == Joystick || k == JoystickWithButton
  }

  /** `TouchController.prototype` is created from itself rather than from
    * `Controller.prototype`, so a touch controller lacks `addButton`,
    * `enableKeyboard` and `remapButton`. */
  predicate HasControllerMethods(k: Kind)
  {
    k != Touch
  }

  /** Which copy of the controller code runs: `Current` is
    * gamee/src/game_controllers.js (and both gamee/dist bundles); `Legacy` is
    * src/controller.js and the dist/gamee*.js bundles. */
  datatype Lineage = Current | Legacy

  /** The registry of controller types: twelve kinds in gamee/, six in
    * src/controller.js and dist/gamee.all.devel.js, five in dist/gamee.js. */
  datatype Registry = Full12 | Legacy6 | Legacy5

  function LineageOf(r: Registry): Lineage
  {
    if r == Full12 then Current else Legacy
  }

  /** `controllerTypes[type]`. */
  function KindNamed(r: Registry, t: string): Option<Kind>
  {
    match t
    case "OneButton" => Some(OneButton)
    case "TwoButtons" => Some(TwoButtons)
    case "FourButtons" => Some(FourButtons)
    case "FiveButtons" => Some(FiveButtons)
    case "SixButtons" => Some(SixButtons)
    case "Touch" => if r == Legacy5 then None else Some(Touch)
    case "FourArrows" => if r == Full12 then Some(FourArrows) else None
    case "Joystick" => if r == Full12 then Some(Joystick) else None
    case "JoystickWithButton" => if r == Full12 then Some(JoystickWithButton) else None
    case "TwoArrowsTwoButtons" => if r == Full12 then Some(TwoArrowsTwoButtons) else None
    case "TwoArrowsOneButton" => if r == Full12 then Some(TwoArrowsOneButton) else None
    case "TwoActionButtons" => if r == Full12 then Some(TwoActionButtons) else None
    case _ => None
  }

  /** The buttons a controller's constructor adds, in order: name and key code. */
  function Layout(k: Kind): seq<(string, int)>
  {
    match k
    case OneButton => [("button", 32)]
    case TwoButtons => [("left", 37), ("right", 39)]
    case TwoActionButtons => [("A", 32), ("B", 17)]
    case FourButtons => [("up", 38), ("left", 37), ("right", 39), ("A", 32)]
    case FiveButtons => [("up", 38), ("left", 37), ("right", 39), ("down", 40), ("A", 32)]
    case SixButtons => [("up", 38), ("left", 37), ("right", 39), ("down", 40), ("A", 32), ("B", 17)]
    case TwoArrowsOneButton => [("left", 37), ("right", 39), ("A", 32)]
    case TwoArrowsTwoButtons => [("left", 37), ("right", 39), ("A", 32), ("B", 17)]
    case FourArrows => [("up", 38), ("left", 37), ("right", 39), ("down", 40)]
    case Touch => []
    case Joystick => []
    case JoystickWithButton => [("button", 32)]
  }

  /** The second argument of `remapButton`: a plain string, or an object whose
    * `name` property is a string or absent. */
  datatype NewName = Plain(s: string) | Named(name: Option<string>)

  /** The value `remapButton` stores in the alias table (`None` is
    * `undefined`).  The current code first replaces a truthy `newName.name`
    * by itself and then reads `.name` again, which is `undefined` on a
    * string; the legacy code reads `newProp.name` once. */
  function AliasValue(lineage: Lineage, nn: NewName): Option<string>
  {
    match nn
    case Plain(_) => None
    case Named(n) =>
      if lineage == Legacy then n
      else if n == Some("") then Some("") else None
  }

  /** The dictionary key a value stored in the alias table turns into. */
  function KeyOfAlias(a: Option<string>): string
  {
    if a.None? then "undefined" else a.value
  }

  predicate AliasTruthy(a: Option<string>)
  {
    a.Some? && a.value != ""
  }

  // ---------------------------------------------------------------------------
  // Controller state as a value

  datatype ButtonState = ButtonState(key: string, keyCode: int, pressed: bool)

  /** One `trigger(event, data)` on a controller. */
  datatype Emission = Emission(event: string, data: JsValue)

  /** A controller: button names in enumeration order, the buttons, the alias
    * table, the joystick axes, the events triggered so far and the key-code
    * tables captured by the keyboard listeners `enableKeyboard` installed. */
  datatype ControllerState = ControllerState(
    names: seq<string>,
    buttons: map<string, ButtonState>,
    alias: map<string, Option<string>>,
    x: JsValue,
    y: JsValue,
    emitted: seq<Emission>,
    keyTables: seq<map<int, string>>)

  predicate Distinct(s: seq<string>)
  {
    forall i, j :: 0 <= i < j < |s| ==> s[i] != s[j]
  }

  ghost predicate WellFormed(s: ControllerState)
  {
    Distinct(s.names) && (forall n :: n in s.names <==> n in s.buttons)
  }

  /** `obj[n] = ...` on the enumeration order: a new key goes last. */
  function Put(names: seq<string>, n: string): seq<string>
  {
    if n in names then names else names + [n]
  }

  /** `delete obj[n]` on the enumeration order. */
  function Remove(names: seq<string>, n: string): (r: seq<string>)
    ensures forall m :: m in r <==> m in names && m != n
    ensures |r| <= |names|
  {
    if |names| == 0 then []
    else if names[0] == n then Remove(names[1..], n)
    else [names[0]] + Remove(names[1..], n)
  }

  function Empty(kind: Kind): ControllerState
  {
    var axis := if IsJoystick(kind) then Num(0) else Undefined;
    ControllerState([], map[], map[], axis, axis, [], [])
  }

  /** `addButton(new Button(key, keyCode))`: a new button starts pressed. */
  function AddSpec(s: ControllerState, key: string, keyCode: int): ControllerState
  {
    s.(names := Put(s.names, key), buttons := s.buttons[key := ButtonState(key, keyCode, true)])
  }

  function AddAll(s: ControllerState, layout: seq<(string, int)>): ControllerState
    decreases |layout|
  {
    if |layout| == 0 then s
    else
      var last := layout[|layout| - 1];
      AddSpec(AddAll(s, layout[..|layout| - 1]), last.0, last.1)
  }

  /** The state a freshly constructed controller of the kind is in. */
  function Initial(kind: Kind): ControllerState
  {
    AddAll(Empty(kind), Layout(kind))
  }

  function Press(s: ControllerState, name: string, down: bool): ControllerState
    requires name in s.buttons
  {
    s.(buttons := s.buttons[name := s.buttons[name].(pressed := down)])
  }

  function Emit(s: ControllerState, event: string, data: JsValue): ControllerState
  {
    s.(emitted := s.emitted + [Emission(event, data)])
  }

  /** `{button: name}`, the data the keyboard listeners send. */
  function ButtonData(name: string): JsValue
  {
    Obj(map["button" := Str(name)])
  }

  /** `data.button = name` on a data object. */
  function WithButton(data: JsValue, name: string): JsValue
  {
    if data.Obj? then Obj(data.props["button" := Str(name)]) else data
  }

  /** The built-in `keydown`/`keyup` handler: a named, existing button gets
    * its own event; anything else is ignored. */
  function KeyHandlerSpec(s: ControllerState, down: bool, data: JsValue): (ControllerState, Outcome)
  {
    match Get(data, "button")
    case Err(e) => (s, Threw(e))
    case Ok(b) =>
      if Truthy(b) && ToKey(b) in s.buttons then (Press(s, ToKey(b), down), Completed)
      else (s, Completed)
  }

  const TouchSignals: set<string> := {"$touchstart", "$touchend", "$touchmove", "$touchleave", "$touchcancel"}

  /** The private `$keydown`/`$keyup` handler (after `$keydown` itself is
    * recorded): a name with a truthy alias is rewritten in the data object
    * to its alias, then the public signal is triggered with that data. */
  function PrivateKeySpec(s: ControllerState, down: bool, data: JsValue): (ControllerState, Outcome)
  {
    match Get(data, "button")
    case Err(e) => (s, Threw(e))
    case Ok(b) =>
      var d :=
        if Truthy(b) && ToKey(b) in s.alias && AliasTruthy(s.alias[ToKey(b)])
        then WithButton(data, s.alias[ToKey(b)].value) else data;
      KeyHandlerSpec(Emit(s, if down then "keydown" else "keyup", d), down, d)
  }

  /** The joystick's `$change` handler: a missing `position` throws before
    * anything changes; otherwise `x` and `y` are copied and `change` is
    * triggered last. */
  function ChangeSpec(s: ControllerState, data: JsValue): (ControllerState, Outcome)
  {
    match Get(data, "position")
    case Err(e) => (s, Threw(e))
    case Ok(p) =>
      match Get(p, "x")
      case Err(e) => (s, Threw(e))
      case Ok(px) =>
        var py := Get(p, "y").value;
        (Emit(s.(x := px, y := py), "change", data), Completed)
  }

  /** `controller.trigger(event, data)` with the built-in handlers. */
  function TriggerSpec(kind: Kind, s: ControllerState, event: string, data: JsValue): (ControllerState, Outcome)
  {
    var s1 := Emit(s, event, data);
    if event == "$keydown" || event == "$keyup" then PrivateKeySpec(s1, event == "$keydown", data)
    else if event == "keydown" || event == "keyup" then KeyHandlerSpec(s1, event == "keydown", data)
    else if kind == Touch && event in TouchSignals then (Emit(s1, event[1..], data), Completed)
    else if IsJoystick(kind) && event == "$change" then ChangeSpec(s1, data)
    else (s1, Completed)
  }

  /** `remapButton(oldName, newName)` on a controller that has the method. */
  function RemapSpec(lineage: Lineage, s: ControllerState, oldName: string, nn: NewName): (ControllerState, Outcome)
  {
    if oldName !in s.buttons then
      if lineage == Current
      then (s, Threw(Raised(ErrorObject("Button " + oldName + " was not found in controller"))))
      else (s, Completed)
    else
      var a := AliasValue(lineage, nn);
      var target := KeyOfAlias(a);
      (s.(alias := s.alias[oldName := a],
          names := Remove(Put(s.names, target), oldName),
          buttons := s.buttons[target := s.buttons[oldName]] - {oldName}),
       Completed)
  }

  /** The key-code table `enableKeyboard` builds: buttons are visited in
    * enumeration order, a later button overriding an earlier one with the
    * same code, and a falsy (zero) code is skipped. */
  function KeyTable(names: seq<string>, buttons: map<string, ButtonState>): map<int, string>
    requires forall n :: n in names ==> n in buttons
    decreases |names|
  {
    if |names| == 0 then map[]
    else
      var prev := KeyTable(names[..|names| - 1], buttons);
      var b := buttons[names[|names| - 1]];
      if b.keyCode != 0 then prev[b.keyCode := b.key] else prev
  }

  function EnableKeyboardSpec(s: ControllerState): ControllerState
    requires WellFormed(s)
  {
    s.(keyTables := s.keyTables + [KeyTable(s.names, s.buttons)])
  }

  /** A key event from the window reaching the listeners installed by
    * `enableKeyboard`, in installation order. */
  function KeyEventSpec(kind: Kind, s: ControllerState, tables: seq<map<int, string>>, code: int, down: bool): ControllerState
    decreases |tables|
  {
    if |tables| == 0 then s
    else
      var prev := KeyEventSpec(kind, s, tables[..|tables| - 1], code, down);
      var t := tables[|tables| - 1];
      if code in t then TriggerSpec(kind, prev, if down then "keydown" else "keyup", ButtonData(t[code])).0
      else prev
  }

  /** createController / getController: construct, then optionally enable
    * the keyboard, then apply the remaps in order, stopping at the first
    * error. */
  function BuildSpec(lineage: Lineage, kind: Kind, keyboard: bool, remaps: seq<(string, NewName)>): (ControllerState, Outcome)
    decreases |remaps|
  {
    if |remaps| == 0 then
      var s := Initial(kind);
      InitialWellFormed(kind);
      if !keyboard then (s, Completed)
      else if !HasControllerMethods(kind) then (s, Threw(TypeError("controller.enableKeyboard is not a function")))
      else (EnableKeyboardSpec(s), Completed)
    else
      var (s, out) := BuildSpec(lineage, kind, keyboard, remaps[..|remaps| - 1]);
      var (oldName, nn) := remaps[|remaps| - 1];
      if out.Threw? then (s, out)
      else if !HasControllerMethods(kind) then (s, Threw(TypeError("controller.remapButton is not a function")))
      else RemapSpec(lineage, s, oldName, nn)
  }

  /** One remap more: the outcome so far decides whether it is applied. */
  lemma BuildStep(lineage: Lineage, kind: Kind, keyboard: bool, remaps: seq<(string, NewName)>, i: nat)
    requires i < |remaps|
    ensures var (s, out) := BuildSpec(lineage, kind, keyboard, remaps[..i]);
      BuildSpec(lineage, kind, keyboard, remaps[..i + 1]) ==
        if out.Threw? then (s, out)
        else if !HasControllerMethods(kind) then (s, Threw(TypeError("controller.remapButton is not a function")))
        else RemapSpec(lineage, s, remaps[i].0, remaps[i].1)
  {
    assert remaps[..i + 1][..i] == remaps[..i];
  }

  // ---------------------------------------------------------------------------
  // Properties

  lemma {:induction false} AddAllWellFormed(s: ControllerState, layout: seq<(string, int)>)
    requires WellFormed(s)
    ensures WellFormed(AddAll(s, layout))
    ensures AddAll(s, layout).alias == s.alias && AddAll(s, layout).keyTables == s.keyTables
    ensures AddAll(s, layout).emitted == s.emitted
    ensures AddAll(s, layout).x == s.x && AddAll(s, layout).y == s.y
    decreases |layout|
  {
    if |layout| > 0 {
      AddAllWellFormed(s, layout[..|layout| - 1]);
    }
  }

  lemma InitialWellFormed(kind: Kind)
    ensures WellFormed(Initial(kind))
  {
    AddAllWellFormed(Empty(kind), Layout(kind));
  }

  function LayoutNames(layout: seq<(string, int)>): (r: seq<string>)
    ensures |r| == |layout|
    ensures forall i :: 0 <= i < |layout| ==> r[i] == layout[i].0
    decreases |layout|
  {
    if |layout| == 0 then [] else LayoutNames(layout[..|layout| - 1]) + [layout[|layout| - 1].0]
  }

  /** Adding buttons with distinct names to an empty controller yields exactly
    * those buttons, in order, each pressed and carrying its own code. */
  lemma {:induction false} AddAllFromEmpty(kind: Kind, layout: seq<(string, int)>)
    requires Distinct(LayoutNames(layout))
    ensures var s := AddAll(Empty(kind), layout);
      && s.names == LayoutNames(layout)
      && (forall n :: n in s.buttons <==> n in s.names)
      && (forall i :: 0 <= i < |layout| ==>
            layout[i].0 in s.buttons && s.buttons[layout[i].0] == ButtonState(layout[i].0, layout[i].1, true))
    decreases |layout|
  {
    if |layout| > 0 {
      var init := layout[..|layout| - 1];
      assert LayoutNames(init) == LayoutNames(layout)[..|layout| - 1];
      AddAllFromEmpty(kind, init);
      var last := layout[|layout| - 1];
      assert forall i :: 0 <= i < |init| ==> LayoutNames(init)[i] != LayoutNames(layout)[|layout| - 1];
      assert last.0 !in LayoutNames(init);
      var s := AddAll(Empty(kind), layout);
      forall i | 0 <= i < |layout|
        ensures s.buttons[layout[i].0] == ButtonState(layout[i].0, layout[i].1, true)
      {
        if i < |layout| - 1 {
          assert layout[i] == init[i];
          assert LayoutNames(layout)[i] != LayoutNames(layout)[|layout| - 1];
        }
      }
    }
  }

  /** Every controller kind starts with the buttons of its layout, in layout
    * order, all pressed, with distinct names and distinct key codes. */
  lemma InitialButtons(kind: Kind)
    ensures var s := Initial(kind);
      && s.names == LayoutNames(Layout(kind))
      && (forall n :: n in s.buttons <==> n in s.names)
      && (forall i :: 0 <= i < |Layout(kind)| ==>
            && Layout(kind)[i].0 in s.buttons
            && s.buttons[Layout(kind)[i].0] == ButtonState(Layout(kind)[i].0, Layout(kind)[i].1, true))
      && s.alias == map[] && s.emitted == [] && s.keyTables == []
      && (forall i, j :: 0 <= i < j < |Layout(kind)| ==> Layout(kind)[i].1 != Layout(kind)[j].1)
  {
    LayoutDistinct(kind);
    AddAllFromEmpty(kind, Layout(kind));
    AddAllWellFormed(Empty(kind), Layout(kind));
  }

  lemma LayoutDistinct(kind: Kind)
    ensures Distinct(LayoutNames(Layout(kind)))
    ensures forall i, j :: 0 <= i < j < |Layout(kind)| ==> Layout(kind)[i].1 != Layout(kind)[j].1
  {
    var l := Layout(kind);
    assert LayoutNames(l) == seq(|l|, i requires 0 <= i < |l| => l[i].0);
  }

  /** The buttons of a layout, as a set of name and key-code pairs. */
  function Pairs(k: Kind): set<(string, int)>
  {
    set p | p in Layout(k)
  }

  /** The layouts form families: FiveButtons is FourButtons plus `down`,
    * SixButtons is FiveButtons plus `B`, FourArrows is FiveButtons without
    * `A`, TwoArrowsTwoButtons is TwoArrowsOneButton plus `B`, and
    * JoystickWithButton has the button of OneButton. */
  lemma LayoutFamilies()
    ensures Pairs(FiveButtons) == Pairs(FourButtons) + {("down", 40)}
    ensures Pairs(SixButtons) == Pairs(FiveButtons) + {("B", 17)}
    ensures Pairs(FourArrows) == Pairs(FiveButtons) - {("A", 32)}
    ensures Pairs(TwoArrowsTwoButtons) == Pairs(TwoArrowsOneButton) + {("B", 17)}
    ensures Pairs(JoystickWithButton) == Pairs(OneButton)
  {
  }

  /** Each older registry is contained in the newer one. */
  lemma RegistriesNest(t: string)
    ensures KindNamed(Legacy5, t).Some? ==> KindNamed(Legacy6, t) == KindNamed(Legacy5, t)
    ensures KindNamed(Legacy6, t).Some? ==> KindNamed(Full12, t) == KindNamed(Legacy6, t)
    ensures KindNamed(Legacy6, t).Some? <==> KindNamed(Legacy5, t).Some? || t == "Touch"
  {
  }

  /** A `keydown` naming an existing button presses exactly that button; one
    * naming no button, or the empty name (which is falsy), changes no
    * button. */
  lemma KeyDownPressesOnlyThatButton(kind: Kind, s: ControllerState, name: string, down: bool)
    ensures var (s2, out) := TriggerSpec(kind, s, if down then "keydown" else "keyup", ButtonData(name));
      && out == Completed
      && s2.buttons.Keys == s.buttons.Keys
      && (name in s.buttons && name != "" ==> s2.buttons[name] == s.buttons[name].(pressed := down))
      && (name == "" || name !in s.buttons ==> s2.buttons == s.buttons)
      && (forall n :: n in s.buttons && n != name ==> s2.buttons[n] == s.buttons[n])
      && s2.emitted == s.emitted + [Emission(if down then "keydown" else "keyup", ButtonData(name))]
  {
    assert Get(ButtonData(name), "button") == Ok(Str(name));
  }

  /** Pressing is idempotent, and a press followed by a release leaves the
    * button released whatever its state before. */
  lemma PressReleaseSettles(kind: Kind, s: ControllerState, name: string)
    requires name in s.buttons && name != ""
    ensures var down := TriggerSpec(kind, s, "keydown", ButtonData(name)).0;
      && TriggerSpec(kind, down, "keydown", ButtonData(name)).0.buttons == down.buttons
      && !TriggerSpec(kind, down, "keyup", ButtonData(name)).0.buttons[name].pressed
  {
    KeyDownPressesOnlyThatButton(kind, s, name, true);
    var down := TriggerSpec(kind, s, "keydown", ButtonData(name)).0;
    KeyDownPressesOnlyThatButton(kind, down, name, true);
    KeyDownPressesOnlyThatButton(kind, down, name, false);
  }

  /** `$keydown` for an aliased name behaves as `keydown` for the alias
    * target; for a name without a truthy alias it behaves as `keydown` for
    * the name itself. */
  lemma {:induction false} PrivateSignalFollowsAlias(kind: Kind, s: ControllerState, name: string, down: bool)
    ensures var priv := TriggerSpec(kind, s, if down then "$keydown" else "$keyup", ButtonData(name)).0;
      var target := if name != "" && name in s.alias && AliasTruthy(s.alias[name]) then s.alias[name].value else name;
      var pub := TriggerSpec(kind, s, if down then "keydown" else "keyup", ButtonData(target)).0;
      && priv.buttons == pub.buttons
      && priv.emitted == s.emitted + [Emission(if down then "$keydown" else "$keyup", ButtonData(name))]
                                   + [Emission(if down then "keydown" else "keyup", ButtonData(target))]
  {
    var pubEv := if down then "keydown" else "keyup";
    var target := AliasTarget(s, name);
    PrivateKeyRewrites(kind, s, name, down);
    PublicKeyHandles(kind, s, target, down);
    var ev := if down then "$keydown" else "$keyup";
    KeyHandlerButtonsOnly(Emit(Emit(s, ev, ButtonData(name)), pubEv, ButtonData(target)),
      Emit(s, pubEv, ButtonData(target)), down, ButtonData(target));
  }

  /** The name a private key signal is rewritten to. */
  function AliasTarget(s: ControllerState, name: string): string
  {
    if name != "" && name in s.alias && AliasTruthy(s.alias[name]) then s.alias[name].value else name
  }

  lemma PrivateKeyRewrites(kind: Kind, s: ControllerState, name: string, down: bool)
    ensures var ev := if down then "$keydown" else "$keyup";
      var pubEv := if down then "keydown" else "keyup";
      var target := AliasTarget(s, name);
      TriggerSpec(kind, s, ev, ButtonData(name)) ==
        KeyHandlerSpec(Emit(Emit(s, ev, ButtonData(name)), pubEv, ButtonData(target)), down, ButtonData(target))
  {
    assert Get(ButtonData(name), "button") == Ok(Str(name));
    assert ToKey(Str(name)) == name;
    if name != "" && name in s.alias && AliasTruthy(s.alias[name]) {
      assert WithButton(ButtonData(name), s.alias[name].value) == ButtonData(s.alias[name].value);
    }
  }

  lemma PublicKeyHandles(kind: Kind, s: ControllerState, name: string, down: bool)
    ensures var pubEv := if down then "keydown" else "keyup";
      TriggerSpec(kind, s, pubEv, ButtonData(name)) == KeyHandlerSpec(Emit(s, pubEv, ButtonData(name)), down, ButtonData(name))
  {
  }

  /** The key handler looks only at the buttons and changes nothing but them. */
  lemma KeyHandlerButtonsOnly(a: ControllerState, b: ControllerState, down: bool, data: JsValue)
    requires a.buttons == b.buttons
    ensures KeyHandlerSpec(a, down, data).0.buttons == KeyHandlerSpec(b, down, data).0.buttons
    ensures KeyHandlerSpec(a, down, data).0 == a.(buttons := KeyHandlerSpec(a, down, data).0.buttons)
  {
  }

  /** A remap of a missing button: the current code throws and the legacy
    * code does nothing; neither changes the controller. */
  lemma RemapMissingButton(lineage: Lineage, s: ControllerState, oldName: string, nn: NewName)
    requires oldName !in s.buttons
    ensures RemapSpec(lineage, s, oldName, nn).0 == s
    ensures RemapSpec(lineage, s, oldName, nn).1.Threw? <==> lineage == Current
  {
  }

  /** A legacy remap to `{name: t}` moves the button object under `t`, and
    * afterwards the private `$keydown` signal for the old name presses the
    * moved button. */
  lemma {:induction false} LegacyRemapRoutesOldName(kind: Kind, s: ControllerState, oldName: string, t: string)
    requires WellFormed(s) && oldName in s.buttons && oldName != "" && t != "" && t != oldName
    ensures var (r, out) := RemapSpec(Legacy, s, oldName, Named(Some(t)));
      && out == Completed
      && WellFormed(r)
      && oldName !in r.buttons && t in r.buttons && r.buttons[t] == s.buttons[oldName]
      && r.alias[oldName] == Some(t)
      && TriggerSpec(kind, r, "$keydown", ButtonData(oldName)).0.buttons[t] == s.buttons[oldName].(pressed := true)
  {
    var (r, out) := RemapSpec(Legacy, s, oldName, Named(Some(t)));
    RemapWellFormed(Legacy, s, oldName, Named(Some(t)));
    PrivateSignalFollowsAlias(kind, r, oldName, true);
    KeyDownPressesOnlyThatButton(kind, r, t, true);
  }

  /** The current remap stores the button under the key "undefined" (or ""
    * for `{name: ""}`) with a falsy alias, whatever name was asked for: the
    * requested name never becomes a key, and the private `$keydown` signal
    * for the old name no longer reaches any button. */
  lemma {:induction false} CurrentRemapLosesName(kind: Kind, s: ControllerState, oldName: string, nn: NewName)
    requires WellFormed(s) && oldName in s.buttons
    ensures var (r, out) := RemapSpec(Current, s, oldName, nn);
      var target := if nn == Named(Some("")) then "" else "undefined";
      && out == Completed
      && WellFormed(r)
      && oldName !in r.buttons
      && !AliasTruthy(r.alias[oldName])
      && (target != oldName ==> target in r.buttons && r.buttons[target] == s.buttons[oldName])
      && (forall t :: t in r.buttons ==> t in s.buttons || t == target)
      && TriggerSpec(kind, r, "$keydown", ButtonData(oldName)).0.buttons == r.buttons
  {
    var (r, out) := RemapSpec(Current, s, oldName, nn);
    RemapWellFormed(Current, s, oldName, nn);
    assert !AliasTruthy(r.alias[oldName]) && oldName !in r.buttons;
    assert TriggerSpec(kind, r, "$keydown", ButtonData(oldName)).0.buttons == r.buttons by {
      PrivateSignalFollowsAlias(kind, r, oldName, true);
      KeyDownPressesOnlyThatButton(kind, r, oldName, true);
    }
  }

  /** A legacy remap to the button's own name deletes the button. */
  lemma RemapToOwnNameDeletes(s: ControllerState, oldName: string)
    requires oldName in s.buttons
    ensures RemapSpec(Legacy, s, oldName, Named(Some(oldName))).0.buttons == s.buttons - {oldName}
  {
  }

  lemma {:induction false} PutRemoveDistinct(names: seq<string>, t: string, o: string)
    requires Distinct(names)
    ensures Distinct(Remove(Put(names, t), o))
  {
    var p := Put(names, t);
    assert Distinct(p) by {
      if t !in names {
        forall i, j | 0 <= i < j < |p| ensures p[i] != p[j] {
          if j == |names| {
            assert p[i] == names[i];
          }
        }
      }
    }
    RemoveDistinct(p, o);
  }

  lemma {:induction false} RemoveDistinct(names: seq<string>, o: string)
    requires Distinct(names)
    ensures Distinct(Remove(names, o))
    decreases |names|
  {
    if |names| > 0 {
      RemoveDistinct(names[1..], o);
      if names[0] != o {
        var r := Remove(names[1..], o);
        forall j | 0 <= j < |r| ensures r[j] != names[0] {
          assert r[j] in names[1..];
          var k :| 0 <= k < |names[1..]| && names[1..][k] == r[j];
          assert names[k + 1] == r[j];
        }
      }
    }
  }

  lemma RemapWellFormed(lineage: Lineage, s: ControllerState, oldName: string, nn: NewName)
    requires WellFormed(s)
    ensures WellFormed(RemapSpec(lineage, s, oldName, nn).0)
  {
    if oldName in s.buttons {
      PutRemoveDistinct(s.names, KeyOfAlias(AliasValue(lineage, nn)), oldName);
    }
  }

  /** The parts of a controller a trigger leaves alone: its button names,
    * its aliases and its keyboard bindings. */
  predicate SameShape(r: ControllerState, s: ControllerState)
  {
    r.names == s.names && r.buttons.Keys == s.buttons.Keys && r.alias == s.alias && r.keyTables == s.keyTables
  }

  /** Triggering an event never adds, removes or renames buttons, and never
    * changes the alias table or the keyboard bindings. */
  lemma TriggerKeepsShape(kind: Kind, s: ControllerState, event: string, data: JsValue)
    ensures SameShape(TriggerSpec(kind, s, event, data).0, s)
  {
    var s1 := Emit(s, event, data);
    assert SameShape(s1, s);
    if event == "$keydown" || event == "$keyup" {
      PrivateKeyKeepsShape(s1, event == "$keydown", data);
    } else if event == "keydown" || event == "keyup" {
      KeyHandlerKeepsShape(s1, event == "keydown", data);
    } else if kind == Touch && event in TouchSignals {
      assert SameShape(Emit(s1, event[1..], data), s1);
    } else if IsJoystick(kind) && event == "$change" {
      assert SameShape(ChangeSpec(s1, data).0, s1);
    }
  }

  lemma PrivateKeyKeepsShape(s: ControllerState, down: bool, data: JsValue)
    ensures SameShape(PrivateKeySpec(s, down, data).0, s)
  {
    match Get(data, "button")
    case Err(_) =>
    case Ok(b) =>
      var d :=
        if Truthy(b) && ToKey(b) in s.alias && AliasTruthy(s.alias[ToKey(b)])
        then WithButton(data, s.alias[ToKey(b)].value) else data;
      KeyHandlerKeepsShape(Emit(s, if down then "keydown" else "keyup", d), down, d);
  }

  lemma KeyHandlerKeepsShape(s: ControllerState, down: bool, data: JsValue)
    ensures SameShape(KeyHandlerSpec(s, down, data).0, s)
  {
  }

  /** Every entry of the key-code table comes from a button with that
    * non-zero code, and every button with a non-zero code has an entry. */
  lemma {:induction false} KeyTableSound(names: seq<string>, buttons: map<string, ButtonState>)
    requires forall n :: n in names ==> n in buttons
    ensures forall c :: c in KeyTable(names, buttons) ==>
      c != 0 && exists n :: n in names && buttons[n].keyCode == c && buttons[n].key == KeyTable(names, buttons)[c]
    ensures forall n :: n in names && buttons[n].keyCode != 0 ==> buttons[n].keyCode in KeyTable(names, buttons)
    decreases |names|
  {
    if |names| > 0 {
      var init := names[..|names| - 1];
      KeyTableSound(init, buttons);
      var t := KeyTable(names, buttons);
      forall c | c in t
        ensures c != 0 && exists n :: n in names && buttons[n].keyCode == c && buttons[n].key == t[c]
      {
        var last := names[|names| - 1];
        if buttons[last].keyCode != 0 && c == buttons[last].keyCode {
        } else {
          var n :| n in init && buttons[n].keyCode == c && buttons[n].key == KeyTable(init, buttons)[c];
          assert n in names;
        }
      }
      forall n | n in names && buttons[n].keyCode != 0 ensures buttons[n].keyCode in t {
        if n != names[|names| - 1] {
          assert n in init;
        }
      }
    }
  }

  /** When the codes of distinct buttons differ, the table sends each code to
    * the key of the button carrying it. */
  lemma KeyTableExact(names: seq<string>, buttons: map<string, ButtonState>, n: string)
    requires forall m :: m in names ==> m in buttons
    requires forall a, b :: a in names && b in names && a != b ==> buttons[a].keyCode != buttons[b].keyCode
    requires n in names && buttons[n].keyCode != 0
    ensures buttons[n].keyCode in KeyTable(names, buttons)
    ensures KeyTable(names, buttons)[buttons[n].keyCode] == buttons[n].key
  {
    KeyTableSound(names, buttons);
  }

  /** Building a legacy controller that has the controller methods never
    * throws, since a legacy remap of a missing button does nothing. */
  lemma {:induction false} LegacyBuildCompletes(kind: Kind, keyboard: bool, remaps: seq<(string, NewName)>)
    requires HasControllerMethods(kind)
    ensures BuildSpec(Legacy, kind, keyboard, remaps).1 == Completed
    ensures WellFormed(BuildSpec(Legacy, kind, keyboard, remaps).0)
    decreases |remaps|
  {
    if |remaps| > 0 {
      LegacyBuildCompletes(kind, keyboard, remaps[..|remaps| - 1]);
      var s := BuildSpec(Legacy, kind, keyboard, remaps[..|remaps| - 1]).0;
      RemapWellFormed(Legacy, s, remaps[|remaps| - 1].0, remaps[|remaps| - 1].1);
    } else {
      InitialWellFormed(kind);
    }
  }

  /** A touch controller can be built only without keyboard and remaps:
    * either option reaches a method the touch prototype lacks. */
  lemma {:induction false} TouchBuildFails(lineage: Lineage, keyboard: bool, remaps: seq<(string, NewName)>)
    ensures BuildSpec(lineage, Touch, keyboard, remaps).1.Threw? <==> keyboard || |remaps| > 0
    ensures BuildSpec(lineage, Touch, keyboard, remaps).0 == Initial(Touch)
    decreases |remaps|
  {
    if |remaps| > 0 {
      TouchBuildFails(lineage, keyboard, remaps[..|remaps| - 1]);
    }
  }

  /** A joystick's axes start at 0; `$change` with a position copies its
    * coordinates and then triggers `change` with the same data, and one
    * without a position throws after being recorded, leaving the axes. */
  lemma JoystickFollowsPosition(kind: Kind, s: ControllerState, px: JsValue, py: JsValue)
    requires IsJoystick(kind)
    ensures Initial(kind).x == Num(0) && Initial(kind).y == Num(0)
    ensures var data := Obj(map["position" := Obj(map["x" := px, "y" := py])]);
      var (r, out) := TriggerSpec(kind, s, "$change", data);
      && out == Completed && r.x == px && r.y == py && r.buttons == s.buttons && r.alias == s.alias
      && r.emitted == s.emitted + [Emission("$change", data), Emission("change", data)]
    ensures var (r, out) := TriggerSpec(kind, s, "$change", Obj(map[]));
      out.Threw? && r == s.(emitted := s.emitted + [Emission("$change", Obj(map[]))])
  {
    AddAllWellFormed(Empty(kind), Layout(kind));
    JoystickChangeCopies(kind, s, px, py);
    JoystickChangeThrows(kind, s);
  }

  lemma JoystickChangeCopies(kind: Kind, s: ControllerState, px: JsValue, py: JsValue)
    requires IsJoystick(kind)
    ensures var data := Obj(map["position" := Obj(map["x" := px, "y" := py])]);
      TriggerSpec(kind, s, "$change", data) ==
        (s.(x := px, y := py, emitted := s.emitted + [Emission("$change", data), Emission("change", data)]), Completed)
  {
    var p := Obj(map["x" := px, "y" := py]);
    var data := Obj(map["position" := p]);
    assert TriggerSpec(kind, s, "$change", data) == ChangeSpec(Emit(s, "$change", data), data);
    assert Get(data, "position") == Ok(p) && Get(p, "x") == Ok(px) && Get(p, "y") == Ok(py);
    assert s.emitted + [Emission("$change", data)] + [Emission("change", data)]
      == s.emitted + [Emission("$change", data), Emission("change", data)];
  }

  lemma JoystickChangeThrows(kind: Kind, s: ControllerState)
    requires IsJoystick(kind)
    ensures var (r, out) := TriggerSpec(kind, s, "$change", Obj(map[]));
      out.Threw? && r == s.(emitted := s.emitted + [Emission("$change", Obj(map[]))])
  {
    assert TriggerSpec(kind, s, "$change", Obj(map[])) == ChangeSpec(Emit(s, "$change", Obj(map[])), Obj(map[]));
  }

  /** A touch controller has no buttons and re-triggers each private touch
    * signal as the public one with the same data; other controllers only
    * record it. */
  lemma TouchReemits(kind: Kind, s: ControllerState, event: string, data: JsValue)
    requires event in TouchSignals
    ensures Initial(Touch).buttons == map[]
    ensures TriggerSpec(kind, s, event, data).1 == Completed
    ensures TriggerSpec(kind, s, event, data).0.emitted ==
      s.emitted + [Emission(event, data)] + (if kind == Touch then [Emission(event[1..], data)] else [])
    ensures TriggerSpec(kind, s, event, data).0.buttons == s.buttons
  {
    assert event != "$keydown" && event != "$keyup" && event != "keydown" && event != "keyup" && event != "$change";
    assert TriggerSpec(kind, s, event, data) ==
      if kind == Touch then (Emit(Emit(s, event, data), event[1..], data), Completed) else (Emit(s, event, data), Completed);
  }

  /** With the keyboard enabled, the key code of a button whose key is its
    * own name presses exactly that button; a code no button carries changes
    * nothing. */
  lemma KeyboardPressesBoundButton(kind: Kind, s: ControllerState, n: string, code: int)
    requires WellFormed(s)
    requires forall a, b :: a in s.names && b in s.names && a != b ==> s.buttons[a].keyCode != s.buttons[b].keyCode
    requires n in s.buttons && n != "" && s.buttons[n].key == n && s.buttons[n].keyCode != 0
    ensures var t := KeyTable(s.names, s.buttons);
      var r := KeyEventSpec(kind, s, [t], s.buttons[n].keyCode, true);
      && r.buttons == s.buttons[n := s.buttons[n].(pressed := true)]
      && r.emitted == s.emitted + [Emission("keydown", ButtonData(n))]
    ensures (forall m :: m in s.names ==> s.buttons[m].keyCode != code) ==>
      KeyEventSpec(kind, s, [KeyTable(s.names, s.buttons)], code, true) == s
  {
    KeyboardBoundCode(kind, s, n);
    KeyboardUnboundCode(kind, s, code);
  }

  /** A key event against a single table. */
  lemma KeyEventOneTable(kind: Kind, s: ControllerState, t: map<int, string>, code: int, down: bool)
    ensures KeyEventSpec(kind, s, [t], code, down) ==
      if code in t then TriggerSpec(kind, s, if down then "keydown" else "keyup", ButtonData(t[code])).0 else s
  {
    assert [t][..0] == [];
  }

  lemma KeyboardBoundCode(kind: Kind, s: ControllerState, n: string)
    requires WellFormed(s)
    requires forall a, b :: a in s.names && b in s.names && a != b ==> s.buttons[a].keyCode != s.buttons[b].keyCode
    requires n in s.buttons && n != "" && s.buttons[n].key == n && s.buttons[n].keyCode != 0
    ensures var t := KeyTable(s.names, s.buttons);
      var r := KeyEventSpec(kind, s, [t], s.buttons[n].keyCode, true);
      && r.buttons == s.buttons[n := s.buttons[n].(pressed := true)]
      && r.emitted == s.emitted + [Emission("keydown", ButtonData(n))]
  {
    var t := KeyTable(s.names, s.buttons);
    KeyTableExact(s.names, s.buttons, n);
    KeyEventOneTable(kind, s, t, s.buttons[n].keyCode, true);
    KeyDownPressesOnlyThatButton(kind, s, n, true);
  }

  lemma KeyboardUnboundCode(kind: Kind, s: ControllerState, code: int)
    requires WellFormed(s)
    ensures (forall m :: m in s.names ==> s.buttons[m].keyCode != code) ==>
      KeyEventSpec(kind, s, [KeyTable(s.names, s.buttons)], code, true) == s
  {
    var t := KeyTable(s.names, s.buttons);
    KeyTableSound(s.names, s.buttons);
    KeyEventOneTable(kind, s, t, code, true);
  }

  // ---------------------------------------------------------------------------
  // Objects

  /** The values of a dictionary of buttons. */
  ghost function Snap(bs: map<string, Button>): map<string, ButtonState>
    reads bs.Values
  {
    map n | n in bs :: ButtonState(bs[n].key, bs[n].keyCode, bs[n].pressed)
  }

  lemma SnapMove(bs: map<string, Button>, oldName: string, target: string)
    requires oldName in bs
    ensures Snap(bs[target := bs[oldName]] - {oldName}) == Snap(bs)[target := Snap(bs)[oldName]] - {oldName}
  {
    var l := Snap(bs[target := bs[oldName]] - {oldName});
    var r := Snap(bs)[target := Snap(bs)[oldName]] - {oldName};
    assert l.Keys == r.Keys;
    forall n | n in l ensures l[n] == r[n] {
    }
  }

  /** No button object is stored under two names. */
  ghost predicate Injective(bs: map<string, Button>)
  {
    forall n, m :: n in bs && m in bs && n != m ==> bs[n] != bs[m]
  }

  lemma SnapPut(bs: map<string, Button>, key: string, b: Button)
    ensures Snap(bs[key := b]) == Snap(bs)[key := ButtonState(b.key, b.keyCode, b.pressed)]
  {
  }

  /** game_controllers.js lines 28-58. */
  class Button {
    const key: string
    const keyCode: int
    var pressed: bool

    constructor(key: string, keyCode: int)
      ensures this.key == key && this.keyCode == keyCode && pressed
    {
      this.key := key;
      this.keyCode := keyCode;
      pressed := true;
    }

    /** The button's own `keydown` handler. */
    method KeyDown()
      modifies this
      ensures pressed
    {
      pressed := true;
    }

    /** The button's own `keyup` handler. */
    method KeyUp()
      modifies this
      ensures !pressed
    {
      pressed := false;
    }

    function IsDown(): bool
      reads this
    {
      pressed
    }
  }

  /** game_controllers.js lines 83-237, with the kinds of lines 246-596. */
  class Controller {
    const kind: Kind
    const lineage: Lineage
    var names: seq<string>
    var buttons: map<string, Button>
    var alias: map<string, Option<string>>
    var x: JsValue
    var y: JsValue
    var emitted: seq<Emission>
    var keyTables: seq<map<int, string>>

    ghost predicate Valid()
      reads this
    {
      && Distinct(names)
      && (forall n :: n in names <==> n in buttons)
      && Injective(buttons)
    }

    ghost function State(): ControllerState
      reads this, buttons.Values
    {
      ControllerState(
        names,
        Snap(buttons),
        alias, x, y, emitted, keyTables)
    }

    constructor(kind: Kind, lineage: Lineage)
      ensures Valid() && fresh(buttons.Values)
      ensures this.kind == kind && this.lineage == lineage
      ensures State() == Initial(kind)
    {
      this.kind := kind;
      this.lineage := lineage;
      names := [];
      buttons := map[];
      alias := map[];
      var axis := if IsJoystick(kind) then Num(0) else Undefined;
      x := axis;
      y := axis;
      emitted := [];
      keyTables := [];
      new;
      assert State() == Empty(kind);
      AddLayout(Layout(kind));
    }

    /** The `addButton` calls of a controller constructor. */
    method AddLayout(layout: seq<(string, int)>)
      requires Valid()
      modifies this
      ensures Valid() && fresh(buttons.Values - old(buttons.Values))
      ensures State() == AddAll(old(State()), layout)
    {
      var i := 0;
      while i < |layout|
        invariant 0 <= i <= |layout|
        invariant Valid() && fresh(buttons.Values - old(buttons.Values))
        invariant State() == AddAll(old(State()), layout[..i])
      {
        assert layout[..i + 1][..i] == layout[..i];
        Add(layout[i].0, layout[i].1);
        i := i + 1;
      }
      assert layout[..i] == layout;
    }

    /** `addButton(new Button(key, keyCode))`. */
    method Add(key: string, keyCode: int)
      requires Valid()
      modifies this
      ensures Valid() && fresh(buttons.Values - old(buttons.Values))
      ensures State() == AddSpec(old(State()), key, keyCode)
    {
      ghost var snap := Snap(buttons);
      var b := new Button(key, keyCode);
      assert Snap(buttons) == snap;
      var nb := buttons[key := b];
      ghost var snapNb := Snap(nb);
      assert snapNb == snap[key := ButtonState(key, keyCode, true)] by {
        SnapPut(buttons, key, b);
      }
      assert Injective(nb) by {
        assert forall n :: n in buttons ==> buttons[n] != b;
      }
      names := Put(names, key);
      buttons := nb;
      assert Snap(buttons) == snapNb;
    }

    /** `addButton`, which a touch controller does not have. */
    method AddButton(key: string, keyCode: int) returns (out: Outcome)
      requires Valid()
      modifies this
      ensures Valid() && fresh(buttons.Values - old(buttons.Values))
      ensures !HasControllerMethods(kind) ==>
        State() == old(State()) && out == Threw(TypeError("controller.addButton is not a function"))
      ensures HasControllerMethods(kind) ==> State() == AddSpec(old(State()), key, keyCode) && out == Completed
    {
      if !HasControllerMethods(kind) {
        return Threw(TypeError("controller.addButton is not a function"));
      }
      Add(key, keyCode);
      out := Completed;
    }

    /** The built-in `keydown`/`keyup` handler, lines 134-148. */
    method HandleKey(down: bool, data: JsValue) returns (out: Outcome)
      requires Valid()
      modifies buttons.Values
      ensures Valid()
      ensures (State(), out) == KeyHandlerSpec(old(State()), down, data)
    {
      var b := Get(data, "button");
      if b.Err? {
        return Threw(b.error);
      }
      var name := ToKey(b.value);
      if !Truthy(b.value) || name !in buttons {
        return Completed;
      }
      var button := buttons[name];
      ghost var snap := Snap(buttons);
      if down {
        button.KeyDown();
      } else {
        button.KeyUp();
      }
      assert Snap(buttons) == snap[name := snap[name].(pressed := down)] by {
        forall n | n in buttons && n != name ensures Snap(buttons)[n] == snap[n] {
          assert buttons[n] != button;
        }
      }
      out := Completed;
    }

    /** Records one triggered event. */
    method Record(event: string, data: JsValue)
      requires Valid()
      modifies this
      ensures Valid() && buttons == old(buttons)
      ensures State() == Emit(old(State()), event, data)
    {
      emitted := emitted + [Emission(event, data)];
    }

    /** The private key signals, lines 110-124. */
    method PrivateKey(down: bool, data: JsValue) returns (out: Outcome)
      requires Valid()
      modifies this, buttons.Values
      ensures Valid() && buttons == old(buttons)
      ensures (State(), out) == PrivateKeySpec(old(State()), down, data)
    {
      var b := Get(data, "button");
      if b.Err? {
        return Threw(b.error);
      }
      var d := data;
      var name := ToKey(b.value);
      if Truthy(b.value) && name in alias && AliasTruthy(alias[name]) {
        d := WithButton(data, alias[name].value);
      }
      Record(if down then "keydown" else "keyup", d);
      out := HandleKey(down, d);
    }

    /** The joystick signal, lines 558-563. */
    method Change(data: JsValue) returns (out: Outcome)
      requires Valid()
      modifies this
      ensures Valid() && buttons == old(buttons)
      ensures (State(), out) == ChangeSpec(old(State()), data)
    {
      var p := Get(data, "position");
      if p.Err? {
        return Threw(p.error);
      }
      var px := Get(p.value, "x");
      if px.Err? {
        return Threw(px.error);
      }
      x := px.value;
      assert State() == old(State()).(x := px.value);
      // `position` already answered `.x`, so reading `.y` cannot throw.
      var py := Get(p.value, "y").value;
      y := py;
      assert State() == old(State()).(x := px.value, y := py);
      Record("change", data);
      out := Completed;
    }

    /** `trigger(event, data)` with the built-in handlers: the private key
      * signals (lines 110-124), the key signals (lines 134-148), the touch
      * signals (lines 501-525) and the joystick signal (lines 558-563). */
    method Trigger(event: string, data: JsValue) returns (out: Outcome)
      requires Valid()
      modifies this, buttons.Values
      ensures Valid() && buttons == old(buttons)
      ensures (State(), out) == TriggerSpec(kind, old(State()), event, data)
    {
      Record(event, data);
      if event == "$keydown" || event == "$keyup" {
        out := PrivateKey(event == "$keydown", data);
      } else if event == "keydown" || event == "keyup" {
        out := HandleKey(event == "keydown", data);
      } else if kind == Touch && event in TouchSignals {
        Record(event[1..], data);
        out := Completed;
      } else if IsJoystick(kind) && event == "$change" {
        out := Change(data);
      } else {
        out := Completed;
      }
    }

    /** The key-code table of `enableKeyboard`, lines 173-180. */
    method BuildKeyTable() returns (t: map<int, string>)
      requires Valid()
      ensures t == KeyTable(State().names, State().buttons)
    {
      t := map[];
      var i := 0;
      while i < |names|
        invariant 0 <= i <= |names|
        invariant t == KeyTable(names[..i], State().buttons)
      {
        assert names[..i + 1][..i] == names[..i];
        var button := buttons[names[i]];
        if button.keyCode != 0 {
          t := t[button.keyCode := button.key];
        }
        i := i + 1;
      }
      assert names[..i] == names;
    }

    /** `enableKeyboard`, lines 170-202: installs a keyboard listener holding
      * the current key-code table. */
    method EnableKeyboard() returns (out: Outcome)
      requires Valid()
      modifies this
      ensures Valid() && buttons == old(buttons)
      ensures !HasControllerMethods(kind) ==>
        State() == old(State()) && out == Threw(TypeError("controller.enableKeyboard is not a function"))
      ensures HasControllerMethods(kind) ==> State() == EnableKeyboardSpec(old(State())) && out == Completed
    {
      if !HasControllerMethods(kind) {
        return Threw(TypeError("controller.enableKeyboard is not a function"));
      }
      var t := BuildKeyTable();
      keyTables := keyTables + [t];
      out := Completed;
    }

    /** A key event on the window: each installed listener looks the code up
      * in its table and triggers `keydown`/`keyup` for the button's key. */
    method KeyEvent(code: int, down: bool)
      requires Valid()
      modifies this, buttons.Values
      ensures Valid() && buttons == old(buttons)
      ensures State() == KeyEventSpec(kind, old(State()), old(keyTables), code, down)
    {
      var tables := keyTables;
      var i := 0;
      while i < |tables|
        invariant 0 <= i <= |tables|
        invariant Valid() && buttons == old(buttons) && keyTables == tables
        invariant State() == KeyEventSpec(kind, old(State()), tables[..i], code, down)
      {
        assert tables[..i + 1][..i] == tables[..i];
        var t := tables[i];
        if code in t {
          var _ := Trigger(if down then "keydown" else "keyup", ButtonData(t[code]));
        }
        i := i + 1;
      }
      assert tables[..i] == tables;
    }

    /** `buttons[target] = buttons[oldName]; delete buttons[oldName]`. */
    method Move(oldName: string, target: string)
      requires Valid() && oldName in buttons
      modifies this
      ensures Valid() && buttons.Values <= old(buttons.Values)
      ensures State() == old(State()).(
        names := Remove(Put(old(State()).names, target), oldName),
        buttons := old(State()).buttons[target := old(State()).buttons[oldName]] - {oldName})
    {
      var moved := buttons[oldName];
      ghost var s0 := State();
      var nb := buttons[target := moved] - {oldName};
      ghost var snap := Snap(nb);
      assert snap == s0.buttons[target := s0.buttons[oldName]] - {oldName} by {
        SnapMove(buttons, oldName, target);
      }
      assert Injective(nb) by {
        assert forall n :: n in buttons && n != oldName ==> buttons[n] != moved;
      }
      PutRemoveDistinct(names, target, oldName);
      names := Remove(Put(names, target), oldName);
      buttons := nb;
      assert Snap(buttons) == snap;
    }

    /** `remapButton(oldName, newName)`: lines 221-237 (current) and
      * src/controller.js lines 131-139 (legacy). */
    method RemapButton(oldName: string, nn: NewName) returns (out: Outcome)
      requires Valid()
      modifies this
      ensures Valid() && buttons.Values <= old(buttons.Values)
      ensures !HasControllerMethods(kind) ==>
        State() == old(State()) && out == Threw(TypeError("controller.remapButton is not a function"))
      ensures HasControllerMethods(kind) ==> (State(), out) == RemapSpec(lineage, old(State()), oldName, nn)
    {
      if !HasControllerMethods(kind) {
        return Threw(TypeError("controller.remapButton is not a function"));
      }
      if oldName !in buttons {
        if lineage == Current {
          return Threw(Raised(ErrorObject("Button " + oldName + " was not found in controller")));
        }
        return Completed;
      }
      var a := AliasValue(lineage, nn);
      alias := alias[oldName := a];
      Move(oldName, KeyOfAlias(a));
      out := Completed;
    }
  }

  /** The `controller` namespace of the core: the registry, the main
    * controller and the trigger that forwards to it (core.js lines 288-414;
    * src/controller.js lines 223-279; dist/gamee.js lines 296-339). */
  class ControllerHub {
    const registry: Registry
    var main: Controller?

    constructor(registry: Registry)
      ensures this.registry == registry && main == null
    {
      this.registry := registry;
      main := null;
    }

    /** createController / getController: the new controller, or the error
      * that stopped its construction. */
    method Create(t: string, keyboard: bool, remaps: seq<(string, NewName)>) returns (c: Controller?, out: Outcome)
      ensures KindNamed(registry, t).None? ==> c == null && out == Threw(Raised(ErrorObject("Unsupported controller type, " + t)))
      ensures KindNamed(registry, t).Some? ==>
        && c != null && fresh(c) && fresh(c.buttons.Values) && c.Valid()
        && c.kind == KindNamed(registry, t).value && c.lineage == LineageOf(registry)
        && (c.State(), out) == BuildSpec(LineageOf(registry), c.kind, keyboard, remaps)
    {
      var k := KindNamed(registry, t);
      if k.None? {
        return null, Threw(Raised(ErrorObject("Unsupported controller type, " + t)));
      }
      c := new Controller(k.value, LineageOf(registry));
      out := Completed;
      InitialWellFormed(k.value);
      if keyboard {
        out := c.EnableKeyboard();
      }
      var i := 0;
      assert (c.State(), out) == BuildSpec(LineageOf(registry), c.kind, keyboard, remaps[..0]) by {
        assert remaps[..0] == [];
      }
      while i < |remaps|
        invariant 0 <= i <= |remaps|
        invariant c.Valid() && fresh(c.buttons.Values)
        invariant (c.State(), out) == BuildSpec(LineageOf(registry), c.kind, keyboard, remaps[..i])
      {
        BuildStep(LineageOf(registry), c.kind, keyboard, remaps, i);
        if !out.Threw? {
          out := c.RemapButton(remaps[i].0, remaps[i].1);
        }
        i := i + 1;
      }
      assert remaps[..i] == remaps;
    }

    /** `requestController(type, opts)`. */
    method RequestController(t: string, keyboard: bool, remaps: seq<(string, NewName)>) returns (c: Controller?, out: Outcome)
      modifies this
      ensures registry == Full12 && t == "FullScreen" ==> c == null && out == Completed && main == old(main)
      ensures registry == Legacy5 && KindNamed(registry, t).None? ==> c == null && out == Completed && main == old(main)
      ensures c != null ==> fresh(c) && c.Valid() && fresh(c.buttons.Values)
      ensures out.Completed? && c != null ==> main == c
      ensures out.Threw? ==> c == null && main == old(main)
      ensures !(registry == Full12 && t == "FullScreen") && KindNamed(registry, t).Some? ==>
        (c != null || out.Threw?) && out == BuildSpec(LineageOf(registry), KindNamed(registry, t).value, keyboard, remaps).1
      ensures !(registry == Full12 && t == "FullScreen") && registry != Legacy5 && KindNamed(registry, t).None? ==>
        out == Threw(Raised(ErrorObject("Unsupported controller type, " + t)))
      ensures c != null ==> c.kind == KindNamed(registry, t).value && c.lineage == LineageOf(registry)
      ensures c != null ==> c.State() == BuildSpec(LineageOf(registry), c.kind, keyboard, remaps).0
    {
      if registry == Full12 && t == "FullScreen" {
        return null, Completed;
      }
      if registry == Legacy5 && KindNamed(registry, t).None? {
        return null, Completed;
      }
      var made: Controller?;
      made, out := Create(t, keyboard, remaps);
      if out.Threw? {
        return null, out;
      }
      main := made;
      c := made;
    }

    /** `additionalController(type, opts)`: builds a controller without
      * making it the main one.  The current code then calls the undeclared
      * global `gameeNative`, which fails unless the page defines it.  The
      * five-kind module has no such operation. */
    method AdditionalController(t: string, keyboard: bool, remaps: seq<(string, NewName)>, pageDefinesGameeNative: bool)
      returns (c: Controller?, out: Outcome)
      requires registry != Legacy5
      ensures c != null <==> out.Completed?
      ensures c != null ==> fresh(c) && fresh(c.buttons.Values) && c.Valid()
      ensures KindNamed(registry, t).None? ==> out == Threw(Raised(ErrorObject("Unsupported controller type, " + t)))
      ensures c != null ==> KindNamed(registry, t).Some? && c.kind == KindNamed(registry, t).value && c.lineage == LineageOf(registry)
      ensures c != null ==> c.State() == BuildSpec(LineageOf(registry), c.kind, keyboard, remaps).0
      ensures KindNamed(registry, t).Some? ==>
        var built := BuildSpec(LineageOf(registry), KindNamed(registry, t).value, keyboard, remaps).1;
        out == (if built.Completed? && registry == Full12 && !pageDefinesGameeNative then Threw(ReferenceError("gameeNative")) else built)
    {
      c, out := Create(t, keyboard, remaps);
      if out.Threw? {
        return null, out;
      }
      if registry == Full12 && !pageDefinesGameeNative {
        return null, Threw(ReferenceError("gameeNative"));
      }
    }

    /** `trigger(event, data)`: forwards to the main controller. */
    method Trigger(event: string, data: JsValue) returns (out: Outcome)
      requires main != null ==> main.Valid()
      modifies main, if main != null then main.buttons.Values else {}
      ensures main == old(main)
      ensures main == null ==> (out.Threw? <==> registry != Legacy5)
      ensures main != null ==> main.Valid()
      ensures main != null ==> (main.State(), out) == TriggerSpec(main.kind, old(main.State()), event, data)
    {
      if main == null {
        if registry == Legacy5 {
          return Completed;
        }
        return Threw(Raised(ErrorObject("No controller present")));
      }
      out := main.Trigger(event, data);
    }
  }
}
