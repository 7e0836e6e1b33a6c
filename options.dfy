/**
 * The option tree of a mod's settings (`options.py`).
 *
 * Options that hold a value are objects of one class, `ValueOption`, tagged with their kind
 * (hidden, slider, spinner, bool, dropdown, keybind); their value, default value and
 * `on_change` callback are fields. Buttons and groups hold no value and never change, so the
 * tree around the value options is a datatype, `OptionNode`.
 *
 * Serialising (`_to_json`) is a function of the tree; loading (`_from_json`) is a method that
 * updates the value options in place, proved against `NodeLoad`, a function from the values
 * before the load to the values after it.
 */
module Options {
  import opened Wrappers
  import opened PyJson
  import opened Display
  import Keybinds

  /** The concrete value-option classes and their class-specific settings. */
  datatype Kind =
    | Hidden
    | Slider(minValue: real, maxValue: real, step: real, isInteger: bool)
    | Spinner(choices: seq<string>, wrapEnabled: bool)
    | BoolKind(trueText: Option<string>, falseText: Option<string>)
    | Dropdown(choices: seq<string>)
    | KeybindKind(isRebindable: bool)

  /**
   * The `on_change` callback: none, one the mod author wrote (opaque, named by an identifier),
   * or the one `KeybindOption.from_keybind` installs, which writes the new value into a keybind.
   */
  datatype OnChange = NoCallback | UserCallback(id: nat) | WriteBack(bind: Keybinds.Keybind)

  /** One call `on_change(self, new)`: the new value, and the value the option still held. */
  datatype ChangeEvent = ChangeEvent(newValue: Json, valueDuring: Json)

  /** A keybind option holds a key: a string or None. Other kinds accept any JSON value. */
  predicate ValueFits(kind: Kind, v: Json) {
    kind.KeybindKind? ==> (v.JStr? || v.JNull?)
  }

  function KeyOf(v: Json): Option<string>
    requires v.JStr? || v.JNull?
  {
    if v.JStr? then Some(v.s) else None
  }

  /** The `on_change` calls that assigning `writes` in turn makes, starting from `before`. */
  function Events(writes: seq<Json>, before: Json): (es: seq<ChangeEvent>)
    ensures |es| == |writes|
    ensures forall i :: 0 <= i < |writes| ==> es[i].newValue == writes[i]
  {
    if writes == [] then []
    else [ChangeEvent(writes[0], before)] + Events(writes[1..], writes[0])
  }

  // ---------------------------------------------------------------------------------------
  // What `_from_json` does to one value option

  /**
   * The effect of one value option's `_from_json`: the value is rejected (an error is logged and
   * the value kept), or these values are assigned in turn, or an exception escapes.
   */
  datatype LeafStep = Reject | Write(writes: seq<Json>) | Raise {
    /** The value after the step, from the value before it. */
    function After(current: Json): Json {
      if Write? && writes != [] then writes[|writes| - 1] else current
    }

    /** The values assigned, in order. */
    function Written(): seq<Json> {
      if Write? then writes else []
    }
  }

  /** `_from_json(v)` of each value-option class. */
  function LeafLoad(kind: Kind, v: Json): (step: LeafStep)
    ensures step.Write? ==> step.writes != []
    ensures forall w <- step.Written() :: ValueFits(kind, w)
    // Only the slider can raise: `float()` of None or a container is a TypeError, and of an int
    // beyond the doubles an OverflowError, neither of which it catches.
    ensures step.Raise? <==> kind.Slider? && (ToFloat(v).TypeError? || ToFloat(v).OverflowError?)
    // A slider keeps its value exactly when `float()` raises ValueError; otherwise it assigns the
    // number, and an integer slider then assigns the rounded number as well.
    ensures kind.Slider? ==> (step.Reject? <==> ToFloat(v).ValueError?)
    ensures kind.Slider? && step.Write? ==>
      && ToFloat(v).Converted?
      && step.writes[0] == JFloat(ToFloat(v).value)
      && |step.writes| == (if kind.isInteger then 2 else 1)
      && (kind.isInteger ==> step.writes[1] == JInt(RoundHalfEven(ToFloat(v).value)))
    // A spinner or dropdown takes `str(v)` exactly when it is one of the choices.
    ensures kind.Spinner? || kind.Dropdown? ==>
      && (step.Write? <==> PyStr(v) in kind.choices)
      && (step.Write? ==> step.writes == [JStr(PyStr(v))])
    // A bool takes the value's truthiness, except that a string reading "false" is false.
    ensures kind.BoolKind? ==>
      && step.Write? && |step.writes| == 1 && step.writes[0].JBool?
      && (step.writes[0].b <==> Truthy(v) && !(v.JStr? && AsciiLower(Strip(v.s)) == "false"))
    // A keybind takes None for null and `str(v)` for anything else.
    ensures kind.KeybindKind? ==>
      && step.Write? && |step.writes| == 1 && (step.writes[0].JNull? <==> v.JNull?)
      && (!v.JNull? ==> step.writes[0] == JStr(PyStr(v)))
    ensures kind.Hidden? ==> step == Write([v])
  {
    match kind
    case Hidden => Write([v])
    case Slider(_, _, _, isInteger) =>
      (match ToFloat(v)
       case Converted(f) =>
         if isInteger then Write([JFloat(f), JInt(RoundHalfEven(f))]) else Write([JFloat(f)])
       case ValueError => Reject
       case TypeError => Raise
       case OverflowError => Raise)
    case Spinner(choices, _) => if PyStr(v) in choices then Write([JStr(PyStr(v))]) else Reject
    case BoolKind(_, _) => Write([JBool(BoolCoerce(v))])
    case Dropdown(choices) => if PyStr(v) in choices then Write([JStr(PyStr(v))]) else Reject
    case KeybindKind(_) => Write([if v.JNull? then JNull else JStr(PyStr(v))])
  }

  /** A value option: `HiddenOption`, `SliderOption`, `SpinnerOption`, `BoolOption`, `DropdownOption` or `KeybindOption`. */
  class ValueOption {
    const labels: Labels
    const kind: Kind
    var value: Json
    var defaultValue: Json
    var onChange: OnChange
    /** Set only while `on_change` runs (the `_on_change_recursion_guard` attribute). */
    var changeGuard: bool
    /** Every call of `on_change`, in order. */
    ghost var fired: seq<ChangeEvent>
    /** Warnings issued by `__call__`. */
    ghost var warnings: nat

    ghost predicate Valid()
      reads this
    {
      !changeGuard && ValueFits(kind, value) && (onChange.WriteBack? ==> kind.KeybindKind?)
    }

    /** The objects an assignment to `value` may change: this option and a bound keybind. */
    function Targets(): set<object>
      reads this
    {
      {this} + (if onChange.WriteBack? then {onChange.bind} else {})
    }

    /**
     * The dataclass initialiser and `__post_init__`. The initialiser assigns `value` before
     * `on_change` is set, so no callback runs; `default_value` snapshots the value. A hidden
     * option is always hidden.
     */
    constructor (
      kind: Kind,
      identifier: string,
      value: Json,
      displayName: Option<string>,
      description: string,
      descriptionTitle: Option<string>,
      isHidden: bool,
      onChange: OnChange)
      requires ValueFits(kind, value) && (onChange.WriteBack? ==> kind.KeybindKind?)
      ensures Valid()
      ensures labels == MakeLabels(identifier, displayName, description, descriptionTitle,
                                   if kind.Hidden? then true else isHidden)
      ensures this.kind == kind && this.value == value && defaultValue == value
      ensures this.onChange == onChange && fired == [] && warnings == 0
    {
      labels := MakeLabels(identifier, displayName, description, descriptionTitle,
                           if kind.Hidden? then true else isHidden);
      this.kind := kind;
      this.value := value;
      defaultValue := value;
      this.onChange := onChange;
      changeGuard := false;
      fired := [];
      warnings := 0;
    }

    /**
     * `self.value = x` through `__setattr__`: when there is a callback and none of this option's
     * callbacks is running, `on_change(self, x)` runs first with the guard set, and the field is
     * written afterwards. `callbackWrites` are the assignments to `value` a user callback makes
     * while it runs; they do not call it again, and the final write overrides them. When
     * `callbackRaises`, the callback (for a keybind's write-back, its `_rebind`) raises after
     * those writes: nothing restores the guard, `x` is never written, and `raised` says that
     * the exception propagates.
     */
    method Assign(x: Json, callbackWrites: seq<Json>, callbackRaises: bool) returns (raised: bool)
      requires ValueFits(kind, x) && forall w <- callbackWrites :: ValueFits(kind, w)
      requires onChange.WriteBack? ==> kind.KeybindKind?
      modifies Targets()
      decreases |callbackWrites|
      ensures onChange == old(onChange)
      ensures raised <==>
        && callbackRaises && !onChange.NoCallback? && !old(changeGuard)
        && (onChange.WriteBack? ==> !old(onChange.bind.rebindGuard))
      ensures !raised ==> value == x && changeGuard == old(changeGuard)
      ensures raised ==>
        && changeGuard
        && value == if onChange.UserCallback? && callbackWrites != []
                    then callbackWrites[|callbackWrites| - 1] else old(value)
      ensures defaultValue == old(defaultValue) && warnings == old(warnings)
      ensures fired == old(fired) + (if onChange.NoCallback? || old(changeGuard) then []
                                     else [ChangeEvent(x, old(value))])
      ensures onChange.WriteBack? && !old(changeGuard) ==>
        && onChange.bind.key == (if raised then old(onChange.bind.key) else KeyOf(x))
        && onChange.bind.rebindGuard == (old(onChange.bind.rebindGuard) || raised)
        && onChange.bind.isEnabled == old(onChange.bind.isEnabled)
        && onChange.bind.defaultKey == old(onChange.bind.defaultKey)
        && onChange.bind.hooks == old(onChange.bind.hooks)
             + (if old(onChange.bind.rebindGuard) then []
                else [Keybinds.Rebind(KeyOf(x), old(onChange.bind.key))])
      ensures onChange.WriteBack? && old(changeGuard) ==> unchanged(onChange.bind)
    {
      raised := false;
      if !onChange.NoCallback? && !changeGuard {
        changeGuard := true;
        fired := fired + [ChangeEvent(x, value)];
        match onChange {
          case UserCallback(_) =>
            var i := 0;
            while i < |callbackWrites|
              invariant 0 <= i <= |callbackWrites|
              invariant changeGuard && onChange == old(onChange)
              invariant value == if i == 0 then old(value) else callbackWrites[i - 1]
              invariant defaultValue == old(defaultValue) && warnings == old(warnings)
              invariant fired == old(fired) + [ChangeEvent(x, old(value))]
            {
              var _ := Assign(callbackWrites[i], [], false);
              i := i + 1;
            }
            raised := callbackRaises;
          case WriteBack(bind) =>
            raised := bind.SetKey(KeyOf(x), [], callbackRaises);
        }
        if raised {
          return;
        }
        changeGuard := false;
      }
      value := x;
    }

    /** `__call__`: installs a user callback (warning if one was set) and returns the option. */
    method SetOnChange(id: nat) returns (self: ValueOption)
      requires Valid()
      modifies this
      ensures self == this && Valid()
      ensures onChange == UserCallback(id)
      ensures warnings == old(warnings) + (if old(onChange).NoCallback? then 0 else 1)
      ensures value == old(value) && defaultValue == old(defaultValue) && fired == old(fired)
    {
      if !onChange.NoCallback? {
        warnings := warnings + 1;
      }
      onChange := UserCallback(id);
      self := this;
    }

    /**
     * `_from_json(v)` of this option's class. Every assignment goes through `__setattr__`, so
     * the callback sees each written value in turn (a rounding slider: the float, then the int).
     */
    method FromJson(v: Json) returns (raised: bool)
      requires Valid()
      modifies Targets()
      ensures Valid() && onChange == old(onChange) && defaultValue == old(defaultValue)
      ensures raised <==> LeafLoad(kind, v).Raise?
      ensures value == LeafLoad(kind, v).After(old(value))
      ensures fired == old(fired) + (if onChange.NoCallback? then []
                                     else Events(LeafLoad(kind, v).Written(), old(value)))
      // An option made by `from_keybind` writes the loaded key into its keybind, through
      // `_rebind` unless one is already running; nothing else of the keybind changes.
      ensures onChange.WriteBack? ==>
        var bind := onChange.bind;
        && bind.key == KeyOf(value)
        && bind.defaultKey == old(bind.defaultKey) && bind.isEnabled == old(bind.isEnabled)
        && bind.rebindGuard == old(bind.rebindGuard)
        && bind.hooks == old(bind.hooks)
             + (if old(bind.rebindGuard) then [] else [Keybinds.Rebind(KeyOf(value), old(bind.key))])
    {
      raised := false;
      match kind
      case Hidden =>
        var _ := Assign(v, [], false);
      case Slider(_, _, _, isInteger) =>
        var number := ToFloat(v);
        match number {
          case Converted(f) =>
            var _ := Assign(JFloat(f), [], false);
            if isInteger {
              var _ := Assign(JInt(RoundHalfEven(f)), [], false);
            }
          case ValueError =>
          case TypeError =>
            raised := true;
          case OverflowError =>
            raised := true;
        }
      case Spinner(choices, _) =>
        var s := PyStr(v);
        if s in choices {
          var _ := Assign(JStr(s), [], false);
        }
      case BoolKind(_, _) =>
        var _ := Assign(JBool(BoolCoerce(v)), [], false);
      case Dropdown(choices) =>
        var s := PyStr(v);
        if s in choices {
          var _ := Assign(JStr(s), [], false);
        }
      case KeybindKind(_) =>
        if v.JNull? {
          var _ := Assign(JNull, [], false);
        } else {
          var _ := Assign(JStr(PyStr(v)), [], false);
        }
    }
  }

  /**
   * `SliderOption(...)`: `None` when `__post_init__` raises ValueError because the step is
   * larger than the range; otherwise the option, and whether the non-integer warning was issued.
   */
  method NewSlider(
    identifier: string,
    value: real,
    isIntValue: bool,
    minValue: real,
    maxValue: real,
    step: real,
    isInteger: bool,
    displayName: Option<string>,
    description: string,
    descriptionTitle: Option<string>,
    isHidden: bool,
    onChange: Option<nat>) returns (r: Option<ValueOption>, warned: bool)
    requires isIntValue ==> value.Floor as real == value
    ensures r.None? <==> step > maxValue - minValue
    ensures r.None? ==> !warned
    ensures r.Some? ==>
      && fresh(r.value) && r.value.Valid()
      && r.value.kind == Slider(minValue, maxValue, step, isInteger)
      && r.value.value == (if isIntValue then JInt(value.Floor) else JFloat(value))
      && r.value.defaultValue == r.value.value
      && r.value.onChange == (if onChange.Some? then UserCallback(onChange.value) else NoCallback)
      && r.value.labels == MakeLabels(identifier, displayName, description, descriptionTitle, isHidden)
    ensures r.Some? ==>
      (warned <==> isInteger && !(IsIntegral(value) && IsIntegral(minValue)
                                 && IsIntegral(maxValue) && IsIntegral(step)))
  {
    if step > maxValue - minValue {
      return None, false;
    }
    var initial := if isIntValue then JInt(value.Floor) else JFloat(value);
    var callback := if onChange.Some? then UserCallback(onChange.value) else NoCallback;
    var option := new ValueOption(Slider(minValue, maxValue, step, isInteger), identifier,
      initial, displayName, description, descriptionTitle, isHidden, callback);
    warned := isInteger && !(IsIntegral(value) && IsIntegral(minValue)
                             && IsIntegral(maxValue) && IsIntegral(step));
    r := Some(option);
  }

  /** `x == int(x)` for a number. */
  predicate IsIntegral(x: real) {
    x.Floor as real == x
  }

  /**
   * `KeybindOption.from_keybind(bind)`: an option that copies the keybind's key and labels,
   * whose callback writes every new value back into the keybind, and whose default value is the
   * keybind's default key.
   */
  method FromKeybind(bind: Keybinds.Keybind) returns (option: ValueOption)
    ensures fresh(option) && option.Valid()
    ensures option.kind == KeybindKind(bind.isRebindable)
    ensures option.labels == bind.labels
    ensures option.value == KeyJson(bind.key)
    ensures option.defaultValue == KeyJson(bind.defaultKey)
    ensures option.onChange == WriteBack(bind)
    ensures option.fired == []
  {
    option := new ValueOption(KeybindKind(bind.isRebindable), bind.labels.identifier,
      KeyJson(bind.key), Some(bind.labels.displayName), bind.labels.description,
      Some(bind.labels.descriptionTitle), bind.labels.isHidden, WriteBack(bind));
    option.defaultValue := KeyJson(bind.defaultKey);
  }

  // ---------------------------------------------------------------------------------------
  // The tree

  /** An entry of an options list: a value option, a button, or a grouped/nested option. */
  datatype OptionNode =
    | Leaf(option: ValueOption)
    | Button(buttonLabels: Labels, onPress: Option<nat>)
    | Group(groupLabels: Labels, nested: bool, children: seq<OptionNode>)
  {
    function Identifier(): string {
      match this
      case Leaf(o) => o.labels.identifier
      case Button(l, _) => l.identifier
      case Group(l, _, _) => l.identifier
    }
  }

  /** The value options in a subtree. */
  function LeavesOf(n: OptionNode): set<ValueOption>
    decreases n
  {
    match n
    case Leaf(o) => {o}
    case Button(_, _) => {}
    case Group(_, _, cs) => LeavesOfAll(cs)
  }

  function LeavesOfAll(cs: seq<OptionNode>): set<ValueOption>
    decreases cs
  {
    if cs == [] then {} else LeavesOf(cs[0]) + LeavesOfAll(cs[1..])
  }

  lemma {:induction false} LeavesOfAllParts(cs: seq<OptionNode>, i: nat)
    requires i < |cs|
    ensures LeavesOf(cs[i]) <= LeavesOfAll(cs)
    ensures LeavesOfAll(cs[i..]) <= LeavesOfAll(cs)
    ensures LeavesOfAll(cs[i..]) == LeavesOf(cs[i]) + LeavesOfAll(cs[i + 1..])
  {
    assert cs[i..][1..] == cs[i + 1..];
    if i > 0 {
      LeavesOfAllParts(cs[1..], i - 1);
      assert cs[1..][i - 1] == cs[i];
      assert cs[1..][i - 1..] == cs[i..];
    }
  }

  /** The value options of a tree held in a field are allocated, like the tree itself. */
  lemma {:induction false} LeavesAllocated(cs: seq<OptionNode>)
    ensures forall o <- LeavesOfAll(cs) :: allocated(o)
    decreases cs
  {
    if cs != [] {
      NodeLeavesAllocated(cs[0]);
      LeavesAllocated(cs[1..]);
    }
  }

  lemma {:induction false} NodeLeavesAllocated(n: OptionNode)
    ensures forall o <- LeavesOf(n) :: allocated(o)
    decreases n
  {
    if n.Group? {
      LeavesAllocated(n.children);
    }
  }

  /** The objects loading a subtree may change: its value options and the keybinds they write to. */
  function Footprint(leaves: set<ValueOption>): set<object>
    reads leaves
  {
    leaves + BoundKeybinds(leaves)
  }

  /** The keybinds that options made by `from_keybind` write their values into. */
  function BoundKeybinds(leaves: set<ValueOption>): set<Keybinds.Keybind>
    reads leaves
  {
    set o | o in leaves && o.onChange.WriteBack? :: o.onChange.bind
  }

  /** The options in `d` that have an `on_change` callback. */
  function Called(d: set<ValueOption>): set<ValueOption>
    reads d
  {
    set o | o in d && !o.onChange.NoCallback?
  }

  /** The callback calls recorded so far by each option in `d`. */
  ghost function Fired(d: set<ValueOption>): (m: map<ValueOption, seq<ChangeEvent>>)
    reads d
    ensures m.Keys == d
    ensures forall o <- d :: m[o] == o.fired
  {
    map o | o in d :: o.fired
  }

  /**
   * The parts of an option that loading never changes: its callback, its default value
   * (`default_value` is only assigned in `__post_init__`), and the settled parts of the keybind
   * it writes into, if any.
   */
  datatype OptionSettled = OptionSettled(onChange: OnChange, defaultValue: Json, bind: Option<Keybinds.Settled>)

  function SettledOf(o: ValueOption): OptionSettled
    reads o, if o.onChange.WriteBack? then {o.onChange.bind} else {}
  {
    OptionSettled(o.onChange, o.defaultValue,
      if o.onChange.WriteBack?
      then Some(Keybinds.Settled(o.onChange.bind.defaultKey, o.onChange.bind.isEnabled, o.onChange.bind.rebindGuard))
      else None)
  }

  /** Those parts of each option in `d`. */
  function SettledOptions(d: set<ValueOption>): (m: map<ValueOption, OptionSettled>)
    reads d, BoundKeybinds(d)
    ensures m.Keys == d
    ensures forall o <- d :: m[o] == SettledOf(o)
  {
    map o | o in d :: SettledOf(o)
  }

  /** What a load keeps: the options of `d` stay valid, and their settled parts are unchanged. */
  twostate predicate LoadKeeps(d: set<ValueOption>)
    reads d, BoundKeybinds(d)
  {
    (forall o <- d :: o.Valid()) && SettledOptions(d) == old(SettledOptions(d))
  }

  /** The current value of each option in `d`. */
  function Vals(d: set<ValueOption>): (m: map<ValueOption, Json>)
    reads d
    ensures m.Keys == d
    ensures forall o <- d :: m[o] == o.value
  {
    map o | o in d :: o.value
  }

  // ---------------------------------------------------------------------------------------
  // _to_json

  /**
   * `_to_json()`: a value option's value, Absent for a button, and for a group the dict of its
   * children's values.
   */
  function ToJson(n: OptionNode): (r: JsonOrAbsent)
    reads LeavesOf(n)
    ensures r.Absent? <==> n.Button?
    ensures n.Leaf? ==> r == Present(n.option.value)
    ensures n.Group? ==> r.json.JObj?
    decreases n
  {
    match n
    case Leaf(o) => Present(o.value)
    case Button(_, _) => Absent
    case Group(_, _, cs) => Present(JObj(ChildrenToJson(cs)))
  }

  /**
   * The dict comprehension `{c.identifier: c._to_json() for c in cs if ... is not ...}`. Its keys
   * are the identifiers of the children that are not Absent; with repeated identifiers the last
   * such child wins.
   */
  function ChildrenToJson(cs: seq<OptionNode>): (m: map<string, Json>)
    reads LeavesOfAll(cs)
    ensures forall k :: k in m <==>
      exists i :: 0 <= i < |cs| && cs[i].Identifier() == k && ToJson(cs[i]).Present?
    ensures forall k <- m :: exists i :: 0 <= i < |cs| && cs[i].Identifier() == k && ToJson(cs[i]) == Present(m[k])
    decreases cs
  {
    if cs == [] then map[]
    else
      var rest := ChildrenToJson(cs[1..]);
      assert forall i :: 0 < i < |cs| ==> cs[i] == cs[1..][i - 1];
      match ToJson(cs[0])
      case Absent => rest
      case Present(j) => if cs[0].Identifier() in rest then rest else rest[cs[0].Identifier() := j]
  }

  // ---------------------------------------------------------------------------------------
  // _from_json on the tree

  /** The values of the options after a load, and whether an exception escaped it. */
  datatype LoadResult = LoadResult(vals: map<ValueOption, Json>, raised: bool)

  /**
   * `n._from_json(v)` on values `vals`: a value option takes its class's step, a button does
   * nothing, and a group given a dict loads the children the dict names (anything else is
   * logged and ignored). Only options of the subtree change.
   */
  function NodeLoad(n: OptionNode, v: Json, vals: map<ValueOption, Json>): (r: LoadResult)
    requires LeavesOf(n) <= vals.Keys
    ensures r.vals.Keys == vals.Keys
    ensures forall o <- vals.Keys :: o !in LeavesOf(n) ==> r.vals[o] == vals[o]
    decreases n
  {
    match n
    case Leaf(o) =>
      var step := LeafLoad(o.kind, v);
      LoadResult(vals[o := step.After(vals[o])], step.Raise?)
    case Button(_, _) => LoadResult(vals, false)
    case Group(_, _, cs) =>
      if v.JObj? then ChildrenLoad(cs, v.entries, vals) else LoadResult(vals, false)
  }

  /**
   * The loop over `cs` that loads every option whose identifier is a key of `m`, in order,
   * stopping at the first exception. Options whose identifier is not a key are not touched.
   */
  function ChildrenLoad(cs: seq<OptionNode>, m: map<string, Json>, vals: map<ValueOption, Json>)
    : (r: LoadResult)
    requires LeavesOfAll(cs) <= vals.Keys
    ensures r.vals.Keys == vals.Keys
    ensures forall o <- vals.Keys :: o !in LeavesOfAll(cs) ==> r.vals[o] == vals[o]
    decreases cs
  {
    if cs == [] then LoadResult(vals, false)
    else if cs[0].Identifier() !in m then ChildrenLoad(cs[1..], m, vals)
    else
      var first := NodeLoad(cs[0], m[cs[0].Identifier()], vals);
      if first.raised then first else ChildrenLoad(cs[1..], m, first.vals)
  }

  /**
   * The `on_change` calls a load makes, appended to the calls `fs` already recorded. A value
   * option with a callback (one of `called`) records one call per value its class assigns, in
   * order; options are visited as `NodeLoad` visits them, and nothing is called after an
   * exception.
   */
  function NodeFired(
    n: OptionNode, v: Json, vals: map<ValueOption, Json>, fs: map<ValueOption, seq<ChangeEvent>>,
    called: set<ValueOption>): (r: map<ValueOption, seq<ChangeEvent>>)
    requires LeavesOf(n) <= vals.Keys && LeavesOf(n) <= fs.Keys
    ensures r.Keys == fs.Keys
    ensures forall o <- fs.Keys :: fs[o] <= r[o]
    ensures forall o <- fs.Keys :: o !in LeavesOf(n) || o !in called ==> r[o] == fs[o]
    decreases n
  {
    match n
    case Leaf(o) =>
      fs[o := fs[o] + if o in called then Events(LeafLoad(o.kind, v).Written(), vals[o]) else []]
    case Button(_, _) => fs
    case Group(_, _, cs) => if v.JObj? then ChildrenFired(cs, v.entries, vals, fs, called) else fs
  }

  /** The `on_change` calls of the loop over `cs`, which `ChildrenLoad` describes. */
  function ChildrenFired(
    cs: seq<OptionNode>, m: map<string, Json>, vals: map<ValueOption, Json>,
    fs: map<ValueOption, seq<ChangeEvent>>, called: set<ValueOption>)
    : (r: map<ValueOption, seq<ChangeEvent>>)
    requires LeavesOfAll(cs) <= vals.Keys && LeavesOfAll(cs) <= fs.Keys
    ensures r.Keys == fs.Keys
    ensures forall o <- fs.Keys :: fs[o] <= r[o]
    ensures forall o <- fs.Keys :: o !in LeavesOfAll(cs) || o !in called ==> r[o] == fs[o]
    decreases cs
  {
    if cs == [] then fs
    else if cs[0].Identifier() !in m then ChildrenFired(cs[1..], m, vals, fs, called)
    else
      var v := m[cs[0].Identifier()];
      var first := NodeLoad(cs[0], v, vals);
      var fired := NodeFired(cs[0], v, vals, fs, called);
      if first.raised then fired else ChildrenFired(cs[1..], m, first.vals, fired, called)
  }

  /**
   * `_from_json(v)` on any option. For a group (`GroupedOption` and `NestedOption` alike) it is
   * the loop over the children; `d` is any set of options holding the subtree's.
   */
  method LoadNode(n: OptionNode, v: Json, ghost d: set<ValueOption>) returns (raised: bool)
    requires LeavesOf(n) <= d
    requires forall o <- d :: o.Valid()
    modifies Footprint(LeavesOf(n))
    ensures LoadKeeps(d)
    ensures Vals(d) == NodeLoad(n, v, old(Vals(d))).vals
    ensures raised == NodeLoad(n, v, old(Vals(d))).raised
    ensures Fired(d) == NodeFired(n, v, old(Vals(d)), old(Fired(d)), old(Called(d)))
    decreases n
  {
    match n
    case Leaf(o) =>
      raised := LoadLeaf(o, v, d);
    case Button(_, _) =>
      raised := false;
    case Group(_, _, cs) =>
      raised := false;
      if v.JObj? {
        raised := LoadChildren(cs, v.entries, d);
      }
  }

  /** `_from_json(v)` on a value option, as one node of a tree whose options are `d`. */
  method LoadLeaf(o: ValueOption, v: Json, ghost d: set<ValueOption>) returns (raised: bool)
    requires o in d
    requires forall o' <- d :: o'.Valid()
    modifies o.Targets()
    ensures LoadKeeps(d)
    ensures Vals(d) == old(Vals(d))[o := LeafLoad(o.kind, v).After(old(o.value))]
    ensures raised == LeafLoad(o.kind, v).Raise?
    ensures Fired(d) == NodeFired(Leaf(o), v, old(Vals(d)), old(Fired(d)), old(Called(d)))
  {
    assert o in Called(d) <==> !o.onChange.NoCallback?;
    raised := o.FromJson(v);
    UpdateOne(old(Vals(d)), Vals(d), o);
    UpdateOne(old(Fired(d)), Fired(d), o);
    forall o' | o' in d ensures o'.Valid() && SettledOf(o') == old(SettledOf(o')) {
      if o.onChange.WriteBack? && o'.onChange.WriteBack? && o'.onChange.bind != o.onChange.bind {
        assert o'.onChange.bind !in o.Targets();
      }
    }
    SameMaps(old(SettledOptions(d)), SettledOptions(d));
  }

  /** Two maps with the same keys and the same value at each key are equal. */
  lemma SameMaps<K, V>(m: map<K, V>, m': map<K, V>)
    requires m.Keys == m'.Keys && forall k <- m.Keys :: m'[k] == m[k]
    ensures m' == m
  {
  }

  /** A map that differs from `m` at most at `k` is `m` updated at `k`. */
  lemma UpdateOne<K, V>(m: map<K, V>, m': map<K, V>, k: K)
    requires m.Keys == m'.Keys && k in m
    requires forall k' <- m.Keys :: k' != k ==> m'[k'] == m[k']
    ensures m' == m[k := m'[k]]
  {
  }

  /** One turn of the loop over children: the first child `cs[i]`, then the rest. */
  lemma ChildrenStep(
    cs: seq<OptionNode>, i: nat, m: map<string, Json>, vals: map<ValueOption, Json>,
    fs: map<ValueOption, seq<ChangeEvent>>, called: set<ValueOption>)
    requires i < |cs| && LeavesOfAll(cs[i..]) <= vals.Keys && LeavesOfAll(cs[i..]) <= fs.Keys
    requires LeavesOfAll(cs[i..]) == LeavesOf(cs[i]) + LeavesOfAll(cs[i + 1..])
    ensures cs[i].Identifier() !in m ==>
      && ChildrenLoad(cs[i..], m, vals) == ChildrenLoad(cs[i + 1..], m, vals)
      && ChildrenFired(cs[i..], m, vals, fs, called) == ChildrenFired(cs[i + 1..], m, vals, fs, called)
    ensures cs[i].Identifier() in m ==>
      var v := m[cs[i].Identifier()];
      var first := NodeLoad(cs[i], v, vals);
      var fired := NodeFired(cs[i], v, vals, fs, called);
      && ChildrenLoad(cs[i..], m, vals)
         == (if first.raised then first else ChildrenLoad(cs[i + 1..], m, first.vals))
      && ChildrenFired(cs[i..], m, vals, fs, called)
         == (if first.raised then fired else ChildrenFired(cs[i + 1..], m, first.vals, fired, called))
  {
    assert cs[i..][0] == cs[i] && cs[i..][1..] == cs[i + 1..];
  }

  /** Options that keep their callbacks keep having or not having one. */
  twostate lemma CalledKept(d: set<ValueOption>)
    requires LoadKeeps(d)
    ensures Called(d) == old(Called(d))
  {
  }

  /**
   * A group's loop over its children: each child the dict names loads its entry, and the loop
   * stops at the first exception.
   */
  method LoadChildren(cs: seq<OptionNode>, m: map<string, Json>, ghost d: set<ValueOption>)
    returns (raised: bool)
    requires LeavesOfAll(cs) <= d
    requires forall o <- d :: o.Valid()
    modifies Footprint(LeavesOfAll(cs))
    ensures LoadKeeps(d)
    ensures Vals(d) == ChildrenLoad(cs, m, old(Vals(d))).vals
    ensures raised == ChildrenLoad(cs, m, old(Vals(d))).raised
    ensures Fired(d) == ChildrenFired(cs, m, old(Vals(d)), old(Fired(d)), old(Called(d)))
    decreases cs
  {
    raised := false;
    var i := 0;
    assert cs[0..] == cs;
    while i < |cs|
      invariant 0 <= i <= |cs|
      invariant LeavesOfAll(cs[i..]) <= d
      invariant LoadKeeps(d) && Called(d) == old(Called(d))
      invariant ChildrenLoad(cs[i..], m, Vals(d)) == ChildrenLoad(cs, m, old(Vals(d)))
      invariant ChildrenFired(cs[i..], m, Vals(d), Fired(d), old(Called(d)))
             == ChildrenFired(cs, m, old(Vals(d)), old(Fired(d)), old(Called(d)))
    {
      LeavesOfAllParts(cs, i);
      ChildrenStep(cs, i, m, Vals(d), Fired(d), old(Called(d)));
      if cs[i].Identifier() in m {
        raised := LoadNode(cs[i], m[cs[i].Identifier()], d);
        CalledKept(d);
        if raised {
          return;
        }
      }
      i := i + 1;
    }
  }

  // ---------------------------------------------------------------------------------------
  // Properties of the tree

  /** One step of the dict comprehension: the first child's entry, unless a later child has its key. */
  lemma ChildrenToJsonStep(cs: seq<OptionNode>)
    requires cs != []
    ensures var rest := ChildrenToJson(cs[1..]);
      ChildrenToJson(cs)
      == if ToJson(cs[0]).Absent? || cs[0].Identifier() in rest then rest
         else rest[cs[0].Identifier() := ToJson(cs[0]).json]
  {
  }

  /**
   * A child whose value is present is saved under its identifier unless a later sibling with the
   * same identifier is present too: in the dict comprehension the last such child wins.
   */
  lemma {:induction false} ChildrenToJsonValue(cs: seq<OptionNode>, i: nat)
    requires i < |cs| && ToJson(cs[i]).Present?
    requires forall j :: i < j < |cs| && cs[j].Identifier() == cs[i].Identifier() ==> cs[j].Button?
    ensures cs[i].Identifier() in ChildrenToJson(cs)
    ensures ChildrenToJson(cs)[cs[i].Identifier()] == ToJson(cs[i]).json
  {
    var rest := ChildrenToJson(cs[1..]);
    ChildrenToJsonStep(cs);
    if i == 0 {
      forall k | 0 <= k < |cs[1..]|
        ensures cs[1..][k].Identifier() == cs[0].Identifier() ==> ToJson(cs[1..][k]).Absent?
      {
        assert cs[1..][k] == cs[k + 1];
      }
      assert cs[0].Identifier() !in rest;
    } else {
      forall j | i - 1 < j < |cs[1..]| && cs[1..][j].Identifier() == cs[1..][i - 1].Identifier()
        ensures cs[1..][j].Button?
      {
        assert cs[1..][j] == cs[j + 1];
      }
      ChildrenToJsonValue(cs[1..], i - 1);
      assert cs[1..][i - 1] == cs[i];
    }
  }

  /**
   * Loading a group never touches an option that sits only under children whose identifier is
   * not a key of the dict, even when the same option object appears more than once.
   */
  lemma {:induction false} ChildrenLoadUntouched(
    cs: seq<OptionNode>, m: map<string, Json>, vals: map<ValueOption, Json>, o: ValueOption)
    requires LeavesOfAll(cs) <= vals.Keys && o in vals
    requires forall i :: 0 <= i < |cs| && o in LeavesOf(cs[i]) ==> cs[i].Identifier() !in m
    ensures ChildrenLoad(cs, m, vals).vals[o] == vals[o]
    decreases cs
  {
    if cs != [] {
      forall i | 0 <= i < |cs[1..]| && o in LeavesOf(cs[1..][i])
        ensures cs[1..][i].Identifier() !in m
      {
        assert cs[1..][i] == cs[i + 1];
      }
      if cs[0].Identifier() in m {
        var first := NodeLoad(cs[0], m[cs[0].Identifier()], vals);
        assert first.vals[o] == vals[o];
        if !first.raised {
          ChildrenLoadUntouched(cs[1..], m, first.vals, o);
        }
      } else {
        ChildrenLoadUntouched(cs[1..], m, vals, o);
      }
    }
  }

  /** A value a freshly loaded option of this kind would hold again after loading it. */
  predicate Canonical(kind: Kind, v: Json) {
    match kind
    case Hidden => true
    case Slider(_, _, _, isInteger) =>
      if isInteger then v.JInt? && v.i < FloatOverflowBound && -v.i < FloatOverflowBound else v.JFloat?
    case Spinner(choices, _) => v.JStr? && v.s in choices
    case BoolKind(_, _) => v.JBool?
    case Dropdown(choices) => v.JStr? && v.s in choices
    case KeybindKind(_) => v.JStr? || v.JNull?
  }

  /** Loading an option's own canonical value writes that value back and raises nothing. */
  lemma LeafRoundTrip(kind: Kind, v: Json, current: Json)
    requires Canonical(kind, v)
    ensures LeafLoad(kind, v).After(current) == v && !LeafLoad(kind, v).Raise?
  {
    if kind.Slider? && kind.isInteger {
      var n := RoundHalfEven(v.i as real);
      assert n - v.i == 0;
    }
  }

  /** Sibling identifiers are distinct in every group of the tree. */
  predicate DistinctIds(n: OptionNode)
    decreases n
  {
    n.Group? ==> DistinctChildIds(n.children)
  }

  predicate DistinctChildIds(cs: seq<OptionNode>)
    decreases cs
  {
    && (forall i, j :: 0 <= i < j < |cs| ==> cs[i].Identifier() != cs[j].Identifier())
    && (forall i :: 0 <= i < |cs| ==> DistinctIds(cs[i]))
  }

  /**
   * Saving and loading again is the identity: loading `_to_json()` of a tree back into it raises
   * nothing and leaves every value as it was, provided every value is canonical for its kind and
   * sibling identifiers are distinct.
   */
  lemma {:induction false} RoundTrip(n: OptionNode, vals: map<ValueOption, Json>)
    requires LeavesOf(n) <= vals.Keys && DistinctIds(n)
    requires forall o <- LeavesOf(n) :: vals[o] == o.value && Canonical(o.kind, o.value)
    ensures ToJson(n).Present? ==> NodeLoad(n, ToJson(n).json, vals) == LoadResult(vals, false)
    decreases n, 0
  {
    match n
    case Leaf(o) =>
      LeafRoundTrip(o.kind, o.value, vals[o]);
      assert vals[o := o.value] == vals;
    case Button(_, _) =>
    case Group(_, _, cs) =>
      ChildrenSaveLoad(cs, vals);
  }

  /** The round trip for a list of siblings: loading the dict they save changes nothing. */
  lemma {:induction false} ChildrenSaveLoad(cs: seq<OptionNode>, vals: map<ValueOption, Json>)
    requires LeavesOfAll(cs) <= vals.Keys && DistinctChildIds(cs)
    requires forall o <- LeavesOfAll(cs) :: vals[o] == o.value && Canonical(o.kind, o.value)
    ensures ChildrenLoad(cs, ChildrenToJson(cs), vals) == LoadResult(vals, false)
    decreases cs, 1
  {
    var m := ChildrenToJson(cs);
    forall i | 0 <= i < |cs| && cs[i].Identifier() in m && !cs[i].Button?
      ensures ToJson(cs[i]) == Present(m[cs[i].Identifier()])
    {
      ChildrenToJsonValue(cs, i);
    }
    ChildrenRoundTrip(cs, m, vals);
  }

  lemma {:induction false} ChildrenRoundTrip(
    cs: seq<OptionNode>, m: map<string, Json>, vals: map<ValueOption, Json>)
    requires LeavesOfAll(cs) <= vals.Keys && DistinctChildIds(cs)
    requires forall o <- LeavesOfAll(cs) :: vals[o] == o.value && Canonical(o.kind, o.value)
    requires forall i :: 0 <= i < |cs| && cs[i].Identifier() in m && !cs[i].Button? ==>
      ToJson(cs[i]) == Present(m[cs[i].Identifier()])
    ensures ChildrenLoad(cs, m, vals) == LoadResult(vals, false)
    decreases cs, 0
  {
    if cs != [] {
      LeavesOfAllParts(cs, 0);
      assert cs[0..] == cs;
      forall i | 0 <= i < |cs[1..]| && cs[1..][i].Identifier() in m && !cs[1..][i].Button?
        ensures ToJson(cs[1..][i]) == Present(m[cs[1..][i].Identifier()])
      {
        assert cs[1..][i] == cs[i + 1];
      }
      assert DistinctChildIds(cs[1..]) by {
        forall i | 0 <= i < |cs[1..]| ensures DistinctIds(cs[1..][i]) {
          assert cs[1..][i] == cs[i + 1];
        }
        forall i, j | 0 <= i < j < |cs[1..]|
          ensures cs[1..][i].Identifier() != cs[1..][j].Identifier()
        {
          assert cs[1..][i] == cs[i + 1] && cs[1..][j] == cs[j + 1];
        }
      }
      if cs[0].Identifier() in m && !cs[0].Button? {
        RoundTrip(cs[0], vals);
      }
      ChildrenRoundTrip(cs[1..], m, vals);
    }
  }

  /** A bool option reads a string spelling "false" as false, whatever its case and spacing. */
  lemma BoolExamples()
    ensures LeafLoad(BoolKind(None, None), JStr("False ")).After(JBool(true)) == JBool(false)
    ensures LeafLoad(BoolKind(None, None), JInt(1)).After(JBool(false)) == JBool(true)
  {
    assert StripRight("False ") == "False";
    assert Strip("False ") == "False";
    assert AsciiLower("False") == "false";
  }

  /** A spinner ignores a value that is not one of its choices. */
  lemma SpinnerExample()
    ensures LeafLoad(Spinner(["a", "b", "c"], false), JStr("z")).After(JStr("b")) == JStr("b")
  {
  }

  /** An integer slider loads "7.6" as 8. */
  lemma SliderExamples(text: string)
    requires text == "7.6"
    ensures LeafLoad(Slider(0.0, 10.0, 1.0, true), JStr(text)).After(JInt(0)) == JInt(8)
  {
    ParseFloatExample();
    assert RoundHalfEven(7.6) == 8;
  }

  /**
   * A slider raises on null and on an int too large for a double, and loads the largest int
   * that fits.
   */
  lemma SliderRaiseExamples(kind: Kind)
    requires kind.Slider?
    ensures LeafLoad(kind, JNull).Raise?
    ensures LeafLoad(kind, JInt(FloatOverflowBound)).Raise?
    ensures LeafLoad(kind, JInt(-(FloatOverflowBound as int))).Raise?
    ensures LeafLoad(kind, JInt(FloatOverflowBound - 1)).Write?
  {
  }
}
