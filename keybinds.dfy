/**
 * A keybind (`KeybindType`) and the `keybind` decorator factory that builds one.
 *
 * The keybind implementation's hooks (`_enable`, `_disable`, `_rebind`) belong to code outside
 * this model; each call to them is recorded, in order, in the ghost trace `hooks`. The press
 * callback is opaque and is represented by an identifier.
 */
module Keybinds {
  import opened Wrappers
  import opened Display

  /** The engine's input events (`EInputEvent`). */
  datatype InputEvent = Pressed | Released | Repeat | DoubleClick | Axis | EventMax

  /** One call into the keybind implementation's hooks. */
  datatype HookCall =
      /** `_rebind` from the dataclass initialiser, which assigns `key` before it has any value. */
    | InitialRebind(newKey: Option<string>)
      /** `_rebind(new_key)`, with the key the keybind still held while the hook ran. */
    | Rebind(newKey: Option<string>, keyDuring: Option<string>)
    | EnableHook
    | DisableHook

  class Keybind {
    const labels: Labels
    const callback: Option<nat>
    const isRebindable: bool
    const eventFilter: Option<InputEvent>
    var key: Option<string>
    var isEnabled: bool
    var defaultKey: Option<string>
    /** Set only while `_rebind` runs (the `_rebind_recursion_guard` attribute). */
    var rebindGuard: bool
    ghost var hooks: seq<HookCall>

    ghost predicate Valid()
      reads this
    {
      !rebindGuard
    }

    /**
     * The dataclass initialiser followed by `__post_init__`. Assigning `key` in the initialiser
     * already goes through `__setattr__`, so `_rebind` runs once here.
     */
    constructor (
      identifier: string,
      key: Option<string>,
      callback: Option<nat>,
      displayName: Option<string>,
      description: string,
      descriptionTitle: Option<string>,
      isHidden: bool,
      isRebindable: bool,
      eventFilter: Option<InputEvent>)
      ensures Valid()
      ensures labels == MakeLabels(identifier, displayName, description, descriptionTitle, isHidden)
      ensures this.key == key && defaultKey == key && !isEnabled
      ensures this.callback == callback && this.isRebindable == isRebindable
      ensures this.eventFilter == eventFilter
      ensures hooks == [InitialRebind(key)]
    {
      labels := MakeLabels(identifier, displayName, description, descriptionTitle, isHidden);
      this.callback := callback;
      this.isRebindable := isRebindable;
      this.eventFilter := eventFilter;
      hooks := [InitialRebind(key)];
      this.key := key;
      isEnabled := false;
      rebindGuard := false;
      defaultKey := key;
    }

    /**
     * `self.key = new_key`: `_rebind(new_key)` runs first, unless a `_rebind` of this keybind is
     * already running, and only then is the field written. `hookWrites` are the assignments to
     * `key` that `_rebind` itself makes; they do not call it again. When `hookRaises`, `_rebind`
     * raises after those writes: nothing restores the guard, `new_key` is never written, and
     * `raised` says that the exception propagates.
     */
    method SetKey(newKey: Option<string>, hookWrites: seq<Option<string>>, hookRaises: bool)
      returns (raised: bool)
      modifies this
      decreases |hookWrites|
      ensures raised <==> hookRaises && !old(rebindGuard)
      ensures !raised ==> key == newKey && rebindGuard == old(rebindGuard)
      ensures raised ==> rebindGuard && key == (if hookWrites == [] then old(key) else hookWrites[|hookWrites| - 1])
      ensures isEnabled == old(isEnabled) && defaultKey == old(defaultKey)
      ensures hooks == old(hooks) + (if old(rebindGuard) then [] else [Rebind(newKey, old(key))])
    {
      raised := false;
      if !rebindGuard {
        rebindGuard := true;
        hooks := hooks + [Rebind(newKey, key)];
        var i := 0;
        while i < |hookWrites|
          invariant 0 <= i <= |hookWrites|
          invariant rebindGuard
          invariant key == if i == 0 then old(key) else hookWrites[i - 1]
          invariant isEnabled == old(isEnabled) && defaultKey == old(defaultKey)
          invariant hooks == old(hooks) + [Rebind(newKey, old(key))]
        {
          var _ := SetKey(hookWrites[i], [], false);
          i := i + 1;
        }
        if hookRaises {
          raised := true;
          return;
        }
        rebindGuard := false;
      }
      key := newKey;
    }

    /** `enable()`: the implementation's `_enable` hook, then the flag. */
    method Enable()
      modifies this
      ensures isEnabled
      ensures key == old(key) && defaultKey == old(defaultKey) && rebindGuard == old(rebindGuard)
      ensures hooks == old(hooks) + [EnableHook]
    {
      hooks := hooks + [EnableHook];
      isEnabled := true;
    }

    /** `disable()`: the implementation's `_disable` hook, then the flag. */
    method Disable()
      modifies this
      ensures !isEnabled
      ensures key == old(key) && defaultKey == old(defaultKey) && rebindGuard == old(rebindGuard)
      ensures hooks == old(hooks) + [DisableHook]
    {
      hooks := hooks + [DisableHook];
      isEnabled := false;
    }
  }

  /**
   * The parts of a keybind that loading settings never changes: its default key (`default_key`
   * is only assigned in `__post_init__`), whether it is enabled, and its rebind guard.
   */
  datatype Settled = Settled(defaultKey: Option<string>, isEnabled: bool, rebindGuard: bool)

  /** Those parts of each keybind in `bs`. */
  function SettledAll(bs: set<Keybind>): (m: map<Keybind, Settled>)
    reads bs
    ensures m.Keys == bs
    ensures forall b <- bs :: m[b] == Settled(b.defaultKey, b.isEnabled, b.rebindGuard)
  {
    map b | b in bs :: Settled(b.defaultKey, b.isEnabled, b.rebindGuard)
  }

  /** A keyword argument the decorator forwards to `KeybindType`. */
  datatype KwArg = KwStr(s: string) | KwBool(b: bool) | KwEvent(event: Option<InputEvent>)

  /**
   * The keyword arguments the decorator builds: description, is_hidden, is_rebindable and
   * event_filter always, display_name and description_title only when they were given.
   */
  function DecoratorKwargs(
    displayName: Option<string>,
    description: string,
    descriptionTitle: Option<string>,
    isHidden: bool,
    isRebindable: bool,
    eventFilter: Option<InputEvent>): (kw: map<string, KwArg>)
    ensures "display_name" in kw <==> displayName.Some?
    ensures "description_title" in kw <==> descriptionTitle.Some?
    ensures displayName.Some? ==> kw["display_name"] == KwStr(displayName.value)
    ensures descriptionTitle.Some? ==> kw["description_title"] == KwStr(descriptionTitle.value)
    ensures kw.Keys - {"display_name", "description_title"}
         == {"description", "is_hidden", "is_rebindable", "event_filter"}
    ensures kw["description"] == KwStr(description) && kw["is_hidden"] == KwBool(isHidden)
    ensures kw["is_rebindable"] == KwBool(isRebindable) && kw["event_filter"] == KwEvent(eventFilter)
  {
    var always := map[
      "description" := KwStr(description),
      "is_hidden" := KwBool(isHidden),
      "is_rebindable" := KwBool(isRebindable),
      "event_filter" := KwEvent(eventFilter)];
    var withName := if displayName.Some? then always["display_name" := KwStr(displayName.value)] else always;
    if descriptionTitle.Some? then withName["description_title" := KwStr(descriptionTitle.value)]
    else withName
  }

  function StrArg(kwargs: map<string, KwArg>, name: string): Option<string> {
    if name in kwargs && kwargs[name].KwStr? then Some(kwargs[name].s) else None
  }

  function BoolArg(kwargs: map<string, KwArg>, name: string, default: bool): bool {
    if name in kwargs && kwargs[name].KwBool? then kwargs[name].b else default
  }

  /**
   * `KeybindType(identifier, key, callback, **kwargs)`: a keyword argument that is missing takes
   * the dataclass default (no display name or description title, an empty description, not
   * hidden, rebindable, filtering on the Released event).
   */
  method ConstructWithKwargs(
    identifier: string,
    key: Option<string>,
    callback: nat,
    kwargs: map<string, KwArg>) returns (bind: Keybind)
    ensures fresh(bind) && bind.Valid()
    ensures bind.labels == MakeLabels(identifier, StrArg(kwargs, "display_name"),
      StrArg(kwargs, "description").GetOr(""), StrArg(kwargs, "description_title"),
      BoolArg(kwargs, "is_hidden", false))
    ensures bind.key == key && bind.defaultKey == key && !bind.isEnabled
    ensures bind.callback == Some(callback)
    ensures bind.isRebindable == BoolArg(kwargs, "is_rebindable", true)
    ensures bind.eventFilter
         == if "event_filter" in kwargs && kwargs["event_filter"].KwEvent?
            then kwargs["event_filter"].event else Some(Released)
    ensures bind.hooks == [InitialRebind(key)]
  {
    var filter := if "event_filter" in kwargs && kwargs["event_filter"].KwEvent?
                  then kwargs["event_filter"].event else Some(Released);
    bind := new Keybind(identifier, key, Some(callback), StrArg(kwargs, "display_name"),
      StrArg(kwargs, "description").GetOr(""), StrArg(kwargs, "description_title"),
      BoolArg(kwargs, "is_hidden", false), BoolArg(kwargs, "is_rebindable", true), filter);
  }

  /** The decorator `keybind(...)` returns: everything but the callback. */
  datatype PendingKeybind = PendingKeybind(
    identifier: string,
    key: Option<string>,
    kwargs: map<string, KwArg>)

  /** What `keybind(...)` returns: a decorator, or a keybind when the callback was given. */
  datatype KeybindOrDecorator = Decorator(pending: PendingKeybind) | Built(bind: Keybind)

  /** Calling the decorator on a callback. */
  method Decorate(pending: PendingKeybind, callback: nat) returns (bind: Keybind)
    ensures fresh(bind) && bind.Valid()
    ensures bind.labels == MakeLabels(pending.identifier, StrArg(pending.kwargs, "display_name"),
      StrArg(pending.kwargs, "description").GetOr(""), StrArg(pending.kwargs, "description_title"),
      BoolArg(pending.kwargs, "is_hidden", false))
    ensures bind.key == pending.key && bind.defaultKey == pending.key
    ensures bind.callback == Some(callback)
    ensures bind.isRebindable == BoolArg(pending.kwargs, "is_rebindable", true)
    ensures bind.eventFilter
         == if "event_filter" in pending.kwargs && pending.kwargs["event_filter"].KwEvent?
            then pending.kwargs["event_filter"].event else Some(Released)
    ensures !bind.isEnabled && bind.hooks == [InitialRebind(pending.key)]
  {
    bind := ConstructWithKwargs(pending.identifier, pending.key, callback, pending.kwargs);
  }

  /**
   * The `keybind` decorator factory. Forwarding display_name and description_title only when
   * given leaves their defaulting to `__post_init__`; the event filter defaults to Pressed here,
   * not to the class's Released.
   */
  method MakeKeybind(
    identifier: string,
    key: Option<string>,
    callback: Option<nat>,
    displayName: Option<string>,
    description: string,
    descriptionTitle: Option<string>,
    isHidden: bool,
    isRebindable: bool,
    eventFilter: Option<InputEvent>) returns (r: KeybindOrDecorator)
    ensures r.Decorator? <==> callback.None?
    ensures r.Decorator? ==> r.pending == PendingKeybind(identifier, key,
      DecoratorKwargs(displayName, description, descriptionTitle, isHidden, isRebindable, eventFilter))
    ensures r.Built? ==>
      && fresh(r.bind) && r.bind.Valid()
      && r.bind.labels == MakeLabels(identifier, displayName, description, descriptionTitle, isHidden)
      && r.bind.key == key && r.bind.defaultKey == key && !r.bind.isEnabled
      && r.bind.callback == callback && r.bind.isRebindable == isRebindable
      && r.bind.eventFilter == eventFilter
      && r.bind.hooks == [InitialRebind(key)]
  {
    var pending := PendingKeybind(identifier, key,
      DecoratorKwargs(displayName, description, descriptionTitle, isHidden, isRebindable, eventFilter));
    if callback.None? {
      r := Decorator(pending);
    } else {
      var bind := ConstructWithKwargs(identifier, key, callback.value, pending.kwargs);
      r := Built(bind);
    }
  }
}
