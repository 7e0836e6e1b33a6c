/**
 * Saving and loading a mod's settings file (`settings.py`).
 *
 * The file itself is outside the model: loading is given what reading and parsing it produced
 * (`SettingsFile`), and saving returns what it does to the file (`FileEffect`). The settings
 * document has at most three sections: "options" (the option tree's values), "keybinds" (the
 * rebindable keybinds' keys) and "enabled".
 */
module Settings {
  import opened Wrappers
  import opened PyJson
  import opened Options
  import Keybinds

  /** The outcome of opening the settings file and `json.load`-ing it. */
  datatype SettingsFile = Missing | Malformed | Parsed(doc: Json)

  /** What saving does to the settings file. */
  datatype FileEffect = NoEffect | Removed(path: string) | Written(path: string, doc: map<string, Json>)

  /** A saved key: None for null, `str(v)` for anything else. */
  function KeyFromJson(v: Json): (k: Option<string>)
    ensures k.None? <==> v.JNull?
    ensures v.JStr? ==> k == Some(v.s)
  {
    if v.JNull? then None else Some(PyStr(v))
  }

  function Elems(bs: seq<Keybinds.Keybind>): set<Keybinds.Keybind> {
    set b | b in bs
  }

  /** The current key of each keybind in `bs`. */
  function KeyVals(bs: set<Keybinds.Keybind>): (m: map<Keybinds.Keybind, Option<string>>)
    reads bs
    ensures m.Keys == bs
    ensures forall b <- bs :: m[b] == b.key
  {
    map b | b in bs :: b.key
  }

  // ---------------------------------------------------------------------------------------
  // Loading

  /**
   * `load_options_dict(options, settings)`. A dict loads every top-level option its keys name.
   * Anything else changes nothing, but `identifier in settings` raises TypeError on a value
   * that is not a container, and `settings[identifier]` raises it on a list or string that
   * does contain the identifier.
   */
  function OptionsLoad(cs: seq<OptionNode>, settings: Json, vals: map<ValueOption, Json>)
    : (r: LoadResult)
    requires LeavesOfAll(cs) <= vals.Keys
    ensures r.vals.Keys == vals.Keys
    ensures forall o <- vals.Keys :: o !in LeavesOfAll(cs) ==> r.vals[o] == vals[o]
    ensures !settings.JObj? ==> r.vals == vals
    ensures !settings.JObj? ==>
      (r.raised <==> exists i :: 0 <= i < |cs| && Contains(settings, cs[i].Identifier()) != Some(false))
  {
    if settings.JObj? then ChildrenLoad(cs, settings.entries, vals)
    else LoadResult(vals, exists i :: 0 <= i < |cs| && Contains(settings, cs[i].Identifier()) != Some(false))
  }

  /** The `on_change` calls of `load_options_dict`: those of the loop when `settings` is a dict. */
  function OptionsFired(
    cs: seq<OptionNode>, settings: Json, vals: map<ValueOption, Json>,
    fs: map<ValueOption, seq<ChangeEvent>>, called: set<ValueOption>)
    : (r: map<ValueOption, seq<ChangeEvent>>)
    requires LeavesOfAll(cs) <= vals.Keys && LeavesOfAll(cs) <= fs.Keys
    ensures r.Keys == fs.Keys
    ensures !settings.JObj? ==> r == fs
    ensures forall o <- fs.Keys :: o !in LeavesOfAll(cs) || o !in called ==> r[o] == fs[o]
  {
    if settings.JObj? then ChildrenFired(cs, settings.entries, vals, fs, called) else fs
  }

  /** The loop of `load_options_dict`, proved against `OptionsLoad`. */
  method LoadOptionsDict(options: seq<OptionNode>, settings: Json, ghost d: set<ValueOption>)
    returns (raised: bool)
    requires LeavesOfAll(options) <= d
    requires forall o <- d :: o.Valid()
    modifies Footprint(LeavesOfAll(options))
    ensures LoadKeeps(d)
    ensures Vals(d) == OptionsLoad(options, settings, old(Vals(d))).vals
    ensures raised == OptionsLoad(options, settings, old(Vals(d))).raised
    ensures Fired(d) == OptionsFired(options, settings, old(Vals(d)), old(Fired(d)), old(Called(d)))
  {
    raised := false;
    var i := 0;
    assert options[0..] == options;
    while i < |options|
      invariant 0 <= i <= |options|
      invariant LeavesOfAll(options[i..]) <= d
      invariant LoadKeeps(d) && Called(d) == old(Called(d))
      invariant settings.JObj? ==>
        && ChildrenLoad(options[i..], settings.entries, Vals(d))
           == ChildrenLoad(options, settings.entries, old(Vals(d)))
        && ChildrenFired(options[i..], settings.entries, Vals(d), Fired(d), old(Called(d)))
           == ChildrenFired(options, settings.entries, old(Vals(d)), old(Fired(d)), old(Called(d)))
      invariant !settings.JObj? ==> Vals(d) == old(Vals(d)) && Fired(d) == old(Fired(d))
      invariant !settings.JObj? ==>
        forall j :: 0 <= j < i ==> Contains(settings, options[j].Identifier()) == Some(false)
    {
      LeavesOfAllParts(options, i);
      if settings.JObj? {
        ChildrenStep(options, i, settings.entries, Vals(d), Fired(d), old(Called(d)));
      }
      var identifier := options[i].Identifier();
      var found := Contains(settings, identifier);
      if found.None? {
        return true;
      }
      if found.value {
        if !settings.JObj? {
          return true;
        }
        raised := LoadNode(options[i], settings.entries[identifier], d);
        CalledKept(d);
        if raised {
          return;
        }
      }
      i := i + 1;
    }
  }

  /** The keys after loading a "keybinds" section, and whether an exception escaped. */
  datatype KeysResult = KeysResult(keys: map<Keybinds.Keybind, Option<string>>, raised: bool)

  /**
   * The keybind loop of `default_load_mod_settings`. A dict sets the key of every keybind whose
   * identifier it names and leaves the others alone; anything else changes no key and raises
   * TypeError in the same cases as `load_options_dict`.
   */
  function KeybindsLoad(
    bs: seq<Keybinds.Keybind>, section: Json, keys: map<Keybinds.Keybind, Option<string>>)
    : (r: KeysResult)
    requires Elems(bs) <= keys.Keys
    ensures r.keys.Keys == keys.Keys
    ensures r.raised == KeybindsRaise(bs, section)
    ensures forall b <- keys.Keys ::
      r.keys[b] == if section.JObj? && b in bs && b.labels.identifier in section.entries
                   then KeyFromJson(section.entries[b.labels.identifier]) else keys[b]
  {
    if section.JObj? then
      KeysResult(
        map b | b in keys ::
          if b in bs && b.labels.identifier in section.entries
          then KeyFromJson(section.entries[b.labels.identifier]) else keys[b],
        false)
    else
      KeysResult(keys, KeybindsRaise(bs, section))
  }

  /**
   * Whether the keybind loop raises TypeError: never on a dict; on anything else, as soon as
   * `identifier in section` raises or is true.
   */
  predicate KeybindsRaise(bs: seq<Keybinds.Keybind>, section: Json) {
    !section.JObj? && exists i :: 0 <= i < |bs| && Contains(section, bs[i].labels.identifier) != Some(false)
  }

  /**
   * The `_rebind` calls the keybind loop makes on `b` when the section is the dict `entries`
   * and no `_rebind` of `b` is running: one for each time `b` occurs in `bs` with its identifier
   * in the dict, each with the saved key and the key `b` held just before (`key` at first).
   */
  function Rebinds(
    bs: seq<Keybinds.Keybind>, b: Keybinds.Keybind, entries: map<string, Json>, key: Option<string>)
    : seq<Keybinds.HookCall>
    decreases |bs|
  {
    if bs == [] then []
    else
      var init := bs[..|bs| - 1];
      Rebinds(init, b, entries, key)
      + if bs[|bs| - 1] == b && b.labels.identifier in entries
        then [Keybinds.Rebind(KeyFromJson(entries[b.labels.identifier]),
                              if b in init then KeyFromJson(entries[b.labels.identifier]) else key)]
        else []
  }

  /** `b` is rebound once per occurrence in `bs` when the dict names it, and never otherwise. */
  lemma {:induction false} RebindsCount(
    bs: seq<Keybinds.Keybind>, b: Keybinds.Keybind, entries: map<string, Json>, key: Option<string>)
    ensures |Rebinds(bs, b, entries, key)| == if b.labels.identifier in entries then multiset(bs)[b] else 0
    decreases |bs|
  {
    if bs != [] {
      var init, last := bs[..|bs| - 1], bs[|bs| - 1];
      RebindsCount(init, b, entries, key);
      assert bs == init + [last];
      var before: multiset<Keybinds.Keybind>, after: multiset<Keybinds.Keybind> := multiset(init), multiset(bs);
      assert after == before + multiset{last};
      assert after[b] == before[b] + if last == b then 1 else 0;
    }
  }

  /**
   * Every `_rebind` call on `b` passes the saved key; the first sees the key `b` held before the
   * loop, every later one the saved key the earlier call set.
   */
  lemma {:induction false} RebindsCalls(
    bs: seq<Keybinds.Keybind>, b: Keybinds.Keybind, entries: map<string, Json>, key: Option<string>,
    k: nat)
    requires k < |Rebinds(bs, b, entries, key)|
    ensures b.labels.identifier in entries
    ensures Rebinds(bs, b, entries, key)[k]
      == Keybinds.Rebind(KeyFromJson(entries[b.labels.identifier]),
                         if k == 0 then key else KeyFromJson(entries[b.labels.identifier]))
    decreases |bs|
  {
    var init := bs[..|bs| - 1];
    if k < |Rebinds(init, b, entries, key)| {
      RebindsCalls(init, b, entries, key, k);
    } else {
      RebindsCount(init, b, entries, key);
      var m: multiset<Keybinds.Keybind> := multiset(init);
      assert b in init <==> m[b] > 0;
    }
  }

  /** The `_rebind` calls made so far, for each keybind `b` of `hooks`. */
  ghost function HookVals(bs: set<Keybinds.Keybind>): (m: map<Keybinds.Keybind, seq<Keybinds.HookCall>>)
    reads bs
    ensures m.Keys == bs
    ensures forall b <- bs :: m[b] == b.hooks
  {
    map b | b in bs :: b.hooks
  }

  /**
   * The `_rebind` calls after the keybind loop has run over `done` on the dict `entries`, from
   * the calls `hooks`, keys `keys` and guards in `settled` it started with.
   */
  function HooksLoad(
    done: seq<Keybinds.Keybind>, entries: map<string, Json>,
    hooks: map<Keybinds.Keybind, seq<Keybinds.HookCall>>, keys: map<Keybinds.Keybind, Option<string>>,
    settled: map<Keybinds.Keybind, Keybinds.Settled>)
    : (r: map<Keybinds.Keybind, seq<Keybinds.HookCall>>)
    requires hooks.Keys <= keys.Keys && hooks.Keys <= settled.Keys
    ensures r.Keys == hooks.Keys
  {
    map b | b in hooks ::
      hooks[b] + if settled[b].rebindGuard then [] else Rebinds(done, b, entries, keys[b])
  }

  /** Before the loop, no `_rebind` call has been made. */
  lemma HooksNone(
    entries: map<string, Json>, hooks: map<Keybinds.Keybind, seq<Keybinds.HookCall>>,
    keys: map<Keybinds.Keybind, Option<string>>, settled: map<Keybinds.Keybind, Keybinds.Settled>)
    requires hooks.Keys <= keys.Keys && hooks.Keys <= settled.Keys
    ensures HooksLoad([], entries, hooks, keys, settled) == hooks
  {
    var r := HooksLoad([], entries, hooks, keys, settled);
    forall b | b in hooks ensures r[b] == hooks[b] {
      assert hooks[b] + [] == hooks[b];
    }
  }

  /**
   * One more keybind `c` through the loop on a dict: at most one `_rebind` call, on `c`, from
   * the key `c` holds at that point.
   */
  lemma HooksSnoc(
    done: seq<Keybinds.Keybind>, c: Keybinds.Keybind, section: Json,
    hooks: map<Keybinds.Keybind, seq<Keybinds.HookCall>>, keys: map<Keybinds.Keybind, Option<string>>,
    settled: map<Keybinds.Keybind, Keybinds.Settled>)
    requires section.JObj?
    requires Elems(done) <= keys.Keys
    requires hooks.Keys <= keys.Keys && hooks.Keys <= settled.Keys && c in hooks
    ensures var before := HooksLoad(done, section.entries, hooks, keys, settled);
      HooksLoad(done + [c], section.entries, hooks, keys, settled)
        == if c.labels.identifier !in section.entries then before
           else
             var saved := KeyFromJson(section.entries[c.labels.identifier]);
             before[c := before[c]
               + if settled[c].rebindGuard then []
                 else [Keybinds.Rebind(saved, KeybindsLoad(done, section, keys).keys[c])]]
  {
    var entries := section.entries;
    var before := HooksLoad(done, entries, hooks, keys, settled);
    var after := HooksLoad(done + [c], entries, hooks, keys, settled);
    var expected := if c.labels.identifier !in entries then before
      else
        var saved := KeyFromJson(entries[c.labels.identifier]);
        before[c := before[c]
          + if settled[c].rebindGuard then []
            else [Keybinds.Rebind(saved, KeybindsLoad(done, section, keys).keys[c])]];
    forall b | b in hooks ensures after[b] == expected[b] {
      RebindsSnoc(done, c, b, entries, keys[b]);
      var earlier := Rebinds(done, b, entries, keys[b]);
      if settled[b].rebindGuard {
      } else if b == c && b.labels.identifier in entries {
        var saved := KeyFromJson(entries[b.labels.identifier]);
        var call := Keybinds.Rebind(saved, if b in done then saved else keys[b]);
        assert after[b] == hooks[b] + (earlier + [call]) == (hooks[b] + earlier) + [call];
      } else {
        assert earlier + [] == earlier;
      }
    }
    SameMaps(expected, after);
  }

  /** The `_rebind` calls on `b` over one more keybind `c`: one more when `c` is `b` and named. */
  lemma RebindsSnoc(
    done: seq<Keybinds.Keybind>, c: Keybinds.Keybind, b: Keybinds.Keybind, entries: map<string, Json>,
    key: Option<string>)
    ensures Rebinds(done + [c], b, entries, key)
      == Rebinds(done, b, entries, key)
         + if b == c && b.labels.identifier in entries
           then
             var saved := KeyFromJson(entries[b.labels.identifier]);
             [Keybinds.Rebind(saved, if b in done then saved else key)]
           else []
  {
    assert (done + [c])[..|done + [c]| - 1] == done;
  }

  /** One more keybind `c` through the loop on a dict: at most one key set, that of `c`. */
  lemma KeysSnoc(
    done: seq<Keybinds.Keybind>, c: Keybinds.Keybind, section: Json,
    keys: map<Keybinds.Keybind, Option<string>>)
    requires section.JObj?
    requires Elems(done) <= keys.Keys && c in keys
    ensures Elems(done + [c]) <= keys.Keys
    ensures var before := KeybindsLoad(done, section, keys).keys;
      KeybindsLoad(done + [c], section, keys).keys
        == if c.labels.identifier !in section.entries then before
           else before[c := KeyFromJson(section.entries[c.labels.identifier])]
  {
    assert forall b :: b in done + [c] <==> b in done || b == c;
  }

  /**
   * One pass of the keybind loop, on `b` of `s`: if the section names `b`, its key is set to the
   * saved one, which makes one `_rebind` call unless one is running. `identifier in section` on
   * a non-container, or indexing a list or string with the identifier, raises TypeError first.
   * No other keybind of `s` changes.
   */
  method LoadKeybind(b: Keybinds.Keybind, ghost s: set<Keybinds.Keybind>, section: Json)
    returns (raised: bool)
    requires b in s
    modifies b
    ensures raised <==> !section.JObj? && Contains(section, b.labels.identifier) != Some(false)
    ensures Keybinds.SettledAll(s) == old(Keybinds.SettledAll(s))
    ensures !(section.JObj? && b.labels.identifier in section.entries) ==>
      KeyVals(s) == old(KeyVals(s)) && HookVals(s) == old(HookVals(s))
    ensures section.JObj? && b.labels.identifier in section.entries ==>
      var saved := KeyFromJson(section.entries[b.labels.identifier]);
      && KeyVals(s) == old(KeyVals(s))[b := saved]
      && HookVals(s) == old(HookVals(s))[b := old(HookVals(s))[b]
           + if old(Keybinds.SettledAll(s))[b].rebindGuard then []
             else [Keybinds.Rebind(saved, old(KeyVals(s))[b])]]
  {
    var found := Contains(section, b.labels.identifier);
    if found.None? || (found.value && !section.JObj?) {
      return true;
    }
    raised := false;
    if found.value {
      var _ := b.SetKey(KeyFromJson(section.entries[b.labels.identifier]), [], false);
      UpdateOne(old(KeyVals(s)), KeyVals(s), b);
      UpdateOne(old(HookVals(s)), HookVals(s), b);
      SameMaps(old(Keybinds.SettledAll(s)), Keybinds.SettledAll(s));
    }
  }

  /** The keybind loop itself, proved against `KeybindsLoad` and `HooksLoad`. */
  method LoadKeybinds(bs: seq<Keybinds.Keybind>, section: Json) returns (raised: bool)
    modifies Elems(bs)
    ensures KeyVals(Elems(bs)) == KeybindsLoad(bs, section, old(KeyVals(Elems(bs)))).keys
    ensures raised == KeybindsLoad(bs, section, old(KeyVals(Elems(bs)))).raised
    ensures Keybinds.SettledAll(Elems(bs)) == old(Keybinds.SettledAll(Elems(bs)))
    ensures HookVals(Elems(bs))
      == if section.JObj?
         then HooksLoad(bs, section.entries, old(HookVals(Elems(bs))), old(KeyVals(Elems(bs))),
                        old(Keybinds.SettledAll(Elems(bs))))
         else old(HookVals(Elems(bs)))
  {
    ghost var keys0 := KeyVals(Elems(bs));
    ghost var hooks0 := HookVals(Elems(bs));
    ghost var settled0 := Keybinds.SettledAll(Elems(bs));
    HooksNone(if section.JObj? then section.entries else map[], hooks0, keys0, settled0);
    raised := false;
    var i := 0;
    ghost var done := [];
    while i < |bs|
      invariant 0 <= i <= |bs| && done == bs[..i]
      invariant Elems(done) <= keys0.Keys
      invariant Keybinds.SettledAll(Elems(bs)) == settled0
      invariant section.JObj? ==> KeyVals(Elems(bs)) == KeybindsLoad(done, section, keys0).keys
      invariant section.JObj? ==>
        HookVals(Elems(bs)) == HooksLoad(done, section.entries, hooks0, keys0, settled0)
      invariant !section.JObj? ==> KeyVals(Elems(bs)) == keys0 && HookVals(Elems(bs)) == hooks0
      invariant !section.JObj? ==>
        forall j :: 0 <= j < i ==> Contains(section, bs[j].labels.identifier) == Some(false)
    {
      var b := bs[i];
      raised := LoadKeybind(b, Elems(bs), section);
      if raised {
        return;
      }
      if section.JObj? {
        KeysSnoc(done, b, section, keys0);
        HooksSnoc(done, b, section, hooks0, keys0, settled0);
      }
      assert bs[..i + 1] == done + [b];
      done := done + [b];
      i := i + 1;
    }
    assert bs[..i] == bs;
  }

  /** The "options" step: the section, when the document has one, goes to `load_options_dict`. */
  function OptionsStep(options: seq<OptionNode>, doc: Json, vals: map<ValueOption, Json>)
    : (r: LoadResult)
    requires LeavesOfAll(options) <= vals.Keys
    ensures r.vals.Keys == vals.Keys
    ensures forall o <- vals.Keys :: o !in LeavesOfAll(options) ==> r.vals[o] == vals[o]
    ensures doc.JObj? && "options" !in doc.entries ==> r == LoadResult(vals, false)
    ensures doc.JObj? && "options" in doc.entries ==> r == OptionsLoad(options, doc.entries["options"], vals)
    ensures !doc.JObj? ==> r.vals == vals
  {
    match Lookup(doc, "options")
    case NoSection => LoadResult(vals, false)
    case SectionOf(section) => OptionsLoad(options, section, vals)
    case LookupRaises => LoadResult(vals, true)
  }

  /** The outcome of the "keybinds" step: an exception, or the dict applied (if any). */
  datatype KeybindsStep = KeybindsRaised | KeybindsApplied(section: Option<map<string, Json>>)

  function KeybindsStepOf(bs: seq<Keybinds.Keybind>, doc: Json): (r: KeybindsStep)
    ensures r.KeybindsApplied? && r.section.Some? ==>
      doc.JObj? && "keybinds" in doc.entries && doc.entries["keybinds"] == JObj(r.section.value)
    ensures doc.JObj? && "keybinds" in doc.entries && doc.entries["keybinds"].JObj? ==>
      r == KeybindsApplied(Some(doc.entries["keybinds"].entries))
    ensures doc.JObj? && "keybinds" !in doc.entries ==> r == KeybindsApplied(None)
  {
    match Lookup(doc, "keybinds")
    case NoSection => KeybindsApplied(None)
    case SectionOf(section) =>
      if KeybindsRaise(bs, section) then KeybindsRaised
      else KeybindsApplied(if section.JObj? then Some(section.entries) else None)
    case LookupRaises => KeybindsRaised
  }

  /** The `on_change` calls of the "options" step: those of `load_options_dict` on the section. */
  function OptionsStepFired(
    options: seq<OptionNode>, doc: Json, vals: map<ValueOption, Json>,
    fs: map<ValueOption, seq<ChangeEvent>>, called: set<ValueOption>)
    : (r: map<ValueOption, seq<ChangeEvent>>)
    requires LeavesOfAll(options) <= vals.Keys && LeavesOfAll(options) <= fs.Keys
    ensures r.Keys == fs.Keys
    ensures !(doc.JObj? && "options" in doc.entries) ==> r == fs
    ensures forall o <- fs.Keys :: o !in LeavesOfAll(options) || o !in called ==> r[o] == fs[o]
  {
    match Lookup(doc, "options")
    case SectionOf(section) => OptionsFired(options, section, vals, fs, called)
    case _ => fs
  }

  /** The "options" step of `default_load_mod_settings`, proved against `OptionsStep`. */
  method ApplyOptionsStep(
    options: seq<OptionNode>, doc: Json, ghost d: set<ValueOption>, ghost ks: set<Keybinds.Keybind>)
    returns (raised: bool)
    requires LeavesOfAll(options) <= d
    requires forall o <- d :: o.Valid()
    modifies Footprint(LeavesOfAll(options))
    ensures LoadKeeps(d)
    ensures Vals(d) == OptionsStep(options, doc, old(Vals(d))).vals
    ensures raised == OptionsStep(options, doc, old(Vals(d))).raised
    ensures Fired(d) == OptionsStepFired(options, doc, old(Vals(d)), old(Fired(d)), old(Called(d)))
    ensures Keybinds.SettledAll(ks) == old(Keybinds.SettledAll(ks))
    ensures forall b <- ks :: b !in BoundKeybinds(d) ==> b.key == old(b.key) && b.hooks == old(b.hooks)
  {
    var saved := Lookup(doc, "options");
    if saved.LookupRaises? {
      return true;
    }
    raised := false;
    if saved.SectionOf? {
      raised := LoadOptionsDict(options, saved.json, d);
    }
    // Options write only into the keybinds bound to them, and keep their guards.
    forall b | b in ks
      ensures Keybinds.SettledAll(ks)[b] == old(Keybinds.SettledAll(ks))[b]
    {
      if b in BoundKeybinds(d) {
        var o :| o in d && o.onChange.WriteBack? && o.onChange.bind == b;
        assert SettledOptions(d)[o] == old(SettledOptions(d))[o];
      }
    }
    SameMaps(old(Keybinds.SettledAll(ks)), Keybinds.SettledAll(ks));
  }

  /** The "keybinds" step of `default_load_mod_settings`, proved against `KeybindsStepOf`. */
  method ApplyKeybindsStep(bs: seq<Keybinds.Keybind>, doc: Json, ghost d: set<ValueOption>)
    returns (raised: bool)
    requires forall o <- d :: o.Valid()
    modifies Elems(bs)
    ensures raised <==> KeybindsStepOf(bs, doc).KeybindsRaised?
    ensures var step := KeybindsStepOf(bs, doc);
      forall b <- bs ::
        b.key == if step.KeybindsApplied? && step.section.Some? && b.labels.identifier in step.section.value
                 then KeyFromJson(step.section.value[b.labels.identifier]) else old(b.key)
    ensures Keybinds.SettledAll(Elems(bs)) == old(Keybinds.SettledAll(Elems(bs)))
    ensures var step := KeybindsStepOf(bs, doc);
      forall b <- bs ::
        b.hooks == old(b.hooks)
          + if step.KeybindsApplied? && step.section.Some? && !old(b.rebindGuard)
            then Rebinds(bs, b, step.section.value, old(b.key)) else []
    ensures LoadKeeps(d) && Vals(d) == old(Vals(d)) && Fired(d) == old(Fired(d))
  {
    var saved := Lookup(doc, "keybinds");
    if saved.LookupRaises? {
      return true;
    }
    raised := false;
    if saved.SectionOf? {
      raised := LoadKeybinds(bs, saved.json);
    }
    forall b | b in bs
      ensures b.hooks == old(b.hooks)
        + if saved.SectionOf? && saved.json.JObj? && !old(b.rebindGuard)
          then Rebinds(bs, b, saved.json.entries, old(b.key)) else []
    {
      assert HookVals(Elems(bs))[b] == b.hooks;
    }
    // The options keep their state; those bound to a keybind see it keep its guard.
    forall o | o in d ensures SettledOf(o) == old(SettledOf(o)) {
      if o.onChange.WriteBack? && o.onChange.bind in Elems(bs) {
        assert Keybinds.SettledAll(Elems(bs))[o.onChange.bind]
          == old(Keybinds.SettledAll(Elems(bs)))[o.onChange.bind];
      }
    }
    SameMaps(old(SettledOptions(d)), SettledOptions(d));
    SameMaps(old(Vals(d)), Vals(d));
    SameMaps(old(Fired(d)), Fired(d));
  }

  /**
   * The effect of `default_load_mod_settings`: the options' values afterwards, the keybinds
   * section that was applied (if it was a dict), whether `enable()` is called, and whether an
   * exception escaped.
   */
  datatype SettingsLoad = SettingsLoad(
    vals: map<ValueOption, Json>,
    keybindsSection: Option<map<string, Json>>,
    enable: bool,
    raised: bool)

  /** A mod, as far as its settings are concerned. */
  class Mod {
    const settingsFile: Option<string>
    const options: seq<OptionNode>
    const keybinds: seq<Keybinds.Keybind>
    const autoEnable: bool
    var isEnabled: bool
    /** Calls of `enable()`, whose body is not part of this model. */
    ghost var enableCalls: nat

    constructor (
      settingsFile: Option<string>,
      options: seq<OptionNode>,
      keybinds: seq<Keybinds.Keybind>,
      autoEnable: bool)
      ensures this.settingsFile == settingsFile && this.options == options
      ensures this.keybinds == keybinds && this.autoEnable == autoEnable
      ensures !isEnabled && enableCalls == 0
    {
      this.settingsFile := settingsFile;
      this.options := options;
      this.keybinds := keybinds;
      this.autoEnable := autoEnable;
      isEnabled := false;
      enableCalls := 0;
    }

    /**
     * Loading, step by step: without a settings file, or when it is missing or malformed,
     * nothing happens. Otherwise the "options" section, then the "keybinds" section, are
     * applied; the mod is enabled last, and only if it auto-enables and the document says so.
     * An exception stops everything after it.
     */
    function LoadSpec(file: SettingsFile, vals: map<ValueOption, Json>): (r: SettingsLoad)
      requires LeavesOfAll(options) <= vals.Keys
      ensures r.vals.Keys == vals.Keys
      ensures settingsFile.None? || !file.Parsed? ==> r == SettingsLoad(vals, None, false, false)
      ensures r.enable <==> && settingsFile.Some? && file.Parsed? && file.doc.JObj?
                            && autoEnable && !r.raised
                            && "enabled" in file.doc.entries && Truthy(file.doc.entries["enabled"])
      ensures r.keybindsSection.Some? ==> !r.raised
      ensures file.Parsed? && file.doc.JObj? && "options" !in file.doc.entries ==> r.vals == vals
    {
      if settingsFile.None? || !file.Parsed? then SettingsLoad(vals, None, false, false)
      else
        var doc := file.doc;
        var sections := SectionsLoad(doc, vals);
        if sections.raised || !autoEnable then sections
        // `settings.get` on a document that is not a dict raises AttributeError.
        else if !doc.JObj? then SettingsLoad(sections.vals, None, false, true)
        else sections.(enable := "enabled" in doc.entries && Truthy(doc.entries["enabled"]))
    }

    /** The "options" and "keybinds" steps on a parsed document `doc`, from the values `vals`. */
    function SectionsLoad(doc: Json, vals: map<ValueOption, Json>): (r: SettingsLoad)
      requires LeavesOfAll(options) <= vals.Keys
      ensures r.vals.Keys == vals.Keys
      ensures !r.enable
    {
      var first := OptionsStep(options, doc, vals);
      if first.raised then SettingsLoad(first.vals, None, false, true)
      else
        match KeybindsStepOf(keybinds, doc)
        case KeybindsRaised => SettingsLoad(first.vals, None, false, true)
        case KeybindsApplied(section) => SettingsLoad(first.vals, section, false, false)
    }

    /**
     * `default_load_mod_settings`, proved against `LoadSpec`. Keybinds the "keybinds" dict names
     * get the saved key; the others keep theirs unless an option made by `from_keybind` wrote
     * into them.
     */
    method LoadSettings(file: SettingsFile) returns (raised: bool)
      requires forall o <- LeavesOfAll(options) :: o.Valid()
      modifies this, Footprint(LeavesOfAll(options)), Elems(keybinds)
      ensures LoadKeeps(LeavesOfAll(options))
      ensures var r := LoadSpec(file, old(Vals(LeavesOfAll(options))));
        && Vals(LeavesOfAll(options)) == r.vals
        && raised == r.raised
        && enableCalls == old(enableCalls) + (if r.enable then 1 else 0)
        && forall b <- keybinds ::
             if r.keybindsSection.Some? && b.labels.identifier in r.keybindsSection.value
             then b.key == KeyFromJson(r.keybindsSection.value[b.labels.identifier])
             else b !in BoundKeybinds(LeavesOfAll(options)) ==> b.key == old(b.key)
      ensures var leaves := LeavesOfAll(options);
        Fired(leaves)
          == if settingsFile.None? || !file.Parsed? then old(Fired(leaves))
             else OptionsStepFired(options, file.doc, old(Vals(leaves)), old(Fired(leaves)), old(Called(leaves)))
      ensures Keybinds.SettledAll(Elems(keybinds)) == old(Keybinds.SettledAll(Elems(keybinds)))
      ensures var r := LoadSpec(file, old(Vals(LeavesOfAll(options))));
        forall b <- keybinds :: b !in BoundKeybinds(LeavesOfAll(options)) ==>
          b.hooks == old(b.hooks)
            + if r.keybindsSection.Some? && !old(b.rebindGuard)
              then Rebinds(keybinds, b, r.keybindsSection.value, old(b.key)) else []
      ensures enableCalls == old(enableCalls) ==> isEnabled == old(isEnabled)
    {
      if settingsFile.None? || !file.Parsed? {
        forall b | b in keybinds ensures b.hooks == old(b.hooks) + [] { }
        return false;
      }
      ghost var leaves := LeavesOfAll(options);
      ghost var r := LoadSpec(file, Vals(leaves));
      ghost var sections := SectionsLoad(file.doc, Vals(leaves));
      assert r.vals == sections.vals && r.keybindsSection == sections.keybindsSection;
      raised := LoadSections(file.doc);
      if !raised {
        raised := ApplyEnableStep(file.doc, leaves, Elems(keybinds));
      }
    }

    /**
     * The "options" and "keybinds" steps of `default_load_mod_settings` once the file has been
     * read as `doc`, proved against `SectionsLoad`.
     */
    method LoadSections(doc: Json) returns (raised: bool)
      requires forall o <- LeavesOfAll(options) :: o.Valid()
      modifies Footprint(LeavesOfAll(options)), Elems(keybinds)
      ensures LoadKeeps(LeavesOfAll(options))
      ensures var r := SectionsLoad(doc, old(Vals(LeavesOfAll(options))));
        && Vals(LeavesOfAll(options)) == r.vals
        && raised == r.raised
        && forall b <- keybinds ::
             if r.keybindsSection.Some? && b.labels.identifier in r.keybindsSection.value
             then b.key == KeyFromJson(r.keybindsSection.value[b.labels.identifier])
             else b !in BoundKeybinds(LeavesOfAll(options)) ==> b.key == old(b.key)
      ensures var leaves := LeavesOfAll(options);
        Fired(leaves) == OptionsStepFired(options, doc, old(Vals(leaves)), old(Fired(leaves)), old(Called(leaves)))
      ensures Keybinds.SettledAll(Elems(keybinds)) == old(Keybinds.SettledAll(Elems(keybinds)))
      ensures var r := SectionsLoad(doc, old(Vals(LeavesOfAll(options))));
        forall b <- keybinds :: b !in BoundKeybinds(LeavesOfAll(options)) ==>
          b.hooks == old(b.hooks)
            + if r.keybindsSection.Some? && !old(b.rebindGuard)
              then Rebinds(keybinds, b, r.keybindsSection.value, old(b.key)) else []
    {
      ghost var leaves := LeavesOfAll(options);
      ghost var r := SectionsLoad(doc, Vals(leaves));
      ghost var first := OptionsStep(options, doc, Vals(leaves));
      ghost var step := KeybindsStepOf(keybinds, doc);
      ghost var bound := BoundKeybinds(leaves);
      LeavesAllocated(options);
      raised := ApplyOptionsStep(options, doc, leaves, Elems(keybinds));
      assert BoundKeybinds(leaves) == bound;
      if raised {
        assert r == SettingsLoad(first.vals, None, false, true);
      } else {
        raised := ApplyKeybindsStep(keybinds, doc, leaves);
        assert BoundKeybinds(leaves) == bound;
        assert SettledOptions(leaves) == old(SettledOptions(leaves));
        assert r.vals == first.vals;
        assert r.keybindsSection == if step.KeybindsApplied? then step.section else None;
      }
    }

    /**
     * The last step: a mod that auto-enables calls `enable()` when the document's "enabled" is
     * truthy; `settings.get` on a document that is not a dict raises AttributeError.
     */
    method ApplyEnableStep(doc: Json, ghost d: set<ValueOption>, ghost ks: set<Keybinds.Keybind>)
      returns (raised: bool)
      modifies this
      ensures Vals(d) == old(Vals(d)) && Fired(d) == old(Fired(d))
      ensures SettledOptions(d) == old(SettledOptions(d)) && BoundKeybinds(d) == old(BoundKeybinds(d))
      ensures forall o <- d :: o.Valid() == old(o.Valid())
      ensures forall b <- ks :: b.key == old(b.key) && b.hooks == old(b.hooks)
      ensures Keybinds.SettledAll(ks) == old(Keybinds.SettledAll(ks))
      ensures raised <==> autoEnable && !doc.JObj?
      ensures enableCalls
        == old(enableCalls)
           + if autoEnable && doc.JObj? && "enabled" in doc.entries && Truthy(doc.entries["enabled"])
             then 1 else 0
      ensures isEnabled == old(isEnabled)
    {
      raised := false;
      if autoEnable {
        if !doc.JObj? {
          return true;
        }
        if "enabled" in doc.entries && Truthy(doc.entries["enabled"]) {
          enableCalls := enableCalls + 1;
        }
      }
    }

    // -------------------------------------------------------------------------------------
    // Saving

    /** The document `default_save_mod_settings` builds. */
    function Document(): map<string, Json>
      reads this, LeavesOfAll(options), Elems(keybinds)
    {
      SaveDocument(ChildrenToJson(options), KeybindSettings(keybinds), autoEnable, isEnabled)
    }

    /**
     * What saving does: nothing without a settings file, remove the file when the document is
     * empty, write the document otherwise.
     */
    function SaveSpec(): (e: FileEffect)
      reads this, LeavesOfAll(options), Elems(keybinds)
      ensures e.NoEffect? <==> settingsFile.None?
      ensures e.Removed? <==> settingsFile.Some? && Document() == map[]
      ensures e.Removed? ==> e.path == settingsFile.value
      ensures e.Written? ==> e.path == settingsFile.value && e.doc == Document() && e.doc != map[]
    {
      if settingsFile.None? then NoEffect
      else if Document() == map[] then Removed(settingsFile.value)
      else Written(settingsFile.value, Document())
    }

    /** `default_save_mod_settings`, building the document step by step. */
    method SaveSettings() returns (effect: FileEffect)
      ensures effect == SaveSpec()
    {
      if settingsFile.None? {
        return NoEffect;
      }
      var settings: map<string, Json> := map[];
      if |options| > 0 {
        var optionSettings := ChildrenToJson(options);
        if optionSettings != map[] {
          settings := settings["options" := JObj(optionSettings)];
        }
      }
      if |keybinds| > 0 {
        var keybindSettings: map<string, Option<string>> := map[];
        var i := 0;
        while i < |keybinds|
          invariant 0 <= i <= |keybinds|
          invariant keybindSettings == KeybindSettings(keybinds[..i])
        {
          assert keybinds[..i + 1][..i] == keybinds[..i];
          if keybinds[i].isRebindable {
            keybindSettings := keybindSettings[keybinds[i].labels.identifier := keybinds[i].key];
          }
          i := i + 1;
        }
        assert keybinds[..i] == keybinds;
        if keybindSettings != map[] {
          settings := settings["keybinds" := KeysToJson(keybindSettings)];
        }
      }
      if autoEnable {
        settings := settings["enabled" := JBool(isEnabled)];
      }
      if settings == map[] {
        return Removed(settingsFile.value);
      }
      return Written(settingsFile.value, settings);
    }
  }

  /**
   * The keybinds section, built by the loop over the keybinds: each rebindable keybind's
   * identifier mapped to its key, a later keybind overwriting an earlier one.
   */
  function KeybindSettings(bs: seq<Keybinds.Keybind>): map<string, Option<string>>
    reads Elems(bs)
    decreases |bs|
  {
    if bs == [] then map[]
    else
      var init := bs[..|bs| - 1];
      assert forall i :: 0 <= i < |init| ==> init[i] == bs[i];
      var m := KeybindSettings(init);
      var last := bs[|bs| - 1];
      if last.isRebindable then m[last.labels.identifier := last.key] else m
  }

  /** The section names exactly the identifiers of the rebindable keybinds. */
  lemma {:induction false} KeybindSettingsKeys(bs: seq<Keybinds.Keybind>)
    ensures forall k :: k in KeybindSettings(bs) <==>
      exists i :: 0 <= i < |bs| && bs[i].isRebindable && bs[i].labels.identifier == k
    decreases |bs|
  {
    if bs != [] {
      var init := bs[..|bs| - 1];
      KeybindSettingsKeys(init);
      forall i | 0 <= i < |bs| && bs[i].isRebindable
        ensures bs[i].labels.identifier in KeybindSettings(bs)
      {
        if i < |init| {
          assert init[i] == bs[i];
        }
      }
      forall k | k in KeybindSettings(bs)
        ensures exists i :: 0 <= i < |bs| && bs[i].isRebindable && bs[i].labels.identifier == k
      {
        if k in KeybindSettings(init) {
          var i :| 0 <= i < |init| && init[i].isRebindable && init[i].labels.identifier == k;
          assert bs[i] == init[i];
        }
      }
    }
  }

  /**
   * A rebindable keybind is saved with its own key unless a later rebindable keybind shares its
   * identifier.
   */
  lemma {:induction false} KeybindSettingsValue(bs: seq<Keybinds.Keybind>, i: nat)
    requires i < |bs| && LastRebindable(bs, i)
    ensures bs[i].labels.identifier in KeybindSettings(bs)
    ensures KeybindSettings(bs)[bs[i].labels.identifier] == bs[i].key
    decreases |bs|
  {
    var init := bs[..|bs| - 1];
    if i < |init| {
      assert init[i] == bs[i];
      assert LastRebindable(init, i) by {
        forall j | i < j < |init| && init[j].isRebindable
          ensures init[j].labels.identifier != init[i].labels.identifier
        {
          assert init[j] == bs[j];
        }
      }
      KeybindSettingsValue(init, i);
    }
  }

  /** `bs[i]` is rebindable, and no later rebindable keybind shares its identifier. */
  predicate LastRebindable(bs: seq<Keybinds.Keybind>, i: nat)
    requires i < |bs|
  {
    && bs[i].isRebindable
    && forall j :: i < j < |bs| && bs[j].isRebindable ==> bs[j].labels.identifier != bs[i].labels.identifier
  }

  /** The keys as JSON: null for an unbound keybind, its name otherwise. */
  function KeysToJson(keys: map<string, Option<string>>): (j: Json)
    ensures j.JObj? && j.entries.Keys == keys.Keys
    ensures forall k <- keys :: j.entries[k] == KeyJson(keys[k]) && KeyFromJson(j.entries[k]) == keys[k]
  {
    JObj(map k | k in keys :: KeyJson(keys[k]))
  }

  /**
   * The settings document: "options" when some option has a value to save, "keybinds" when some
   * keybind can be rebound, "enabled" exactly when the mod auto-enables, and nothing else.
   */
  function SaveDocument(
    optionSettings: map<string, Json>,
    keybindSettings: map<string, Option<string>>,
    autoEnable: bool,
    isEnabled: bool): (doc: map<string, Json>)
    ensures doc.Keys <= {"options", "keybinds", "enabled"}
    ensures "options" in doc <==> optionSettings != map[]
    ensures "options" in doc ==> doc["options"] == JObj(optionSettings)
    ensures "keybinds" in doc <==> keybindSettings != map[]
    ensures "keybinds" in doc ==> doc["keybinds"] == KeysToJson(keybindSettings)
    ensures "enabled" in doc <==> autoEnable
    ensures "enabled" in doc ==> doc["enabled"] == JBool(isEnabled)
  {
    var withOptions := if optionSettings != map[] then map["options" := JObj(optionSettings)] else map[];
    var withKeybinds :=
      if keybindSettings != map[] then withOptions["keybinds" := KeysToJson(keybindSettings)]
      else withOptions;
    if autoEnable then withKeybinds["enabled" := JBool(isEnabled)] else withKeybinds
  }

  /**
   * Loading the document a save writes restores the mod: nothing raises, every option keeps its
   * value, every rebindable keybind gets its own key back, and `enable()` is called exactly when
   * the mod auto-enables and was enabled. Option values must be canonical for their kind and
   * sibling identifiers distinct; a keybind shadowed by a later one with its identifier is not
   * covered.
   */
  lemma SaveThenLoad(mod: Mod)
    requires DistinctChildIds(mod.options)
    requires forall o <- LeavesOfAll(mod.options) :: Canonical(o.kind, o.value)
    requires mod.SaveSpec().Written?
    ensures var r := mod.LoadSpec(Parsed(JObj(mod.SaveSpec().doc)), Vals(LeavesOfAll(mod.options)));
      && !r.raised
      && r.vals == Vals(LeavesOfAll(mod.options))
      && r.enable == (mod.autoEnable && mod.isEnabled)
      && forall i :: 0 <= i < |mod.keybinds| && LastRebindable(mod.keybinds, i) ==>
           && r.keybindsSection.Some?
           && mod.keybinds[i].labels.identifier in r.keybindsSection.value
           && KeyFromJson(r.keybindsSection.value[mod.keybinds[i].labels.identifier]) == mod.keybinds[i].key
  {
    var doc := mod.Document();
    assert mod.SaveSpec().doc == doc;
    var vals := Vals(LeavesOfAll(mod.options));
    var first := OptionsStep(mod.options, JObj(doc), vals);
    if "options" in doc {
      ChildrenSaveLoad(mod.options, vals);
      assert first == ChildrenLoad(mod.options, ChildrenToJson(mod.options), vals);
    }
    assert first == LoadResult(vals, false);
    var keys := KeybindSettings(mod.keybinds);
    var step := KeybindsStepOf(mod.keybinds, JObj(doc));
    assert step == KeybindsApplied(if keys != map[] then Some(KeysToJson(keys).entries) else None);
    forall i | 0 <= i < |mod.keybinds| && LastRebindable(mod.keybinds, i)
      ensures mod.keybinds[i].labels.identifier in keys
      ensures keys[mod.keybinds[i].labels.identifier] == mod.keybinds[i].key
    {
      KeybindSettingsValue(mod.keybinds, i);
    }
    var r := mod.LoadSpec(Parsed(JObj(doc)), vals);
    assert r == SettingsLoad(vals, step.section,
      mod.autoEnable && "enabled" in doc && Truthy(doc["enabled"]), false);
  }

  /**
   * The document is empty, so that saving removes the file, exactly when no top-level option
   * has a value to save, no keybind can be rebound and the mod does not auto-enable.
   */
  lemma EmptyDocument(mod: Mod)
    ensures mod.Document() == map[] <==>
      && (forall i :: 0 <= i < |mod.options| ==> mod.options[i].Button?)
      && (forall b <- mod.keybinds :: !b.isRebindable)
      && !mod.autoEnable
  {
    KeybindSettingsKeys(mod.keybinds);
    var m := ChildrenToJson(mod.options);
    forall i | 0 <= i < |mod.options| && !mod.options[i].Button?
      ensures mod.options[i].Identifier() in m
    {
      assert ToJson(mod.options[i]).Present?;
    }
    var keys := KeybindSettings(mod.keybinds);
    forall i | 0 <= i < |mod.keybinds| && mod.keybinds[i].isRebindable
      ensures mod.keybinds[i].labels.identifier in keys
    {
    }
    var doc := mod.Document();
    if doc != map[] {
      assert "options" in doc || "keybinds" in doc || "enabled" in doc;
    }
  }

  /** What `HiddenOption.save()` does. */
  datatype HiddenSave = NoModError | Saved(effect: FileEffect)

  /**
   * `HiddenOption.save()`, given the option's `mod` attribute: a RuntimeError when it belongs to
   * no mod, otherwise its mod's `save_settings()`, taken here to be the default implementation.
   * The attribute is assigned outside the options module; `mod.py` is not part of this model.
   */
  method SaveHiddenOption(mod: Option<Mod>) returns (r: HiddenSave)
    ensures r.NoModError? <==> mod.None?
    ensures r.Saved? ==> r.effect == mod.value.SaveSpec()
  {
    if mod.None? {
      return NoModError;
    }
    var effect := mod.value.SaveSettings();
    r := Saved(effect);
  }
}
