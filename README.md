# mods_base settings persistence, in Dafny

This project models the part of the `mods_base` library that decides what a mod's settings are
and how they are saved and loaded. It has four parts.

- **Option tree** (`options.py`, module `Options`). The value options are hidden, slider,
  spinner, bool, dropdown and keybind options. Each is an object of the class `ValueOption`,
  tagged with its kind, and it holds a mutable `value`, its `default_value` and its `on_change`
  callback. Buttons and grouped or nested options hold no value, so the tree around the value
  options is a datatype. `_to_json` is a function of the tree. `_from_json` is a method that
  updates the value options in place, proved against the function `NodeLoad`.
- **Settings document** (`settings.py`, module `Settings`). Saving builds a document with at
  most three sections: "options", "keybinds" and "enabled". An empty document removes the file.
  Loading applies the sections present, in order, and may enable the mod last. The file is
  given as what reading and parsing it produced, and saving returns what it does to the file.
- **Mod-metadata merge** (`mod_factory.py`, module `ModFactory`). `build_mod` keeps a dict of
  optional fields and fills each field only while it is unset. The sources come in this order:
  the arguments, `tool.sdkmod`, `project`, the calling module's attributes, and a search of the
  module's members. A class `FactoryFields` holds the dict, and each `update_fields_*` function
  is a method on it, proved against a function.
- **Keybind** (`keybinds.py`, module `Keybinds`). This is the `KeybindType` class, with its
  rebind guard, its enable flag and the `default_key` snapshot. It also covers the `keybind`
  decorator factory.

Two smaller modules hold the shared parts:

- `Display` holds the display-name defaulting that options and keybinds share.
- `PyJson` holds JSON values and the Python semantics the code relies on. These are `str()`,
  truthiness, `float()`, `round()`, `strip()`/`lower()` and `key in container`.

Callbacks the library calls but does not define are opaque and recorded in ghost traces:

- `on_change` goes in `ValueOption.fired`;
- the keybind implementation's `_enable`, `_disable` and `_rebind` go in `Keybind.hooks`;
- `Mod.enable` goes in `Mod.enableCalls`.

Main results:

- Saving a tree of options and loading the result back changes nothing (`Options.RoundTrip`).
- Saving a mod and loading the document back restores its options, its keybinds' keys and its
  enabled state (`Settings.SaveThenLoad`).
- An argument given to `build_mod` always reaches the mod's constructor unchanged
  (`ModFactory.ArgumentsWin`).
- `tool.sdkmod` takes priority over `project` (`ModFactory.ToolBeforeProject`).

## Model

| member | source | states |
|---|---|---|
| Display.MakeLabels | options.py:71-75 | a display name not given becomes the identifier; a description title not given becomes the display name, so the identifier when neither is given (the same `__post_init__` as keybinds.py:82-86) |
| PyJson.KeyJson | settings.py:108 | a keybind's key is saved as JSON null exactly when it is None |
| PyJson.ToFloat | options.py:241 | `float(v)` raises TypeError exactly on None, lists and dicts; ValueError exactly on a string it cannot parse; OverflowError exactly on an int whose magnitude reaches 2^1024 - 2^970; an int otherwise converts to its own value |
| PyJson.DigitValue | options.py:241 | `float()` reads every Unicode decimal digit (category Nd) as its value from 0 to 9, and an ASCII digit as usual |
| PyJson.ParseFloatArabicIndic | options.py:241 | `float()` of "٧.٦", written in Arabic-Indic digits, is 7.6 |
| PyJson.ParseFloatExample | options.py:241 | `float("7.6")` is 7.6 |
| PyJson.RoundHalfEven | options.py:243 | `round(x)` is within one half of x, and a tie goes to the even integer |
| PyJson.RoundHalfEvenUnique | options.py:243 | those two properties determine `round(x)` completely |
| PyJson.Contains | settings.py:37 | `key in container` raises TypeError exactly on a non-container; on a dict it is key membership |
| PyJson.Lookup | settings.py:37-40 | `name in doc` then `doc[name]`: on a dict, the entry or nothing; on anything else, an exception exactly when the membership test raises or is true, and never a value |
| Options.Events | options.py:114-125 | assigning a sequence of values calls `on_change` once per value, with that new value |
| Options.LeafLoad | options.py:177-441 | each class's `_from_json`: slider: `float(v)`, then `round` when integral, so two writes; ValueError keeps the value; TypeError on None or a container and OverflowError on an int beyond the doubles propagate; spinner: writes `str(v)` exactly when it is one of the choices; bool: writes the value's truthiness, except that a string reading "false" after `strip().lower()` writes false; dropdown: writes `str(v)` exactly when it is one of the choices; keybind: writes None for null and `str(v)` for anything else; hidden: stores the value as given |
| Options.ValueOption.constructor | options.py:110-112 | `default_value` equals the initial value, and no callback has fired; a hidden option is always hidden (options.py:172-175) |
| Options.ValueOption.Assign | options.py:114-125 | unless the callback raises, the field ends as the assigned value and the guard is as before; `on_change(self, new)` fires once, with the old value still in place, unless there is no callback or one is running; a raising callback (or, for a `from_keybind` option, a raising `_rebind`) leaves the guard set and the value as the callback last wrote it; `default_value` never changes; a `from_keybind` option rebinds its keybind |
| Options.ValueOption.SetOnChange | options.py:127-147 | `__call__` installs the callback and returns the option itself, warning exactly when one was already set; the value is untouched |
| Options.ValueOption.FromJson | options.py:239-248 | the option's value becomes what `LeafLoad` says; every write goes through `on_change` in order; it raises exactly when `LeafLoad` raises; its callback and `default_value` are kept; an option made by `from_keybind` (options.py:455-463) leaves its keybind holding the loaded key, with one more `_rebind` call from the old key unless one is running, and the keybind's `default_key`, enable flag and guard unchanged |
| Options.NewSlider | options.py:215-237 | construction fails exactly when `step > max_value - min_value`; otherwise the option holds its value as default, and warns exactly when `is_integer` and some field is not integral |
| Options.FromKeybind | options.py:443-466 | the option copies the keybind's key, labels and rebindability; its default is the keybind's default key; its callback writes back into the keybind |
| Options.ToJson | options.py:107-108 | a value option saves its value, a button saves nothing (options.py:382-383), a group saves a dict |
| Options.ChildrenToJson | options.py:492-497 | a group's dict has exactly the identifiers of its children that save something, each with a value one of those children saved (the same comprehension as `create_options_dict`, settings.py:84-88, and `NestedOption._to_json`, options.py:535-540) |
| Options.ChildrenToJsonValue | options.py:492-497 | a child that saves something appears under its identifier with its own value unless a later sibling with that identifier also saves something |
| Options.NodeLoad | options.py:499-509 | loading a subtree changes only the options inside it; a button changes nothing (options.py:385-386) |
| Options.ChildrenLoad | options.py:499-509 | loading a dict into children changes only options under those children |
| Options.ChildrenLoadUntouched | options.py:499-504 | an option under children whose identifiers the dict does not name keeps its value, even when the same option object appears twice |
| Options.LoadNode | options.py:542-552 | `_from_json` on any node, in place: the values after it are what `NodeLoad` says, it raises exactly when `NodeLoad` does, the `on_change` calls are those `NodeFired` says, and every option keeps its callback, its `default_value` and its keybind's `default_key`, enable flag and guard |
| Options.NodeFired | options.py:114-125 | a load only appends `on_change` calls, and only to options inside the subtree that have a callback; every other option keeps its calls |
| Options.ChildrenFired | options.py:499-504 | the same for the loop over a group's children |
| Options.LoadLeaf | options.py:239-248 | `_from_json` on one value option of a larger tree: only that option's value and calls change, as `LeafLoad` and `NodeFired` say; every option keeps its callback, default and keybind state |
| Options.LoadChildren | options.py:499-504 | the loop over a group's children, in place: values, exception and `on_change` calls as `ChildrenLoad` and `ChildrenFired` say, stopping at the first exception |
| Options.LeafRoundTrip | options.py:107-108 | loading an option's own canonical value back writes the same value and raises nothing |
| Options.RoundTrip | options.py:492-509 | loading a tree's `_to_json` back into it raises nothing and changes no value, when values are canonical and sibling identifiers distinct |
| Options.ChildrenSaveLoad | options.py:535-552 | the same for a list of siblings: loading the dict they save changes nothing |
| Options.ChildrenRoundTrip | options.py:542-547 | loading a dict that agrees with every named child's saved value changes nothing |
| Options.BoolExamples | options.py:314-319 | "False " loads as false, and 1 as true |
| Options.SpinnerExample | options.py:278-286 | a spinner with choices a, b, c holding "b" keeps "b" when given "z" |
| Options.SliderExamples | options.py:239-248 | an integer slider loads "7.6" as 8 |
| Options.SliderRaiseExamples | options.py:239-248 | a slider raises on null and on an int too large for a double, and loads the largest int that fits |
| Settings.KeyFromJson | settings.py:65-69 | a saved key loads as None exactly for null, and as the string itself for a string |
| Settings.KeysToJson | settings.py:104-111 | the keybinds section has exactly the saved identifiers, and each key loads back as itself |
| Settings.OptionsLoad | settings.py:25-42 | `load_options_dict` changes only options under the top-level list; anything but a dict changes nothing and raises exactly when some `identifier in settings` raises or is true |
| Settings.LoadOptionsDict | settings.py:36-42 | the loop, in place: values and exception as `OptionsLoad` says, `on_change` calls as `OptionsFired` says; every option keeps its callback, its `default_value` and its keybind's `default_key`, enable flag and guard |
| Settings.OptionsFired | settings.py:25-42 | `load_options_dict` makes no `on_change` call on anything but a dict, and none on options outside the list or without a callback |
| Settings.KeybindsLoad | settings.py:61-69 | a dict sets the key of exactly the keybinds whose identifier it names, to the saved key; every other key stays |
| Settings.LoadKeybinds | settings.py:63-69 | the loop, in place: keys and exception as `KeybindsLoad` says; `_rebind` calls as `HooksLoad` says, and none when the section is not a dict; every keybind keeps its `default_key`, enable flag and guard |
| Settings.LoadKeybind | settings.py:64-69 | one turn of the loop: it raises exactly on a non-container, or on a list or string holding the identifier; a dict naming the keybind sets its key to the saved one with one `_rebind` call from the key it held, unless one is running (keybinds.py:90-97); no other keybind changes |
| Settings.RebindsCount | settings.py:63-69 | a keybind is rebound once for each time it occurs in the list when the dict names it, and never otherwise |
| Settings.RebindsCalls | settings.py:63-69 | every `_rebind` call on a keybind passes the saved key; the first sees the key it held before the loop, any later one the saved key |
| Settings.RebindsSnoc | settings.py:63-69 | one more keybind through the loop adds at most one `_rebind` call, on that keybind |
| Settings.HooksLoad | settings.py:63-69 | the loop keeps the keybinds it was given, and a keybind whose `_rebind` is running gets no call |
| Settings.HooksNone | settings.py:63 | before the loop, the calls are those already recorded |
| Settings.HooksSnoc | settings.py:64-69 | one more keybind through the loop on a dict: one `_rebind` call on it from the key it holds at that point, when the dict names it and no rebind is running; nothing for the others |
| Settings.KeysSnoc | settings.py:64-69 | one more keybind through the loop on a dict: its key becomes the saved one when the dict names it; no other key changes |
| Settings.OptionsStep | settings.py:58-59 | without an "options" section nothing changes; with one, it goes to `load_options_dict` |
| Settings.KeybindsStepOf | settings.py:61-62 | a "keybinds" dict is applied; without one no key changes |
| Settings.ApplyOptionsStep | settings.py:58-59 | the options step in place, as `OptionsStep` and `OptionsStepFired` say; every option keeps its callback, default and keybind state, and a keybind no option writes into keeps its key and its `_rebind` calls |
| Settings.OptionsStepFired | settings.py:58-59 | without an "options" section no `on_change` call is made; with one, only options of the list that have a callback get calls |
| Settings.ApplyKeybindsStep | settings.py:61-69 | the keybinds step in place: a named keybind gets its saved key and the others keep theirs; each keybind not already rebinding gets the `_rebind` calls `Rebinds` says; `default_key`, enable flags and guards are kept, and no option's value or calls change |
| Settings.Mod.constructor | settings.py:45-48 | a new mod is not enabled and has not been enabled |
| Settings.Mod.LoadSpec | settings.py:45-72 | no settings file, or a missing or malformed file, changes nothing; enabling happens exactly when the mod auto-enables, the document's "enabled" is truthy and nothing raised before it |
| Settings.Mod.LoadSettings | settings.py:45-72 | loading in place: option values, exception and enable call as `LoadSpec` says, `on_change` calls as `OptionsStepFired` says; keybinds named in the section get the saved key, and others keep theirs unless a `from_keybind` option wrote into them; a keybind no option writes into gets exactly the `_rebind` calls `Rebinds` says; every keybind keeps its `default_key`, enable flag and guard; `is_enabled` changes only through `enable()` |
| Settings.Mod.SectionsLoad | settings.py:58-69 | the options and keybinds steps never enable the mod and keep the set of options |
| Settings.Mod.LoadSections | settings.py:58-69 | the two steps in place, as `SectionsLoad` says, with the same keybind and callback facts as `LoadSettings` |
| Settings.Mod.ApplyEnableStep | settings.py:71-72 | `enable()` is called exactly when the mod auto-enables and the document is a dict whose "enabled" is truthy; `settings.get` raises exactly when the mod auto-enables and the document is not a dict; no option or keybind changes |
| Settings.Mod.SaveSpec | settings.py:91-121 | nothing without a settings file; the file is removed exactly when the document is empty; otherwise the document is written |
| Settings.Mod.SaveSettings | settings.py:91-121 | the save, built step by step, has the effect `SaveSpec` says |
| Settings.KeybindSettingsKeys | settings.py:103-111 | the keybinds section has exactly the identifiers of the rebindable keybinds |
| Settings.KeybindSettingsValue | settings.py:105-108 | a rebindable keybind is saved with its own key unless a later rebindable keybind has its identifier |
| Settings.SaveDocument | settings.py:96-114 | "options" is present exactly when some option saves something; "keybinds" exactly when some keybind is saved; "enabled" exactly when the mod auto-enables, holding `is_enabled`; nothing else |
| Settings.SaveThenLoad | settings.py:45-121 | loading what a save wrote raises nothing, keeps every option's value, gives every rebindable keybind its key back, and enables exactly when the mod auto-enables and was enabled |
| Settings.EmptyDocument | settings.py:116-118 | the file is removed exactly when every top-level option is a button, no keybind is rebindable and the mod does not auto-enable |
| Settings.SaveHiddenOption | options.py:180-187 | saving a hidden option whose `mod` is None raises RuntimeError; otherwise it saves that mod |
| ModFactory.Get | mod_factory.py:235-236 | reading a table entry gives the entry when present and nothing otherwise; reading a module attribute never raises |
| ModFactory.EnumGet | mod_factory.py:206-207 | an enum name is looked up exactly: a member for a member name, unset for any other hashable value, an exception for a list or dict |
| ModFactory.ValidGames | mod_factory.py:210 | for a list, the valid names are exactly the listed strings that name a `Game` member, and listing raises exactly when an entry is unhashable; a string is iterated by characters, so only one-character names are found in it; a dict gives the keys that name a member; anything else raises TypeError |
| ModFactory.FlagUnion | mod_factory.py:211-212 | the OR of the games holds exactly the bits of the named members |
| ModFactory.JoinLength | mod_factory.py:239-241 | the joined authors are as long as the names together and one separator between each two |
| ModFactory.PartStartNext | mod_factory.py:239-241 | each name starts where the previous name and one separator end |
| ModFactory.JoinPart | mod_factory.py:239-241 | the joined authors hold each name, in order, at its start |
| ModFactory.JoinSeparator | mod_factory.py:239-241 | the joined authors hold the separator between each name and the next |
| ModFactory.JoinEmpty | mod_factory.py:239-241 | the join is empty exactly when there is no name or one empty name |
| ModFactory.AuthorNames | mod_factory.py:239-241 | the names gathered are exactly those of the entries that have one; none exactly when no entry has one |
| ModFactory.FillOne | mod_factory.py:203-204 | one fill raises exactly when the field is unset and the read raises; otherwise it changes only that field, and only if unset |
| ModFactory.Fill | mod_factory.py:229-236 | a run of fills keeps every set field and every field it does not name |
| ModFactory.FillNoRaise | mod_factory.py:202-204 | fills whose reads do not raise do not raise |
| ModFactory.FillRaisesLater | mod_factory.py:229-236 | once one fill raises, the step raises |
| ModFactory.FillField | mod_factory.py:202-204 | each field the run names once ends up set from its own read, and only if it was unset |
| ModFactory.FillPointwise | mod_factory.py:270-281 | the same for every field of the run at once |
| ModFactory.SdkmodUpdate | mod_factory.py:191-215 | the `tool.sdkmod` step keeps every set field and touches only its six fields |
| ModFactory.SdkmodPlainValues | mod_factory.py:202-204 | `name`, `version` and `auto_enable` take the table's entry only when unset; `description` and `_version_info` are untouched |
| ModFactory.SdkmodEnumValues | mod_factory.py:206-215 | `mod_type` and `coop_support` become the member of exactly that name, or stay unset |
| ModFactory.SupportedGamesValue | mod_factory.py:209-212 | `supported_games` stays unset exactly when no listed name is valid; otherwise it holds exactly the bits of the valid names |
| ModFactory.GamesEntryValue | mod_factory.py:209-212 | the same, for the value read from a table |
| ModFactory.EnumEntryValue | mod_factory.py:206-207 | an enum entry fills the member of its exact name, or nothing |
| ModFactory.ProjectUpdate | mod_factory.py:218-241 | the `project` step keeps every set field and touches only its five fields |
| ModFactory.ProjectPlainValues | mod_factory.py:229-236 | `name`, `version`, `description` and `_version_info` take `project`'s entries only when unset, `_version_info` from `project.version` |
| ModFactory.AuthorsJoined | mod_factory.py:238-241 | an unset `author` becomes the names of the author entries that have one, joined with ", ", and the empty string when none has one |
| ModFactory.ProjectAuthor | mod_factory.py:238-241 | `author` is filled last, from the authors read |
| ModFactory.AuthorsListed | mod_factory.py:239-241 | an authors list reads as the joined names, or raises when a name is not a string |
| ModFactory.PyprojectUpdate | mod_factory.py:244-259 | the pyproject step keeps every set field and touches only the two tables' fields |
| ModFactory.ToolThenProject | mod_factory.py:254-259 | with both tables present, the step is the `tool.sdkmod` step followed by the `project` step |
| ModFactory.ToolBeforeProject | mod_factory.py:254-259 | `tool.sdkmod`'s name and version win over `project`'s; `_version_info` and `description` come from `project` |
| ModFactory.PyprojectKeeps | mod_factory.py:244-259 | fields of neither table are untouched |
| ModFactory.NameFill | mod_factory.py:270-281 | an unset name takes the module's `__name__`; no other field changes |
| ModFactory.AttributesFill | mod_factory.py:270-281 | the attribute loop keeps set fields and fields it does not name; an unset name becomes the module's name |
| ModFactory.AttributesLoop | mod_factory.py:270-281 | the loop, field by field in its order, gives `AttributesFill` |
| ModFactory.DefaultSettings | mod_factory.py:283-284 | the settings file is always set afterwards, to the default exactly when it was unset |
| ModFactory.AttributesUpdate | mod_factory.py:262-284 | the attribute step keeps every set field; the settings file ends up set, defaulting to the module name plus ".json" in the settings directory |
| ModFactory.AttributesKeepOptions | mod_factory.py:270-284 | the attribute step never fills `options` |
| ModFactory.CollectMembers | mod_factory.py:319-339 | the search gathers the id of every member of the kinds searched for, and nothing else |
| ModFactory.GatheredCollects | mod_factory.py:319-342 | the search's loop gathers, per field, exactly the members of that field's own kind in order, when that field is searched; grouped and nested options only warn |
| ModFactory.VisitPicks | mod_factory.py:320-342 | one member goes to the one list of its kind, if that field is searched |
| ModFactory.SearchUpdate | mod_factory.py:298-356 | the search changes only its four fields, and only those unset; an unset `options` becomes the plain options found, or stays unset when there are none |
| ModFactory.SearchedOptionsOf | mod_factory.py:331-350 | options not given become exactly the module's plain options in order, never grouped or nested ones; unset when it has none |
| ModFactory.MergeSteps | mod_factory.py:126-136 | the merge is the pyproject step, then the attribute step, then the search, in that order |
| ModFactory.SetBeforeSearch | mod_factory.py:126-135 | every argument given is still in place after the attribute step, and the settings file is set |
| ModFactory.MergeKeepsSet | mod_factory.py:107-136 | every argument given survives the merge, and the settings file is always set |
| ModFactory.OptionsUnsetBeforeSearch | mod_factory.py:126-135 | options not given are still unset when the search starts |
| ModFactory.SearchedOptions | mod_factory.py:135-136 | without an `options` argument, the options passed on are exactly the plain options the search found |
| ModFactory.PrivateField | mod_factory.py:142 | `_version_info` is the only field whose key starts with "_" |
| ModFactory.KwargsFields | mod_factory.py:142 | the keyword arguments are exactly the set fields other than `_version_info`, with their values |
| ModFactory.ArgumentsWin | mod_factory.py:107-142 | every argument given reaches the constructor unchanged, the settings file always does, and `_version_info` never does |
| ModFactory.FactoryFields.constructor | mod_factory.py:107-124 | the dict starts as the arguments with `_version_info` unset |
| ModFactory.FactoryFields.FillField | mod_factory.py:203-204 | one fill in place, as `FillOne` says |
| ModFactory.FactoryFields.FillFields | mod_factory.py:229-236 | the loop over (field, key) pairs in place, raising exactly when `Fill` does |
| ModFactory.FactoryFields.ApplyToolSdkmod | mod_factory.py:191-215 | the `tool.sdkmod` step in place, as `SdkmodUpdate` says |
| ModFactory.FactoryFields.ApplyProject | mod_factory.py:218-241 | the `project` step in place, as `ProjectUpdate` says |
| ModFactory.FactoryFields.ApplyPyproject | mod_factory.py:244-259 | the pyproject step in place, as `PyprojectUpdate` says |
| ModFactory.FactoryFields.FillName | mod_factory.py:270-281 | the `__name__` fill in place |
| ModFactory.FactoryFields.DefaultSettingsFileTo | mod_factory.py:283-284 | the settings-file default in place |
| ModFactory.FactoryFields.ApplyModuleAttributes | mod_factory.py:262-284 | the attribute step in place, as `AttributesUpdate` says |
| ModFactory.FactoryFields.Gather | mod_factory.py:319-342 | the loop leaves the fields alone and gathers, per field, the members of its kind when searched; warnings exactly for grouped and nested options when options are searched |
| ModFactory.FactoryFields.Store | mod_factory.py:346-356 | a field is assigned only when something was gathered for it |
| ModFactory.FactoryFields.ApplyModuleSearch | mod_factory.py:287-356 | the search in place, as `SearchUpdate` says, with the warnings it issues |
| ModFactory.OtherFiles | mod_factory.py:366-368 | the mods left are exactly those whose settings file is not the path, where two paths are equal when their normalised forms are (`Path.__eq__`) |
| ModFactory.UsingFile | mod_factory.py:366 | the mods to remove are exactly those whose settings file is the path, under the same path equality |
| ModFactory.FilesPartition | mod_factory.py:366-368 | the mods removed and the mods left split the list: each mod is in exactly one of them, as often as it occurs |
| ModFactory.OtherFilesAppend | mod_factory.py:366-368 | the mods left keep the list's order |
| ModFactory.UsingFileAppend | mod_factory.py:366 | the mods removed keep the list's order |
| ModFactory.WithoutUsingFile | mod_factory.py:366-368 | removing those mods leaves exactly the others, in order |
| ModFactory.ModList.Deregister | mod_factory.py:368 | deregistering removes that mod from the list |
| ModFactory.ModList.DeregisterUsingSettingsFile | mod_factory.py:359-368 | exactly the mods using the file, under `Path` equality, are deregistered, in order, and the others stay |
| ModFactory.BuildKwargs | mod_factory.py:107-142 | `build_mod` up to the constructor: it raises exactly when the pyproject step does or, with version injection on, when `version_info_parser` raises on the `project.version` found and the module has no `__version_info__`; otherwise the keyword arguments are the merged fields without unset or private ones, and the mods using the same settings file are deregistered when asked |
| Keybinds.Keybind.constructor | keybinds.py:82-88 | labels defaulted as `MakeLabels` says; `default_key` is the initial key; not enabled; `_rebind` ran once, from the initialiser's assignment |
| Keybinds.Keybind.SetKey | keybinds.py:90-97 | unless `_rebind` raises, the key ends as the new key and the guard is as before; `_rebind(new)` runs once, before the write and with the old key still in place, unless a rebind is already running; assignments inside it do not re-trigger it; a raising `_rebind` leaves the guard set and the key as it last wrote it; `default_key` and `is_enabled` never change |
| Keybinds.Keybind.Enable | keybinds.py:99-102 | `_enable` runs, then the keybind is enabled; the key is untouched |
| Keybinds.Keybind.Disable | keybinds.py:104-107 | `_disable` runs, then the keybind is disabled; the key is untouched |
| Keybinds.DecoratorKwargs | keybinds.py:259-268 | the forwarded keywords always hold description, is_hidden, is_rebindable and event_filter, and display_name and description_title exactly when given |
| Keybinds.ConstructWithKwargs | keybinds.py:270 | a keyword not forwarded takes the class default, so the event filter defaults to Released |
| Keybinds.Decorate | keybinds.py:258-270 | the decorator builds the keybind from the forwarded keywords and the callback: labels, key, rebindability and event filter are the forwarded ones, and a keyword not forwarded takes the class default; the keybind is not enabled and `_rebind` ran once, from the initialiser |
| Keybinds.MakeKeybind | keybinds.py:221-274 | a decorator exactly when no callback is given; otherwise a keybind whose labels are defaulted as if built directly, with the given filter |

## Left out

- Reading and writing files, and JSON and TOML parsing. Loading a settings file takes the
  outcome of opening and parsing it (`SettingsFile`). Saving returns what it does to the file
  (`FileEffect`). `load_pyproject` is replaced by the parsed table, where a missing or invalid
  file is an empty table. `mkdir` is not modelled. Neither are the file errors the code does
  not catch: `SettingsFile` has no case for them, nor `FileEffect` for a failed write. Loading
  catches only FileNotFoundError and JSONDecodeError (settings.py:51-55), and
  `load_pyproject` only FileNotFoundError and TOMLDecodeError. So a PermissionError,
  IsADirectoryError or UnicodeDecodeError while loading would propagate, as would an error from
  `open("w")` or `unlink` while saving (settings.py:116-121).
- Reflection on the calling module. `inspect.stack`/`getmodule`, the "unable to find calling
  module" error and `inspect.getmembers` are left out. The module is given as its name, its
  attributes and its members in the order `getmembers` lists them. Its `__name__` is always
  present.
- The writes of `__version__` and `__version_info__` into the module object, which is outside
  the model. No later step reads a field from them. What is modelled is whether
  `version_info_parser` raises, given as a predicate on the value it parses.
- `cls(**kwargs)`, `register_mod` and `deregister_mod`. `mod.py` and `mod_list.py` are not part
  of this model. `BuildKwargs` stops at the keyword arguments, and deregistering only removes
  the mod from a list. `Mod` is reduced to the fields the settings code reads.
- Logging and warning texts. Warnings are counted, or the warned members are listed, without
  their text.
- User callbacks: `on_change`, `on_press`, `Mod.enable` and the keybind implementation's hooks.
  Their calls are recorded in ghost traces. A callback writing into its own option is given as
  the sequence of values it writes, and whether it then raises as a flag. Writes from other, arbitrary code are not modelled.
- `ButtonOption.__call__` (options.py:388-408). Buttons are immutable tree nodes here, so
  installing an `on_press` callback is not modelled.
- Floats are exact reals. Infinity, NaN, underscores in numerals and the exponent form of
  `str()` for very large or small floats are left out.
- `str()` of a list or dict is a fixed placeholder. A spinner or dropdown therefore accepts a
  container only if such a placeholder is among its choices.
- `lower()` covers ASCII letters only. No other character lower-cases to a letter of "false",
  so the bool option's comparison is unaffected.
- Enum aliases. Members are identified by name. `Game` flags are sets of bits.
- Settings.SaveThenLoad: covers each rebindable keybind that no later rebindable keybind shares
  an identifier with, because the saved section keeps only the last of those.
- Options.RoundTrip: requires canonical values and distinct sibling identifiers, because
  loading coerces other values (an integral slider holding a float comes back rounded, and one
  holding an int beyond the doubles raises) and the dict keeps only the last of two siblings
  with one identifier.
- The slider's `_from_json` lets the TypeError from `float(None)` or `float([...])` and the
  OverflowError from `float` of a huge int propagate. Only ValueError is caught, so loading
  stops with an exception there. The code is followed, not a reading in which loading never
  raises.
- PyJson.ToFloat: the table of decimal digits is the one of Unicode 15.0. A Python built on
  another Unicode version accepts a slightly different set of digits. An int that converts
  gives its exact value, not the nearest double.
- ModFactory.OtherFiles: path normalisation (separators, redundant parts, case folding on
  Windows) is a parameter, `norm`, and is not defined here. A settings file given as a `str`
  rather than a `Path` is not modelled; it would equal no `Path`.
- ModFactory.UsingFile: compares paths through the same `norm` parameter.
- ModFactory.ModList.DeregisterUsingSettingsFile: compares paths through the same `norm`
  parameter.
- Raising callbacks are modelled only in `ValueOption.Assign` and `Keybind.SetKey`, by a flag.
  The callers assume that `on_change` and `_rebind` return normally: `ValueOption.FromJson`,
  `LoadNode`, `LoadOptionsDict`, `LoadKeybinds` and `Mod.LoadSettings`. So do the `Keybind`
  constructor's own assignment and the hooks `_enable`, `_disable` and `Mod.enable`. When such
  a callback raises, the guard stays set and the value or key is left unwritten. A load then
  stops part-way through its children. None of that is modelled in those members.
- Settings.Mod.LoadSettings: for a keybind that an option made by `from_keybind` writes into,
  the `_rebind` calls are not stated, and neither is the final key when the "keybinds" dict
  does not name it. These are left out because they depend on how that
  option's writes interleave with the keybind loop. That keybind's `default_key`, enable flag
  and guard are still stated as kept. `Mod.enable` is recorded as a call, and its body, which
  would set `is_enabled`, is not part of this model, so `is_enabled` changes only through it.
- Settings.Mod.LoadSections: leaves out the same facts about keybinds bound to options, for the
  same reason.
