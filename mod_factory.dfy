/**
 * The mod factory's metadata merge (`build_mod` and its helpers). A record of optional fields
 * starts from the factory's arguments and is filled, field by field and only where still unset,
 * from the `tool.sdkmod` table of `pyproject.toml`, then its `project` table, then the calling
 * module's attributes, then a search through the module's members. What is left set, minus the
 * private fields, becomes the keyword arguments of the mod's constructor.
 *
 * Reading and parsing `pyproject.toml` and the reflection on the calling module are outside
 * the model: the parsed table and the module (its name, attributes and members) are inputs.
 * The `ModType`, `Game` and `CoopSupport` enums are inputs too, given by their member names.
 */
module ModFactory {
  import opened Wrappers
  import opened PyJson
  import Settings

  /** The value of a factory field. `Unset` is Python's `None`. */
  datatype FieldValue =
    | Unset
      /** A plain value: an argument, an entry of `pyproject.toml`, the joined author names. */
    | Data(json: Json)
      /** A `ModType` or `CoopSupport` member, by name. */
    | Member(name: string)
      /** A `Game` flag value, as the set of its bits. */
    | GameFlags(bits: set<nat>)
      /** A settings file path. */
    | PathValue(path: string)
      /** A list of keybinds, options, hooks or commands, by object identity. */
    | Objects(ids: seq<nat>)
      /** Any other object, such as a callback. */
    | Object(id: nat)

  /** The keys of `ModFactoryFields`: the keyword arguments of `build_mod` and `_version_info`. */
  datatype Field =
    | Name | Author | Description | Version | VersionInfo | ModType | SupportedGames
    | CoopSupport | SettingsFile | Keybinds | Options | Hooks | Commands | AutoEnable
    | OnEnable | OnDisable
  {
    /** The field's key in the dict, which is also the constructor's keyword. */
    function Key(): string {
      match this
      case Name => "name"
      case Author => "author"
      case Description => "description"
      case Version => "version"
      case VersionInfo => "_version_info"
      case ModType => "mod_type"
      case SupportedGames => "supported_games"
      case CoopSupport => "coop_support"
      case SettingsFile => "settings_file"
      case Keybinds => "keybinds"
      case Options => "options"
      case Hooks => "hooks"
      case Commands => "commands"
      case AutoEnable => "auto_enable"
      case OnEnable => "on_enable"
      case OnDisable => "on_disable"
    }

    /** `key.startswith("_")`. */
    predicate Private() {
      |Key()| > 0 && Key()[0] == '_'
    }
  }

  /** The fields dict holds every key. */
  predicate Total(f: map<Field, FieldValue>) {
    forall k: Field :: k in f
  }

  /** The arguments of `build_mod`: every field but `_version_info`. */
  predicate ArgsShape(args: map<Field, FieldValue>) {
    forall k: Field :: k in args <==> k != VersionInfo
  }

  /** The enums the factory looks names up in: their member names, and each game's flag bits. */
  datatype Enums = Enums(modTypes: set<string>, games: map<string, set<nat>>, coopSupports: set<string>)

  /** The kinds of module member the search tells apart. */
  datatype MemberKind =
    | KeybindMember
    | GroupedOptionMember
    | NestedOptionMember
    | OptionMember
    | HookMember
    | CommandMember
    | OtherMember

  datatype ModuleMember = ModuleMember(kind: MemberKind, id: nat)

  /**
   * The calling module: its `__name__`, its other attributes, and its members in the order
   * `inspect.getmembers` lists them.
   */
  datatype Module = Module(name: string, attrs: map<string, FieldValue>, members: seq<ModuleMember>)

  /** Where a step reads values from: a `pyproject.toml` table, or the module's attributes. */
  datatype Source = Table(json: Json) | Attributes(caller: Module)

  /** Reading one value for a field: nothing there, a value, or an exception. */
  datatype Fetched = Missing | Got(v: FieldValue) | FetchRaises

  /** The outcome of an update step: the new fields, or an exception that ends `build_mod`. */
  datatype Outcome = Ok(fields: map<Field, FieldValue>) | Raises

  // ---------------------------------------------------------------------------------------
  // Reading values

  /**
   * `key in table` and then `table[key]`; for a module, `getattr(module, key)`, whose
   * AttributeError the factory suppresses.
   */
  function Get(src: Source, key: string): (r: Fetched)
    ensures src.Attributes? ==> !r.FetchRaises?
    ensures src.Table? && src.json.JObj? ==>
      r == if key in src.json.entries then Got(Data(src.json.entries[key])) else Missing
  {
    match src
    case Table(json) =>
      (match Lookup(json, key)
       case NoSection => Missing
       case SectionOf(v) => Got(Data(v))
       case LookupRaises => FetchRaises)
    case Attributes(caller) =>
      if key in caller.attrs then Got(caller.attrs[key])
      else Missing
  }

  /** What iterating over a value gives: its items, a dict's keys, or a TypeError. */
  datatype Iteration = NotIterable | Items(items: seq<Json>) | KeysOf(keys: set<string>)

  function Iterate(v: Json): Iteration {
    match v
    case JArr(items) => Items(items)
    case JStr(s) => Items(seq(|s|, i requires 0 <= i < |s| => JStr([s[i]])))
    case JObj(entries) => KeysOf(entries.Keys)
    case _ => NotIterable
  }

  /** Whether Python can hash the value (lists and dicts it cannot). */
  predicate Hashable(v: Json) {
    !(v.JArr? || v.JObj?)
  }

  /**
   * `Enum.__members__.get(v)`: the member of that exact name, `None` for any other hashable
   * value, and a TypeError for an unhashable one.
   */
  function EnumGet(v: Json, names: set<string>): (r: Fetched)
    ensures r.FetchRaises? <==> !Hashable(v)
    ensures r.Got? && r.v != Unset <==> v.JStr? && v.s in names
    ensures r.Got? && r.v != Unset ==> r.v == Member(v.s)
  {
    if !Hashable(v) then FetchRaises
    else if v.JStr? && v.s in names then Got(Member(v.s))
    else Got(Unset)
  }

  /** The `Game` members listed in a value, or None when listing them raises. */
  function ValidGames(v: Json, games: map<string, set<nat>>): (r: Option<set<string>>)
    ensures r.Some? ==> r.value <= games.Keys
    ensures v.JArr? ==>
      (r.Some? <==> forall i :: 0 <= i < |v.items| ==> Hashable(v.items[i]))
    ensures v.JArr? && r.Some? ==>
      forall name :: name in r.value <==> name in games && JStr(name) in v.items
    // A string is iterated by characters, so only one-character names can be found in it.
    ensures v.JStr? ==> r.Some? && forall name :: name in r.value <==>
      name in games && |name| == 1 && name[0] in v.s
    // A dict is iterated by its keys.
    ensures v.JObj? ==> r.Some? && forall name :: name in r.value <==> name in games && name in v.entries
    // Anything else cannot be iterated: a TypeError.
    ensures !(v.JArr? || v.JStr? || v.JObj?) ==> r.None?
  {
    match Iterate(v)
    case NotIterable => None
    case Items(items) =>
      if forall i :: 0 <= i < |items| ==> Hashable(items[i]) then
        var found := set i | 0 <= i < |items| && items[i].JStr? && items[i].s in games :: items[i].s;
        assert v.JStr? ==> forall name :: name in found <==>
          name in games && |name| == 1 && name[0] in v.s
        by {
          if v.JStr? {
            forall name | name in games && |name| == 1 && name[0] in v.s
              ensures name in found
            {
              var k :| 0 <= k < |v.s| && v.s[k] == name[0];
              assert items[k] == JStr([name[0]]) && [name[0]] == name;
            }
          }
        }
        Some(found)
      else None
    case KeysOf(keys) => Some(set k | k in keys && k in games)
  }

  /** The bitwise OR of the named `Game` members. */
  function FlagUnion(names: set<string>, games: map<string, set<nat>>): (bits: set<nat>)
    requires names <= games.Keys
    ensures forall b :: b in bits <==> exists n :: n in names && b in games[n]
  {
    set n, b | n in names && b in games[n] :: b
  }

  /**
   * The `supported_games` entry: the OR of its valid game names, nothing when none is valid,
   * and an exception when the entry cannot be listed.
   */
  function GetGames(table: Json, games: map<string, set<nat>>): Fetched {
    match Lookup(table, "supported_games")
    case NoSection => Missing
    case LookupRaises => FetchRaises
    case SectionOf(v) =>
      (match ValidGames(v, games)
       case None => FetchRaises
       case Some(names) => if names == {} then Missing else Got(GameFlags(FlagUnion(names, games))))
  }

  /** An enum entry (`mod_type` or `coop_support`), looked up by exact member name. */
  function GetEnum(table: Json, key: string, names: set<string>): Fetched {
    match Lookup(table, key)
    case NoSection => Missing
    case LookupRaises => FetchRaises
    case SectionOf(v) => EnumGet(v, names)
  }

  // ---------------------------------------------------------------------------------------
  // Authors

  /** `sep.join(parts)`. */
  function Join(parts: seq<string>, sep: string): string {
    if parts == [] then "" else if |parts| == 1 then parts[0] else parts[0] + sep + Join(parts[1..], sep)
  }

  function TotalLength(parts: seq<string>): nat {
    if parts == [] then 0 else |parts[0]| + TotalLength(parts[1..])
  }

  /** The joined string is as long as the parts and one separator between each two. */
  lemma {:induction false} JoinLength(parts: seq<string>, sep: string)
    requires parts != []
    ensures |Join(parts, sep)| == TotalLength(parts) + |sep| * (|parts| - 1)
  {
    if |parts| > 1 {
      JoinLength(parts[1..], sep);
    }
  }

  /** Where the `i`-th part starts in the joined string: after each earlier part and its separator. */
  function PartStart(parts: seq<string>, sep: string, i: nat): nat
    requires i < |parts|
  {
    if i == 0 then 0 else |parts[0]| + |sep| + PartStart(parts[1..], sep, i - 1)
  }

  /** Each part starts where the previous part and one separator end. */
  lemma {:induction false} PartStartNext(parts: seq<string>, sep: string, i: nat)
    requires i + 1 < |parts|
    ensures PartStart(parts, sep, i + 1) == PartStart(parts, sep, i) + |parts[i]| + |sep|
  {
    if i > 0 {
      PartStartNext(parts[1..], sep, i - 1);
      assert parts[1..][i - 1] == parts[i];
    }
  }

  /** The joined string holds each part, in order, at its start. */
  lemma {:induction false} JoinPart(parts: seq<string>, sep: string, i: nat)
    requires i < |parts|
    ensures PartStart(parts, sep, i) + |parts[i]| <= |Join(parts, sep)|
    ensures Join(parts, sep)[PartStart(parts, sep, i)..PartStart(parts, sep, i) + |parts[i]|] == parts[i]
  {
    var joined := Join(parts, sep);
    if |parts| > 1 {
      var rest := Join(parts[1..], sep);
      var head := parts[0] + sep;
      assert joined == head + rest;
      if i == 0 {
        assert joined == parts[0] + (sep + rest);
      } else {
        JoinPart(parts[1..], sep, i - 1);
        var start := PartStart(parts[1..], sep, i - 1);
        assert parts[1..][i - 1] == parts[i];
        SliceOfConcat(head, rest, start, start + |parts[i]|);
      }
    }
  }

  /** The joined string holds the separator between each part and the next. */
  lemma {:induction false} JoinSeparator(parts: seq<string>, sep: string, i: nat)
    requires i + 1 < |parts|
    ensures PartStart(parts, sep, i + 1) == PartStart(parts, sep, i) + |parts[i]| + |sep| <= |Join(parts, sep)|
    ensures Join(parts, sep)[PartStart(parts, sep, i) + |parts[i]|..PartStart(parts, sep, i + 1)] == sep
  {
    PartStartNext(parts, sep, i);
    if i == 0 {
      JoinFirstSeparator(parts, sep);
    } else {
      var rest := Join(parts[1..], sep);
      var head := parts[0] + sep;
      JoinCons(parts, sep);
      var start := PartStart(parts[1..], sep, i - 1);
      var next := PartStart(parts[1..], sep, i);
      assert PartStart(parts, sep, i) == |head| + start && PartStart(parts, sep, i + 1) == |head| + next;
      assert parts[1..][i - 1] == parts[i];
      assert next <= |rest| && (head + rest)[|head| + start + |parts[i]|..|head| + next] == sep by {
        JoinSeparator(parts[1..], sep, i - 1);
        SliceOfConcat(head, rest, start + |parts[i]|, next);
      }
    }
  }

  /** Two or more parts join as the first, the separator, and the rest joined. */
  lemma JoinCons(parts: seq<string>, sep: string)
    requires |parts| > 1
    ensures Join(parts, sep) == (parts[0] + sep) + Join(parts[1..], sep)
  {
  }

  /** The first separator follows the first part. */
  lemma JoinFirstSeparator(parts: seq<string>, sep: string)
    requires |parts| > 1
    ensures |parts[0]| + |sep| <= |Join(parts, sep)|
    ensures Join(parts, sep)[|parts[0]|..|parts[0]| + |sep|] == sep
  {
    var rest := Join(parts[1..], sep);
    assert Join(parts, sep) == parts[0] + (sep + rest);
    SliceOfConcat(parts[0], sep + rest, 0, |sep|);
  }

  /** A slice of `x + y` that lies past `x` is a slice of `y`. */
  lemma SliceOfConcat(x: string, y: string, a: nat, b: nat)
    requires a <= b <= |y|
    ensures (x + y)[|x| + a..|x| + b] == y[a..b]
  {
  }

  /** With a non-empty separator, only no part or one empty part joins to the empty string. */
  lemma JoinEmpty(parts: seq<string>, sep: string)
    requires sep != ""
    ensures Join(parts, sep) == "" <==> parts == [] || parts == [""]
  {
    if |parts| > 1 {
      assert |Join(parts, sep)| >= |sep|;
    }
  }

  /**
   * The names of the author entries that have one, in order; None when an entry cannot be
   * searched for a name, or a name is not a string.
   */
  function AuthorNames(items: seq<Json>): (r: Option<seq<string>>)
    ensures r.Some? <==> forall i :: 0 <= i < |items| ==>
      !Lookup(items[i], "name").LookupRaises?
      && (Lookup(items[i], "name").SectionOf? ==> Lookup(items[i], "name").json.JStr?)
    ensures r.Some? ==> forall s :: s in r.value <==>
      exists i :: 0 <= i < |items| && Lookup(items[i], "name") == SectionOf(JStr(s))
    ensures r == Some([]) <==> forall i :: 0 <= i < |items| ==> Lookup(items[i], "name").NoSection?
  {
    if items == [] then Some([])
    else
      var rest := AuthorNames(items[1..]);
      assert forall i :: 1 <= i < |items| ==> items[i] == items[1..][i - 1];
      match Lookup(items[0], "name")
      case LookupRaises => None
      case NoSection => rest
      case SectionOf(v) =>
        if v.JStr? && rest.Some? then Some([v.s] + rest.value) else None
  }

  /** `", ".join(author["name"] for author in authors if "name" in author)`. */
  function GetAuthors(table: Json): Fetched {
    match Lookup(table, "authors")
    case NoSection => Missing
    case LookupRaises => FetchRaises
    case SectionOf(authors) =>
      (match Iterate(authors)
       case NotIterable => FetchRaises
       case KeysOf(keys) =>
         // Each key is a string: `"name" in key` is a substring test, and indexing it raises.
         if exists k :: k in keys && IsSubstring("name", k) then FetchRaises
         else Got(Data(JStr("")))
       case Items(items) =>
         (match AuthorNames(items)
          case None => FetchRaises
          case Some(names) => Got(Data(JStr(Join(names, ", "))))))
  }

  // ---------------------------------------------------------------------------------------
  // Filling fields

  /** What a field holds after a fill: its own value if set, else whatever was read. */
  function Filled(current: FieldValue, got: Fetched): FieldValue {
    if current != Unset then current
    else match got
      case Got(v) => v
      case _ => Unset
  }

  /** One `if fields[field] is None and key in source: fields[field] = source[key]`. */
  function FillOne(f: map<Field, FieldValue>, field: Field, got: Fetched): (r: Outcome)
    requires field in f
    ensures r.Raises? <==> f[field] == Unset && got.FetchRaises?
    ensures r.Ok? ==> r.fields == f[field := Filled(f[field], got)]
  {
    if f[field] != Unset then Ok(f)
    else match got
      case Missing => Ok(f)
      case Got(v) => Ok(f[field := v])
      case FetchRaises => Raises
  }

  /** A fill after an earlier step, unless that step raised. */
  function ThenFill(o: Outcome, field: Field, got: Fetched): (r: Outcome)
    requires o.Ok? ==> Total(o.fields)
    ensures o.Ok? ==> r == FillOne(o.fields, field, got)
  {
    if o.Raises? || (o.fields[field] == Unset && got.FetchRaises?) then Raises
    else Ok(o.fields[field := Filled(o.fields[field], got)])
  }

  /** The fields a sequence of (field, key) pairs names. */
  function FieldsOf(pairs: seq<(Field, string)>): set<Field> {
    set p <- pairs :: p.0
  }

  /** No field is named by two pairs. */
  predicate Distinct(pairs: seq<(Field, string)>)
    decreases |pairs|
  {
    pairs == [] || (Distinct(pairs[..|pairs| - 1]) && pairs[|pairs| - 1].0 !in FieldsOf(pairs[..|pairs| - 1]))
  }

  /** Three pairs naming three different fields. */
  lemma DistinctThree(a: (Field, string), b: (Field, string), c: (Field, string))
    requires a.0 != b.0 && a.0 != c.0 && b.0 != c.0
    ensures Distinct([a, b, c]) && FieldsOf([a, b, c]) == {a.0, b.0, c.0}
  {
    assert [a][..0] == [] && FieldsOf([]) == {};
    assert Distinct([a]);
    assert [a, b][..1] == [a] && FieldsOf([a]) == {a.0};
    assert Distinct([a, b]);
    assert [a, b, c][..2] == [a, b] && FieldsOf([a, b]) == {a.0, b.0};
  }

  /** Four pairs naming four different fields. */
  lemma DistinctFour(a: (Field, string), b: (Field, string), c: (Field, string), d: (Field, string))
    requires a.0 != b.0 && a.0 != c.0 && b.0 != c.0
    requires d.0 != a.0 && d.0 != b.0 && d.0 != c.0
    ensures Distinct([a, b, c, d]) && FieldsOf([a, b, c, d]) == {a.0, b.0, c.0, d.0}
  {
    DistinctThree(a, b, c);
    assert [a, b, c, d][..3] == [a, b, c];
  }

  /** The fills for a sequence of (field, key) pairs, in order; the first exception ends them. */
  function Fill(f: map<Field, FieldValue>, src: Source, pairs: seq<(Field, string)>): (r: Outcome)
    requires Total(f)
    ensures r.Ok? ==> Total(r.fields)
    ensures r.Ok? ==> forall k: Field :: f[k] != Unset ==> r.fields[k] == f[k]
    ensures r.Ok? ==> forall k: Field :: k !in FieldsOf(pairs) ==> r.fields[k] == f[k]
    decreases |pairs|
  {
    if pairs == [] then Ok(f)
    else
      var init := pairs[..|pairs| - 1];
      var last := pairs[|pairs| - 1];
      assert forall p <- init :: p in pairs;
      assert FieldsOf(pairs) == FieldsOf(init) + {last.0};
      ThenFill(Fill(f, src, init), last.0, Get(src, last.1))
  }

  /** Fills whose every read succeeds or finds nothing do not raise. */
  lemma {:induction false} FillNoRaise(f: map<Field, FieldValue>, src: Source, pairs: seq<(Field, string)>)
    requires Total(f) && forall p <- pairs :: !Get(src, p.1).FetchRaises?
    ensures Fill(f, src, pairs).Ok?
    decreases |pairs|
  {
    if pairs != [] {
      var init := pairs[..|pairs| - 1];
      assert forall p <- init :: p in pairs;
      FillNoRaise(f, src, init);
    }
  }

  /** One more pair: the fills of a prefix, then the next fill. */
  lemma FillStep(f: map<Field, FieldValue>, src: Source, pairs: seq<(Field, string)>, i: nat)
    requires Total(f) && i < |pairs|
    ensures Fill(f, src, pairs[..i + 1]) == ThenFill(Fill(f, src, pairs[..i]), pairs[i].0, Get(src, pairs[i].1))
  {
    assert pairs[..i + 1][..i] == pairs[..i];
  }

  /** Once a prefix of the fills raises, so do all of them. */
  lemma {:induction false} FillRaisesLater(f: map<Field, FieldValue>, src: Source,
                                          pairs: seq<(Field, string)>, j: nat)
    requires Total(f)
    requires j <= |pairs| && Fill(f, src, pairs[..j]).Raises?
    ensures Fill(f, src, pairs).Raises?
    decreases |pairs|
  {
    if j < |pairs| {
      var init := pairs[..|pairs| - 1];
      assert init[..j] == pairs[..j];
      FillRaisesLater(f, src, init, j);
    } else {
      assert pairs[..j] == pairs;
    }
  }

  /** The last pair's field, named by no earlier pair, is filled from the value read for it. */
  lemma FillLast(f: map<Field, FieldValue>, src: Source, pairs: seq<(Field, string)>)
    requires Total(f) && pairs != []
    requires pairs[|pairs| - 1].0 !in FieldsOf(pairs[..|pairs| - 1])
    requires Fill(f, src, pairs).Ok?
    ensures Fill(f, src, pairs).fields[pairs[|pairs| - 1].0]
         == Filled(f[pairs[|pairs| - 1].0], Get(src, pairs[|pairs| - 1].1))
  {
    var n := |pairs| - 1;
    FillStep(f, src, pairs, n);
    assert pairs[..n + 1] == pairs;
    ThenFillSets(Fill(f, src, pairs[..n]), pairs[n].0, Get(src, pairs[n].1));
  }

  /** A field named by an earlier pair is left alone by the last fill. */
  lemma FillEarlier(f: map<Field, FieldValue>, src: Source, pairs: seq<(Field, string)>, j: nat)
    requires Total(f) && j < |pairs| - 1
    requires pairs[|pairs| - 1].0 !in FieldsOf(pairs[..|pairs| - 1])
    requires Fill(f, src, pairs).Ok?
    ensures Fill(f, src, pairs[..|pairs| - 1]).Ok?
    ensures Fill(f, src, pairs).fields[pairs[j].0] == Fill(f, src, pairs[..|pairs| - 1]).fields[pairs[j].0]
  {
    var n := |pairs| - 1;
    var init := pairs[..n];
    FillStep(f, src, pairs, n);
    assert pairs[..n + 1] == pairs;
    assert init[j] in init;
    ThenFillKeeps(Fill(f, src, init), pairs[n].0, Get(src, pairs[n].1), pairs[j].0);
  }

  /**
   * A field named by exactly one pair ends up as its own value if it was set, and otherwise
   * as the value read for it (or still unset).
   */
  lemma {:induction false} FillField(f: map<Field, FieldValue>, src: Source,
                                     pairs: seq<(Field, string)>, j: nat)
    requires Total(f)
    requires j < |pairs| && Distinct(pairs)
    requires Fill(f, src, pairs).Ok?
    ensures Fill(f, src, pairs).fields[pairs[j].0] == Filled(f[pairs[j].0], Get(src, pairs[j].1))
    decreases |pairs|
  {
    var n := |pairs| - 1;
    if j < n {
      FillEarlier(f, src, pairs, j);
      FillField(f, src, pairs[..n], j);
    } else {
      FillLast(f, src, pairs);
    }
  }

  // ---------------------------------------------------------------------------------------
  // The pyproject.toml steps

  const SdkmodPairs: seq<(Field, string)> := [(Name, "name"), (Version, "version"), (AutoEnable, "auto_enable")]

  /** The fields the `tool.sdkmod` step may fill. */
  const SdkmodFields: set<Field> := {Name, Version, AutoEnable, ModType, SupportedGames, CoopSupport}

  /** `update_fields_with_pyproject_tool_sdkmod`. */
  function SdkmodUpdate(f: map<Field, FieldValue>, sdkmod: Json, enums: Enums): (r: Outcome)
    requires Total(f)
    ensures r.Ok? ==> Total(r.fields)
    ensures r.Ok? ==> forall k: Field :: f[k] != Unset ==> r.fields[k] == f[k]
    ensures r.Ok? ==> forall k: Field :: k !in SdkmodFields ==> r.fields[k] == f[k]
  {
    var simple := Fill(f, Table(sdkmod), SdkmodPairs);
    var withModType := ThenFill(simple, ModType, GetEnum(sdkmod, "mod_type", enums.modTypes));
    var withGames := ThenFill(withModType, SupportedGames, GetGames(sdkmod, enums.games));
    ThenFillFrame(simple, ModType, GetEnum(sdkmod, "mod_type", enums.modTypes));
    ThenFillFrame(withModType, SupportedGames, GetGames(sdkmod, enums.games));
    ThenFillFrame(withGames, CoopSupport, GetEnum(sdkmod, "coop_support", enums.coopSupports));
    ThenFill(withGames, CoopSupport, GetEnum(sdkmod, "coop_support", enums.coopSupports))
  }

  const ProjectPairs: seq<(Field, string)> :=
    [(Name, "name"), (Version, "version"), (Description, "description"), (VersionInfo, "version")]

  /** The fields the `project` step may fill. */
  const ProjectFields: set<Field> := {Name, Version, Description, VersionInfo, Author}

  /** `update_fields_with_pyproject_project`. */
  function ProjectUpdate(f: map<Field, FieldValue>, project: Json): (r: Outcome)
    requires Total(f)
    ensures r.Ok? ==> Total(r.fields)
    ensures r.Ok? ==> forall k: Field :: f[k] != Unset ==> r.fields[k] == f[k]
    ensures r.Ok? ==> forall k: Field :: k !in ProjectFields ==> r.fields[k] == f[k]
  {
    ProjectPairsFacts();
    ThenFillFrame(Fill(f, Table(project), ProjectPairs), Author, GetAuthors(project));
    ThenFill(Fill(f, Table(project), ProjectPairs), Author, GetAuthors(project))
  }

  /** The `tool.sdkmod` table: `"tool" in toml and "sdkmod" in toml["tool"]`, then the lookup. */
  function SdkmodSection(toml: map<string, Json>): Section {
    if "tool" in toml then Lookup(toml["tool"], "sdkmod") else NoSection
  }

  /**
   * `update_fields_with_pyproject`: `tool.sdkmod` first, so that it wins over `project`.
   * A missing `pyproject.toml` is an empty table.
   */
  function PyprojectUpdate(f: map<Field, FieldValue>, toml: map<string, Json>, enums: Enums): (r: Outcome)
    requires Total(f)
    ensures r.Ok? ==> Total(r.fields)
    ensures r.Ok? ==> forall k: Field :: f[k] != Unset ==> r.fields[k] == f[k]
    ensures r.Ok? ==> forall k: Field :: k !in SdkmodFields + ProjectFields ==> r.fields[k] == f[k]
  {
    var afterTool :=
      match SdkmodSection(toml)
      case NoSection => Ok(f)
      case SectionOf(sdkmod) => SdkmodUpdate(f, sdkmod, enums)
      case LookupRaises => Raises;
    match afterTool
    case Raises => Raises
    case Ok(f1) => if "project" in toml then ProjectUpdate(f1, toml["project"]) else Ok(f1)
  }

  // ---------------------------------------------------------------------------------------
  // The module steps

  /**
   * The attributes after `__name__`, which a module always has; the first of the five fills
   * is therefore written out on its own (`NameFill`).
   */
  const AttributePairs: seq<(Field, string)> :=
    [(Author, "__author__"), (Version, "__version__"),
     (OnEnable, "on_enable"), (OnDisable, "on_disable")]

  /** The settings file a module gets by default: `SETTINGS_DIR / (module.__name__ + ".json")`. */
  function DefaultSettingsFile(settingsDir: string, caller: Module): FieldValue {
    PathValue(settingsDir + "/" + caller.name + ".json")
  }

  /** The fields the module-attribute step may fill. */
  const AttributeFields: set<Field> := {Name, Author, Version, OnEnable, OnDisable}

  lemma AttributePairsFields()
    ensures FieldsOf(AttributePairs) == AttributeFields - {Name}
    ensures Distinct(AttributePairs)
  {
    assert AttributePairs[0].0 == Author && AttributePairs[1].0 == Version;
    assert AttributePairs[2].0 == OnEnable && AttributePairs[3].0 == OnDisable;
    var p := AttributePairs;
    DistinctFour(p[0], p[1], p[2], p[3]);
    assert [p[0], p[1], p[2], p[3]] == p;
  }

  /** The `__name__` fill: the field takes the module's name unless it is already set. */
  function NameFill(f: map<Field, FieldValue>, caller: Module): (r: map<Field, FieldValue>)
    requires Total(f)
    ensures Total(r)
    ensures r[Name] == Filled(f[Name], Got(Data(JStr(caller.name))))
    ensures forall k: Field :: k != Name ==> r[k] == f[k]
  {
    if f[Name] == Unset then f[Name := Data(JStr(caller.name))] else f
  }

  /** What `getattr(module, attr)` gives each of the five attribute fields. */
  function AttributeOf(caller: Module, k: Field): Fetched {
    match k
    case Name => Got(Data(JStr(caller.name)))
    case Author => Get(Attributes(caller), "__author__")
    case Version => Get(Attributes(caller), "__version__")
    case OnEnable => Get(Attributes(caller), "on_enable")
    case OnDisable => Get(Attributes(caller), "on_disable")
    case _ => Missing
  }

  /**
   * The loop of `update_fields_with_module_attributes`, field by field: each unset attribute
   * field takes the module's attribute when there is one (`AttributesLoop` shows that the
   * loop, in its order, gives this).
   */
  function AttributesFill(f: map<Field, FieldValue>, caller: Module): (r: map<Field, FieldValue>)
    requires Total(f)
    ensures Total(r)
    ensures forall k: Field :: f[k] != Unset ==> r[k] == f[k]
    ensures forall k: Field :: k !in AttributeFields ==> r[k] == f[k]
    ensures f[Name] == Unset ==> r[Name] == Data(JStr(caller.name))
  {
    map k: Field | k in f :: Filled(f[k], AttributeOf(caller, k))
  }

  /** Fills that name each field once and do not raise: every field on its own. */
  lemma FillPointwise(f: map<Field, FieldValue>, src: Source, pairs: seq<(Field, string)>)
    requires Total(f) && Fill(f, src, pairs).Ok?
    requires Distinct(pairs)
    ensures forall j :: 0 <= j < |pairs| ==>
      Fill(f, src, pairs).fields[pairs[j].0] == Filled(f[pairs[j].0], Get(src, pairs[j].1))
  {
    forall j | 0 <= j < |pairs|
      ensures Fill(f, src, pairs).fields[pairs[j].0] == Filled(f[pairs[j].0], Get(src, pairs[j].1))
    {
      FillField(f, src, pairs, j);
    }
  }

  /** Each of the four pairs reads the attribute `AttributeOf` names for its field. */
  lemma AttributePairsRead(caller: Module)
    ensures forall p <- AttributePairs :: AttributeOf(caller, p.0) == Get(Attributes(caller), p.1)
  {
  }

  /** The `__name__` fill and then the loop over the other four attributes. */
  lemma AttributesLoop(f: map<Field, FieldValue>, caller: Module)
    requires Total(f)
    ensures Fill(NameFill(f, caller), Attributes(caller), AttributePairs) == Ok(AttributesFill(f, caller))
  {
    var g := NameFill(f, caller);
    var src := Attributes(caller);
    AttributePairsFields();
    FillNoRaise(g, src, AttributePairs);
    FillPointwise(g, src, AttributePairs);
    AttributePairsRead(caller);
    AttributesLoopAt(f, caller, AttributePairs, Fill(g, src, AttributePairs).fields);
  }

  lemma AttributesLoopAt(f: map<Field, FieldValue>, caller: Module, pairs: seq<(Field, string)>,
                         h: map<Field, FieldValue>)
    requires Total(f) && Total(h)
    requires FieldsOf(pairs) == AttributeFields - {Name}
    requires forall p <- pairs :: AttributeOf(caller, p.0) == Get(Attributes(caller), p.1)
    requires forall k: Field :: k !in FieldsOf(pairs) ==> h[k] == NameFill(f, caller)[k]
    requires forall j :: 0 <= j < |pairs| ==>
      h[pairs[j].0] == Filled(NameFill(f, caller)[pairs[j].0], Get(Attributes(caller), pairs[j].1))
    ensures h == AttributesFill(f, caller)
  {
    var r := AttributesFill(f, caller);
    forall k: Field ensures h[k] == r[k] {
      if k in FieldsOf(pairs) {
        var j :| 0 <= j < |pairs| && pairs[j].0 == k;
      }
    }
  }

  /** `if fields["settings_file"] is None: fields["settings_file"] = default`. */
  function DefaultSettings(f: map<Field, FieldValue>, default: FieldValue): (r: map<Field, FieldValue>)
    requires Total(f) && default != Unset
    ensures Total(r) && r[SettingsFile] != Unset
    ensures f[SettingsFile] == Unset ==> r[SettingsFile] == default
    ensures forall k: Field :: k != SettingsFile || f[k] != Unset ==> r[k] == f[k]
  {
    if f[SettingsFile] == Unset then f[SettingsFile := default] else f
  }

  /** `update_fields_with_module_attributes`. */
  function AttributesUpdate(f: map<Field, FieldValue>, caller: Module, settingsDir: string)
    : (r: map<Field, FieldValue>)
    requires Total(f)
    ensures Total(r)
    ensures forall k: Field :: f[k] != Unset ==> r[k] == f[k]
    ensures r[SettingsFile] != Unset
    ensures f[SettingsFile] == Unset ==> r[SettingsFile] == DefaultSettingsFile(settingsDir, caller)
    ensures f[Name] == Unset ==> r[Name] == Data(JStr(caller.name))
    ensures forall k: Field :: k !in AttributeFields && k != SettingsFile ==> r[k] == f[k]
  {
    var f1 := AttributesFill(f, caller);
    assert f1[SettingsFile] == f[SettingsFile] by {
      assert SettingsFile !in AttributeFields;
    }
    DefaultSettings(f1, DefaultSettingsFile(settingsDir, caller))
  }

  /** The ids of the members of the given kinds, in order. */
  function Collect(members: seq<ModuleMember>, kinds: set<MemberKind>): seq<nat> {
    if members == [] then []
    else
      var last := members[|members| - 1];
      Collect(members[..|members| - 1], kinds) + (if last.kind in kinds then [last.id] else [])
  }

  /** Collect gathers the id of every member of those kinds, and nothing else. */
  lemma {:induction false} CollectMembers(members: seq<ModuleMember>, kinds: set<MemberKind>)
    ensures |Collect(members, kinds)| <= |members|
    ensures forall x <- Collect(members, kinds) :: exists m <- members :: m.kind in kinds && m.id == x
    ensures forall m <- members :: m.kind in kinds ==> m.id in Collect(members, kinds)
  {
    if members != [] {
      var init := members[..|members| - 1];
      var last := members[|members| - 1];
      CollectMembers(init, kinds);
      assert forall m <- init :: m in members;
      assert forall m <- members :: m in init || m == last;
    }
  }

  lemma CollectNext(members: seq<ModuleMember>, i: nat, kinds: set<MemberKind>)
    requires i < |members|
    ensures Collect(members[..i + 1], kinds)
         == Collect(members[..i], kinds) + (if members[i].kind in kinds then [members[i].id] else [])
  {
    assert members[..i + 1][..i] == members[..i];
  }

  /** What the search collects for some kinds: nothing unless they are searched for. */
  function Wanted(find: bool, members: seq<ModuleMember>, kinds: set<MemberKind>): seq<nat> {
    if find then Collect(members, kinds) else []
  }

  /** The fields the search looks for: those still unset when it starts. */
  datatype Finding = Finding(keybinds: bool, options: bool, hooks: bool, commands: bool)

  /** What the search has gathered for each field, and the members it warned about. */
  datatype Gathering = Gathering(keybinds: seq<nat>, options: seq<nat>, hooks: seq<nat>, commands: seq<nat>,
                                 warned: seq<nat>)

  /**
   * One member through the search's `match value`. A guard that fails falls through to arms
   * whose classes the member does not have, and so to `case _: pass`.
   */
  function VisitMember(g: Gathering, find: Finding, m: ModuleMember): Gathering {
    match m.kind
    case KeybindMember => if find.keybinds then g.(keybinds := g.keybinds + [m.id]) else g
    case GroupedOptionMember => if find.options then g.(warned := g.warned + [m.id]) else g
    case NestedOptionMember => if find.options then g.(warned := g.warned + [m.id]) else g
    case OptionMember => if find.options then g.(options := g.options + [m.id]) else g
    case HookMember => if find.hooks then g.(hooks := g.hooks + [m.id]) else g
    case CommandMember => if find.commands then g.(commands := g.commands + [m.id]) else g
    case OtherMember => g
  }

  /** The search's loop: every member in order, from nothing gathered. */
  function Gathered(members: seq<ModuleMember>, find: Finding): Gathering
    decreases |members|
  {
    if members == [] then Gathering([], [], [], [], [])
    else VisitMember(Gathered(members[..|members| - 1], find), find, members[|members| - 1])
  }

  /** Each field gathers exactly the members of its own kind, in order, when it is searched for. */
  lemma {:induction false} GatheredCollects(members: seq<ModuleMember>, find: Finding)
    ensures Gathered(members, find) == Gathering(
      Wanted(find.keybinds, members, {KeybindMember}),
      Wanted(find.options, members, {OptionMember}),
      Wanted(find.hooks, members, {HookMember}),
      Wanted(find.commands, members, {CommandMember}),
      Wanted(find.options, members, {GroupedOptionMember, NestedOptionMember}))
    decreases |members|
  {
    if members != [] {
      var init, last := members[..|members| - 1], members[|members| - 1];
      GatheredCollects(init, find);
      VisitPicks(Gathered(init, find), find, last);
      WantedLast(find.keybinds, members, {KeybindMember});
      WantedLast(find.options, members, {OptionMember});
      WantedLast(find.hooks, members, {HookMember});
      WantedLast(find.commands, members, {CommandMember});
      WantedLast(find.options, members, {GroupedOptionMember, NestedOptionMember});
    }
  }

  /** The member's id when it is of one of the kinds searched for, else nothing. */
  function Picked(find: bool, m: ModuleMember, kinds: set<MemberKind>): seq<nat> {
    if find && m.kind in kinds then [m.id] else []
  }

  /** A visit appends the member to the one list its kind belongs to, if that is searched for. */
  lemma VisitPicks(g: Gathering, find: Finding, m: ModuleMember)
    ensures VisitMember(g, find, m) == Gathering(
      g.keybinds + Picked(find.keybinds, m, {KeybindMember}),
      g.options + Picked(find.options, m, {OptionMember}),
      g.hooks + Picked(find.hooks, m, {HookMember}),
      g.commands + Picked(find.commands, m, {CommandMember}),
      g.warned + Picked(find.options, m, {GroupedOptionMember, NestedOptionMember}))
  {
  }

  lemma WantedLast(find: bool, members: seq<ModuleMember>, kinds: set<MemberKind>)
    requires members != []
    ensures Wanted(find, members, kinds)
         == Wanted(find, members[..|members| - 1], kinds) + Picked(find, members[|members| - 1], kinds)
  {
  }

  lemma GatheredNext(members: seq<ModuleMember>, i: nat, find: Finding)
    requires i < |members|
    ensures Gathered(members[..i + 1], find) == VisitMember(Gathered(members[..i], find), find, members[i])
  {
    assert members[..i + 1][..i] == members[..i];
  }

  /** What the search gathers for one field: nothing when the field is already set. */
  function Searched(f: map<Field, FieldValue>, field: Field, members: seq<ModuleMember>, kind: MemberKind)
    : seq<nat>
    requires field in f
  {
    if f[field] == Unset then Collect(members, {kind}) else []
  }

  /** `if find_x and new_x: fields[x] = new_x`, where `new_x` is empty unless `find_x`. */
  function Put(f: map<Field, FieldValue>, field: Field, found: seq<nat>): map<Field, FieldValue> {
    if found != [] then f[field := Objects(found)] else f
  }

  /** The fields the module search may fill. */
  const SearchFields: set<Field> := {Keybinds, Options, Hooks, Commands}

  /**
   * `update_fields_with_module_search`: the keybinds, plain options, hooks and commands among
   * the module's members, each for its field only when that field is unset. Grouped and nested
   * options are never gathered.
   */
  function SearchUpdate(f: map<Field, FieldValue>, members: seq<ModuleMember>): (r: map<Field, FieldValue>)
    requires Total(f)
    ensures Total(r)
    ensures forall k: Field :: f[k] != Unset || k !in SearchFields ==> r[k] == f[k]
    ensures f[Options] == Unset ==>
      r[Options] == if Collect(members, {OptionMember}) == [] then Unset
                    else Objects(Collect(members, {OptionMember}))
  {
    var f1 := Put(f, Keybinds, Searched(f, Keybinds, members, KeybindMember));
    var f2 := Put(f1, Options, Searched(f, Options, members, OptionMember));
    var f3 := Put(f2, Hooks, Searched(f, Hooks, members, HookMember));
    Put(f3, Commands, Searched(f, Commands, members, CommandMember))
  }

  /** The grouped and nested options the search warns about, when it searches for options. */
  function SearchWarnings(f: map<Field, FieldValue>, members: seq<ModuleMember>): seq<nat>
    requires Options in f
  {
    if f[Options] == Unset then Collect(members, {GroupedOptionMember, NestedOptionMember}) else []
  }

  // ---------------------------------------------------------------------------------------
  // The whole merge

  /** The fields `build_mod` ends up with, from its arguments and its inputs. */
  function Merge(args: map<Field, FieldValue>, toml: map<string, Json>, caller: Module,
                 enums: Enums, settingsDir: string): (r: Outcome)
    requires ArgsShape(args)
    ensures r.Ok? ==> Total(r.fields)
  {
    match PyprojectUpdate(args[VersionInfo := Unset], toml, enums)
    case Raises => Raises
    case Ok(f1) => Ok(SearchUpdate(AttributesUpdate(f1, caller, settingsDir), caller.members))
  }

  /** The constructor's keyword arguments: every field that is set and not private. */
  function Kwargs(fields: map<Field, FieldValue>): map<Field, FieldValue> {
    map k | k in fields && fields[k] != Unset && !k.Private() :: fields[k]
  }

  // ---------------------------------------------------------------------------------------
  // Properties of the merge

  lemma SdkmodPairsFacts()
    ensures |SdkmodPairs| == 3
    ensures SdkmodPairs[0] == (Name, "name") && SdkmodPairs[1] == (Version, "version")
    ensures SdkmodPairs[2] == (AutoEnable, "auto_enable")
    ensures Distinct(SdkmodPairs)
    ensures FieldsOf(SdkmodPairs) == {Name, Version, AutoEnable}
  {
    var p := SdkmodPairs;
    DistinctThree(p[0], p[1], p[2]);
    assert [p[0], p[1], p[2]] == p;
  }

  lemma ProjectPairsFacts()
    ensures |ProjectPairs| == 4
    ensures ProjectPairs[0] == (Name, "name") && ProjectPairs[1] == (Version, "version")
    ensures ProjectPairs[2] == (Description, "description") && ProjectPairs[3] == (VersionInfo, "version")
    ensures Distinct(ProjectPairs)
    ensures FieldsOf(ProjectPairs) == {Name, Version, Description, VersionInfo}
  {
    assert ProjectPairs[0].0 == Name && ProjectPairs[1].0 == Version;
    assert ProjectPairs[2].0 == Description && ProjectPairs[3].0 == VersionInfo;
    var p := ProjectPairs;
    DistinctFour(p[0], p[1], p[2], p[3]);
    assert [p[0], p[1], p[2], p[3]] == p;
  }

  /** The value of a table entry for a field: the field's own value if set, else the entry. */
  function FromTable(current: FieldValue, entries: map<string, Json>, key: string): FieldValue {
    if current != Unset then current else if key in entries then Data(entries[key]) else Unset
  }

  /** A fill step that succeeds came after a step that succeeded, and keeps the fields set. */
  lemma ThenFillFrame(o: Outcome, field: Field, got: Fetched)
    requires o.Ok? ==> Total(o.fields)
    ensures ThenFill(o, field, got).Ok? ==>
      && o.Ok?
      && Total(ThenFill(o, field, got).fields)
      && (forall k: Field :: o.fields[k] != Unset ==> ThenFill(o, field, got).fields[k] == o.fields[k])
      && (forall k: Field :: k != field ==> ThenFill(o, field, got).fields[k] == o.fields[k])
  {
  }

  /** A fill step that succeeds leaves every other field as it was. */
  lemma ThenFillKeeps(o: Outcome, field: Field, got: Fetched, k: Field)
    requires o.Ok? ==> Total(o.fields)
    requires k != field && ThenFill(o, field, got).Ok?
    ensures o.Ok? && ThenFill(o, field, got).fields[k] == o.fields[k]
  {
  }

  /** A fill step that succeeds leaves its own field filled from what was fetched. */
  lemma ThenFillSets(o: Outcome, field: Field, got: Fetched)
    requires o.Ok? ==> Total(o.fields)
    requires ThenFill(o, field, got).Ok?
    ensures o.Ok? && ThenFill(o, field, got).fields[field] == Filled(o.fields[field], got)
  {
  }

  /** Fills from a table never raise, and each field named once ends up as `FromTable` says. */
  lemma TablePointwise(f: map<Field, FieldValue>, entries: map<string, Json>, pairs: seq<(Field, string)>)
    requires Total(f)
    requires Distinct(pairs)
    ensures Fill(f, Table(JObj(entries)), pairs).Ok?
    ensures forall j :: 0 <= j < |pairs| ==>
      Fill(f, Table(JObj(entries)), pairs).fields[pairs[j].0] == FromTable(f[pairs[j].0], entries, pairs[j].1)
  {
    var src := Table(JObj(entries));
    FillNoRaise(f, src, pairs);
    FillPointwise(f, src, pairs);
  }

  /** The three enum-valued steps of `tool.sdkmod` leave every other field alone. */
  lemma EnumStepsKeep(o3: Outcome, modType: Fetched, games: Fetched, coop: Fetched)
    requires o3.Ok? ==> Total(o3.fields)
    requires ThenFill(ThenFill(ThenFill(o3, ModType, modType), SupportedGames, games), CoopSupport, coop).Ok?
    ensures o3.Ok?
    ensures forall k: Field :: k !in {ModType, SupportedGames, CoopSupport} ==>
      ThenFill(ThenFill(ThenFill(o3, ModType, modType), SupportedGames, games), CoopSupport, coop)
        .fields[k] == o3.fields[k]
  {
    var o4 := ThenFill(o3, ModType, modType);
    var o5 := ThenFill(o4, SupportedGames, games);
    forall k: Field | k !in {ModType, SupportedGames, CoopSupport}
      ensures ThenFill(o5, CoopSupport, coop).fields[k] == o3.fields[k]
    {
      ThenFillKeeps(o5, CoopSupport, coop, k);
      ThenFillKeeps(o4, SupportedGames, games, k);
      ThenFillKeeps(o3, ModType, modType, k);
    }
  }

  /** The `tool.sdkmod` loop over `name`, `version` and `auto_enable`, on a table. */
  lemma SdkmodFillValues(f: map<Field, FieldValue>, entries: map<string, Json>)
    requires Total(f)
    ensures var o := Fill(f, Table(JObj(entries)), SdkmodPairs);
      && o.Ok?
      && o.fields[Name] == FromTable(f[Name], entries, "name")
      && o.fields[Version] == FromTable(f[Version], entries, "version")
      && o.fields[AutoEnable] == FromTable(f[AutoEnable], entries, "auto_enable")
      && o.fields[Description] == f[Description] && o.fields[VersionInfo] == f[VersionInfo]
  {
    TableThree(f, entries, (Name, "name"), (Version, "version"), (AutoEnable, "auto_enable"));
  }

  /** Three fills from a table, for three different fields. */
  lemma TableThree(f: map<Field, FieldValue>, entries: map<string, Json>,
                   a: (Field, string), b: (Field, string), c: (Field, string))
    requires Total(f) && a.0 != b.0 && a.0 != c.0 && b.0 != c.0
    ensures var o := Fill(f, Table(JObj(entries)), [a, b, c]);
      && o.Ok?
      && o.fields[a.0] == FromTable(f[a.0], entries, a.1)
      && o.fields[b.0] == FromTable(f[b.0], entries, b.1)
      && o.fields[c.0] == FromTable(f[c.0], entries, c.1)
      && forall k: Field :: k != a.0 && k != b.0 && k != c.0 ==> o.fields[k] == f[k]
  {
    var p := [a, b, c];
    DistinctThree(a, b, c);
    TablePointwise(f, entries, p);
    assert p[0] == a && p[1] == b && p[2] == c;
  }

  /** Four fills from a table, for four different fields. */
  lemma TableFour(f: map<Field, FieldValue>, entries: map<string, Json>,
                  a: (Field, string), b: (Field, string), c: (Field, string), d: (Field, string))
    requires Total(f) && a.0 != b.0 && a.0 != c.0 && b.0 != c.0
    requires d.0 != a.0 && d.0 != b.0 && d.0 != c.0
    ensures var o := Fill(f, Table(JObj(entries)), [a, b, c, d]);
      && o.Ok?
      && o.fields[a.0] == FromTable(f[a.0], entries, a.1)
      && o.fields[b.0] == FromTable(f[b.0], entries, b.1)
      && o.fields[c.0] == FromTable(f[c.0], entries, c.1)
      && o.fields[d.0] == FromTable(f[d.0], entries, d.1)
  {
    var p := [a, b, c, d];
    DistinctFour(a, b, c, d);
    TablePointwise(f, entries, p);
    assert p[0] == a && p[1] == b && p[2] == c && p[3] == d;
  }

  /**
   * On a `tool.sdkmod` table, `name`, `version` and `auto_enable` fill the fields still unset;
   * `description` and `_version_info` are left to the `project` table.
   */
  lemma SdkmodPlainValues(f: map<Field, FieldValue>, entries: map<string, Json>, enums: Enums)
    requires Total(f) && SdkmodUpdate(f, JObj(entries), enums).Ok?
    ensures var r := SdkmodUpdate(f, JObj(entries), enums).fields;
      && r[Name] == FromTable(f[Name], entries, "name")
      && r[Version] == FromTable(f[Version], entries, "version")
      && r[AutoEnable] == FromTable(f[AutoEnable], entries, "auto_enable")
      && r[Description] == f[Description] && r[VersionInfo] == f[VersionInfo]
  {
    var src := Table(JObj(entries));
    var modType := GetEnum(JObj(entries), "mod_type", enums.modTypes);
    var games := GetGames(JObj(entries), enums.games);
    var coop := GetEnum(JObj(entries), "coop_support", enums.coopSupports);
    var o3 := Fill(f, src, SdkmodPairs);
    EnumStepsKeep(o3, modType, games, coop);
    SdkmodFillValues(f, entries);
  }

  /** What an enum-valued entry of a table fills into an unset field, when it does not raise. */
  lemma EnumEntryValue(entries: map<string, Json>, key: string, names: set<string>)
    requires !GetEnum(JObj(entries), key, names).FetchRaises?
    ensures Filled(Unset, GetEnum(JObj(entries), key, names))
         == if key in entries && entries[key].JStr? && entries[key].s in names
            then Member(entries[key].s) else Unset
  {
  }

  /** The enum fields of the `tool.sdkmod` step, in terms of what was fetched for them. */
  lemma SdkmodEnumSteps(f: map<Field, FieldValue>, src: Source, modType: Fetched, games: Fetched,
                        coop: Fetched)
    requires Total(f)
    requires ThenFill(ThenFill(ThenFill(Fill(f, src, SdkmodPairs), ModType, modType), SupportedGames, games),
                      CoopSupport, coop).Ok?
    ensures var r := ThenFill(ThenFill(ThenFill(Fill(f, src, SdkmodPairs), ModType, modType),
                                       SupportedGames, games), CoopSupport, coop).fields;
      && r[ModType] == Filled(f[ModType], modType) && r[CoopSupport] == Filled(f[CoopSupport], coop)
      && r[SupportedGames] == Filled(f[SupportedGames], games)
      && (f[ModType] == Unset ==> !modType.FetchRaises?)
      && (f[SupportedGames] == Unset ==> !games.FetchRaises?)
      && (f[CoopSupport] == Unset ==> !coop.FetchRaises?)
  {
    EnumSteps(Fill(f, src, SdkmodPairs), modType, games, coop);
    SdkmodFillKeepsEnums(f, src);
  }

  /** The `tool.sdkmod` loop leaves the enum-valued fields alone. */
  lemma SdkmodFillKeepsEnums(f: map<Field, FieldValue>, src: Source)
    requires Total(f) && Fill(f, src, SdkmodPairs).Ok?
    ensures var r := Fill(f, src, SdkmodPairs).fields;
      r[ModType] == f[ModType] && r[SupportedGames] == f[SupportedGames] && r[CoopSupport] == f[CoopSupport]
  {
    FillThreeFrame(f, src, (Name, "name"), (Version, "version"), (AutoEnable, "auto_enable"));
  }

  /** Three fills leave every field they do not name alone. */
  lemma FillThreeFrame(f: map<Field, FieldValue>, src: Source, a: (Field, string), b: (Field, string),
                       c: (Field, string))
    requires Total(f) && Fill(f, src, [a, b, c]).Ok?
    ensures forall k: Field :: k != a.0 && k != b.0 && k != c.0 ==> Fill(f, src, [a, b, c]).fields[k] == f[k]
  {
    assert FieldsOf([a, b, c]) == {a.0, b.0, c.0};
  }

  /** The three enum-valued steps of `tool.sdkmod`, after whatever came before them. */
  lemma EnumSteps(o3: Outcome, modType: Fetched, games: Fetched, coop: Fetched)
    requires o3.Ok? ==> Total(o3.fields)
    requires ThenFill(ThenFill(ThenFill(o3, ModType, modType), SupportedGames, games), CoopSupport, coop).Ok?
    ensures var r := ThenFill(ThenFill(ThenFill(o3, ModType, modType), SupportedGames, games),
                              CoopSupport, coop).fields;
      && o3.Ok?
      && r[ModType] == Filled(o3.fields[ModType], modType)
      && r[SupportedGames] == Filled(o3.fields[SupportedGames], games)
      && r[CoopSupport] == Filled(o3.fields[CoopSupport], coop)
      && (o3.fields[ModType] == Unset ==> !modType.FetchRaises?)
      && (o3.fields[SupportedGames] == Unset ==> !games.FetchRaises?)
      && (o3.fields[CoopSupport] == Unset ==> !coop.FetchRaises?)
  {
    var o4 := ThenFill(o3, ModType, modType);
    var o5 := ThenFill(o4, SupportedGames, games);
    ThenFillSets(o5, CoopSupport, coop);
    ThenFillKeeps(o5, CoopSupport, coop, ModType);
    ThenFillKeeps(o5, CoopSupport, coop, SupportedGames);
    ThenFillSets(o4, SupportedGames, games);
    ThenFillKeeps(o3, ModType, modType, SupportedGames);
    ThenFillKeeps(o4, SupportedGames, games, ModType);
    ThenFillKeeps(o4, SupportedGames, games, CoopSupport);
    ThenFillSets(o3, ModType, modType);
    ThenFillKeeps(o3, ModType, modType, CoopSupport);
  }

  /**
   * On a `tool.sdkmod` table, an unset `mod_type` or `coop_support` becomes the enum member of
   * exactly the name given, and stays unset when no member has that name.
   */
  lemma SdkmodEnumValues(f: map<Field, FieldValue>, entries: map<string, Json>, enums: Enums)
    requires Total(f) && SdkmodUpdate(f, JObj(entries), enums).Ok?
    ensures var r := SdkmodUpdate(f, JObj(entries), enums).fields;
      && (f[ModType] == Unset ==>
            r[ModType] == if "mod_type" in entries && entries["mod_type"].JStr?
                             && entries["mod_type"].s in enums.modTypes
                          then Member(entries["mod_type"].s) else Unset)
      && (f[CoopSupport] == Unset ==>
            r[CoopSupport] == if "coop_support" in entries && entries["coop_support"].JStr?
                                 && entries["coop_support"].s in enums.coopSupports
                              then Member(entries["coop_support"].s) else Unset)
  {
    var sdkmod := JObj(entries);
    var modType := GetEnum(sdkmod, "mod_type", enums.modTypes);
    var coop := GetEnum(sdkmod, "coop_support", enums.coopSupports);
    SdkmodEnumSteps(f, Table(sdkmod), modType, GetGames(sdkmod, enums.games), coop);
    if f[ModType] == Unset {
      EnumEntryValue(entries, "mod_type", enums.modTypes);
    }
    if f[CoopSupport] == Unset {
      EnumEntryValue(entries, "coop_support", enums.coopSupports);
    }
  }

  /**
   * A `supported_games` list becomes the OR of the flags of the valid game names in it; with
   * no valid name, the field stays unset.
   */
  lemma SupportedGamesValue(f: map<Field, FieldValue>, entries: map<string, Json>, enums: Enums)
    requires Total(f) && f[SupportedGames] == Unset
    requires "supported_games" in entries && entries["supported_games"].JArr?
    requires SdkmodUpdate(f, JObj(entries), enums).Ok?
    ensures var r := SdkmodUpdate(f, JObj(entries), enums).fields[SupportedGames];
      var items := entries["supported_games"].items;
      && (r == Unset <==> forall n :: JStr(n) in items ==> n !in enums.games)
      && (r != Unset ==>
            && r.GameFlags?
            && forall b :: b in r.bits <==> exists n :: JStr(n) in items && n in enums.games && b in enums.games[n])
  {
    var sdkmod := JObj(entries);
    SdkmodEnumSteps(f, Table(sdkmod), GetEnum(sdkmod, "mod_type", enums.modTypes),
      GetGames(sdkmod, enums.games), GetEnum(sdkmod, "coop_support", enums.coopSupports));
    GamesEntryValue(entries["supported_games"].items, entries, enums.games);
  }

  /** What a `supported_games` list fills into an unset field, when it does not raise. */
  lemma GamesEntryValue(items: seq<Json>, entries: map<string, Json>, games: map<string, set<nat>>)
    requires "supported_games" in entries && entries["supported_games"] == JArr(items)
    requires !GetGames(JObj(entries), games).FetchRaises?
    ensures var r := Filled(Unset, GetGames(JObj(entries), games));
      && (r == Unset <==> forall n :: JStr(n) in items ==> n !in games)
      && (r != Unset ==>
            && r.GameFlags?
            && forall b :: b in r.bits <==> exists n :: JStr(n) in items && n in games && b in games[n])
  {
    var names := ValidGames(JArr(items), games);
    assert names.Some?;
    if names.value == {} {
      assert forall n :: JStr(n) in items ==> n !in games;
    } else {
      var n :| n in names.value;
      assert JStr(n) in items && n in games;
    }
  }

  /** On a `project` table, `name`, `version`, `description` and `_version_info` fill the unset fields. */
  lemma ProjectPlainValues(f: map<Field, FieldValue>, entries: map<string, Json>)
    requires Total(f) && ProjectUpdate(f, JObj(entries)).Ok?
    ensures var r := ProjectUpdate(f, JObj(entries)).fields;
      && r[Name] == FromTable(f[Name], entries, "name")
      && r[Version] == FromTable(f[Version], entries, "version")
      && r[Description] == FromTable(f[Description], entries, "description")
      && r[VersionInfo] == FromTable(f[VersionInfo], entries, "version")
  {
    var src := Table(JObj(entries));
    var authors := GetAuthors(JObj(entries));
    var o4 := Fill(f, src, ProjectPairs);
    forall k | k in {Name, Version, Description, VersionInfo}
      ensures ThenFill(o4, Author, authors).fields[k] == o4.fields[k]
    {
      ThenFillKeeps(o4, Author, authors, k);
    }
    TableFour(f, entries, (Name, "name"), (Version, "version"), (Description, "description"),
              (VersionInfo, "version"));
  }

  /** With both tables present, the `tool.sdkmod` step runs and the `project` step follows it. */
  lemma ToolThenProject(f: map<Field, FieldValue>, sdkmod: map<string, Json>,
                        project: map<string, Json>, toml: map<string, Json>, enums: Enums)
    requires Total(f)
    requires "tool" in toml && toml["tool"].JObj? && "sdkmod" in toml["tool"].entries
    requires toml["tool"].entries["sdkmod"] == JObj(sdkmod)
    requires "project" in toml && toml["project"] == JObj(project)
    requires PyprojectUpdate(f, toml, enums).Ok?
    ensures SdkmodUpdate(f, JObj(sdkmod), enums).Ok?
    ensures PyprojectUpdate(f, toml, enums)
         == ProjectUpdate(SdkmodUpdate(f, JObj(sdkmod), enums).fields, JObj(project))
  {
    assert SdkmodSection(toml) == SectionOf(JObj(sdkmod));
  }

  /** The `project` step on fields the `tool.sdkmod` step has already filled. */
  lemma ProjectAfterSdkmod(g: map<Field, FieldValue>, f: map<Field, FieldValue>,
                           sdkmod: map<string, Json>, project: map<string, Json>)
    requires Total(g) && Total(f)
    requires g[Name] == FromTable(f[Name], sdkmod, "name")
    requires g[Version] == FromTable(f[Version], sdkmod, "version")
    requires g[Description] == f[Description] && g[VersionInfo] == f[VersionInfo]
    requires ProjectUpdate(g, JObj(project)).Ok?
    ensures var r := ProjectUpdate(g, JObj(project)).fields;
      && r[Name] == FromTable(FromTable(f[Name], sdkmod, "name"), project, "name")
      && r[Version] == FromTable(FromTable(f[Version], sdkmod, "version"), project, "version")
      && r[VersionInfo] == FromTable(f[VersionInfo], project, "version")
      && r[Description] == FromTable(f[Description], project, "description")
  {
    ProjectPlainValues(g, project);
  }

  /**
   * `tool.sdkmod` is applied before `project`: a name or version it gives wins over the
   * project's, and `_version_info` always comes from the project's version.
   */
  lemma ToolBeforeProject(f: map<Field, FieldValue>, sdkmod: map<string, Json>,
                          project: map<string, Json>, toml: map<string, Json>, enums: Enums)
    requires Total(f)
    requires "tool" in toml && toml["tool"].JObj? && "sdkmod" in toml["tool"].entries
    requires toml["tool"].entries["sdkmod"] == JObj(sdkmod)
    requires "project" in toml && toml["project"] == JObj(project)
    requires PyprojectUpdate(f, toml, enums).Ok?
    ensures var r := PyprojectUpdate(f, toml, enums).fields;
      && r[Name] == FromTable(FromTable(f[Name], sdkmod, "name"), project, "name")
      && r[Version] == FromTable(FromTable(f[Version], sdkmod, "version"), project, "version")
      && r[VersionInfo] == FromTable(f[VersionInfo], project, "version")
      && r[Description] == FromTable(f[Description], project, "description")
  {
    ToolThenProject(f, sdkmod, project, toml, enums);
    SdkmodPlainValues(f, sdkmod, enums);
    ProjectAfterSdkmod(SdkmodUpdate(f, JObj(sdkmod), enums).fields, f, sdkmod, project);
  }

  /**
   * An `authors` list becomes the names of the entries that have one, joined with ", ";
   * when no entry has a name, the empty string.
   */
  lemma AuthorsJoined(f: map<Field, FieldValue>, project: map<string, Json>)
    requires Total(f) && f[Author] == Unset
    requires "authors" in project && project["authors"].JArr?
    requires ProjectUpdate(f, JObj(project)).Ok?
    ensures var items := project["authors"].items;
      && AuthorNames(items).Some?
      && ProjectUpdate(f, JObj(project)).fields[Author]
         == Data(JStr(Join(AuthorNames(items).value, ", ")))
      && ((forall i :: 0 <= i < |items| ==> Lookup(items[i], "name").NoSection?) ==>
            ProjectUpdate(f, JObj(project)).fields[Author] == Data(JStr("")))
  {
    ProjectAuthor(f, JObj(project));
    AuthorsListed(project);
  }

  /** The `authors` step fills `author` last, from what `GetAuthors` reads, and raises only there. */
  lemma ProjectAuthor(f: map<Field, FieldValue>, project: Json)
    requires Total(f) && ProjectUpdate(f, project).Ok?
    ensures ProjectUpdate(f, project).fields[Author] == Filled(f[Author], GetAuthors(project))
    ensures f[Author] == Unset ==> !GetAuthors(project).FetchRaises?
  {
    var o4 := Fill(f, Table(project), ProjectPairs);
    ProjectPairsFacts();
    ThenFillSets(o4, Author, GetAuthors(project));
  }

  /** An `authors` list reads as the joined names, or raises when an entry's name is not a string. */
  lemma AuthorsListed(project: map<string, Json>)
    requires "authors" in project && project["authors"].JArr?
    ensures var names := AuthorNames(project["authors"].items);
      GetAuthors(JObj(project)) == if names.Some? then Got(Data(JStr(Join(names.value, ", ")))) else FetchRaises
  {
  }

  /** Of the field keys, only `_version_info` starts with an underscore. */
  lemma PrivateField(k: Field)
    ensures k.Private() <==> k == VersionInfo
  {
  }

  /**
   * The keyword arguments hold exactly the fields that are set, except `_version_info`, with
   * their values.
   */
  lemma KwargsFields(fields: map<Field, FieldValue>)
    ensures forall k: Field :: k in Kwargs(fields) <==> k in fields && fields[k] != Unset && k != VersionInfo
    ensures forall k <- Kwargs(fields) :: Kwargs(fields)[k] == fields[k]
  {
    forall k: Field ensures k in Kwargs(fields) <==> k in fields && fields[k] != Unset && k != VersionInfo {
      PrivateField(k);
    }
  }

  /** A merge that succeeds is the three steps in order, the first of which succeeded. */
  lemma MergeSteps(args: map<Field, FieldValue>, toml: map<string, Json>, caller: Module,
                   enums: Enums, settingsDir: string)
    requires ArgsShape(args) && Merge(args, toml, caller, enums, settingsDir).Ok?
    ensures PyprojectUpdate(args[VersionInfo := Unset], toml, enums).Ok?
    ensures Merge(args, toml, caller, enums, settingsDir).fields
         == SearchUpdate(AttributesUpdate(PyprojectUpdate(args[VersionInfo := Unset], toml, enums).fields,
                                          caller, settingsDir), caller.members)
  {
  }

  /** The pyproject step leaves the fields it does not name as they were. */
  lemma PyprojectKeeps(f: map<Field, FieldValue>, toml: map<string, Json>, enums: Enums, k: Field)
    requires Total(f) && PyprojectUpdate(f, toml, enums).Ok?
    requires k !in SdkmodFields + ProjectFields
    ensures PyprojectUpdate(f, toml, enums).fields[k] == f[k]
  {
  }

  /** The fields given, and the settings file, are all set once the module attributes are read. */
  lemma SetBeforeSearch(args: map<Field, FieldValue>, toml: map<string, Json>, caller: Module,
                        enums: Enums, settingsDir: string)
    requires ArgsShape(args) && PyprojectUpdate(args[VersionInfo := Unset], toml, enums).Ok?
    ensures var f2 := AttributesUpdate(PyprojectUpdate(args[VersionInfo := Unset], toml, enums).fields,
                                       caller, settingsDir);
      && (forall k <- args.Keys :: args[k] != Unset ==> f2[k] == args[k])
      && f2[SettingsFile] != Unset
      && (args[SettingsFile] == Unset ==> f2[SettingsFile] == DefaultSettingsFile(settingsDir, caller))
  {
    var f0 := args[VersionInfo := Unset];
    PyprojectKeeps(f0, toml, enums, SettingsFile) by {
      assert SettingsFile !in SdkmodFields + ProjectFields;
    }
    var f1 := PyprojectUpdate(f0, toml, enums).fields;
    var f2 := AttributesUpdate(f1, caller, settingsDir);
    forall k <- args.Keys | args[k] != Unset ensures f2[k] == args[k] {
      assert f0[k] == args[k];
    }
  }

  /** Every step keeps a field that is already set. */
  lemma MergeKeepsSet(args: map<Field, FieldValue>, toml: map<string, Json>, caller: Module,
                      enums: Enums, settingsDir: string)
    requires ArgsShape(args) && Merge(args, toml, caller, enums, settingsDir).Ok?
    ensures var r := Merge(args, toml, caller, enums, settingsDir).fields;
      && (forall k <- args.Keys :: args[k] != Unset ==> r[k] == args[k])
      && r[SettingsFile] != Unset
      && (args[SettingsFile] == Unset ==> r[SettingsFile] == DefaultSettingsFile(settingsDir, caller))
  {
    MergeSteps(args, toml, caller, enums, settingsDir);
    SetBeforeSearch(args, toml, caller, enums, settingsDir);
  }

  /**
   * Every argument given to `build_mod` reaches the constructor unchanged, and so does a
   * settings file, which is always set; `_version_info` never does.
   */
  lemma ArgumentsWin(args: map<Field, FieldValue>, toml: map<string, Json>, caller: Module,
                     enums: Enums, settingsDir: string)
    requires ArgsShape(args) && Merge(args, toml, caller, enums, settingsDir).Ok?
    ensures var kwargs := Kwargs(Merge(args, toml, caller, enums, settingsDir).fields);
      && (forall k <- args.Keys :: args[k] != Unset ==> k in kwargs && kwargs[k] == args[k])
      && SettingsFile in kwargs
      && VersionInfo !in kwargs
  {
    var r := Merge(args, toml, caller, enums, settingsDir).fields;
    MergeKeepsSet(args, toml, caller, enums, settingsDir);
    KwargsFields(r);
  }

  /**
   * Searching a module for options that were not given: the plain options among its members,
   * in order (grouped and nested ones excluded), or none when there are none.
   */
  lemma SearchedOptionsOf(f: map<Field, FieldValue>, members: seq<ModuleMember>)
    requires Total(f) && f[Options] == Unset
    ensures var o := SearchUpdate(f, members)[Options];
      && (o == Unset <==> forall m <- members :: m.kind != OptionMember)
      && (o != Unset ==> o == Objects(Collect(members, {OptionMember})))
      && (o != Unset ==> forall x <- o.ids :: exists m <- members :: m.kind == OptionMember && m.id == x)
  {
    var ids := Collect(members, {OptionMember});
    CollectMembers(members, {OptionMember});
    if ids == [] {
      assert forall m <- members :: m.kind != OptionMember;
    } else {
      var x :| x in ids;
      assert exists m <- members :: m.kind == OptionMember && m.id == x;
    }
  }

  /** The module attributes never fill `options`. */
  lemma AttributesKeepOptions(f: map<Field, FieldValue>, caller: Module, settingsDir: string)
    requires Total(f)
    ensures AttributesUpdate(f, caller, settingsDir)[Options] == f[Options]
  {
    assert Options !in AttributeFields;
  }

  /** Options not given are still unset when the module search starts. */
  lemma OptionsUnsetBeforeSearch(f: map<Field, FieldValue>, toml: map<string, Json>, caller: Module,
                                 enums: Enums, settingsDir: string)
    requires Total(f) && f[Options] == Unset
    requires PyprojectUpdate(f, toml, enums).Ok?
    ensures AttributesUpdate(PyprojectUpdate(f, toml, enums).fields, caller, settingsDir)[Options] == Unset
  {
    PyprojectKeeps(f, toml, enums, Options) by {
      assert Options !in SdkmodFields + ProjectFields;
    }
    AttributesKeepOptions(PyprojectUpdate(f, toml, enums).fields, caller, settingsDir);
  }

  /** Without an `options` argument, the options passed on are the ones the module search found. */
  lemma SearchedOptions(args: map<Field, FieldValue>, toml: map<string, Json>, caller: Module,
                        enums: Enums, settingsDir: string)
    requires ArgsShape(args) && args[Options] == Unset
    requires Merge(args, toml, caller, enums, settingsDir).Ok?
    ensures var o := Merge(args, toml, caller, enums, settingsDir).fields[Options];
      && (o == Unset <==> forall m <- caller.members :: m.kind != OptionMember)
      && (o != Unset ==> o == Objects(Collect(caller.members, {OptionMember})))
      && (o != Unset ==> forall x <- o.ids :: exists m <- caller.members :: m.kind == OptionMember && m.id == x)
  {
    MergeSteps(args, toml, caller, enums, settingsDir);
    OptionsUnsetBeforeSearch(args[VersionInfo := Unset], toml, caller, enums, settingsDir);
    SearchedOptionsOf(AttributesUpdate(PyprojectUpdate(args[VersionInfo := Unset], toml, enums).fields,
                                       caller, settingsDir), caller.members);
  }

  // ---------------------------------------------------------------------------------------
  // The fields record

  /** The `ModFactoryFields` dict, which every step updates in place. */
  class FactoryFields {
    var fields: map<Field, FieldValue>
    /** The grouped and nested options the module search warned about, in order. */
    ghost var warnings: seq<nat>

    ghost predicate Valid()
      reads this
    {
      Total(fields)
    }

    /** The dict `build_mod` starts from: its arguments, and no `_version_info`. */
    constructor (args: map<Field, FieldValue>)
      requires ArgsShape(args)
      ensures Valid() && fields == args[VersionInfo := Unset] && warnings == []
    {
      fields := args[VersionInfo := Unset];
      warnings := [];
    }

    method FillField(field: Field, got: Fetched) returns (raised: bool)
      requires Valid()
      modifies this
      ensures Valid() && warnings == old(warnings)
      ensures raised <==> FillOne(old(fields), field, got).Raises?
      ensures !raised ==> Ok(fields) == FillOne(old(fields), field, got)
    {
      raised := false;
      if fields[field] == Unset {
        match got {
          case Missing =>
          case Got(v) => fields := fields[field := v];
          case FetchRaises => raised := true;
        }
      }
    }

    /** The loop over (field, key) pairs shared by the pyproject and module-attribute steps. */
    method FillFields(src: Source, pairs: seq<(Field, string)>) returns (raised: bool)
      requires Valid()
      modifies this
      ensures Valid() && warnings == old(warnings)
      ensures raised <==> Fill(old(fields), src, pairs).Raises?
      ensures !raised ==> Ok(fields) == Fill(old(fields), src, pairs)
    {
      raised := false;
      var i := 0;
      while i < |pairs|
        invariant 0 <= i <= |pairs|
        invariant Valid() && warnings == old(warnings)
        invariant Fill(old(fields), src, pairs[..i]) == Ok(fields)
      {
        FillStep(old(fields), src, pairs, i);
        raised := FillField(pairs[i].0, Get(src, pairs[i].1));
        if raised {
          FillRaisesLater(old(fields), src, pairs, i + 1);
          return;
        }
        i := i + 1;
      }
      assert pairs[..i] == pairs;
    }

    /** `update_fields_with_pyproject_tool_sdkmod`. */
    method ApplyToolSdkmod(sdkmod: Json, enums: Enums) returns (raised: bool)
      requires Valid()
      modifies this
      ensures Valid() && warnings == old(warnings)
      ensures raised <==> SdkmodUpdate(old(fields), sdkmod, enums).Raises?
      ensures !raised ==> Ok(fields) == SdkmodUpdate(old(fields), sdkmod, enums)
    {
      raised := FillFields(Table(sdkmod), SdkmodPairs);
      if raised { return; }
      raised := FillField(ModType, GetEnum(sdkmod, "mod_type", enums.modTypes));
      if raised { return; }
      raised := FillField(SupportedGames, GetGames(sdkmod, enums.games));
      if raised { return; }
      raised := FillField(CoopSupport, GetEnum(sdkmod, "coop_support", enums.coopSupports));
    }

    /** `update_fields_with_pyproject_project`. */
    method ApplyProject(project: Json) returns (raised: bool)
      requires Valid()
      modifies this
      ensures Valid() && warnings == old(warnings)
      ensures raised <==> ProjectUpdate(old(fields), project).Raises?
      ensures !raised ==> Ok(fields) == ProjectUpdate(old(fields), project)
    {
      raised := FillFields(Table(project), ProjectPairs);
      if raised { return; }
      raised := FillField(Author, GetAuthors(project));
    }

    /** `update_fields_with_pyproject`, on the parsed `pyproject.toml`. */
    method ApplyPyproject(toml: map<string, Json>, enums: Enums) returns (raised: bool)
      requires Valid()
      modifies this
      ensures Valid() && warnings == old(warnings)
      ensures raised <==> PyprojectUpdate(old(fields), toml, enums).Raises?
      ensures !raised ==> Ok(fields) == PyprojectUpdate(old(fields), toml, enums)
    {
      raised := false;
      if "tool" in toml {
        var sdkmod := Lookup(toml["tool"], "sdkmod");
        if sdkmod.LookupRaises? {
          return true;
        }
        if sdkmod.SectionOf? {
          raised := ApplyToolSdkmod(sdkmod.json, enums);
          if raised { return; }
        }
      }
      if "project" in toml {
        raised := ApplyProject(toml["project"]);
      }
    }

    /** The `__name__` step of the attribute loop. */
    method FillName(caller: Module)
      requires Valid()
      modifies this
      ensures Valid() && warnings == old(warnings)
      ensures fields == NameFill(old(fields), caller)
    {
      if fields[Name] == Unset {
        fields := fields[Name := Data(JStr(caller.name))];
      }
    }

    /** `if fields["settings_file"] is None: fields["settings_file"] = default`. */
    method DefaultSettingsFileTo(default: FieldValue)
      requires Valid() && default != Unset
      modifies this
      ensures Valid() && warnings == old(warnings)
      ensures fields == DefaultSettings(old(fields), default)
    {
      if fields[SettingsFile] == Unset {
        fields := fields[SettingsFile := default];
      }
    }

    /** `update_fields_with_module_attributes`. */
    method ApplyModuleAttributes(caller: Module, settingsDir: string)
      requires Valid()
      modifies this
      ensures Valid() && warnings == old(warnings)
      ensures fields == AttributesUpdate(old(fields), caller, settingsDir)
    {
      FillName(caller);
      var raised := FillFields(Attributes(caller), AttributePairs);
      AttributesLoop(old(fields), caller);
      if raised {
        assert false;
      }
      DefaultSettingsFileTo(DefaultSettingsFile(settingsDir, caller));
    }

    /** `update_fields_with_module_search`. */
    method ApplyModuleSearch(caller: Module)
      requires Valid()
      modifies this
      ensures Valid()
      ensures fields == SearchUpdate(old(fields), caller.members)
      ensures warnings == old(warnings) + SearchWarnings(old(fields), caller.members)
    {
      var findKeybinds := fields[Keybinds] == Unset;
      var findOptions := fields[Options] == Unset;
      var findHooks := fields[Hooks] == Unset;
      var findCommands := fields[Commands] == Unset;
      ghost var warned := SearchWarnings(fields, caller.members);
      if !(findKeybinds || findOptions || findHooks || findCommands) {
        assert warned == [];
        assert warnings + warned == warnings;
        return;
      }
      var members := caller.members;
      var newKeybinds, newOptions, newHooks, newCommands :=
        Gather(members, Finding(findKeybinds, findOptions, findHooks, findCommands));
      assert warnings == old(warnings) + warned;
      Store(Keybinds, findKeybinds, newKeybinds);
      Store(Options, findOptions, newOptions);
      Store(Hooks, findHooks, newHooks);
      Store(Commands, findCommands, newCommands);
    }

    /**
     * `if find_x and new_x: fields[x] = new_x` for one field, where `new_x` holds what the
     * search gathered for it, nothing unless `find_x`.
     */
    method Store(field: Field, find: bool, found: seq<nat>)
      requires Valid() && (!find ==> found == [])
      modifies this
      ensures Valid() && warnings == old(warnings)
      ensures fields == Put(old(fields), field, found)
    {
      if find && found != [] {
        fields := fields[field := Objects(found)];
      }
    }

    /** The search's loop over the module's members, for the fields being searched for. */
    method Gather(members: seq<ModuleMember>, find: Finding)
      returns (newKeybinds: seq<nat>, newOptions: seq<nat>, newHooks: seq<nat>, newCommands: seq<nat>)
      modifies this
      ensures fields == old(fields)
      ensures newKeybinds == Wanted(find.keybinds, members, {KeybindMember})
      ensures newOptions == Wanted(find.options, members, {OptionMember})
      ensures newHooks == Wanted(find.hooks, members, {HookMember})
      ensures newCommands == Wanted(find.commands, members, {CommandMember})
      ensures warnings == old(warnings) + Wanted(find.options, members, {GroupedOptionMember, NestedOptionMember})
    {
      newKeybinds, newOptions, newHooks, newCommands := [], [], [], [];
      var i := 0;
      while i < |members|
        invariant 0 <= i <= |members|
        invariant fields == old(fields)
        invariant var g := Gathered(members[..i], find);
          && newKeybinds == g.keybinds && newOptions == g.options
          && newHooks == g.hooks && newCommands == g.commands
          && warnings == old(warnings) + g.warned
      {
        GatheredNext(members, i, find);
        var m := members[i];
        match m.kind {
          case KeybindMember =>
            if find.keybinds { newKeybinds := newKeybinds + [m.id]; }
          case GroupedOptionMember =>
            if find.options { warnings := warnings + [m.id]; }
          case NestedOptionMember =>
            if find.options { warnings := warnings + [m.id]; }
          case OptionMember =>
            if find.options { newOptions := newOptions + [m.id]; }
          case HookMember =>
            if find.hooks { newHooks := newHooks + [m.id]; }
          case CommandMember =>
            if find.commands { newCommands := newCommands + [m.id]; }
          case OtherMember =>
        }
        i := i + 1;
      }
      assert members[..i] == members;
      GatheredCollects(members, find);
    }
  }

  // ---------------------------------------------------------------------------------------
  // The mod list

  /**
   * Whether a mod's settings file is `path` as `Path.__eq__` decides it: by the normalised text
   * of the two paths. `norm` is that normalisation (separators and redundant parts resolved,
   * and the case folded on Windows), which belongs to the platform. A mod with no settings file
   * uses none.
   */
  predicate SameFile(norm: string -> string, file: Option<string>, path: string) {
    file.Some? && norm(file.value) == norm(path)
  }

  /** The mods in `mods` whose settings file is not `path`, in order. */
  function OtherFiles(mods: seq<Settings.Mod>, path: string, norm: string -> string): (r: seq<Settings.Mod>)
    ensures forall m <- r :: m in mods && !SameFile(norm, m.settingsFile, path)
    ensures forall m <- mods :: !SameFile(norm, m.settingsFile, path) ==> m in r
  {
    if mods == [] then []
    else
      (if !SameFile(norm, mods[0].settingsFile, path) then [mods[0]] else [])
        + OtherFiles(mods[1..], path, norm)
  }

  /** The mods in `mods` whose settings file is `path`, in order. */
  function UsingFile(mods: seq<Settings.Mod>, path: string, norm: string -> string): (r: seq<Settings.Mod>)
    ensures forall m <- r :: m in mods && SameFile(norm, m.settingsFile, path)
    ensures forall m <- mods :: SameFile(norm, m.settingsFile, path) ==> m in r
  {
    if mods == [] then []
    else
      (if SameFile(norm, mods[0].settingsFile, path) then [mods[0]] else [])
        + UsingFile(mods[1..], path, norm)
  }

  /** The two filters split the list: every mod lands in exactly one of them, as often as it occurs. */
  lemma {:induction false} FilesPartition(mods: seq<Settings.Mod>, path: string, norm: string -> string)
    ensures multiset(OtherFiles(mods, path, norm)) + multiset(UsingFile(mods, path, norm)) == multiset(mods)
  {
    if mods != [] {
      FilesPartition(mods[1..], path, norm);
      assert mods == [mods[0]] + mods[1..];
    }
  }

  /** Filtering a concatenation filters each part: the mods left keep the list's order. */
  lemma {:induction false} OtherFilesAppend(a: seq<Settings.Mod>, b: seq<Settings.Mod>, path: string,
                                            norm: string -> string)
    ensures OtherFiles(a + b, path, norm) == OtherFiles(a, path, norm) + OtherFiles(b, path, norm)
  {
    if a == [] {
      assert a + b == b;
    } else {
      var head := if !SameFile(norm, a[0].settingsFile, path) then [a[0]] else [];
      assert (a + b)[0] == a[0] && (a + b)[1..] == a[1..] + b;
      assert OtherFiles(a + b, path, norm) == head + OtherFiles(a[1..] + b, path, norm);
      OtherFilesAppend(a[1..], b, path, norm);
    }
  }

  /** Filtering a concatenation filters each part: the mods removed keep the list's order. */
  lemma {:induction false} UsingFileAppend(a: seq<Settings.Mod>, b: seq<Settings.Mod>, path: string,
                                           norm: string -> string)
    ensures UsingFile(a + b, path, norm) == UsingFile(a, path, norm) + UsingFile(b, path, norm)
  {
    if a == [] {
      assert a + b == b;
    } else {
      var head := if SameFile(norm, a[0].settingsFile, path) then [a[0]] else [];
      assert (a + b)[0] == a[0] && (a + b)[1..] == a[1..] + b;
      assert UsingFile(a + b, path, norm) == head + UsingFile(a[1..] + b, path, norm);
      UsingFileAppend(a[1..], b, path, norm);
    }
  }

  /** `mods` without the ones in `removed`. */
  function Without(mods: seq<Settings.Mod>, removed: seq<Settings.Mod>): seq<Settings.Mod> {
    if mods == [] then []
    else (if mods[0] in removed then [] else [mods[0]]) + Without(mods[1..], removed)
  }

  lemma {:induction false} WithoutNothing(mods: seq<Settings.Mod>)
    ensures Without(mods, []) == mods
  {
    if mods != [] {
      WithoutNothing(mods[1..]);
    }
  }

  lemma {:induction false} WithoutOneMore(mods: seq<Settings.Mod>, removed: seq<Settings.Mod>, m: Settings.Mod)
    ensures Without(Without(mods, removed), [m]) == Without(mods, removed + [m])
  {
    if mods != [] {
      WithoutOneMore(mods[1..], removed, m);
      var head := if mods[0] in removed then [] else [mods[0]];
      assert Without(mods, removed) == head + Without(mods[1..], removed);
      WithoutAppend(head, Without(mods[1..], removed), [m]);
    }
  }

  lemma {:induction false} WithoutAppend(a: seq<Settings.Mod>, b: seq<Settings.Mod>, removed: seq<Settings.Mod>)
    ensures Without(a + b, removed) == Without(a, removed) + Without(b, removed)
  {
    if a == [] {
      assert a + b == b;
    } else {
      assert (a + b)[1..] == a[1..] + b;
      WithoutAppend(a[1..], b, removed);
    }
  }

  lemma {:induction false} WithoutUsingFile(mods: seq<Settings.Mod>, all: seq<Settings.Mod>, path: string,
                                           norm: string -> string)
    requires forall m <- mods :: m in all
    ensures Without(mods, UsingFile(all, path, norm)) == OtherFiles(mods, path, norm)
  {
    if mods != [] {
      WithoutUsingFile(mods[1..], all, path, norm);
    }
  }

  /** The registered mods (`mod_list`). */
  class ModList {
    var mods: seq<Settings.Mod>
    /** The mods handed to `deregister_mod`, in order. */
    ghost var deregistered: seq<Settings.Mod>

    constructor (mods: seq<Settings.Mod>)
      ensures this.mods == mods && deregistered == []
    {
      this.mods := mods;
      deregistered := [];
    }

    /** `deregister_mod`, taken to remove the mod from the list. */
    method Deregister(mod: Settings.Mod)
      modifies this
      ensures mods == Without(old(mods), [mod])
      ensures deregistered == old(deregistered) + [mod]
    {
      mods := Without(mods, [mod]);
      deregistered := deregistered + [mod];
    }

    /**
     * `deregister_using_settings_file`: exactly the mods using that file, as `norm` compares
     * paths, leave the list.
     */
    method DeregisterUsingSettingsFile(path: string, norm: string -> string)
      modifies this
      ensures mods == OtherFiles(old(mods), path, norm)
      ensures deregistered == old(deregistered) + UsingFile(old(mods), path, norm)
    {
      var toRemove := UsingFile(mods, path, norm);
      WithoutNothing(mods);
      var i := 0;
      while i < |toRemove|
        invariant 0 <= i <= |toRemove|
        invariant mods == Without(old(mods), toRemove[..i])
        invariant deregistered == old(deregistered) + toRemove[..i]
      {
        WithoutOneMore(old(mods), toRemove[..i], toRemove[i]);
        assert toRemove[..i + 1] == toRemove[..i] + [toRemove[i]];
        Deregister(toRemove[i]);
        i := i + 1;
      }
      assert toRemove[..i] == toRemove;
      WithoutUsingFile(old(mods), old(mods), path, norm);
    }
  }

  /**
   * Whether the version injection of `build_mod` raises. `version_info_parser` runs only when
   * injection is asked for, the module has no `__version_info__` yet and the pyproject step
   * found a `project.version`; `parserRaises` says on which values it raises (the default
   * parser, `tuple(int(x) for x in v.split("."))`, raises on "1.0b1"). Setting `__version__`
   * cannot raise.
   */
  predicate InjectionRaises(fields: map<Field, FieldValue>, caller: Module, injectVersion: bool,
                            parserRaises: FieldValue -> bool)
    requires Total(fields)
  {
    injectVersion && "__version_info__" !in caller.attrs && fields[VersionInfo] != Unset
    && parserRaises(fields[VersionInfo])
  }

  /**
   * `build_mod` up to the constructor call: the merged fields, the version injection, the
   * deregistration of the mods that use the same settings file (as `norm` compares paths), and
   * the keyword arguments. None is an exception, from the pyproject step or from the parser.
   */
  method BuildKwargs(args: map<Field, FieldValue>, toml: map<string, Json>, caller: Module,
                     enums: Enums, settingsDir: string, injectVersion: bool,
                     parserRaises: FieldValue -> bool, deregisterSameSettings: bool,
                     norm: string -> string, modList: ModList)
    returns (kwargs: Option<map<Field, FieldValue>>)
    requires ArgsShape(args)
    modifies modList
    ensures var p := PyprojectUpdate(args[VersionInfo := Unset], toml, enums);
      var raises := p.Raises? || InjectionRaises(p.fields, caller, injectVersion, parserRaises);
      var r := Merge(args, toml, caller, enums, settingsDir);
      && (kwargs.None? <==> raises)
      && (!raises ==> r.Ok? && kwargs == Some(Kwargs(r.fields)))
      && modList.mods
         == if !raises && deregisterSameSettings && r.fields[SettingsFile].PathValue?
            then OtherFiles(old(modList.mods), r.fields[SettingsFile].path, norm)
            else old(modList.mods)
  {
    var fs := new FactoryFields(args);
    var raised := fs.ApplyPyproject(toml, enums);
    if raised {
      return None;
    }
    // Writing `__version__` and `__version_info__` into the module changes no field.
    if InjectionRaises(fs.fields, caller, injectVersion, parserRaises) {
      return None;
    }
    fs.ApplyModuleAttributes(caller, settingsDir);
    fs.ApplyModuleSearch(caller);
    var settingsFile := fs.fields[SettingsFile];
    // A settings file that is not a path equals no mod's.
    if deregisterSameSettings && settingsFile.PathValue? {
      modList.DeregisterUsingSettingsFile(settingsFile.path, norm);
    }
    kwargs := Some(Kwargs(fs.fields));
  }
}
