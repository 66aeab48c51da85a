/**
 * The viper-backed configuration: options folded into the config in order, the list of
 * configuration files, and the getters, which look keys up under the root key. Loading
 * and watching the files is not modelled: the settings viper delivered first are a value
 * `Data` from full dotted key to value.
 */
module Viper {
  import opened Wrappers
  import Strings

  /** A setting as viper holds it. */
  datatype Value = StrValue(s: string) | IntValue(i: int) | BoolValue(b: bool) | FloatValue(f: real)

  type Data = map<string, Value>

  /** A configuration option (`Option` in the source). `WithKVVersion2` is `WithPrefix("data")`. */
  datatype ConfigOption = WithPrefix(prefix: string) | WithAdditionalPath(paths: seq<string>) | WithFormat(fileFormat: string)

  function WithKVVersion2(): ConfigOption
  {
    WithPrefix("data")
  }

  /** The part of a `Config` the options set. */
  datatype Settings = Settings(additionalPath: seq<string>, rootKey: string, format: string)

  /**
   * One option: a non-empty prefix is appended to the root key with a dot, and a non-empty
   * path list or format replaces the current one; empty arguments change nothing.
   */
  function ApplyOption(s: Settings, o: ConfigOption): Settings
  {
    match o
    case WithPrefix(k) => if k != "" then s.(rootKey := s.rootKey + k + ".") else s
    case WithAdditionalPath(ps) => if |ps| > 0 then s.(additionalPath := ps) else s
    case WithFormat(f) => if f != "" then s.(format := f) else s
  }

  /** The options applied in order. */
  function ApplyAll(s: Settings, options: seq<ConfigOption>): Settings
  {
    if options == [] then s else ApplyOption(ApplyAll(s, options[..|options| - 1]), options[|options| - 1])
  }

  /** What one option adds to the root key. */
  function PrefixPiece(o: ConfigOption): string
  {
    if o.WithPrefix? && o.prefix != "" then o.prefix + "." else ""
  }

  /** The root key a list of options builds: every non-empty prefix followed by a dot, in order. */
  function RootKeyOf(options: seq<ConfigOption>): string
  {
    if options == [] then "" else PrefixPiece(options[0]) + RootKeyOf(options[1..])
  }

  /** `combineAllPath`'s result: the lists one after another. */
  function Flatten(lists: seq<seq<string>>): seq<string>
  {
    if lists == [] then [] else Flatten(lists[..|lists| - 1]) + lists[|lists| - 1]
  }

  /** `combineAllPath`. */
  method CombineAllPath(listPath: seq<seq<string>>) returns (allPath: seq<string>)
    ensures allPath == Flatten(listPath)
  {
    allPath := [];
    var i := 0;
    while i < |listPath|
      invariant 0 <= i <= |listPath|
      invariant allPath == Flatten(listPath[..i])
    {
      assert listPath[..i + 1][..i] == listPath[..i];
      allPath := allPath + listPath[i];
      i := i + 1;
    }
    assert listPath[..i] == listPath;
  }

  /** Login credentials read from the configuration. */
  datatype Credentials = Credentials(user: string, password: string)

  /** The element list of a map setting, split at its first ':'; an element without ':' is skipped. */
  function MapOf(elements: seq<string>): map<string, string>
  {
    if elements == [] then map[]
    else
      var m := MapOf(elements[..|elements| - 1]);
      var kv := Strings.Cut(elements[|elements| - 1], ':');
      if kv.found then m[kv.before := kv.after] else m
  }

  class Config {
    var data: Data
    var additionalPath: seq<string>
    var rootKey: string
    var format: string

    function Current(): Settings
      reads this
    {
      Settings(additionalPath, rootKey, format)
    }

    /** A config with no options applied, over the settings delivered first. */
    constructor (loaded: Data)
      ensures data == loaded && Current() == Settings([], "", "")
    {
      data := loaded;
      additionalPath, rootKey, format := [], "", "";
    }

    /** Run one option on this config. */
    method Apply(o: ConfigOption)
      modifies this
      ensures Current() == ApplyOption(old(Current()), o) && data == old(data)
    {
      match o
      case WithPrefix(k) =>
        if k != "" {
          rootKey := rootKey + k + ".";
        }
      case WithAdditionalPath(ps) =>
        if |ps| > 0 {
          additionalPath := ps;
        }
      case WithFormat(f) =>
        if f != "" {
          format := f;
        }
    }

    /** `Get`: the setting under the root key, if there is one. */
    function Get(key: string): (v: Option<Value>)
      reads this
      ensures v.Some? <==> rootKey + key in data
      ensures v.Some? ==> v.value == data[rootKey + key]
    {
      if rootKey + key in data then Some(data[rootKey + key]) else None
    }

    /** `GetString`: a string setting, or "" when the key is missing. */
    function GetString(key: string): (s: string)
      reads this
      ensures rootKey + key in data && data[rootKey + key].StrValue? ==> s == data[rootKey + key].s
      ensures rootKey + key !in data ==> s == ""
    {
      if rootKey + key in data && data[rootKey + key].StrValue? then data[rootKey + key].s else ""
    }

    /** `GetInt`: an integer setting, or 0 when the key is missing. */
    function GetInt(key: string): (i: int)
      reads this
      ensures rootKey + key in data && data[rootKey + key].IntValue? ==> i == data[rootKey + key].i
      ensures rootKey + key !in data ==> i == 0
    {
      if rootKey + key in data && data[rootKey + key].IntValue? then data[rootKey + key].i else 0
    }

    /** `GetBool`: a boolean setting, or false when the key is missing. */
    function GetBool(key: string): (b: bool)
      reads this
      ensures rootKey + key in data && data[rootKey + key].BoolValue? ==> b == data[rootKey + key].b
      ensures rootKey + key !in data ==> !b
    {
      rootKey + key in data && data[rootKey + key].BoolValue? && data[rootKey + key].b
    }

    /** `GetFloat`: a floating-point setting, or 0 when the key is missing. */
    function GetFloat(key: string): (f: real)
      reads this
      ensures rootKey + key in data && data[rootKey + key].FloatValue? ==> f == data[rootKey + key].f
      ensures rootKey + key !in data ==> f == 0.0
    {
      if rootKey + key in data && data[rootKey + key].FloatValue? then data[rootKey + key].f else 0.0
    }

    /** `GetArray`: nothing for an empty value, otherwise every ','-separated piece, untrimmed. */
    function GetArray(key: string): (parts: seq<string>)
      reads this
      ensures GetString(key) == "" <==> parts == []
      ensures parts != [] ==> Strings.Join(parts, ",") == GetString(key)
      ensures parts != [] ==> |parts| == Strings.Count(',', GetString(key)) + 1
      ensures forall i :: 0 <= i < |parts| ==> ',' !in parts[i]
    {
      var value := GetString(key);
      if value == "" then []
      else
        Strings.JoinSplit(value, ',');
        Strings.Split(value, ',')
    }

    /**
     * `GetMap`: the ','-separated elements of the string under `rootKey + key`, each split at
     * its first ':'. The lookup goes through `GetString`, which adds the root key again.
     */
    method GetMap(key: string) returns (maps: map<string, string>)
      ensures maps == MapOf(Strings.Split(GetString(rootKey + key), ','))
    {
      var str := GetString(rootKey + key);
      var arr := Strings.Split(str, ',');
      maps := map[];
      var i := 0;
      while i < |arr|
        invariant 0 <= i <= |arr|
        invariant maps == MapOf(arr[..i])
      {
        assert arr[..i + 1][..i] == arr[..i];
        var kv := Strings.Cut(arr[i], ':');
        if kv.found {
          maps := maps[kv.before := kv.after];
        }
        i := i + 1;
      }
      assert arr[..i] == arr;
    }

    /** `GetCredentials(key)`: the strings under "key.user" and "key.password". */
    function GetCredentials(key: string): (c: Credentials)
      reads this
      ensures c.user == GetString(key + ".user") && c.password == GetString(key + ".password")
    {
      Credentials(GetString(key + ".user"), GetString(key + ".password"))
    }
  }

  /**
   * `NewConfig`: a config with the options applied in order, and the files it loads: the
   * given path followed by the additional paths.
   */
  method NewConfig(pathFile: string, options: seq<ConfigOption>, loaded: Data) returns (c: Config, allPath: seq<string>)
    ensures fresh(c) && c.data == loaded
    ensures c.Current() == ApplyAll(Settings([], "", ""), options)
    ensures allPath == [pathFile] + c.additionalPath
  {
    c := new Config(loaded);
    var i := 0;
    while i < |options|
      invariant 0 <= i <= |options|
      invariant c.Current() == ApplyAll(Settings([], "", ""), options[..i]) && c.data == loaded
    {
      assert options[..i + 1][..i] == options[..i];
      c.Apply(options[i]);
      i := i + 1;
    }
    assert options[..i] == options;
    allPath := [pathFile];
    if |c.additionalPath| > 0 {
      allPath := CombineAllPath([allPath, c.additionalPath]);
      FlattenTwo([pathFile], c.additionalPath);
    }
  }

  // ------------------------------------------------------------------ properties

  lemma {:induction false} RootKeyOfAppend(options: seq<ConfigOption>, o: ConfigOption)
    ensures RootKeyOf(options + [o]) == RootKeyOf(options) + PrefixPiece(o)
    decreases |options|
  {
    if options == [] {
      assert [o][1..] == [];
    } else {
      assert (options + [o])[1..] == options[1..] + [o];
      RootKeyOfAppend(options[1..], o);
    }
  }

  /** One option extends the root key by its piece. */
  lemma ApplyOptionRootKey(s: Settings, o: ConfigOption)
    ensures ApplyOption(s, o).rootKey == s.rootKey + PrefixPiece(o)
  {
    if o.WithPrefix? && o.prefix != "" {
      assert s.rootKey + o.prefix + "." == s.rootKey + (o.prefix + ".");
    }
  }

  /** The root key accumulates: each non-empty prefix and a dot, in the order of the options. */
  lemma {:induction false} RootKeyAccumulates(s: Settings, options: seq<ConfigOption>)
    ensures ApplyAll(s, options).rootKey == s.rootKey + RootKeyOf(options)
    decreases |options|
  {
    if options != [] {
      var init, o := options[..|options| - 1], options[|options| - 1];
      assert options == init + [o];
      var before := ApplyAll(s, init);
      assert ApplyAll(s, options) == ApplyOption(before, o);
      RootKeyAccumulates(s, init);
      ApplyOptionRootKey(before, o);
      RootKeyOfAppend(init, o);
      assert s.rootKey + RootKeyOf(init) + PrefixPiece(o) == s.rootKey + (RootKeyOf(init) + PrefixPiece(o));
    }
  }

  /** `WithKVVersion2` adds "data." to the root key, whatever was there. */
  lemma KVVersion2Prefix(options: seq<ConfigOption>)
    ensures ApplyAll(Settings([], "", ""), options + [WithKVVersion2()]).rootKey
         == RootKeyOf(options) + "data."
  {
    RootKeyAccumulates(Settings([], "", ""), options + [WithKVVersion2()]);
    RootKeyOfAppend(options, WithKVVersion2());
  }

  /** Options with empty arguments leave the settings as they were. */
  lemma EmptyOptionsChangeNothing(s: Settings)
    ensures ApplyOption(s, WithPrefix("")) == s
    ensures ApplyOption(s, WithAdditionalPath([])) == s
    ensures ApplyOption(s, WithFormat("")) == s
  {
  }

  /** The flattened list holds every list's entries, in order, and nothing else. */
  lemma {:induction false} FlattenTwo(a: seq<string>, b: seq<string>)
    ensures Flatten([a, b]) == a + b
  {
    assert [a, b][..1] == [a];
    assert [a][..0] == [];
    assert Flatten([a]) == a;
  }

  /** An element "k:v" maps `k` to everything after the first ':', which may itself contain ':'. */
  lemma MapElementSplitsAtFirstColon(k: string, v: string)
    requires ':' !in k
    ensures MapOf([k + ":" + v]) == map[k := v]
  {
    Strings.CutAtFirst(k, ':', v);
    assert k + ":" + v == k + [':'] + v;
    assert [k + ":" + v][..0] == [];
  }

  /** A later element with the same key overwrites an earlier one. */
  lemma MapLaterWins(elements: seq<string>, k: string, v: string)
    requires ':' !in k
    ensures MapOf(elements + [k + ":" + v]) == MapOf(elements)[k := v]
  {
    var e := k + ":" + v;
    assert e == k + [':'] + v;
    Strings.CutAtFirst(k, ':', v);
    assert Strings.Cut(e, ':') == Strings.CutResult(k, v, true);
    assert (elements + [e])[..|elements|] == elements;
  }

  /** An element without ':' adds nothing. */
  lemma MapSkipsWithoutColon(elements: seq<string>, e: string)
    requires ':' !in e
    ensures MapOf(elements + [e]) == MapOf(elements)
  {
    assert (elements + [e])[..|elements|] == elements;
  }

  /** An empty setting gives an empty map: its one element has no ':'. */
  lemma EmptyMap()
    ensures MapOf(Strings.Split("", ',')) == map[]
  {
    Strings.SplitNoSep("", ',');
    assert [""][..0] == [];
  }

  /** `GetMap` reads the string stored under the root key twice, then the key; an absent one gives an empty map. */
  lemma MapUnderDoubleRootKey(c: Config, key: string)
    ensures var full := c.rootKey + c.rootKey + key;
      && (full in c.data && c.data[full].StrValue? ==>
            MapOf(Strings.Split(c.GetString(c.rootKey + key), ',')) == MapOf(Strings.Split(c.data[full].s, ',')))
      && (full !in c.data ==> MapOf(Strings.Split(c.GetString(c.rootKey + key), ',')) == map[])
  {
    assert c.rootKey + (c.rootKey + key) == c.rootKey + c.rootKey + key;
    EmptyMap();
  }

  /** Element `e` names key `k`: it has a ':' and `k` is what comes before the first one. */
  predicate NamesKey(e: string, k: string)
  {
    var kv := Strings.Cut(e, ':');
    kv.found && kv.before == k
  }

  /** The last element adds its key, if it names one, to the keys of the rest. */
  lemma MapKeyOfLast(elements: seq<string>, k: string)
    requires elements != []
    ensures k in MapOf(elements) <==> k in MapOf(elements[..|elements| - 1]) || NamesKey(elements[|elements| - 1], k)
  {
  }

  /** An element naming `k` puts `k` in the map, whatever comes after it. */
  lemma {:induction false} MapKeyNamed(elements: seq<string>, k: string, i: int)
    requires 0 <= i < |elements| && NamesKey(elements[i], k)
    ensures k in MapOf(elements)
    decreases |elements|
  {
    var n := |elements| - 1;
    MapKeyOfLast(elements, k);
    if i < n {
      assert elements[..n][i] == elements[i];
      MapKeyNamed(elements[..n], k, i);
    }
  }

  /** A key in the map was named by one of the elements. */
  lemma {:induction false} MapKeyWitness(elements: seq<string>, k: string) returns (i: int)
    requires k in MapOf(elements)
    ensures 0 <= i < |elements| && NamesKey(elements[i], k)
    decreases |elements|
  {
    var n := |elements| - 1;
    MapKeyOfLast(elements, k);
    if NamesKey(elements[n], k) {
      i := n;
    } else {
      i := MapKeyWitness(elements[..n], k);
      assert elements[..n][i] == elements[i];
    }
  }

  /** A key is in the map exactly when some element has it before its first ':'. */
  lemma MapKeys(elements: seq<string>, k: string)
    ensures k in MapOf(elements) <==> exists i :: 0 <= i < |elements| && NamesKey(elements[i], k)
  {
    if k in MapOf(elements) {
      var i := MapKeyWitness(elements, k);
    }
    if exists i :: 0 <= i < |elements| && NamesKey(elements[i], k) {
      var i :| 0 <= i < |elements| && NamesKey(elements[i], k);
      MapKeyNamed(elements, k, i);
    }
  }
}
