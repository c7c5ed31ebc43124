/**
 * The bot's settings access: a YAML document loaded once and cached, and
 * values fetched from it by dotted paths such as "adaptive_waits.max_retries".
 * Reading and parsing the file is an input (its outcome); the tree that the
 * YAML parser returns is modelled as a JSON-like value.
 */
module ConfigLoader {
  import opened Wrappers

  /** A value as `yaml.safe_load` returns it (mappings are keyed by strings here). */
  datatype Json =
    | Null
    | Bool(b: bool)
    | Num(n: real)
    | Str(s: string)
    | List(items: seq<Json>)
    | Mapping(fields: map<string, Json>)

  /** `key.split(".")`: the pieces between dots, empty pieces included. */
  function Split(key: string): (parts: seq<string>)
    ensures |parts| >= 1
    ensures forall i :: 0 <= i < |parts| ==> '.' !in parts[i]
    ensures '.' !in key ==> parts == [key]
  {
    if key == [] then [""]
    else
      var rest := Split(key[1..]);
      if key[0] == '.' then [""] + rest
      else
        assert key == [key[0]] + key[1..];
        [[key[0]] + rest[0]] + rest[1..]
  }

  /** `".".join(parts)`, the inverse of Split. */
  function JoinDots(parts: seq<string>): string
    requires |parts| >= 1
  {
    if |parts| == 1 then parts[0] else parts[0] + "." + JoinDots(parts[1..])
  }

  lemma {:induction false} SplitJoin(key: string)
    ensures JoinDots(Split(key)) == key
  {
    if key != [] {
      SplitJoin(key[1..]);
      var rest := Split(key[1..]);
      if key[0] == '.' {
        assert key == "" + "." + key[1..];
      } else {
        var parts := Split(key);
        if |rest| == 1 {
          assert key == [key[0]] + key[1..];
        } else {
          assert parts[1..] == rest[1..];
          assert key == [key[0]] + key[1..];
          assert key[1..] == rest[0] + "." + JoinDots(rest[1..]);
        }
      }
    }
  }

  /** `value[k]` for one path segment: KeyError and TypeError both yield None. */
  function Step(v: Json, k: string): (r: Option<Json>)
    ensures r.Some? <==> v.Mapping? && k in v.fields
    ensures r.Some? ==> r.value == v.fields[k]
  {
    match v
    case Mapping(fields) => if k in fields then Some(fields[k]) else None
    case _ => None
  }

  /** The value at the end of `path`, or None when a segment is missing or a non-mapping is indexed. */
  function Lookup(v: Json, path: seq<string>): Option<Json>
  {
    if path == [] then Some(v)
    else
      match Step(v, path[0])
      case None => None
      case Some(w) => Lookup(w, path[1..])
  }

  /** Walking a path in two legs is walking it in one. */
  lemma {:induction false} LookupAppend(v: Json, p: seq<string>, q: seq<string>)
    ensures Lookup(v, p + q) == match Lookup(v, p) case None => None case Some(w) => Lookup(w, q)
  {
    if p != [] {
      assert (p + q)[0] == p[0] && (p + q)[1..] == p[1..] + q;
      if Step(v, p[0]).Some? {
        LookupAppend(Step(v, p[0]).value, p[1..], q);
      }
    } else {
      assert p + q == q;
    }
  }

  /** The document that holds `leaf` at `path` and nothing else. */
  function Nest(path: seq<string>, leaf: Json): Json
  {
    if path == [] then leaf else Mapping(map[path[0] := Nest(path[1..], leaf)])
  }

  /** Looking up a path in the document built for it finds the leaf, whatever it is (None, false, 0 included). */
  lemma {:induction false} LookupNest(path: seq<string>, leaf: Json)
    ensures Lookup(Nest(path, leaf), path) == Some(leaf)
  {
    if path != [] {
      LookupNest(path[1..], leaf);
    }
  }

  /** The loop of `get_config_value` that reassigns `value` segment by segment. */
  method WalkPath(config: Json, keys: seq<string>, default: Json) returns (value: Json)
    ensures value == Lookup(config, keys).GetOr(default)
  {
    value := config;
    var i := 0;
    while i < |keys|
      invariant 0 <= i <= |keys|
      invariant Lookup(config, keys[..i]) == Some(value)
    {
      LookupAppend(config, keys[..i], [keys[i]]);
      assert keys[..i] + [keys[i]] == keys[..i + 1];
      match value {
        case Mapping(fields) =>
          if keys[i] !in fields {
            LookupAppend(config, keys[..i + 1], keys[i + 1..]);
            assert keys[..i + 1] + keys[i + 1..] == keys;
            return default;
          }
          value := fields[keys[i]];
        case _ =>
          LookupAppend(config, keys[..i + 1], keys[i + 1..]);
          assert keys[..i + 1] + keys[i + 1..] == keys;
          return default;
      }
      i := i + 1;
    }
    assert keys[..i] == keys;
  }

  /** What a call of `get_config_value` produces: a value, or the AttributeError of `.get` on a non-mapping. */
  datatype Outcome = Value(v: Json) | AttributeError

  /** The value `get_config_value(key, default)` yields for a loaded document. */
  function ConfigValue(config: Json, key: string, default: Json): Outcome
  {
    if '.' in key then Value(Lookup(config, Split(key)).GetOr(default))
    else if config.Mapping? then Value(if key in config.fields then config.fields[key] else default)
    else AttributeError
  }

  /** On a mapping, a plain key and a dotted key are both the path lookup of the key's pieces. */
  lemma ConfigValueIsLookup(config: Json, key: string, default: Json)
    requires config.Mapping?
    ensures ConfigValue(config, key, default) == Value(Lookup(config, Split(key)).GetOr(default))
  {
    if '.' !in key {
      assert Split(key) == [key];
      assert Split(key)[1..] == [];
    }
  }

  /** After a failed load the document is `{}`, and every lookup returns its default. */
  lemma EmptyConfigGivesDefaults(key: string, default: Json)
    ensures ConfigValue(Mapping(map[]), key, default) == Value(default)
  {
    var parts := Split(key);
    assert Step(Mapping(map[]), parts[0]) == None;
  }

  /** `get_config_value` after the document is loaded: dotted keys walk the path, plain keys use `.get`. */
  method ValueFrom(config: Json, key: string, default: Json) returns (r: Outcome)
    ensures r == ConfigValue(config, key, default)
  {
    if '.' in key {
      var v := WalkPath(config, Split(key), default);
      return Value(v);
    }
    match config {
      case Mapping(fields) =>
        return Value(if key in fields then fields[key] else default);
      case _ =>
        return AttributeError;
    }
  }

  /** What reading and parsing settings.yaml produced this time. */
  datatype ReadOutcome = Parsed(doc: Json) | ReadFailed

  /** The module-level `_config_cache` of the settings loader. */
  class ConfigCache {
    /** None while nothing is cached (`_config_cache is None`). */
    var cache: Option<Json>
    /** How many times the file has been opened (stands for the file I/O the loader performs). */
    var fileReads: nat

    constructor ()
      ensures cache == None && fileReads == 0
    {
      cache := None;
      fileReads := 0;
    }

    /**
     * `load_config` as written: the parse result is cached as it is, so an
     * empty file (parsed as None) leaves the cache unset and is read again.
     */
    method LoadConfigAsWritten(file: ReadOutcome) returns (config: Json)
      modifies this
      ensures old(cache).Some? ==> cache == old(cache) && config == old(cache).value && fileReads == old(fileReads)
      ensures old(cache).None? ==> fileReads == old(fileReads) + 1
      ensures old(cache).None? && file.ReadFailed? ==> cache == Some(Mapping(map[])) && config == Mapping(map[])
      ensures old(cache).None? && file.Parsed? ==> config == file.doc && cache == (if file.doc.Null? then None else Some(file.doc))
    {
      if cache.None? {
        fileReads := fileReads + 1;
        match file {
          case Parsed(doc) => cache := if doc.Null? then None else Some(doc);
          case ReadFailed => cache := Some(Mapping(map[]));
        }
      }
      config := if cache.Some? then cache.value else Null;
    }

    /**
     * `load_config` with the empty document cached as `{}` like a failed
     * read: the file is read at most once, and later calls return the cached
     * document unchanged.
     */
    method LoadConfig(file: ReadOutcome) returns (config: Json)
      modifies this
      ensures cache == Some(config)
      ensures old(cache).Some? ==> config == old(cache).value && fileReads == old(fileReads)
      ensures old(cache).None? ==> fileReads == old(fileReads) + 1
      ensures old(cache).None? ==> config == (if file.Parsed? && !file.doc.Null? then file.doc else Mapping(map[]))
    {
      if cache.None? {
        fileReads := fileReads + 1;
        match file {
          case Parsed(doc) => cache := Some(if doc.Null? then Mapping(map[]) else doc);
          case ReadFailed => cache := Some(Mapping(map[]));
        }
      }
      config := cache.value;
    }

    /**
     * `get_config_value(key, default)` over the loader as written: the key
     * is looked up in whatever `load_config` returned, so after an empty
     * file a plain key raises (`.get` on None) and the file stays uncached.
     */
    method GetConfigValueAsWritten(file: ReadOutcome, key: string, default: Json) returns (r: Outcome)
      modifies this
      ensures old(cache).Some? ==> cache == old(cache) && fileReads == old(fileReads) && r == ConfigValue(cache.value, key, default)
      ensures old(cache).None? ==> fileReads == old(fileReads) + 1
      ensures old(cache).None? && file.ReadFailed? ==> cache == Some(Mapping(map[])) && r == Value(default)
      ensures old(cache).None? && file.Parsed? ==>
        r == ConfigValue(file.doc, key, default) && cache == (if file.doc.Null? then None else Some(file.doc))
      ensures old(cache).None? && file == Parsed(Null) && '.' !in key ==> r == AttributeError && cache.None?
    {
      var config := LoadConfigAsWritten(file);
      r := ValueFrom(config, key, default);
      if old(cache).None? && file.ReadFailed? {
        EmptyConfigGivesDefaults(key, default);
      }
    }

    /**
     * `get_config_value(key, default)` over the corrected loader: load (or
     * reuse) the document, then look the key up.
     */
    method GetConfigValue(file: ReadOutcome, key: string, default: Json) returns (r: Outcome)
      modifies this
      ensures cache.Some? && r == ConfigValue(cache.value, key, default)
      ensures old(cache).Some? ==> cache == old(cache) && fileReads == old(fileReads)
      ensures old(cache).None? ==> fileReads == old(fileReads) + 1
      ensures old(cache).None? ==> cache == Some(if file.Parsed? && !file.doc.Null? then file.doc else Mapping(map[]))
    {
      var config := LoadConfig(file);
      r := ValueFrom(config, key, default);
    }
  }

  /** With an empty settings file the loader as written reads the file on every call. */
  method EmptyFileIsReread() returns (readCount: nat)
    ensures readCount == 2
  {
    var c := new ConfigCache();
    var first := c.LoadConfigAsWritten(Parsed(Null));
    var second := c.LoadConfigAsWritten(Parsed(Null));
    readCount := c.fileReads;
  }

  /** With an empty settings file the corrected loader reads once and then serves `{}` from the cache. */
  method EmptyFileIsReadOnce() returns (readCount: nat, second: Json)
    ensures readCount == 1 && second == Mapping(map[])
  {
    var c := new ConfigCache();
    var first := c.LoadConfig(Parsed(Null));
    second := c.LoadConfig(Parsed(Null));
    readCount := c.fileReads;
  }
}
