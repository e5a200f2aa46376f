/** Content-addressed clip cache (src/audio_cache.py): an in-memory map loaded lazily, once,
    from a persisted store and written back whole after every insertion. */
module Cache {
  import opened Wrappers

  /** What the pickle file in the cache directory holds: nothing (first run), something that
      cannot be read back, or a saved key -> samples map (pickle round-trips exactly). */
  datatype Store = Missing | Corrupt | Saved(entries: map<string, seq<int>>)

  /** The persisted file `<cache_dir>/audio_cache.pkl`; caches over the same directory share it. */
  class CacheFile {
    var contents: Store

    constructor (contents: Store)
      ensures this.contents == contents
    {
      this.contents := contents;
    }
  }

  /** The map `_load` produces from the current in-memory one and the file: a missing file
      leaves it as it is, an unreadable one yields an empty map, a saved one replaces it. */
  function LoadedFrom(current: map<string, seq<int>>, store: Store): map<string, seq<int>>
  {
    match store
    case Missing => current
    case Corrupt => map[]
    case Saved(m) => m
  }

  /** The string hashed for a key: `f"{prefix}:" + ":".join(args)`. */
  function Join(args: seq<string>): string
  {
    if |args| == 0 then "" else if |args| == 1 then args[0] else args[0] + ":" + Join(args[1..])
  }

  function KeyString(prefix: string, args: seq<string>): (s: string)
    ensures |s| > |prefix| && s[..|prefix| + 1] == prefix + ":"
  {
    prefix + ":" + Join(args)
  }

  predicate ColonFree(s: string)
  {
    forall i :: 0 <= i < |s| ==> s[i] != ':'
  }

  /** Index of the first ':' in `s`, or |s| when there is none. */
  function ColonIndex(s: string): (k: nat)
    ensures k <= |s|
    ensures k < |s| ==> s[k] == ':'
    ensures forall i :: 0 <= i < k ==> s[i] != ':'
  {
    if |s| == 0 then 0 else if s[0] == ':' then 0 else 1 + ColonIndex(s[1..])
  }

  lemma {:induction false} ColonIndexAfter(a: string, x: string)
    requires ColonFree(a)
    ensures ColonIndex(a + ":" + x) == |a|
  {
    if |a| > 0 {
      assert (a + ":" + x)[1..] == a[1..] + ":" + x;
      ColonIndexAfter(a[1..], x);
    }
  }

  /** Strings free of ':' are recovered from their ':'-joined form. */
  lemma SplitAtColon(a: string, b: string, x: string, y: string)
    requires ColonFree(a) && ColonFree(b)
    requires a + ":" + x == b + ":" + y
    ensures a == b && x == y
  {
    ColonIndexAfter(a, x);
    ColonIndexAfter(b, y);
    assert a == (a + ":" + x)[..|a|];
    assert b == (b + ":" + y)[..|b|];
    assert x == (a + ":" + x)[|a| + 1..];
    assert y == (b + ":" + y)[|b| + 1..];
  }

  lemma {:induction false} JoinInjective(args1: seq<string>, args2: seq<string>)
    requires |args1| == |args2|
    requires forall i :: 0 <= i < |args1| ==> ColonFree(args1[i]) && ColonFree(args2[i])
    requires Join(args1) == Join(args2)
    ensures args1 == args2
  {
    if |args1| >= 2 {
      SplitAtColon(args1[0], args2[0], Join(args1[1..]), Join(args2[1..]));
      JoinInjective(args1[1..], args2[1..]);
      assert args1 == [args1[0]] + args1[1..];
      assert args2 == [args2[0]] + args2[1..];
    }
  }

  /** The pre-hash key string is unambiguous: for colon-free components of a fixed arity,
      distinct requests give distinct strings. */
  lemma KeyStringInjective(prefix1: string, args1: seq<string>, prefix2: string, args2: seq<string>)
    requires ColonFree(prefix1) && ColonFree(prefix2) && |args1| == |args2|
    requires forall i :: 0 <= i < |args1| ==> ColonFree(args1[i]) && ColonFree(args2[i])
    ensures KeyString(prefix1, args1) == KeyString(prefix2, args2) <==> prefix1 == prefix2 && args1 == args2
  {
    if KeyString(prefix1, args1) == KeyString(prefix2, args2) {
      SplitAtColon(prefix1, prefix2, Join(args1), Join(args2));
      JoinInjective(args1, args2);
    }
  }

  /** Keys with different colon-free prefixes never coincide before hashing, whatever their
      arguments. */
  lemma KeyStringPrefixesDiffer(prefix1: string, args1: seq<string>, prefix2: string, args2: seq<string>)
    requires ColonFree(prefix1) && ColonFree(prefix2) && prefix1 != prefix2
    ensures KeyString(prefix1, args1) != KeyString(prefix2, args2)
  {
    if KeyString(prefix1, args1) == KeyString(prefix2, args2) {
      SplitAtColon(prefix1, prefix2, Join(args1), Join(args2));
    }
  }

  /** `AudioCache`. */
  class AudioCache {
    const cacheDir: string
    const enabled: bool
    const file: CacheFile
    var entries: map<string, seq<int>>
    var loaded: bool

    /** Nothing is in memory before the first load, and a disabled cache never loads. */
    ghost predicate Valid()
      reads this
    {
      && (!enabled ==> !loaded)
      && (!loaded ==> entries == map[])
    }

    /** The map the next lookup consults: empty when disabled, the in-memory map once loaded,
        and what loading the file would give before that. */
    ghost function View(): map<string, seq<int>>
      reads this, file
    {
      if !enabled then map[] else if loaded then entries else LoadedFrom(entries, file.contents)
    }

    constructor (cacheDir: string, file: CacheFile, enabled: bool := true)
      ensures Valid()
      ensures this.cacheDir == cacheDir && this.file == file && this.enabled == enabled
      ensures entries == map[] && !loaded
    {
      this.cacheDir := cacheDir;
      this.enabled := enabled;
      this.file := file;
      entries := map[];
      loaded := false;
    }

    /** `generate_key`: the MD5 (a parameter here) of the pre-hash string. */
    static function GenerateKey(md5: string -> string, prefix: string, args: seq<string>): string
    {
      md5(KeyString(prefix, args))
    }

    /** `_load`: reads the file into memory at most once; a missing or unreadable file
        leaves an empty map and does not fail. */
    method Load()
      requires Valid()
      modifies this
      ensures Valid()
      ensures loaded == (old(loaded) || enabled)
      ensures entries == if old(loaded) || !enabled then old(entries) else LoadedFrom(old(entries), file.contents)
      ensures View() == old(View())
    {
      if loaded || !enabled {
        return;
      }
      match file.contents {
        case Missing =>
        case Corrupt => entries := map[];
        case Saved(m) => entries := m;
      }
      loaded := true;
    }

    /** `_save`: writes the whole in-memory map (write failures are not modelled). */
    method Save()
      modifies file
      ensures file.contents == if enabled then Saved(entries) else old(file.contents)
    {
      if !enabled {
        return;
      }
      file.contents := Saved(entries);
    }

    /** `get`: None when disabled; otherwise loads once and looks the key up. */
    method Get(key: string) returns (r: Option<seq<int>>)
      requires Valid()
      modifies this
      ensures Valid()
      ensures r == if key in old(View()) then Some(old(View())[key]) else None
      ensures !enabled ==> r == None && entries == old(entries) && loaded == old(loaded)
      ensures enabled ==> loaded && entries == old(View())
      ensures View() == old(View())
    {
      if !enabled {
        return None;
      }
      Load();
      if key in entries {
        return Some(entries[key]);
      }
      return None;
    }

    /** `set`: a no-op when disabled; otherwise loads, inserts, and writes the whole map back,
        so that the file then holds exactly the in-memory map. */
    method Set(key: string, samples: seq<int>)
      requires Valid()
      modifies this, file
      ensures Valid()
      ensures !enabled ==> entries == old(entries) && loaded == old(loaded) && file.contents == old(file.contents)
      ensures enabled ==> loaded && entries == old(View())[key := samples] && file.contents == Saved(entries)
      ensures View() == if enabled then old(View())[key := samples] else old(View())
    {
      if !enabled {
        return;
      }
      Load();
      entries := entries[key := samples];
      Save();
    }

    /** `clear`: empties the map and removes the file, whether or not the cache is enabled. */
    method Clear()
      requires Valid()
      modifies this, file
      ensures Valid()
      ensures entries == map[] && loaded == old(loaded) && file.contents == Missing
      ensures View() == map[]
    {
      entries := map[];
      file.contents := Missing;   // removal failures are not modelled
    }

    /** `size`: the number of keys a lookup can find; 0 for a disabled cache. */
    method Size() returns (n: nat)
      requires Valid()
      modifies this
      ensures Valid()
      ensures n == |old(View())|
      ensures !enabled ==> n == 0
      ensures View() == old(View())
    {
      Load();
      n := |entries|;
    }
  }

  /** With an injective digest, keys of colon-free requests of one arity collide exactly when
      the requests are equal. */
  lemma GenerateKeyInjective(md5: string -> string, prefix1: string, args1: seq<string>, prefix2: string, args2: seq<string>)
    requires forall s, t :: md5(s) == md5(t) ==> s == t
    requires ColonFree(prefix1) && ColonFree(prefix2) && |args1| == |args2|
    requires forall i :: 0 <= i < |args1| ==> ColonFree(args1[i]) && ColonFree(args2[i])
    ensures AudioCache.GenerateKey(md5, prefix1, args1) == AudioCache.GenerateKey(md5, prefix2, args2)
      <==> prefix1 == prefix2 && args1 == args2
  {
    KeyStringInjective(prefix1, args1, prefix2, args2);
  }

  /** On one enabled cache, a lookup after `set(k, s)` finds `s`, and every other key is
      answered as before the insertion. */
  method SetThenGet(dir: string, initial: Store, key: string, samples: seq<int>, other: string)
    returns (got: Option<seq<int>>, before: Option<seq<int>>, after: Option<seq<int>>)
    requires other != key
    ensures got == Some(samples)
    ensures after == before
  {
    var file := new CacheFile(initial);
    var cache := new AudioCache(dir, file);
    before := cache.Get(other);
    cache.Set(key, samples);
    got := cache.Get(key);
    after := cache.Get(other);
  }

  /** A second cache over the same file (a later run) finds what the first one stored, and
      keeps every other entry that was persisted before the first cache loaded. */
  method PersistAcrossInstances(dir: string, initial: Store, key: string, samples: seq<int>, other: string)
    returns (got: Option<seq<int>>, kept: Option<seq<int>>)
    requires other != key
    ensures got == Some(samples)
    ensures initial.Saved? && other in initial.entries ==> kept == Some(initial.entries[other])
  {
    var file := new CacheFile(initial);
    var first := new AudioCache(dir, file);
    first.Set(key, samples);
    var second := new AudioCache(dir, file);
    got := second.Get(key);
    kept := second.Get(other);
  }

  /** A disabled cache never answers and never touches the file. */
  method DisabledIsInert(dir: string, initial: Store, key: string, samples: seq<int>)
    returns (got: Option<seq<int>>, n: nat, stored: Store)
    ensures got == None && n == 0 && stored == initial
  {
    var file := new CacheFile(initial);
    var cache := new AudioCache(dir, file, false);
    cache.Set(key, samples);
    got := cache.Get(key);
    n := cache.Size();
    stored := file.contents;
  }

  /** After `clear`, nothing is found and `size` is 0, in this and in any later cache. */
  method ClearEmpties(dir: string, initial: Store, key: string, samples: seq<int>)
    returns (got: Option<seq<int>>, n: nat, later: nat)
    ensures got == None && n == 0 && later == 0
  {
    var file := new CacheFile(initial);
    var cache := new AudioCache(dir, file);
    cache.Set(key, samples);
    cache.Clear();
    got := cache.Get(key);
    n := cache.Size();
    var next := new AudioCache(dir, file);
    later := next.Size();
  }
}
