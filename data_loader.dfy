/**
 * The JSON data loader: the path of a data file, the error outcomes, the
 * shape normalisation of what the file holds, and the least-recently-used
 * cache of ten entries in front of it.
 *
 * The file system is a map from path to what reading and decoding the
 * file there gives; a path missing from the map is a file that does not
 * exist.
 */
module DataFiles {
  import opened Wrappers
  import opened Text
  import opened JsonData

  /** The cache holds at most this many loads. */
  const CacheSize: nat := 10

  /** The keys a top-level object is searched for, in order. */
  const DataKeys: seq<string> := ["flights", "hotels", "places", "data"]

  datatype FileContent = Parsed(json: Json) | Malformed(detail: string)

  type FileSystem = map<string, FileContent>

  datatype LoadError = FileNotFound(path: string) | InvalidJson(path: string, detail: string)

  /** The text of the raised `FileNotFoundError` or `ValueError`. */
  function ErrorMessage(e: LoadError): string {
    match e
    case FileNotFound(p) => "Data file not found: " + p
    case InvalidJson(p, d) => "Invalid JSON in " + p + ": " + d
  }

  /** Both messages name the path, and a missing file never reads like bad JSON. */
  lemma ErrorMessagesDistinct(p: string, q: string, d: string)
    ensures StartsWith(ErrorMessage(FileNotFound(p)), "Data file not found: ")
    ensures EndsWith(ErrorMessage(FileNotFound(p)), p)
    ensures StartsWith(ErrorMessage(InvalidJson(q, d)), "Invalid JSON in " + q + ": ")
    ensures ErrorMessage(FileNotFound(p)) != ErrorMessage(InvalidJson(q, d))
  {
    StartsWithSelf("Data file not found: ", p);
    EndsWithSelf("Data file not found: ", p);
    StartsWithSelf("Invalid JSON in " + q + ": ", d);
    assert ErrorMessage(FileNotFound(p))[0] == 'D';
    assert ErrorMessage(InvalidJson(q, d))[0] == 'I';
  }

  /** `os.path.join` of two POSIX path parts. */
  function JoinPath(base: string, name: string): string {
    if |name| > 0 && name[0] == '/' then name
    else if base == [] || base[|base| - 1] == '/' then base + name
    else base + "/" + name
  }

  /**
   * The joined path ends with the name; an absolute name replaces the
   * base, a relative one is put after the base, with a slash between them
   * when the base does not end in one.
   */
  lemma JoinPathParts(base: string, name: string)
    ensures EndsWith(JoinPath(base, name), name)
    ensures |name| > 0 && name[0] == '/' ==> JoinPath(base, name) == name
    ensures !(|name| > 0 && name[0] == '/') ==> StartsWith(JoinPath(base, name), base)
    ensures (!(|name| > 0 && name[0] == '/') && base != [] && base[|base| - 1] != '/') ==>
      (|JoinPath(base, name)| == |base| + 1 + |name| && JoinPath(base, name)[|base|] == '/')
  {
    if |name| > 0 && name[0] == '/' {
      assert name[|name| - |name|..] == name;
    } else if base == [] || base[|base| - 1] == '/' {
      StartsWithSelf(base, name);
      EndsWithSelf(base, name);
    } else {
      StartsWithSelf(base, "/" + name);
      EndsWithSelf(base + "/", name);
      assert base + "/" + name == base + ("/" + name);
    }
  }

  lemma DefaultDataPaths()
    ensures JoinPath("data/", "flights.json") == "data/flights.json"
    ensures JoinPath("data", "hotels.json") == "data/hotels.json"
  {
  }

  // ---------------------------------------------------------------------
  // Shape normalisation

  /** The first of `keys` that `fields` holds. */
  function FirstKey(fields: map<string, Json>, keys: seq<string>): (r: Option<string>)
    ensures r.Some? ==> r.value in fields && r.value in keys
  {
    if keys == [] then None
    else if keys[0] in fields then Some(keys[0])
    else FirstKey(fields, keys[1..])
  }

  /** `FirstKey` finds nothing exactly when no key is present, and otherwise no earlier key is present. */
  lemma {:induction false} FirstKeyIsFirst(fields: map<string, Json>, keys: seq<string>)
    ensures FirstKey(fields, keys).None? <==> forall i :: 0 <= i < |keys| ==> keys[i] !in fields
    ensures FirstKey(fields, keys).Some? ==>
      (exists i :: 0 <= i < |keys| && keys[i] == FirstKey(fields, keys).value && forall j :: 0 <= j < i ==> keys[j] !in fields)
  {
    if keys != [] && keys[0] !in fields {
      var tail := keys[1..];
      FirstKeyIsFirst(fields, tail);
      var rest := FirstKey(fields, tail);
      if rest.Some? {
        var i :| 0 <= i < |tail| && tail[i] == rest.value && forall j :: 0 <= j < i ==> tail[j] !in fields;
        assert keys[i + 1] == rest.value;
        forall j | 0 <= j < i + 1 ensures keys[j] !in fields {
          if j > 0 { assert keys[j] == tail[j - 1]; }
        }
      } else {
        forall i | 0 <= i < |keys| ensures keys[i] !in fields {
          if i > 0 { assert keys[i] == tail[i - 1]; }
        }
      }
    }
  }

  /** What `load_json` returns for decoded file contents. */
  function Normalized(data: Json): Json {
    match data
    case JArr(_) => data
    case JObj(fields) =>
      (match FirstKey(fields, DataKeys)
       case Some(k) => fields[k]
       case None => JArr([data]))
    case _ => JArr([])
  }

  /**
   * A list comes back as it is; an object gives the value of the first of
   * "flights", "hotels", "places" and "data" it has, or else is wrapped in
   * a one-element list; anything else gives the empty list.
   */
  lemma NormalizedShapes(data: Json)
    ensures data.JArr? ==> Normalized(data) == data
    ensures data.JObj? && "flights" in data.fields ==> Normalized(data) == data.fields["flights"]
    ensures data.JObj? && "flights" !in data.fields && "hotels" in data.fields
      ==> Normalized(data) == data.fields["hotels"]
    ensures data.JObj? && "flights" !in data.fields && "hotels" !in data.fields && "places" in data.fields
      ==> Normalized(data) == data.fields["places"]
    ensures (data.JObj? && "flights" !in data.fields && "hotels" !in data.fields && "places" !in data.fields
             && "data" in data.fields) ==> Normalized(data) == data.fields["data"]
    ensures (data.JObj? && "flights" !in data.fields && "hotels" !in data.fields && "places" !in data.fields
             && "data" !in data.fields) ==> Normalized(data) == JArr([data])
    ensures !data.JArr? && !data.JObj? ==> Normalized(data) == JArr([])
  {
    if data.JObj? {
      var f := data.fields;
      var k := FirstKey(f, DataKeys);
      FirstKeyIsFirst(f, DataKeys);
      if k.Some? {
        var i :| 0 <= i < |DataKeys| && DataKeys[i] == k.value && forall j :: 0 <= j < i ==> DataKeys[j] !in f;
        assert i == 0 <==> "flights" in f by { if i > 0 { assert DataKeys[0] !in f; } }
        assert DataKeys[1] == "hotels" && DataKeys[2] == "places" && DataKeys[3] == "data";
      } else {
        assert DataKeys[0] !in f && DataKeys[1] !in f && DataKeys[2] !in f && DataKeys[3] !in f;
      }
    }
  }

  /** Normalising what normalisation returned as a list changes nothing. */
  lemma NormalizedListStays(data: Json)
    requires Normalized(data).JArr?
    ensures Normalized(Normalized(data)) == Normalized(data)
  {
  }

  /** The search loop over the known keys, as `load_json` runs it. */
  method NormalizeShape(data: Json) returns (r: Json)
    ensures r == Normalized(data)
  {
    if data.JArr? {
      return data;
    } else if data.JObj? {
      var fields := data.fields;
      var i := 0;
      while i < |DataKeys|
        invariant 0 <= i <= |DataKeys|
        invariant FirstKey(fields, DataKeys) == FirstKey(fields, DataKeys[i..])
      {
        var key := DataKeys[i];
        if key in fields {
          return fields[key];
        }
        assert DataKeys[i..][1..] == DataKeys[i + 1..];
        i := i + 1;
      }
      return JArr([data]);
    } else {
      return JArr([]);
    }
  }

  /** `load_json` without the cache: a missing file, malformed JSON, or the normalised data. */
  function ReadFile(fs: FileSystem, path: string): (r: Result<Json, LoadError>)
    ensures r == Err(FileNotFound(path)) <==> path !in fs
    ensures r.Err? && r.error.InvalidJson? <==> path in fs && fs[path].Malformed?
    ensures r.Ok? <==> path in fs && fs[path].Parsed?
    ensures r.Ok? ==> r.value == Normalized(fs[path].json)
  {
    if path !in fs then Err(FileNotFound(path))
    else match fs[path]
      case Malformed(d) => Err(InvalidJson(path, d))
      case Parsed(j) => Ok(Normalized(j))
  }

  // ---------------------------------------------------------------------
  // The least-recently-used cache

  /** Cached loads by file name; `order` runs from least to most recently used. */
  datatype CacheView = CacheView(entries: map<string, Json>, order: seq<string>)

  const EmptyCache := CacheView(map[], [])

  predicate Distinct(s: seq<string>) {
    forall i, j :: 0 <= i < j < |s| ==> s[i] != s[j]
  }

  /** The recency order lists each cached name once, and the cache never outgrows its size. */
  ghost predicate WellFormed(c: CacheView) {
    Distinct(c.order)
    && (forall k :: k in c.entries <==> k in c.order)
    && |c.order| <= CacheSize
  }

  /** `s` without `k`. */
  function Remove(s: seq<string>, k: string): (r: seq<string>)
    ensures forall x :: x in r <==> x in s && x != k
  {
    if s == [] then []
    else if s[0] == k then Remove(s[1..], k)
    else [s[0]] + Remove(s[1..], k)
  }

  lemma DistinctTail(s: seq<string>)
    requires Distinct(s) && s != []
    ensures Distinct(s[1..]) && s[0] !in s[1..]
  {
    var t := s[1..];
    forall i, j | 0 <= i < j < |t| ensures t[i] != t[j] {
      assert t[i] == s[i + 1] && t[j] == s[j + 1];
    }
    forall j | 0 <= j < |t| ensures t[j] != s[0] {
      assert t[j] == s[j + 1];
    }
  }

  /** Removing a name keeps the order free of repeats, and shortens it by one when the name was there. */
  lemma {:induction false} RemoveKeepsDistinct(s: seq<string>, k: string)
    requires Distinct(s)
    ensures Distinct(Remove(s, k))
    ensures k in s ==> |Remove(s, k)| == |s| - 1
    ensures k !in s ==> Remove(s, k) == s
  {
    if s != [] {
      DistinctTail(s);
      RemoveKeepsDistinct(s[1..], k);
      if s[0] != k {
        DistinctCons(s[0], Remove(s[1..], k));
        assert k in s ==> k in s[1..];
        assert k !in s ==> [s[0]] + s[1..] == s;
      }
    }
  }

  /** Removing a listed name closes the gap it leaves; the other names keep their order. */
  lemma {:induction false} RemoveAt(s: seq<string>, i: nat)
    requires Distinct(s) && i < |s|
    ensures Remove(s, s[i]) == s[..i] + s[i + 1..]
  {
    DistinctTail(s);
    if i == 0 {
      RemoveKeepsDistinct(s[1..], s[0]);
    } else {
      var t := s[1..];
      assert t[i - 1] == s[i] && s[0] != s[i];
      RemoveAt(t, i - 1);
      assert [s[0]] + (t[..i - 1] + t[i..]) == s[..i] + s[i + 1..];
    }
  }

  lemma DistinctCons(x: string, t: seq<string>)
    requires Distinct(t) && x !in t
    ensures Distinct([x] + t)
  {
    var s := [x] + t;
    forall i, j | 0 <= i < j < |s| ensures s[i] != s[j] {
      assert s[j] == t[j - 1];
      if i > 0 { assert s[i] == t[i - 1]; }
    }
  }

  lemma DistinctSnoc(t: seq<string>, x: string)
    requires Distinct(t) && x !in t
    ensures Distinct(t + [x])
  {
    var s := t + [x];
    forall i, j | 0 <= i < j < |s| ensures s[i] != s[j] {
      assert s[i] == t[i];
      if j < |t| { assert s[j] == t[j]; }
    }
  }

  /** A hit: `k` becomes the most recently used, nothing else moves. */
  function Touch(c: CacheView, k: string): CacheView {
    CacheView(c.entries, Remove(c.order, k) + [k])
  }

  /** A miss that loaded: the least recently used entry goes first when the cache is full. */
  function Admit(c: CacheView, k: string, v: Json): CacheView
    requires WellFormed(c)
  {
    if |c.order| < CacheSize then CacheView(c.entries[k := v], c.order + [k])
    else CacheView((c.entries - {c.order[0]})[k := v], c.order[1..] + [k])
  }

  /** One `load_json(filename)` call against the cache state `c`, reading `path` on a miss. */
  function LoadStep(c: CacheView, fs: FileSystem, path: string, filename: string): (Result<Json, LoadError>, CacheView)
    requires WellFormed(c)
  {
    if filename in c.entries then (Ok(c.entries[filename]), Touch(c, filename))
    else
      var r := ReadFile(fs, path);
      if r.Ok? then (r, Admit(c, filename, r.value)) else (r, c)
  }

  lemma {:induction false} TouchKeepsWellFormed(c: CacheView, k: string)
    requires WellFormed(c) && k in c.entries
    ensures WellFormed(Touch(c, k))
  {
    var rest := Remove(c.order, k);
    RemoveKeepsDistinct(c.order, k);
    DistinctSnoc(rest, k);
  }

  lemma {:induction false} AdmitKeepsWellFormed(c: CacheView, k: string, v: Json)
    requires WellFormed(c) && k !in c.entries
    ensures WellFormed(Admit(c, k, v))
  {
    if |c.order| < CacheSize {
      DistinctSnoc(c.order, k);
    } else {
      var tail := c.order[1..];
      assert Distinct(tail) by {
        forall i, j | 0 <= i < j < |tail| ensures tail[i] != tail[j] {
          assert tail[i] == c.order[i + 1] && tail[j] == c.order[j + 1];
        }
      }
      DistinctSnoc(tail, k);
      var n := Admit(c, k, v);
      forall x ensures x in n.entries <==> x in n.order {
        if x in tail {
          var j :| 0 <= j < |tail| && tail[j] == x;
          assert c.order[j + 1] == x && c.order[0] != x;
        }
        if x in c.order && x != c.order[0] {
          var j :| 0 <= j < |c.order| && c.order[j] == x;
          assert j > 0 && tail[j - 1] == x;
        }
      }
    }
  }

  /** Every load keeps the cache well formed. */
  lemma LoadKeepsWellFormed(c: CacheView, fs: FileSystem, path: string, filename: string)
    requires WellFormed(c)
    ensures WellFormed(LoadStep(c, fs, path, filename).1)
  {
    if filename in c.entries {
      TouchKeepsWellFormed(c, filename);
    } else if ReadFile(fs, path).Ok? {
      AdmitKeepsWellFormed(c, filename, ReadFile(fs, path).value);
    }
  }

  /**
   * A cached name is answered from the cache, whatever the file holds now,
   * and becomes the most recently used; the cached values do not change.
   */
  lemma LoadHit(c: CacheView, fs: FileSystem, path: string, filename: string)
    requires WellFormed(c) && filename in c.entries
    ensures var (r, n) := LoadStep(c, fs, path, filename);
      r == Ok(c.entries[filename]) && n.entries == c.entries
      && |n.order| == |c.order| && n.order[|n.order| - 1] == filename
      && forall i :: 0 <= i < |c.order| && c.order[i] == filename ==> n.order == c.order[..i] + c.order[i + 1..] + [filename]
  {
    RemoveKeepsDistinct(c.order, filename);
    forall i | 0 <= i < |c.order| && c.order[i] == filename
      ensures Remove(c.order, filename) == c.order[..i] + c.order[i + 1..]
    {
      RemoveAt(c.order, i);
    }
  }

  /**
   * A name not cached reads the file; a failed read is not cached, a
   * successful one is cached as the most recently used entry.
   */
  lemma LoadMiss(c: CacheView, fs: FileSystem, path: string, filename: string)
    requires WellFormed(c) && filename !in c.entries
    ensures var (r, n) := LoadStep(c, fs, path, filename);
      r == ReadFile(fs, path)
      && (r.Err? ==> n == c)
      && (r.Ok? ==> filename in n.entries && n.entries[filename] == r.value && n.order[|n.order| - 1] == filename)
  {
  }

  /** Loading into a full cache evicts the least recently used name and keeps all the others. */
  lemma LoadEvictsLeastRecent(c: CacheView, fs: FileSystem, path: string, filename: string)
    requires WellFormed(c) && filename !in c.entries && |c.order| == CacheSize && ReadFile(fs, path).Ok?
    ensures var n := LoadStep(c, fs, path, filename).1;
      c.order[0] !in n.entries
      && |n.entries| == CacheSize
      && forall k :: k in c.entries && k != c.order[0] ==> k in n.entries && n.entries[k] == c.entries[k]
  {
    var n := LoadStep(c, fs, path, filename).1;
    AdmitKeepsWellFormed(c, filename, ReadFile(fs, path).value);
    assert n.entries.Keys == set k | k in n.order;
    DistinctCardinality(n.order);
  }

  lemma {:induction false} DistinctCardinality(s: seq<string>)
    requires Distinct(s)
    ensures |set k | k in s| == |s|
  {
    if s != [] {
      var t := s[..|s| - 1];
      assert Distinct(t) by {
        forall i, j | 0 <= i < j < |t| ensures t[i] != t[j] {
          assert t[i] == s[i] && t[j] == s[j];
        }
      }
      DistinctCardinality(t);
      var last := s[|s| - 1];
      forall i | 0 <= i < |t| ensures t[i] != last {
        assert t[i] == s[i];
      }
      assert s == t + [last];
      assert (set k | k in s) == (set k | k in t) + {last};
    }
  }

  /** Once a name has loaded, loading it again gives the same data, whatever the files hold by then. */
  lemma RepeatedLoadHits(c: CacheView, fs1: FileSystem, fs2: FileSystem, path1: string, path2: string, filename: string)
    requires WellFormed(c) && LoadStep(c, fs1, path1, filename).0.Ok?
    ensures WellFormed(LoadStep(c, fs1, path1, filename).1)
    ensures LoadStep(LoadStep(c, fs1, path1, filename).1, fs2, path2, filename).0 == LoadStep(c, fs1, path1, filename).0
  {
    LoadKeepsWellFormed(c, fs1, path1, filename);
  }

  /** After the cache is cleared, every load reads its file afresh. */
  lemma ClearedCacheReads(fs: FileSystem, path: string, filename: string)
    ensures WellFormed(EmptyCache)
    ensures LoadStep(EmptyCache, fs, path, filename).0 == ReadFile(fs, path)
  {
  }

  /** `DataLoader`, its cache kept per loader. */
  class DataLoader {
    const dataPath: string
    var cache: map<string, Json>
    var order: seq<string>

    function View(): CacheView
      reads this
    {
      CacheView(cache, order)
    }

    ghost predicate Valid()
      reads this
    {
      WellFormed(View())
    }

    constructor(dataPath: string)
      ensures this.dataPath == dataPath && View() == EmptyCache && Valid()
    {
      this.dataPath := dataPath;
      cache := map[];
      order := [];
    }

    /** `load_json(filename)`. */
    method LoadJson(fs: FileSystem, filename: string) returns (r: Result<Json, LoadError>)
      requires Valid()
      modifies this
      ensures Valid()
      ensures (r, View()) == LoadStep(old(View()), fs, JoinPath(dataPath, filename), filename)
    {
      LoadKeepsWellFormed(View(), fs, JoinPath(dataPath, filename), filename);
      if filename in cache {
        r := Ok(cache[filename]);
        order := Remove(order, filename) + [filename];
        return;
      }
      var path := JoinPath(dataPath, filename);
      if path !in fs {
        r := Err(FileNotFound(path));
        return;
      }
      match fs[path]
      case Malformed(d) =>
        r := Err(InvalidJson(path, d));
      case Parsed(j) =>
        var data := NormalizeShape(j);
        r := Ok(data);
        if |order| >= CacheSize {
          var oldest := order[0];
          cache := cache - {oldest};
          order := order[1..];
        }
        cache := cache[filename := data];
        order := order + [filename];
    }

    /** `load_flights`. */
    method LoadFlights(fs: FileSystem) returns (r: Result<Json, LoadError>)
      requires Valid()
      modifies this
      ensures Valid()
      ensures (r, View()) == LoadStep(old(View()), fs, JoinPath(dataPath, "flights.json"), "flights.json")
    {
      r := LoadJson(fs, "flights.json");
    }

    /** `load_hotels`. */
    method LoadHotels(fs: FileSystem) returns (r: Result<Json, LoadError>)
      requires Valid()
      modifies this
      ensures Valid()
      ensures (r, View()) == LoadStep(old(View()), fs, JoinPath(dataPath, "hotels.json"), "hotels.json")
    {
      r := LoadJson(fs, "hotels.json");
    }

    /** `load_places`. */
    method LoadPlaces(fs: FileSystem) returns (r: Result<Json, LoadError>)
      requires Valid()
      modifies this
      ensures Valid()
      ensures (r, View()) == LoadStep(old(View()), fs, JoinPath(dataPath, "places.json"), "places.json")
    {
      r := LoadJson(fs, "places.json");
    }

    /** `clear_cache`. */
    method ClearCache()
      modifies this
      ensures View() == EmptyCache && Valid()
    {
      cache := map[];
      order := [];
    }
  }

  /** Two loads of the same name in a row: the second answers from the cache even if the file changed. */
  method LoadTwice(loader: DataLoader, fs1: FileSystem, fs2: FileSystem, filename: string)
    returns (first: Result<Json, LoadError>, second: Result<Json, LoadError>)
    requires loader.Valid()
    modifies loader
    ensures loader.Valid()
    ensures first.Ok? ==> second == first
  {
    first := loader.LoadJson(fs1, filename);
    ghost var mid := loader.View();
    second := loader.LoadJson(fs2, filename);
    if first.Ok? {
      assert filename in mid.entries && mid.entries[filename] == first.value;
    }
  }

  /** A load after `clear_cache` reads the file system as it is now. */
  method LoadAfterClear(loader: DataLoader, fs: FileSystem, filename: string) returns (r: Result<Json, LoadError>)
    requires loader.Valid()
    modifies loader
    ensures loader.Valid()
    ensures r == ReadFile(fs, JoinPath(loader.dataPath, filename))
  {
    loader.ClearCache();
    r := loader.LoadJson(fs, filename);
  }
}
