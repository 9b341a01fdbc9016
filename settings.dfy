/** The settings helpers of `app/core/config.py`: the two field validators,
    the computed thread count, and the ordering of the GGUF model files with
    the primary model and the model report built on it. The directory
    listing, `stat` and `os.cpu_count()` are inputs. */
module CoreSettings {
  import opened Wrappers
  import opened Text

  const ValidLevels: seq<string> := ["DEBUG", "INFO", "WARNING", "ERROR", "CRITICAL"]

  const LogLevelError := "LOG_LEVEL must be one of: ['DEBUG', 'INFO', 'WARNING', 'ERROR', 'CRITICAL']"

  /** `validate_log_level`: the upper-cased level when it is a known one. */
  function ValidateLogLevel(v: string): (r: Result<string, string>)
    ensures r.Ok? <==> Upper(v) in ValidLevels
    ensures r.Ok? ==> r.value == Upper(v)
    ensures r.Err? ==> r.error == LogLevelError
  {
    if Upper(v) !in ValidLevels then Err(LogLevelError) else Ok(Upper(v))
  }

  /** Upper-casing is idempotent, so a validated level validates to itself. */
  lemma ValidatedLevelIsFixed(v: string)
    requires ValidateLogLevel(v).Ok?
    ensures ValidateLogLevel(ValidateLogLevel(v).value) == ValidateLogLevel(v)
  {
    UpperIdempotent(v);
  }

  /** What `CORS_ORIGINS` may be given as before validation. */
  datatype CorsInput = CorsText(text: string) | CorsList(items: seq<string>)

  /** `validate_cors_origins`: a text becomes its comma-separated items, each
      stripped; a list passes through. */
  function ValidateCorsOrigins(v: CorsInput): (r: seq<string>)
    ensures v.CorsList? ==> r == v.items
    ensures v.CorsText? ==> |r| == |Split(v.text, ',')| == CountChar(v.text, ',') + 1
    ensures v.CorsText? ==> forall i | 0 <= i < |r| :: r[i] == Strip(Split(v.text, ',')[i])
  {
    match v
    case CorsText(text) =>
      SplitCount(text, ',');
      var parts := Split(text, ',');
      seq(|parts|, i requires 0 <= i < |parts| => Strip(parts[i]))
    case CorsList(items) => items
  }

  /** Every origin taken from a text is comma-free and already stripped. */
  lemma CorsOriginsClean(text: string)
    ensures var r := ValidateCorsOrigins(CorsText(text));
      forall i | 0 <= i < |r| :: ',' !in r[i] && Strip(r[i]) == r[i]
  {
    var parts := Split(text, ',');
    var r := ValidateCorsOrigins(CorsText(text));
    forall i | 0 <= i < |r| ensures ',' !in r[i] && Strip(r[i]) == r[i] {
      StripIdempotent(parts[i]);
      StripInside(parts[i], ',');
    }
  }

  /** Stripping keeps only characters of the text. */
  lemma StripInside(s: string, c: char)
    requires c !in s
    ensures c !in Strip(s)
  {
    var l := LStrip(s);
    forall i | 0 <= i < |l| ensures l[i] != c {
      assert l[i] == s[|s| - |l| + i];
    }
    var r := RStrip(l);
    assert Strip(s) == r;
    forall i | 0 <= i < |r| ensures r[i] != c {
      assert r[i] == l[i];
    }
  }

  /** `n_threads_computed`: `min(8, os.cpu_count() or 4)` when set to 0. */
  function NThreadsComputed(nThreads: nat, cpuCount: Option<nat>): (r: nat)
    ensures nThreads != 0 ==> r == nThreads
    ensures nThreads == 0 ==> 1 <= r <= 8
    ensures nThreads == 0 && (cpuCount.None? || cpuCount.value == 0) ==> r == 4
    ensures nThreads == 0 && cpuCount.Some? && cpuCount.value != 0 ==> r == if cpuCount.value < 8 then cpuCount.value else 8
  {
    if nThreads == 0 then
      var cpus := if cpuCount.Some? && cpuCount.value != 0 then cpuCount.value else 4;
      if 8 < cpus then 8 else cpus
    else nThreads
  }

  /** A `*.gguf` file: its name, its path and what `stat()` reports (none
      when it raises). */
  datatype GgufFile = GgufFile(name: string, path: string, stat: Option<FileStat>)
  datatype FileStat = FileStat(sizeBytes: nat, mtime: real)

  const SizeTags: seq<string> := ["3b", "7b", "8b"]

  /** The priority of `sort_key`. */
  function Priority(name: string): (p: int)
    ensures var n := Lower(name);
      p == (if Contains(n, "instruct") then 1000 else 0)
         + (if Contains(n, "chat") then 500 else 0)
         + (if exists i | 0 <= i < |SizeTags| :: Contains(n, SizeTags[i]) then 100 else 0)
    ensures 0 <= p <= 1600
  {
    var nameLower := Lower(name);
    var priority := 0;
    var priority := if Contains(nameLower, "instruct") then priority + 1000 else priority;
    var priority := if Contains(nameLower, "chat") then priority + 500 else priority;
    if exists i | 0 <= i < |SizeTags| :: Contains(nameLower, SizeTags[i]) then priority + 100 else priority
  }

  /** The size score of `sort_key`: 10000 minus the size in MiB capped at
      9999, or 5000 when `stat` fails. Sizes are exact reals here. */
  function SizeScore(f: GgufFile): (s: real)
    ensures 1.0 <= s <= 10000.0
    ensures f.stat.None? ==> s == 5000.0
  {
    if f.stat.Some? then
      var sizeMb := (f.stat.value.sizeBytes as real) / (1024.0 * 1024.0);
      10000.0 - (if sizeMb < 9999.0 then sizeMb else 9999.0)
    else 5000.0
  }

  /** Python's `<=` on strings: code point by code point, a prefix first. */
  predicate StrLe(a: string, b: string)
    decreases |a|
  {
    if |a| == 0 then true
    else if |b| == 0 then false
    else if a[0] != b[0] then a[0] < b[0]
    else StrLe(a[1..], b[1..])
  }

  lemma {:induction false} StrLeTotal(a: string, b: string)
    ensures StrLe(a, b) || StrLe(b, a)
    decreases |a|
  {
    if |a| > 0 && |b| > 0 && a[0] == b[0] {
      StrLeTotal(a[1..], b[1..]);
    }
  }

  lemma {:induction false} StrLeTrans(a: string, b: string, c: string)
    requires StrLe(a, b) && StrLe(b, c)
    ensures StrLe(a, c)
    decreases |a|
  {
    if |a| > 0 && |b| > 0 && |c| > 0 && a[0] == b[0] && b[0] == c[0] {
      StrLeTrans(a[1..], b[1..], c[1..]);
    }
  }

  /** What `sort_key` computes for a file, kept positive here:
      `(-priority, -size_score, lower-cased name)` ascending is priority and
      size score descending, then the name ascending. */
  datatype SortKey = SortKey(priority: int, sizeScore: real, lowerName: string)

  /** `sort_key`. */
  function KeyOf(f: GgufFile): SortKey {
    SortKey(Priority(f.name), SizeScore(f), Lower(f.name))
  }

  /** Python's tuple `<=` on the keys: higher priority first, then the
      higher size score (the smaller file), then the name. */
  predicate KeyOrder(a: SortKey, b: SortKey) {
    || a.priority > b.priority
    || (a.priority == b.priority && (a.sizeScore > b.sizeScore || (a.sizeScore == b.sizeScore && StrLe(a.lowerName, b.lowerName))))
  }

  lemma KeyOrderTotal(a: SortKey, b: SortKey)
    ensures KeyOrder(a, b) || KeyOrder(b, a)
  {
    StrLeTotal(a.lowerName, b.lowerName);
  }

  lemma KeyOrderTrans(a: SortKey, b: SortKey, c: SortKey)
    requires KeyOrder(a, b) && KeyOrder(b, c)
    ensures KeyOrder(a, c)
  {
    if a.priority == b.priority == c.priority && a.sizeScore == b.sizeScore == c.sizeScore {
      StrLeTrans(a.lowerName, b.lowerName, c.lowerName);
    }
  }

  /** The order `sorted(gguf_files, key=sort_key)` puts the files in. */
  predicate KeyLe(a: GgufFile, b: GgufFile) {
    KeyOrder(KeyOf(a), KeyOf(b))
  }

  /** `s` is in ascending order of `key`. */
  predicate SortedBy<T>(s: seq<T>, key: T -> SortKey) {
    forall i, j | 0 <= i < j < |s| :: KeyOrder(key(s[i]), key(s[j]))
  }

  /** Insertion of one element into a list, before the first element it
      comes no later than. */
  function Insert<T>(x: T, s: seq<T>, key: T -> SortKey): (r: seq<T>)
    ensures multiset(r) == multiset(s) + multiset{x}
    ensures |r| == |s| + 1
  {
    if |s| == 0 then [x]
    else if KeyOrder(key(x), key(s[0])) then [x] + s
    else
      assert s == [s[0]] + s[1..];
      [s[0]] + Insert(x, s[1..], key)
  }

  /** An element no later than `x` and than every element of `s` is no
      later than any element of the list after insertion. */
  lemma {:induction false} InsertLowerBound<T>(y: T, x: T, s: seq<T>, key: T -> SortKey)
    requires KeyOrder(key(y), key(x))
    requires forall i | 0 <= i < |s| :: KeyOrder(key(y), key(s[i]))
    ensures forall i | 0 <= i < |Insert(x, s, key)| :: KeyOrder(key(y), key(Insert(x, s, key)[i]))
  {
    if |s| > 0 && !KeyOrder(key(x), key(s[0])) {
      InsertLowerBound(y, x, s[1..], key);
      assert Insert(x, s, key) == [s[0]] + Insert(x, s[1..], key);
    }
  }

  lemma {:induction false} InsertSorted<T>(x: T, s: seq<T>, key: T -> SortKey)
    requires SortedBy(s, key)
    ensures SortedBy(Insert(x, s, key), key)
  {
    if |s| > 0 {
      if KeyOrder(key(x), key(s[0])) {
        var r := [x] + s;
        forall i, j | 0 <= i < j < |r| ensures KeyOrder(key(r[i]), key(r[j])) {
          if i == 0 && j > 1 {
            KeyOrderTrans(key(x), key(s[0]), key(s[j - 1]));
          }
        }
      } else {
        KeyOrderTotal(key(x), key(s[0]));
        var rest := Insert(x, s[1..], key);
        InsertSorted(x, s[1..], key);
        assert forall i | 0 <= i < |s[1..]| :: KeyOrder(key(s[0]), key(s[1..][i])) by {
          forall i | 0 <= i < |s[1..]| ensures KeyOrder(key(s[0]), key(s[1..][i])) {
            assert s[1..][i] == s[i + 1];
          }
        }
        InsertLowerBound(s[0], x, s[1..], key);
        var r := [s[0]] + rest;
        assert Insert(x, s, key) == r;
        forall i, j | 0 <= i < j < |r| ensures KeyOrder(key(r[i]), key(r[j])) {
          if i > 0 {
            assert r[i] == rest[i - 1] && r[j] == rest[j - 1];
          } else {
            assert r[j] == rest[j - 1];
          }
        }
      }
    }
  }

  /** Python's `sorted(xs, key=key)`: ordered by the key and a permutation
      of the input. */
  function SortBy<T>(xs: seq<T>, key: T -> SortKey): (r: seq<T>)
    ensures SortedBy(r, key)
    ensures multiset(r) == multiset(xs)
    ensures |r| == |xs|
  {
    if |xs| == 0 then []
    else
      assert xs == [xs[0]] + xs[1..];
      var rest := SortBy(xs[1..], key);
      InsertSorted(xs[0], rest, key);
      Insert(xs[0], rest, key)
  }

  /** `get_available_models`: the `*.gguf` files of the models directory,
      best first; none when the directory is missing. */
  function AvailableModels(dirExists: bool, listing: seq<GgufFile>): (r: seq<GgufFile>)
    ensures !dirExists ==> r == []
    ensures SortedBy(r, KeyOf)
    ensures dirExists ==> multiset(r) == multiset(GgufOnly(listing))
  {
    if !dirExists then [] else SortBy(GgufOnly(listing), KeyOf)
  }

  /** `glob("*.gguf")`. */
  function GgufOnly(listing: seq<GgufFile>): (r: seq<GgufFile>)
    ensures forall f :: f in r <==> f in listing && EndsWith(f.name, ".gguf")
  {
    if |listing| == 0 then []
    else (if EndsWith(listing[0].name, ".gguf") then [listing[0]] else []) + GgufOnly(listing[1..])
  }

  /** `get_primary_model`: the first model in that order, or none. */
  function PrimaryModel(dirExists: bool, listing: seq<GgufFile>): (r: Option<GgufFile>)
    ensures r.None? <==> AvailableModels(dirExists, listing) == []
    ensures r.Some? ==> r.value in AvailableModels(dirExists, listing)
    ensures r.Some? ==> forall f | f in AvailableModels(dirExists, listing) :: KeyLe(r.value, f)
  {
    var models := AvailableModels(dirExists, listing);
    if models == [] then None
    else
      KeyLeRefl(models[0]);
      Some(models[0])
  }

  lemma KeyLeRefl(a: GgufFile)
    ensures KeyLe(a, a)
  {
    KeyOrderTotal(KeyOf(a), KeyOf(a));
  }

  /** The primary model has the highest priority among the GGUF files found. */
  lemma PrimaryHasTopPriority(listing: seq<GgufFile>, f: GgufFile)
    requires f in listing && EndsWith(f.name, ".gguf")
    ensures PrimaryModel(true, listing).Some?
    ensures Priority(PrimaryModel(true, listing).value.name) >= Priority(f.name)
  {
    var models := AvailableModels(true, listing);
    assert f in multiset(GgufOnly(listing));
    assert f in models;
  }

  /** One entry of `get_model_info`'s `models` list. */
  datatype ModelDetail =
    | Detail(name: string, path: string, sizeMb: real, modified: real, isPrimary: bool)
    | DetailError(name: string, path: string, isPrimary: bool)

  datatype ModelReport = ModelReport(
    modelsDirectory: string,
    totalModels: nat,
    primaryModel: Option<string>,
    models: seq<ModelDetail>,
    autoDetectEnabled: bool)

  function Details(models: seq<GgufFile>, primary: Option<GgufFile>): (r: seq<ModelDetail>)
    ensures |r| == |models|
    ensures forall i | 0 <= i < |models| :: r[i].name == models[i].name && r[i].path == models[i].path
    ensures forall i | 0 <= i < |models| :: r[i].DetailError? <==> models[i].stat.None?
    ensures forall i | 0 <= i < |models| ::
      r[i].isPrimary <==> models[i].stat.Some? && primary.Some? && models[i].path == primary.value.path
  {
    if |models| == 0 then []
    else [DetailOf(models[0], primary)] + Details(models[1..], primary)
  }

  /** The entry of one model: its figures when `stat` succeeds, the error
      entry (never primary) when it fails. */
  function DetailOf(m: GgufFile, primary: Option<GgufFile>): ModelDetail {
    if m.stat.Some? then
      Detail(m.name, m.path, (m.stat.value.sizeBytes as real) / (1024.0 * 1024.0), m.stat.value.mtime,
             primary.Some? && m.path == primary.value.path)
    else DetailError(m.name, m.path, false)
  }

  /** Entry `k` of the list is the entry of model `k`. */
  lemma {:induction false} DetailsAt(models: seq<GgufFile>, primary: Option<GgufFile>)
    ensures forall k | 0 <= k < |models| :: Details(models, primary)[k] == DetailOf(models[k], primary)
  {
    if |models| > 0 {
      DetailsAt(models[1..], primary);
      forall k | 1 <= k < |models|
        ensures Details(models, primary)[k] == DetailOf(models[k], primary)
      {
        assert models[1..][k - 1] == models[k];
      }
    }
  }

  /** The loop of `get_model_info`: one entry appended per model, in order. */
  method CollectDetails(models: seq<GgufFile>, primary: Option<GgufFile>) returns (details: seq<ModelDetail>)
    ensures details == Details(models, primary)
  {
    details := [];
    var i := 0;
    while i < |models|
      invariant 0 <= i <= |models| && |details| == i
      invariant forall k | 0 <= k < i :: details[k] == DetailOf(models[k], primary)
    {
      details := details + [DetailOf(models[i], primary)];
      i := i + 1;
    }
    DetailsAt(models, primary);
  }

  /** `get_model_info`. */
  function ModelInfo(modelsDir: string, dirExists: bool, listing: seq<GgufFile>, autoDetect: bool): (r: ModelReport)
    ensures r.totalModels == |AvailableModels(dirExists, listing)| == |r.models|
    ensures r.primaryModel.None? <==> r.totalModels == 0
    ensures r.modelsDirectory == modelsDir && r.autoDetectEnabled == autoDetect
  {
    var models := AvailableModels(dirExists, listing);
    var primary := PrimaryModel(dirExists, listing);
    ModelReport(modelsDir, |models|, if primary.Some? then Some(primary.value.name) else None,
                Details(models, primary), autoDetect)
  }

  /** With distinct paths, only the first entry can be the primary one, and
      it is marked as such exactly when its `stat` succeeds. */
  lemma OnlyPrimaryMarked(modelsDir: string, dirExists: bool, listing: seq<GgufFile>, autoDetect: bool)
    requires forall i, j | 0 <= i < j < |listing| :: listing[i].path != listing[j].path
    ensures var r := ModelInfo(modelsDir, dirExists, listing, autoDetect);
      && (forall i | 0 < i < |r.models| :: !r.models[i].isPrimary)
      && (|r.models| > 0 ==> (r.models[0].isPrimary <==> AvailableModels(dirExists, listing)[0].stat.Some?))
  {
    var models := AvailableModels(dirExists, listing);
    var r := ModelInfo(modelsDir, dirExists, listing, autoDetect);
    if dirExists {
      DistinctPathsKept(listing);
      SortKeepsDistinct(GgufOnly(listing), models);
    }
  }

  predicate DistinctPaths(s: seq<GgufFile>) {
    forall i, j | 0 <= i < j < |s| :: s[i].path != s[j].path
  }

  lemma {:induction false} DistinctPathsKept(listing: seq<GgufFile>)
    requires DistinctPaths(listing)
    ensures DistinctPaths(GgufOnly(listing))
  {
    if |listing| > 0 {
      DistinctPathsKept(listing[1..]);
      var rest := GgufOnly(listing[1..]);
      forall k | 0 <= k < |rest| ensures rest[k].path != listing[0].path {
        assert rest[k] in listing[1..];
      }
    }
  }

  /** A permutation of a list with distinct paths has distinct paths. */
  lemma SortKeepsDistinct(a: seq<GgufFile>, b: seq<GgufFile>)
    requires DistinctPaths(a) && multiset(a) == multiset(b)
    ensures DistinctPaths(b)
  {
    forall i, j | 0 <= i < j < |b| ensures b[i].path != b[j].path {
      if b[i].path == b[j].path {
        assert b[i] in multiset(a) && b[j] in multiset(a);
        var p :| 0 <= p < |a| && a[p] == b[i];
        var q :| 0 <= q < |a| && a[q] == b[j];
        if b[i] == b[j] {
          assert multiset(b)[b[i]] >= 2 by {
            assert b == b[..i] + [b[i]] + b[i + 1..j] + [b[j]] + b[j + 1..];
          }
          assert p == q;
          DistinctCount(a, p);
        }
      }
    }
  }

  /** In a list with distinct paths each element occurs once. */
  lemma DistinctCount(a: seq<GgufFile>, p: nat)
    requires DistinctPaths(a) && p < |a|
    ensures multiset(a)[a[p]] == 1
  {
    assert a == a[..p] + [a[p]] + a[p + 1..];
    assert a[p] !in a[..p] by {
      forall k | 0 <= k < p ensures a[..p][k] != a[p] { }
    }
    assert a[p] !in a[p + 1..] by {
      forall k | p + 1 <= k < |a| ensures a[k] != a[p] { }
    }
  }
}
