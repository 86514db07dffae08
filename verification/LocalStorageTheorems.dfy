/** What the local object store promises: all or nothing for one upload, and the behaviour of
    a plain map over every sequence of calls. */
module LocalStorageTheorems {
  import opened Prelude
  import opened Paths
  import opened LocalStorage
  import Decimals

  function Place(c: Config, key: string): Path { c.root + Resolved(key) }

  /** What an upload keeps of its stream. */
  function Retained(c: Config, stream: Bytes): Bytes { Limited(stream, Wrap(c.maxBytes + 1)) }

  /** How temporary files are named. */
  const RESERVED := ".upload-"

  lemma WrapLimit(n: int)
    requires 0 < n <= MAX_INT64
    ensures Wrap(n + 1) == if n < MAX_INT64 then n + 1 else -MAX_INT64 - 1
  {}

  /** An upload that is kept within the limit was read to its end, unless the limit plus one
      overflows. */
  lemma WholeStream(c: Config, stream: Bytes)
    requires Configured(c)
    ensures c.maxBytes < MAX_INT64 && |Retained(c, stream)| <= c.maxBytes ==> Retained(c, stream) == stream
    ensures c.maxBytes == MAX_INT64 ==> Retained(c, stream) == []
    ensures c.maxBytes < MAX_INT64 && |stream| <= c.maxBytes ==> Retained(c, stream) == stream
  {
    WrapLimit(c.maxBytes);
  }

  // --------------------------------------------------------------------- one upload

  /** An upload stores exactly what it kept under its key and nothing else, or changes no file
      but its own temporary one, which stays behind when its removal fails. A key that happens
      to be the name drawn for the temporary file is stored and then removed. */
  lemma PutAllOrNothing(
      d: Disk, c: Config, key: string, stream: Bytes, size: int, contentType: string, w: Weather)
    requires Configured(c)
    ensures
      var (t, r) := PutOutcome(d, c, key, stream, size, contentType, w);
      var temp := TempPath(Place(c, key), w);
      && (r.Err? ==> t.files == d.files || (!w.remove && temp !in d.files && LeftBehind(d, t, temp, stream)))
      && (r.Ok? ==>
            && Accepted(key) && |Retained(c, stream)| == size <= c.maxBytes
            && r.value == ObjectInfo(key, size, c.hash(Retained(c, stream)), contentType)
            && t.files == (if w.remove && temp == Place(c, key) then d.files
                           else d.files[Place(c, key) := Retained(c, stream)]))
  {
    hide PutOutcome;
    if PutOutcome(d, c, key, stream, size, contentType, w).1.Ok? {
      PutStores(d, c, key, stream, size, contentType, w);
    } else {
      PutLeaves(d, c, key, stream, size, contentType, w);
    }
  }

  lemma PutStores(d: Disk, c: Config, key: string, stream: Bytes, size: int, contentType: string, w: Weather)
    requires Configured(c) && PutOutcome(d, c, key, stream, size, contentType, w).1.Ok?
    ensures
      var (t, r) := PutOutcome(d, c, key, stream, size, contentType, w);
      && Accepted(key) && |Retained(c, stream)| == size <= c.maxBytes
      && r.value == ObjectInfo(key, size, c.hash(Retained(c, stream)), contentType)
      && t.files == (if w.remove && TempPath(Place(c, key), w) == Place(c, key) then d.files
                     else d.files[Place(c, key) := Retained(c, stream)])
  {
    KeysStayBelow(c.root, key);
    hide Locate, Accepted, Limited, Wrap, Resolved;
  }

  lemma PutLeaves(d: Disk, c: Config, key: string, stream: Bytes, size: int, contentType: string, w: Weather)
    requires Configured(c) && PutOutcome(d, c, key, stream, size, contentType, w).1.Err?
    ensures
      var t := PutOutcome(d, c, key, stream, size, contentType, w).0;
      var temp := TempPath(Place(c, key), w);
      t.files == d.files || (!w.remove && temp !in d.files && LeftBehind(d, t, temp, stream))
  {
    KeysStayBelow(c.root, key);
    LimitedPrefix(stream, Wrap(c.maxBytes + 1));
    hide Locate, Accepted, Limited, Wrap, Resolved;
  }

  /** The temporary file holds a prefix of the stream, and nothing else has changed. */
  ghost predicate LeftBehind(d: Disk, t: Disk, temp: Path, stream: Bytes) {
    temp in t.files && t.files[temp] <= stream && t.files == d.files[temp := t.files[temp]]
  }

  lemma LimitedPrefix(stream: Bytes, limit: int)
    ensures Limited(stream, limit) <= stream
    ensures forall k :: 0 <= k <= |Limited(stream, limit)| ==> Limited(stream, limit)[..k] <= stream
  {}

  /** The declared size is honest exactly when the limit is below the largest 64-bit number:
      at that number the limit wraps round and nothing is read at all. */
  lemma SizeHonest(c: Config)
    requires Configured(c)
    ensures
      (forall d, key, stream, size, contentType, w ::
         PutOutcome(d, c, key, stream, size, contentType, w).1.Ok? ==> |stream| == size)
      <==> c.maxBytes < MAX_INT64
  {
    if c.maxBytes < MAX_INT64 {
      forall d, key, stream, size, contentType, w
        | PutOutcome(d, c, key, stream, size, contentType, w).1.Ok?
        ensures |stream| == size
      {
        KeysStayBelow(c.root, key);
        WholeStream(c, stream);
      }
    } else {
      EmptiedUpload(c);
    }
  }

  lemma OneLetterKey(root: Path)
    requires IsClean(root)
    ensures Locate(root, "a") == Some(root + ["a"])
  {
    KeysStayBelow(root, "a");
    assert Split("") == [""];
    assert "a"[1..] == "" && ['a'] + "" == "a";
    assert Split("a") == ["a"];
    assert Paths.Kept(["a"]) == ["a"];
  }

  /** The counterexample: one byte sent, none declared, none kept, and the upload succeeds. */
  lemma EmptiedUpload(c: Config)
    requires Configured(c) && c.maxBytes == MAX_INT64
    ensures PutOutcome(NewDisk(c), c, "a", [0], 0, "", FAIR).1.Ok?
  {
    OneLetterKey(c.root);
    WholeStream(c, [0]);
    var p := c.root + ["a"];
    assert Parent(p) == c.root;
    assert |TempPath(p, FAIR)| > |c.root|;
  }

  /** At that limit every upload that declares any bytes is refused. */
  lemma NothingFits(d: Disk, c: Config, key: string, stream: Bytes, size: int, contentType: string, w: Weather)
    requires Configured(c) && c.maxBytes == MAX_INT64 && size > 0
    ensures PutOutcome(d, c, key, stream, size, contentType, w).1.Err?
  {
    KeysStayBelow(c.root, key);
    WholeStream(c, stream);
  }

  function Last(p: Path): string
    requires p != []
  {
    p[|p| - 1]
  }

  lemma LastDecides(c: Config, key: string, w: Weather)
    requires Resolved(key) != []
    ensures TempPath(Place(c, key), w) == Place(c, key) <==> Last(Resolved(key)) == TempName(w.draw)
  {
    var p := Place(c, key);
    assert p == Parent(p) + [Last(Resolved(key))];
  }

  /** A successful upload can be read back exactly when the name drawn for its temporary file
      is not the last element of its own key, or that file could not be removed. */
  lemma ReadBack(d: Disk, c: Config, key: string, stream: Bytes, size: int, contentType: string, w: Weather)
    requires Configured(c)
    ensures
      var (t, r) := PutOutcome(d, c, key, stream, size, contentType, w);
      r.Ok? ==>
        && Resolved(key) != []
        && (GetOutcome(t, c, key) == Ok(Object(Retained(c, stream), key, size))
            <==> !w.remove || Last(Resolved(key)) != TempName(w.draw))
  {
    KeysStayBelow(c.root, key);
    PutAllOrNothing(d, c, key, stream, size, contentType, w);
    if PutOutcome(d, c, key, stream, size, contentType, w).1.Ok? {
      LastDecides(c, key, w);
      OkMeansFree(d, c, key, stream, size, contentType, w);
    }
  }

  lemma OkMeansFree(d: Disk, c: Config, key: string, stream: Bytes, size: int, contentType: string, w: Weather)
    requires Configured(c) && PutOutcome(d, c, key, stream, size, contentType, w).1.Ok?
    ensures TempPath(Place(c, key), w) !in d.files
    ensures Place(c, key) !in PutOutcome(d, c, key, stream, size, contentType, w).0.dirs
  {
    KeysStayBelow(c.root, key);
  }

  /** A name that `CreateTemp` can draw: the fixed prefix and a numeral without leading zeros. */
  predicate IsTempName(e: string) {
    && RESERVED <= e && |e| > |RESERVED|
    && Decimals.AllDigits(e[|RESERVED|..]) && (e[|RESERVED|] == '0' ==> |e| == |RESERVED| + 1)
  }

  lemma TempNames(e: string)
    ensures IsTempName(e) <==> exists n: nat :: e == TempName(n)
  {
    if IsTempName(e) {
      var digits := e[|RESERVED|..];
      Decimals.ValueDecimal(digits);
      assert e == TempName(Decimals.Value(digits));
    }
    forall n: nat ensures IsTempName(TempName(n)) {
      Decimals.DecimalNoZero(n);
      assert TempName(n)[|RESERVED|..] == Decimals.Decimal(n);
    }
  }

  /** The weather in which `draw` is drawn and nothing else goes wrong. */
  function Drawing(draw: nat): Weather { FAIR.(draw := draw) }

  /** An empty upload whose key ends in the drawn name succeeds and is gone. */
  lemma VanishedUpload(c: Config, key: string, draw: nat)
    requires Configured(c) && Accepted(key) && Resolved(key) != [] && Last(Resolved(key)) == TempName(draw)
    ensures var (t, r) := PutOutcome(NewDisk(c), c, key, [], 0, "", Drawing(draw));
      r.Ok? && GetOutcome(t, c, key) == Err(Io)
  {
    var p, w := Place(c, key), Drawing(draw);
    KeysStayBelow(c.root, key);
    LastDecides(c, key, w);
    assert |p| > |c.root| && |Parent(p)| < |p|;
  }

  /** The counterexample: key `a/.upload-0`, draw 0, otherwise fair weather. */
  lemma VanishedExample(c: Config)
    requires Configured(c)
    ensures Accepted("a/.upload-0")
    ensures var (t, r) := PutOutcome(NewDisk(c), c, "a/.upload-0", [], 0, "", Drawing(0));
      r.Ok? && GetOutcome(t, c, "a/.upload-0") == Err(Io)
  {
    ExampleAccepted();
    ExampleResolved();
    assert Decimals.Decimal(0) == "0" && TempName(0) == ".upload-0";
    hide Accepted, Resolved;
    VanishedUpload(c, "a/.upload-0", 0);
  }

  lemma ExampleAccepted()
    ensures Accepted("a/.upload-0")
  {
    hide Split;
  }

  lemma ExampleResolved()
    ensures Resolved("a/.upload-0") == ["a", ".upload-0"]
  {
    assert "a/.upload-0" == "a" + ("/" + ".upload-0");
    SplitTwo("a", ".upload-0");
    hide Split;
    KeptAll(["a", ".upload-0"]);
  }

  lemma SplitTwo(a: string, b: string)
    requires '/' !in a && '/' !in b
    ensures Split(a + ("/" + b)) == [a, b]
  {
    SplitFirst(a, b);
    SplitPlain(b);
  }

  /** Every successful upload under a key is read back, whatever is drawn, exactly when the
      key's last element is not the reserved prefix and a numeral. */
  lemma AlwaysReadBack(c: Config, key: string)
    requires Configured(c) && Accepted(key)
    ensures Resolved(key) != []
    ensures
      (forall d, stream, size, contentType, w ::
         PutOutcome(d, c, key, stream, size, contentType, w).1.Ok? ==>
           GetOutcome(PutOutcome(d, c, key, stream, size, contentType, w).0, c, key)
           == Ok(Object(Retained(c, stream), key, size)))
      <==> !IsTempName(Last(Resolved(key)))
  {
    ResolvedClean(key);
    var last := Last(Resolved(key));
    TempNames(last);
    if IsTempName(last) {
      var n: nat :| last == TempName(n);
      VanishedUpload(c, key, n);
      var w := Drawing(n);
      assert PutOutcome(NewDisk(c), c, key, [], 0, "", w).1.Ok?;
    } else {
      forall d, stream, size, contentType, w
        | PutOutcome(d, c, key, stream, size, contentType, w).1.Ok?
        ensures GetOutcome(PutOutcome(d, c, key, stream, size, contentType, w).0, c, key)
             == Ok(Object(Retained(c, stream), key, size))
      {
        ReadBack(d, c, key, stream, size, contentType, w);
      }
    }
  }

  // ------------------------------------------------------------------ a set of keys

  /** What callers keep to: accepted keys in normal form, none of them a directory of another,
      no element that could be the name of a temporary file. */
  ghost predicate KeySpace(keys: set<string>) {
    && (forall k :: k in keys ==> Accepted(k) && IsNormal(k) && Unreserved(k))
    && (forall k, l :: k in keys && l in keys ==> !(k + "/" <= l))
  }

  predicate Unreserved(key: string) {
    forall i :: 0 <= i < |Split(key)| ==> !(RESERVED <= Split(key)[i])
  }

  lemma {:induction false} UnsplitAppend(a: seq<string>, b: seq<string>)
    requires |a| > 0 && |b| > 0
    ensures Unsplit(a + b) == Unsplit(a) + ("/" + Unsplit(b))
    decreases |a|
  {
    if |a| == 1 {
      assert (a + b)[1..] == b;
    } else {
      UnsplitAppend(a[1..], b);
      assert (a + b)[1..] == a[1..] + b;
      assert a[0] + ("/" + (Unsplit(a[1..]) + ("/" + Unsplit(b)))) == a[0] + ("/" + Unsplit(a[1..])) + ("/" + Unsplit(b));
    }
  }

  lemma SplitPrefix(k: string, l: string)
    requires Split(k) <= Split(l)
    ensures k == l || k + "/" <= l
  {
    var a, b := Split(k), Split(l);
    UnsplitSplit(k);
    UnsplitSplit(l);
    assert b == a + b[|a|..];
    if |a| < |b| { UnsplitAppend(a, b[|a|..]); } else { assert a == b; }
  }

  /** Then no key's place lies on the way to another's. */
  lemma PlacesApart(c: Config, keys: set<string>, k: string, l: string)
    requires KeySpace(keys) && k in keys && l in keys && Place(c, k) <= Place(c, l)
    ensures k == l
  {
    KeptAll(Split(k));
    KeptAll(Split(l));
    var a, b := Split(k), Split(l);
    forall i | 0 <= i < |a| ensures a[i] == b[i] {
      assert Place(c, k)[|c.root| + i] == Place(c, l)[|c.root| + i];
    }
    SplitPrefix(k, l);
  }

  /** What a failed removal leaves: a file below the root with a reserved name. */
  predicate IsLeftover(c: Config, p: Path) {
    |p| > |c.root| && RESERVED <= Last(p)
  }

  /** Every file is an object of one of the keys or left over, every directory on the way to a
      key. */
  ghost predicate Tidy(d: Disk, c: Config, keys: set<string>) {
    && (forall p :: p in d.files ==> IsLeftover(c, p) || exists k :: k in keys && p == Place(c, k))
    && (forall p :: p in d.dirs ==> p <= c.root || exists k :: k in keys && p < Place(c, k))
  }

  lemma PlaceBelow(c: Config, keys: set<string>, key: string)
    requires KeySpace(keys) && key in keys
    ensures Resolved(key) != [] && Place(c, key) != [] && |Place(c, key)| > |c.root|
    ensures Parent(Place(c, key)) < Place(c, key)
    ensures forall i :: 0 <= i < |Resolved(key)| ==> !(RESERVED <= Resolved(key)[i])
  {
    ResolvedClean(key);
    KeptAll(Split(key));
  }

  lemma PlaceNoDir(d: Disk, c: Config, keys: set<string>, key: string)
    requires KeySpace(keys) && key in keys && Tidy(d, c, keys)
    ensures Place(c, key) !in d.dirs
  {
    var p := Place(c, key);
    PlaceBelow(c, keys, key);
    if p in d.dirs {
      var k :| k in keys && p < Place(c, k);
      PlacesApart(c, keys, key, k);
    }
  }

  /** No part of the way to a key is left over from an upload. */
  lemma NotLeftover(c: Config, keys: set<string>, key: string, i: nat)
    requires KeySpace(keys) && key in keys && i <= |Place(c, key)|
    ensures !IsLeftover(c, Place(c, key)[..i])
  {
    PlaceBelow(c, keys, key);
    var p := Place(c, key);
    assert i > |c.root| ==> Last(p[..i]) == Resolved(key)[i - 1 - |c.root|];
  }

  lemma WayClear(d: Disk, c: Config, keys: set<string>, key: string)
    requires KeySpace(keys) && key in keys && Tidy(d, c, keys)
    ensures !FileOnWay(d, Parent(Place(c, key)))
  {
    var p := Place(c, key);
    PlaceBelow(c, keys, key);
    if FileOnWay(d, Parent(p)) {
      var i :| 0 <= i <= |Parent(p)| && Parent(p)[..i] in d.files;
      NotLeftover(c, keys, key, i);
      var k :| k in keys && Parent(p)[..i] == Place(c, k);
      PlacesApart(c, keys, k, key);
    }
  }

  /** No key's place, and no directory on the way to one, has a temporary file's name. */
  lemma TempApart(c: Config, keys: set<string>, key: string, k: string, w: Weather)
    requires KeySpace(keys) && key in keys && k in keys
    ensures !(TempPath(Place(c, key), w) <= Place(c, k))
  {
    var temp := TempPath(Place(c, key), w);
    PlaceBelow(c, keys, key);
    PlaceBelow(c, keys, k);
    var n, name := |temp| - 1, TempName(w.draw);
    assert temp[n] == name && RESERVED <= name && n >= |c.root|;
    assert n < |Place(c, k)| ==> Place(c, k)[n] == Resolved(k)[n - |c.root|] != name;
  }

  lemma MkdirTidy(d: Disk, c: Config, keys: set<string>, key: string, w: Weather)
    requires KeySpace(keys) && key in keys && Tidy(d, c, keys)
    ensures
      var (made, ready) := MkdirAll(d, Parent(Place(c, key)), w);
      && Tidy(made, c, keys) && made.files == d.files && (ready <==> w.mkdir.None?)
      && TempPath(Place(c, key), w) !in made.dirs
  {
    var p := Place(c, key);
    var (made, ready) := MkdirAll(d, Parent(p), w);
    WayClear(d, c, keys, key);
    PlaceBelow(c, keys, key);
    forall q | q in made.dirs ensures q <= c.root || exists k :: k in keys && q < Place(c, k) {
      if q !in d.dirs { assert q < Place(c, key); }
    }
    var temp := TempPath(p, w);
    if temp in made.dirs {
      assert |temp| > |c.root|;
      var k :| k in keys && temp < Place(c, k);
      TempApart(c, keys, key, k, w);
    }
  }

  // --------------------------------------------------------------------- a plain map

  /** The store seen as a map from keys to bytes. */
  function View(d: Disk, c: Config, keys: set<string>): map<string, Bytes> {
    map k | k in keys && Place(c, k) in d.files :: d.files[Place(c, k)]
  }

  ghost predicate Usable(d: Disk, c: Config, keys: set<string>) {
    Configured(c) && c.maxBytes < MAX_INT64 && KeySpace(keys) && Tidy(d, c, keys)
  }

  lemma PlacesDistinct(c: Config, keys: set<string>, key: string)
    requires KeySpace(keys) && key in keys
    ensures forall k :: k in keys && Place(c, k) == Place(c, key) ==> k == key
  {
    forall k | k in keys && Place(c, k) == Place(c, key) ensures k == key { PlacesApart(c, keys, k, key); }
  }

  lemma ViewUpdate(d: Disk, t: Disk, c: Config, keys: set<string>, key: string, data: Bytes)
    requires KeySpace(keys) && key in keys && t.files == d.files[Place(c, key) := data]
    ensures View(t, c, keys) == View(d, c, keys)[key := data]
  {
    PlacesDistinct(c, keys, key);
    hide KeySpace, Place;
  }

  lemma ViewRemove(d: Disk, t: Disk, c: Config, keys: set<string>, key: string)
    requires KeySpace(keys) && key in keys && t.files == d.files - {Place(c, key)}
    ensures View(t, c, keys) == View(d, c, keys) - {key}
  {
    PlacesDistinct(c, keys, key);
    hide KeySpace, Place;
  }

  /** A leftover is no key's object. */
  lemma ViewLeftover(d: Disk, t: Disk, c: Config, keys: set<string>, key: string, w: Weather)
    requires KeySpace(keys) && key in keys
    requires var temp := TempPath(Place(c, key), w); temp in t.files && t.files == d.files[temp := t.files[temp]]
    ensures View(t, c, keys) == View(d, c, keys)
  {
    forall k | k in keys ensures Place(c, k) != TempPath(Place(c, key), w) { TempApart(c, keys, key, k, w); }
    hide KeySpace, Place, TempPath;
  }

  /** The directories after an upload are those the first step made. */
  lemma PutDirs(d: Disk, c: Config, key: string, stream: Bytes, size: int, contentType: string, w: Weather)
    requires Configured(c) && Accepted(key)
    ensures
      var t := PutOutcome(d, c, key, stream, size, contentType, w).0;
      t.dirs == d.dirs || t.dirs == MkdirAll(d, Parent(Place(c, key)), w).0.dirs
  {
    KeysStayBelow(c.root, key);
  }

  lemma TempIsLeftover(c: Config, keys: set<string>, key: string, w: Weather)
    requires KeySpace(keys) && key in keys
    ensures IsLeftover(c, TempPath(Place(c, key), w))
  {
    PlaceBelow(c, keys, key);
    assert RESERVED <= TempName(w.draw);
  }

  lemma PutTidy(
      d: Disk, c: Config, keys: set<string>, key: string, stream: Bytes, size: int, contentType: string, w: Weather)
    requires Usable(d, c, keys) && key in keys
    ensures Tidy(PutOutcome(d, c, key, stream, size, contentType, w).0, c, keys)
  {
    PutAllOrNothing(d, c, key, stream, size, contentType, w);
    PutDirs(d, c, key, stream, size, contentType, w);
    MkdirTidy(d, c, keys, key, w);
    TempIsLeftover(c, keys, key, w);
    hide PutOutcome, MkdirAll, IsLeftover, KeySpace, Configured;
  }

  lemma PutFair(
      d: Disk, c: Config, keys: set<string>, key: string, stream: Bytes, size: int, contentType: string, w: Weather)
    requires Usable(d, c, keys) && key in keys && Fair(w) && TempPath(Place(c, key), w) !in d.files
    ensures
      PutOutcome(d, c, key, stream, size, contentType, w).1.Ok? <==> 0 <= size <= c.maxBytes && |stream| == size
  {
    KeysStayBelow(c.root, key);
    WholeStream(c, stream);
    MkdirTidy(d, c, keys, key, w);
    PlaceNoDir(MkdirAll(d, Parent(Place(c, key)), w).0, c, keys, key);
  }

  /** Which error an operation reports: a declared size out of range before anything else, then
      a key that is not accepted; and where nothing else fails, a stream of another length. */
  lemma ErrorsExactly(
      d: Disk, c: Config, key: string, stream: Bytes, size: int, contentType: string, w: Weather)
    requires Configured(c)
    ensures
      var r := PutOutcome(d, c, key, stream, size, contentType, w).1;
      && (r == Err(TooLarge) <==> size < 0 || size > c.maxBytes)
      && (r == Err(UnsafeKey) <==> 0 <= size <= c.maxBytes && !Accepted(key))
    ensures GetOutcome(d, c, key) == Err(UnsafeKey) <==> !Accepted(key)
    ensures DeleteOutcome(d, c, key, w) == (d, Err(UnsafeKey)) <==> !Accepted(key)
  {
    KeysStayBelow(c.root, key);
  }

  lemma MismatchExactly(
      d: Disk, c: Config, keys: set<string>, key: string, stream: Bytes, size: int, contentType: string, w: Weather)
    requires Usable(d, c, keys) && key in keys && Fair(w) && TempPath(Place(c, key), w) !in d.files
    ensures
      PutOutcome(d, c, key, stream, size, contentType, w).1 == Err(LengthMismatch)
      <==> 0 <= size <= c.maxBytes && |stream| != size
  {
    KeysStayBelow(c.root, key);
    WholeStream(c, stream);
    MkdirTidy(d, c, keys, key, w);
    PlaceNoDir(MkdirAll(d, Parent(Place(c, key)), w).0, c, keys, key);
  }

  /** An upload is an update of the map with the whole declared stream, or nothing, whatever
      fails; if no call to the system fails and the drawn name is free, it is refused only for
      its size. */
  lemma PutRefines(
      d: Disk, c: Config, keys: set<string>, key: string, stream: Bytes, size: int, contentType: string, w: Weather)
    requires Usable(d, c, keys) && key in keys
    ensures
      var (t, r) := PutOutcome(d, c, key, stream, size, contentType, w);
      && Usable(t, c, keys)
      && (r.Ok? ==>
            && View(t, c, keys) == View(d, c, keys)[key := stream] && |stream| == size
            && r.value == ObjectInfo(key, size, c.hash(stream), contentType))
      && (r.Err? ==> View(t, c, keys) == View(d, c, keys))
      && (Fair(w) && TempPath(Place(c, key), w) !in d.files ==>
            (r.Ok? <==> 0 <= size <= c.maxBytes && |stream| == size))
  {
    hide PutOutcome, KeySpace, Tidy, View;
    var (t, r) := PutOutcome(d, c, key, stream, size, contentType, w);
    PutTidy(d, c, keys, key, stream, size, contentType, w);
    PutAllOrNothing(d, c, key, stream, size, contentType, w);
    if r.Ok? {
      WholeStream(c, stream);
      TempApart(c, keys, key, key, w);
      ViewUpdate(d, t, c, keys, key, stream);
    } else if t.files == d.files {
      ViewSame(d, t, c, keys);
    } else {
      ViewLeftover(d, t, c, keys, key, w);
    }
    if Fair(w) && TempPath(Place(c, key), w) !in d.files { PutFair(d, c, keys, key, stream, size, contentType, w); }
  }

  lemma ViewSame(d: Disk, t: Disk, c: Config, keys: set<string>)
    requires t.files == d.files
    ensures View(t, c, keys) == View(d, c, keys)
  {}

  lemma DeleteRefines(d: Disk, c: Config, keys: set<string>, key: string, w: Weather)
    requires Usable(d, c, keys) && key in keys
    ensures
      var (t, r) := DeleteOutcome(d, c, key, w);
      && Usable(t, c, keys)
      && View(t, c, keys) == (if r.Ok? then View(d, c, keys) - {key} else View(d, c, keys))
      && (w.remove ==> r.Ok?)
  {
    var (t, r) := DeleteOutcome(d, c, key, w);
    KeysStayBelow(c.root, key);
    PlaceNoDir(d, c, keys, key);
    WayClear(d, c, keys, key);
    if r.Ok? {
      assert t.files == d.files - {Place(c, key)};
      ViewRemove(d, t, c, keys, key);
    }
  }

  lemma GetRefines(d: Disk, c: Config, keys: set<string>, key: string)
    requires Usable(d, c, keys) && key in keys
    ensures
      var m := View(d, c, keys);
      GetOutcome(d, c, key) == if key in m then Ok(Object(m[key], key, |m[key]|)) else Err(Io)
  {
    KeysStayBelow(c.root, key);
    PlaceNoDir(d, c, keys, key);
  }

  // ------------------------------------------------------------------------ a file tree

  /** The disk is a tree: everything lies in a directory, and no place is both kinds. */
  ghost predicate Tree(d: Disk) {
    && (forall p :: p in d.files ==> p != [] && Parent(p) in d.dirs && p !in d.dirs)
    && (forall p :: p in d.dirs && p != [] ==> Parent(p) in d.dirs)
  }

  lemma MkdirTree(d: Disk, p: Path, w: Weather)
    requires Tree(d)
    ensures var (made, ready) := MkdirAll(d, p, w);
      Tree(made) && made.files == d.files && (ready ==> p in made.dirs)
  {
    var made := MkdirAll(d, p, w).0;
    if !FileOnWay(d, p) {
      forall q | q in made.dirs && q !in d.dirs
        ensures q !in d.files && (q != [] ==> Parent(q) in made.dirs)
      {
        var i :| 0 <= i <= |p| && q == p[..i];
        if i > 0 { assert Parent(q) == p[..i - 1]; }
      }
      assert p[..|p|] == p;
    }
  }

  lemma FileTree(d: Disk, p: Path, data: Bytes)
    requires Tree(d) && p != [] && Parent(p) in d.dirs && p !in d.dirs
    ensures Tree(d.(files := d.files[p := data]))
  {}

  lemma PutTree(d: Disk, c: Config, key: string, stream: Bytes, size: int, contentType: string, w: Weather)
    requires Configured(c) && Tree(d)
    ensures Tree(PutOutcome(d, c, key, stream, size, contentType, w).0)
  {
    KeysStayBelow(c.root, key);
    if 0 <= size <= c.maxBytes && Accepted(key) {
      var p := Place(c, key);
      var (made, ready) := MkdirAll(d, Parent(p), w);
      MkdirTree(d, Parent(p), w);
      var temp := TempPath(p, w);
      if ready && w.create && Free(made, temp) {
        assert Parent(temp) == Parent(p);
        var written := Copied(stream, Wrap(c.maxBytes + 1), w).0;
        FileTree(made, temp, written);
        if p !in made.dirs { FileTree(made.(files := made.files[temp := written] - {temp}), p, written); }
      }
    }
  }

  lemma DeleteTree(d: Disk, c: Config, key: string, w: Weather)
    requires Configured(c) && Tree(d)
    ensures Tree(DeleteOutcome(d, c, key, w).0)
  {
    KeysStayBelow(c.root, key);
  }

  // ------------------------------------------------------------------------- every run

  datatype Call =
    | PutCall(key: string, stream: Bytes, size: int, contentType: string, w: Weather)
    | DeleteCall(key: string, w: Weather)

  function Apply(d: Disk, c: Config, call: Call): (Disk, bool) {
    match call
    case PutCall(key, stream, size, contentType, w) =>
      var (t, r) := PutOutcome(d, c, key, stream, size, contentType, w);
      (t, r.Ok?)
    case DeleteCall(key, w) =>
      var (t, r) := DeleteOutcome(d, c, key, w);
      (t, r.Ok?)
  }

  function MapApply(m: map<string, Bytes>, call: Call): map<string, Bytes> {
    match call
    case PutCall(key, stream, _, _, _) => m[key := stream]
    case DeleteCall(key, _) => m - {key}
  }

  function Run(d: Disk, c: Config, calls: seq<Call>): Disk {
    if calls == [] then d
    else Apply(Run(d, c, calls[..|calls| - 1]), c, calls[|calls| - 1]).0
  }

  /** The same calls on a map; those that reported an error are left out. */
  function MapRun(d: Disk, c: Config, calls: seq<Call>): map<string, Bytes> {
    if calls == [] then map[]
    else
      var n := |calls| - 1;
      var m := MapRun(d, c, calls[..n]);
      if Apply(Run(d, c, calls[..n]), c, calls[n]).1 then MapApply(m, calls[n]) else m
  }

  /** Whatever is called with whatever keys and whatever fails, the disk stays a tree: no file
      loses its directory, and none lies where a directory is. */
  lemma {:induction false} AlwaysTree(c: Config, calls: seq<Call>)
    requires Configured(c)
    ensures Tree(Run(NewDisk(c), c, calls))
    decreases |calls|
  {
    if calls == [] {
      NewTree(c);
    } else {
      hide Tree, PutOutcome, DeleteOutcome, NewDisk;
      var n := |calls| - 1;
      AlwaysTree(c, calls[..n]);
      var d := Run(NewDisk(c), c, calls[..n]);
      match calls[n]
      case PutCall(key, stream, size, contentType, w) => PutTree(d, c, key, stream, size, contentType, w);
      case DeleteCall(key, w) => DeleteTree(d, c, key, w);
    }
  }

  lemma NewTree(c: Config)
    ensures Tree(NewDisk(c))
  {
    forall q | q in NewDisk(c).dirs && q != [] ensures Parent(q) in NewDisk(c).dirs {
      var i :| 0 <= i <= |c.root| && q == c.root[..i];
      assert Parent(q) == c.root[..i - 1];
    }
  }

  lemma NewUsable(c: Config, keys: set<string>)
    requires Configured(c) && c.maxBytes < MAX_INT64 && KeySpace(keys)
    ensures Usable(NewDisk(c), c, keys) && View(NewDisk(c), c, keys) == map[]
  {}

  lemma CallRefines(d: Disk, c: Config, keys: set<string>, call: Call)
    requires Usable(d, c, keys) && call.key in keys
    ensures
      var (t, ok) := Apply(d, c, call);
      && Usable(t, c, keys)
      && View(t, c, keys) == if ok then MapApply(View(d, c, keys), call) else View(d, c, keys)
  {
    match call
    case PutCall(key, stream, size, contentType, w) => PutRefines(d, c, keys, key, stream, size, contentType, w);
    case DeleteCall(key, w) => DeleteRefines(d, c, keys, key, w);
  }

  lemma {:induction false} RunRefines(c: Config, keys: set<string>, calls: seq<Call>)
    requires Configured(c) && c.maxBytes < MAX_INT64 && KeySpace(keys)
    requires forall i :: 0 <= i < |calls| ==> calls[i].key in keys
    ensures Usable(Run(NewDisk(c), c, calls), c, keys)
    ensures View(Run(NewDisk(c), c, calls), c, keys) == MapRun(NewDisk(c), c, calls)
  {
    if calls == [] {
      NewUsable(c, keys);
    } else {
      var n := |calls| - 1;
      RunRefines(c, keys, calls[..n]);
      CallRefines(Run(NewDisk(c), c, calls[..n]), c, keys, calls[n]);
    }
  }

  /** Over every sequence of calls the store holds exactly what a map would hold after the
      calls that reported success, and every read answers from that map. */
  lemma BehavesLikeMap(c: Config, keys: set<string>, calls: seq<Call>, key: string)
    requires Configured(c) && c.maxBytes < MAX_INT64 && KeySpace(keys) && key in keys
    requires forall i :: 0 <= i < |calls| ==> calls[i].key in keys
    ensures
      var m := MapRun(NewDisk(c), c, calls);
      && View(Run(NewDisk(c), c, calls), c, keys) == m
      && GetOutcome(Run(NewDisk(c), c, calls), c, key)
         == if key in m then Ok(Object(m[key], key, |m[key]|)) else Err(Io)
  {
    RunRefines(c, keys, calls);
    GetRefines(Run(NewDisk(c), c, calls), c, keys, key);
  }
}
