/** The object store on a local disk, backend/internal/storage/local.go: a bounded streaming
    write through a temporary file and a rename. */
module LocalStorage {
  import opened Prelude
  import opened Paths
  import Decimals

  type Bytes = seq<bv8>

  const MAX_INT64 := 0x7FFF_FFFF_FFFF_FFFF

  /** A signed 64-bit result. */
  function Wrap(n: int): int {
    (n + MAX_INT64 + 1) % (2 * MAX_INT64 + 2) - MAX_INT64 - 1
  }

  // ------------------------------------------------------------------------ the disk

  datatype Disk = Disk(files: map<Path, Bytes>, dirs: set<Path>)

  /** The directory of a path; the parent of `/` is itself. */
  function Parent(p: Path): Path { if p == [] then [] else p[..|p| - 1] }

  /** Some prefix of the path, or the path itself, is a plain file. */
  predicate FileOnWay(d: Disk, p: Path) {
    exists i | 0 <= i <= |p| :: p[..i] in d.files
  }

  function Prefixes(p: Path, n: nat): set<Path> {
    set i | 0 <= i <= |p| && i <= n :: p[..i]
  }

  /** What the environment does to one call. `mkdir` and `copy` say how far a failing call
      got; `draw` is the number in the temporary file's name. */
  datatype Weather = Weather(
    mkdir: Option<nat>, create: bool, draw: nat, copy: Option<nat>, close: bool, rename: bool, remove: bool)

  const FAIR := Weather(None, true, 0, None, true, true, true)

  predicate Fair(w: Weather) {
    w.mkdir.None? && w.create && w.copy.None? && w.close && w.rename && w.remove
  }

  function MkdirAll(d: Disk, p: Path, w: Weather): (Disk, bool) {
    if FileOnWay(d, p) then (d, false)
    else
      match w.mkdir
      case Some(n) => (d.(dirs := d.dirs + Prefixes(p, n)), false)
      case None => (d.(dirs := d.dirs + Prefixes(p, |p|)), true)
  }

  function TempName(draw: nat): string { ".upload-" + Decimals.Decimal(draw) }

  /** A path nothing exists at. */
  predicate Free(d: Disk, p: Path) { p !in d.files && p !in d.dirs }

  /** A rename over a directory fails; onto itself it does nothing. */
  function Rename(d: Disk, from: Path, to: Path, w: Weather): (Disk, bool)
    requires from in d.files
  {
    if !w.rename || to in d.dirs then (d, false)
    else (d.(files := (d.files - {from})[to := d.files[from]]), true)
  }

  function RemoveFile(d: Disk, p: Path, w: Weather): Disk {
    if w.remove then d.(files := d.files - {p}) else d
  }

  // --------------------------------------------------------------------------- results

  datatype Error = TooLarge | UnsafeKey | Io | LengthMismatch

  datatype Result<T> = Ok(value: T) | Err(error: Error)

  datatype ObjectInfo = ObjectInfo(key: string, size: int, sha256: string, contentType: string)

  /** `hash` stands for SHA-256 in hexadecimal. */
  datatype Config = Config(root: Path, maxBytes: int, hash: Bytes -> string)

  /** What the constructor enforces. */
  predicate Configured(c: Config) { IsClean(c.root) && 0 < c.maxBytes <= MAX_INT64 }

  // ---------------------------------------------------------------------- specification

  /** The bytes a limited reader lets through. */
  function Limited(stream: Bytes, limit: int): Bytes {
    if limit <= 0 then [] else if |stream| <= limit then stream else stream[..limit]
  }

  /** The whole copy at once: what reaches the file, and whether the copy succeeded. */
  function Copied(stream: Bytes, limit: int, w: Weather): (Bytes, bool) {
    var all := Limited(stream, limit);
    if w.copy.Some? && w.copy.value <= |all| then (all[..w.copy.value], false) else (all, true)
  }

  function TempPath(p: Path, w: Weather): Path { Parent(p) + [TempName(w.draw)] }

  /** From the copied bytes to the final place; the temporary file is there. */
  function Finish(
      d: Disk, temp: Path, p: Path, written: Bytes, ok: bool, c: Config, size: int, w: Weather):
      (Disk, Option<Error>)
    requires temp in d.files
  {
    if !ok || !w.close then (d, Some(Io))
    else if |written| > c.maxBytes || |written| != size then (d, Some(LengthMismatch))
    else
      var (moved, done) := Rename(d, temp, p, w);
      (moved, if done then None else Some(Io))
  }

  function PutOutcome(
      d: Disk, c: Config, key: string, stream: Bytes, size: int, contentType: string, w: Weather):
      (Disk, Result<ObjectInfo>)
  {
    if size < 0 || size > c.maxBytes then (d, Err(TooLarge))
    else
      match Locate(c.root, key)
      case None => (d, Err(UnsafeKey))
      case Some(p) =>
        var (made, ready) := MkdirAll(d, Parent(p), w);
        var temp := TempPath(p, w);
        if !ready || !w.create || !Free(made, temp) then (made, Err(Io))
        else
          var (written, ok) := Copied(stream, Wrap(c.maxBytes + 1), w);
          var staged := made.(files := made.files[temp := written]);
          var (after, error) := Finish(staged, temp, p, written, ok, c, size, w);
          var result := if error.Some? then Err(error.value)
                        else Ok(ObjectInfo(key, |written|, c.hash(written), contentType));
          (RemoveFile(after, temp, w), result)
  }

  /** Opening a directory succeeds too. */
  datatype Opened = Object(data: Bytes, key: string, size: nat) | Directory

  function GetOutcome(d: Disk, c: Config, key: string): Result<Opened> {
    match Locate(c.root, key)
    case None => Err(UnsafeKey)
    case Some(p) =>
      if p in d.files then Ok(Object(d.files[p], key, |d.files[p]|))
      else if p in d.dirs then Ok(Directory)
      else Err(Io)
  }

  predicate IsEmptyDir(d: Disk, p: Path) {
    && p in d.dirs
    && (forall q :: q in d.files ==> !(p <= q)) && (forall q :: q in d.dirs && p <= q ==> q == p)
  }

  /** Removing takes a file or an empty directory; what is missing counts as removed. */
  function DeleteOutcome(d: Disk, c: Config, key: string, w: Weather): (Disk, Result<()>) {
    match Locate(c.root, key)
    case None => (d, Err(UnsafeKey))
    case Some(p) =>
      if p in d.files then if w.remove then (d.(files := d.files - {p}), Ok(())) else (d, Err(Io))
      else if p in d.dirs then
        if w.remove && IsEmptyDir(d, p) then (d.(dirs := d.dirs - {p}), Ok(())) else (d, Err(Io))
      else if FileOnWay(d, Parent(p)) then (d, Err(Io))
      else (d, Ok(()))
  }

  // ------------------------------------------------------------------------ the store

  function NewDisk(c: Config): Disk { Disk(map[], Prefixes(c.root, |c.root|)) }

  class Local {
    const config: Config
    var disk: Disk

    constructor (config: Config)
      requires Configured(config)
      ensures this.config == config && disk == NewDisk(config)
    {
      this.config := config;
      disk := NewDisk(config);
    }

    /** The copy loop: chunk by chunk through the limit, giving up where the context, the
        reader or the disk fails. Whatever the chunks are, the outcome is the same. */
    method Copy(temp: Path, stream: Bytes, limit: int, w: Weather) returns (written: Bytes, ok: bool)
      requires temp in disk.files && disk.files[temp] == []
      modifies this`disk
      ensures (written, ok) == Copied(stream, limit, w)
      ensures disk == old(disk).(files := old(disk).files[temp := written])
    {
      written := [];
      var remaining := limit;
      ghost var all := Limited(stream, limit);
      while true
        invariant |written| <= |all| && written == all[..|written|]
        invariant remaining == limit - |written|
        invariant w.copy.Some? && w.copy.value <= |all| ==> |written| <= w.copy.value
        invariant disk == old(disk).(files := old(disk).files[temp := written])
        decreases |all| - |written|
      {
        if w.copy == Some(|written|) {
          return written, false;
        }
        if remaining <= 0 || |written| == |stream| {
          assert |written| == |all| && all[..|all|] == all;
          return written, true;
        }
        var most := if remaining < |stream| - |written| then remaining else |stream| - |written|;
        if w.copy.Some? && |written| < w.copy.value < |written| + most {
          most := w.copy.value - |written|;
        }
        var n: nat :| 0 < n <= most;
        assert stream[|written|..|written| + n] == all[|written|..|written| + n];
        written := written + stream[|written|..|written| + n];
        remaining := remaining - n;
        disk := disk.(files := disk.files[temp := written]);
      }
    }

    method Put(key: string, stream: Bytes, size: int, contentType: string, w: Weather) returns (r: Result<ObjectInfo>)
      modifies this`disk
      ensures (disk, r) == PutOutcome(old(disk), config, key, stream, size, contentType, w)
    {
      if size < 0 || size > config.maxBytes { return Err(TooLarge); }
      var location := Locate(config.root, key);
      if location.None? { return Err(UnsafeKey); }
      var p := location.value;
      var (made, ready) := MkdirAll(disk, Parent(p), w);
      disk := made;
      if !ready { return Err(Io); }
      var temp := TempPath(p, w);
      if !w.create || !Free(disk, temp) { return Err(Io); }
      disk := disk.(files := disk.files[temp := []]);
      var written, ok := Copy(temp, stream, Wrap(config.maxBytes + 1), w);
      assert disk.files == made.files[temp := written];
      if !ok || !w.close {
        r := Err(Io);
      } else if |written| > config.maxBytes || |written| != size {
        r := Err(LengthMismatch);
      } else {
        var (moved, done) := Rename(disk, temp, p, w);
        disk := moved;
        r := if done then Ok(ObjectInfo(key, |written|, config.hash(written), contentType)) else Err(Io);
      }
      disk := RemoveFile(disk, temp, w);
    }

    method Get(key: string) returns (r: Result<Opened>)
      ensures r == GetOutcome(disk, config, key)
    {
      var location := Locate(config.root, key);
      if location.None? { return Err(UnsafeKey); }
      var p := location.value;
      if p in disk.files { return Ok(Object(disk.files[p], key, |disk.files[p]|)); }
      if p in disk.dirs { return Ok(Directory); }
      return Err(Io);
    }

    method Delete(key: string, w: Weather) returns (r: Result<()>)
      modifies this`disk
      ensures (disk, r) == DeleteOutcome(old(disk), config, key, w)
    {
      var location := Locate(config.root, key);
      if location.None? { return Err(UnsafeKey); }
      var p := location.value;
      if p in disk.files {
        if !w.remove { return Err(Io); }
        disk := disk.(files := disk.files - {p});
      } else if p in disk.dirs {
        if !w.remove || !IsEmptyDir(disk, p) { return Err(Io); }
        disk := disk.(dirs := disk.dirs - {p});
      } else if FileOnWay(disk, Parent(p)) {
        return Err(Io);
      }
      return Ok(());
    }
  }

  /** `NewLocal`: refused for a limit that is not positive or a root that cannot be made. */
  method NewLocal(root: Path, maxBytes: int, hash: Bytes -> string, rootMade: bool) returns (store: Option<Local>)
    requires IsClean(root) && maxBytes <= MAX_INT64
    ensures store.Some? <==> maxBytes > 0 && rootMade
    ensures store.Some? ==>
      fresh(store.value) && store.value.config == Config(root, maxBytes, hash) && store.value.disk == NewDisk(store.value.config)
  {
    if maxBytes <= 0 || !rootMade { return None; }
    var made := new Local(Config(root, maxBytes, hash));
    return Some(made);
  }
}
