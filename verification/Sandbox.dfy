/** The Docker sandbox executor (backend/internal/drill/docker.go) over a model of the
    Docker daemon in which networks and volumes in use cannot be removed and any command
    may fail. */
module Sandbox {
  import opened Prelude

  // --------------------------------------------------------------- Docker daemon

  datatype Mount = Mount(network: string, volume: string)
  datatype Docker = Docker(containers: map<string, Mount>, networks: set<string>, volumes: set<string>)

  /** How a creating command ends: it worked, it failed and left nothing, or it failed
      after the resource had come into existence. */
  datatype Effect = Worked | FailedClean | FailedDirty

  /** How a removing command ends; `Refused` is every error other than "no such resource". */
  datatype Removal = Removed | Missing | Refused

  function NetworkCreate(d: Docker, name: string, works: bool): (Docker, bool) {
    if !works || name in d.networks then (d, false)
    else (d.(networks := d.networks + {name}), true)
  }

  function VolumeCreate(d: Docker, name: string, e: Effect): (Docker, bool) {
    if e.FailedClean? then (d, false)
    else (d.(volumes := d.volumes + {name}), e.Worked?)
  }

  function ContainerRun(d: Docker, name: string, m: Mount, e: Effect): (Docker, bool) {
    if e.FailedClean? || name in d.containers || m.network !in d.networks then (d, false)
    else (d.(containers := d.containers[name := m], volumes := d.volumes + {m.volume}), e.Worked?)
  }

  predicate NetworkInUse(d: Docker, name: string) {
    exists c | c in d.containers :: d.containers[c].network == name
  }

  predicate VolumeInUse(d: Docker, name: string) {
    exists c | c in d.containers :: d.containers[c].volume == name
  }

  function ContainerRemove(d: Docker, name: string, fault: bool): (Docker, Removal) {
    if fault then (d, Refused)
    else if name !in d.containers then (d, Missing)
    else (d.(containers := d.containers - {name}), Removed)
  }

  function NetworkRemove(d: Docker, name: string, fault: bool): (Docker, Removal) {
    if fault || NetworkInUse(d, name) then (d, Refused)
    else if name !in d.networks then (d, Missing)
    else (d.(networks := d.networks - {name}), Removed)
  }

  function VolumeRemove(d: Docker, name: string, fault: bool): (Docker, Removal) {
    if fault || VolumeInUse(d, name) then (d, Refused)
    else if name !in d.volumes then (d, Missing)
    else (d.(volumes := d.volumes - {name}), Removed)
  }

  /** Every container's network and volume exist. */
  ghost predicate Consistent(d: Docker) {
    forall c :: c in d.containers ==> d.containers[c].network in d.networks && d.containers[c].volume in d.volumes
  }

  // -------------------------------------------------------------------- naming

  predicate Alphanumeric(c: char) {
    'a' <= c <= 'z' || 'A' <= c <= 'Z' || '0' <= c <= '9'
  }

  predicate SafeIdentifier(s: string) {
    s != "" && forall c | c in s :: Alphanumeric(c) || c == '_' || c == '-'
  }

  function Letters(id: string): string {
    if id == "" then "" else (if Alphanumeric(id[0]) then [id[0]] else "") + Letters(id[1..])
  }

  lemma {:induction false} LettersSnoc(id: string, c: char)
    ensures Letters(id + [c]) == Letters(id) + (if Alphanumeric(c) then [c] else "")
  {
    if id != "" {
      LettersSnoc(id[1..], c);
      assert (id + [c])[1..] == id[1..] + [c];
    }
  }

  lemma {:induction false} LettersExact(id: string)
    ensures forall c :: c in Letters(id) <==> c in id && Alphanumeric(c)
  {
    if id != "" {
      LettersExact(id[1..]);
      assert id == [id[0]] + id[1..];
    }
  }

  /** `compactID`: the first 18 letters and digits of a drill id. */
  function Compact(id: string): string {
    var letters := Letters(id);
    if |letters| > 18 then letters[..18] else letters
  }

  method CompactID(id: string) returns (compact: string)
    ensures compact == Compact(id)
  {
    compact := "";
    for i := 0 to |id|
      invariant compact == Letters(id[..i])
    {
      assert id[..i + 1] == id[..i] + [id[i]];
      LettersSnoc(id[..i], id[i]);
      var c := id[i];
      if 'a' <= c <= 'z' || 'A' <= c <= 'Z' || '0' <= c <= '9' {
        compact := compact + [c];
      }
    }
    assert id[..|id|] == id;
    if |compact| > 18 {
      compact := compact[..18];
    }
  }

  /** The executor accepts a compacted id exactly when the drill id has a letter or digit. */
  lemma CompactAccepted(id: string)
    ensures SafeIdentifier(Compact(id)) <==> exists c | c in id :: Alphanumeric(c)
  {
    LettersExact(id);
    var letters := Letters(id);
    if letters != "" {
      assert letters[0] in letters;
      forall c | c in Compact(id) ensures Alphanumeric(c) { assert c in letters; }
    }
  }

  lemma {:induction false} LettersAppend(a: string, b: string)
    ensures Letters(a + b) == Letters(a) + Letters(b)
  {
    if a == "" {
      assert a + b == b;
    } else {
      LettersAppend(a[1..], b);
      assert (a + b)[1..] == a[1..] + b;
      var first := if Alphanumeric(a[0]) then [a[0]] else "";
      assert Letters(a + b) == first + Letters(a[1..] + b);
      assert first + (Letters(a[1..]) + Letters(b)) == first + Letters(a[1..]) + Letters(b);
    }
  }

  lemma {:induction false} LettersAll(s: string)
    requires forall i :: 0 <= i < |s| ==> Alphanumeric(s[i])
    ensures Letters(s) == s
  {
    if s != "" { LettersAll(s[1..]); }
  }

  /** The five groups of a UUID's digits. */
  datatype Uuid = Uuid(a: string, b: string, c: string, d: string, e: string)

  predicate HexDigits(s: string) {
    forall i :: 0 <= i < |s| ==> '0' <= s[i] <= '9' || 'a' <= s[i] <= 'f'
  }

  predicate IsUuid(u: Uuid) {
    && |u.a| == 8 && |u.b| == 4 && |u.c| == 4 && |u.d| == 4 && |u.e| == 12
    && HexDigits(u.a) && HexDigits(u.b) && HexDigits(u.c) && HexDigits(u.d) && HexDigits(u.e)
  }

  function Written(u: Uuid): string {
    u.a + ("-" + (u.b + ("-" + (u.c + ("-" + (u.d + ("-" + u.e)))))))
  }

  lemma LettersAfter(group: string, rest: string)
    requires HexDigits(group)
    ensures Letters(group + ("-" + rest)) == group + Letters(rest)
  {
    LettersAll(group);
    LettersAppend(group, "-" + rest);
    NoLetter(rest);
    hide Letters;
  }

  lemma NoLetter(rest: string)
    ensures Letters("-" + rest) == Letters(rest)
  {
    assert ("-" + rest)[1..] == rest;
  }

  /** A drill's id is a UUID: its sandbox is named after the first eighteen of its digits. */
  lemma UuidCompact(u: Uuid)
    requires IsUuid(u)
    ensures Compact(Written(u)) == u.a + u.b + u.c + u.d[..2]
    ensures |Compact(Written(u))| == 18 && SafeIdentifier(Compact(Written(u)))
  {
    var afterC := u.d + ("-" + u.e);
    var afterB := u.c + ("-" + afterC);
    LettersAfter(u.a, u.b + ("-" + afterB));
    LettersAfter(u.b, afterB);
    LettersAfter(u.c, afterC);
    LettersAfter(u.d, u.e);
    LettersAll(u.e);
    var letters := u.a + (u.b + (u.c + (u.d + u.e)));
    assert Letters(Written(u)) == letters;
    assert letters[..18] == u.a + u.b + u.c + u.d[..2];
    assert HexDigits(letters[..18]);
    forall ch | ch in letters[..18] ensures Alphanumeric(ch) {}
  }

  const PREFIX := "restoreguard-"

  function BaseName(drillID: string, suffix: string): string {
    PREFIX + drillID + "-" + suffix
  }

  datatype Handle = Handle(container: string, network: string, volume: string)

  function Names(base: string): Handle {
    Handle(base + "-pg", base + "-net", base + "-data")
  }

  lemma SuffixCancels(a: string, b: string, t: string)
    requires a + t == b + t
    ensures a == b
  {
    assert |a| == |b|;
    assert a == (a + t)[..|a|] && b == (b + t)[..|a|];
  }

  /** Sandboxes with different base names share no resource. */
  lemma NamesInjective(a: string, b: string)
    requires a != b
    ensures Names(a).container != Names(b).container
    ensures Names(a).network != Names(b).network
    ensures Names(a).volume != Names(b).volume
  {
    if a + "-pg" == b + "-pg" { SuffixCancels(a, b, "-pg"); }
    if a + "-net" == b + "-net" { SuffixCancels(a, b, "-net"); }
    if a + "-data" == b + "-data" { SuffixCancels(a, b, "-data"); }
  }

  predicate Managed(name: string) {
    name == "" || PREFIX <= name
  }

  // ------------------------------------------------------- effects of the executor

  datatype Faults = Faults(container: bool, network: bool, volume: bool)
  const NO_FAULTS := Faults(false, false, false)

  /** What the daemon answers during one `Create`. */
  datatype CreateEnv = CreateEnv(network: bool, volume: Effect, container: Effect, ready: bool, faults: Faults)

  /** Removal of container, network and volume, in that order; unnamed resources are skipped. */
  function Purge(d: Docker, h: Handle, f: Faults): (Docker, bool) {
    var (d1, c) := if h.container == "" then (d, Missing) else ContainerRemove(d, h.container, f.container);
    var (d2, n) := if h.network == "" then (d1, Missing) else NetworkRemove(d1, h.network, f.network);
    var (d3, v) := if h.volume == "" then (d2, Missing) else VolumeRemove(d2, h.volume, f.volume);
    (d3, c != Refused && n != Refused && v != Refused)
  }

  function Created(d: Docker, base: string, env: CreateEnv): (Docker, bool) {
    var h := Names(base);
    var (d1, networkOk) := NetworkCreate(d, h.network, env.network);
    if !networkOk then (d1, false) else
    var (d2, volumeOk) := VolumeCreate(d1, h.volume, env.volume);
    if !volumeOk then (Purge(d2, h, env.faults).0, false) else
    var (d3, containerOk) := ContainerRun(d2, h.container, Mount(h.network, h.volume), env.container);
    if !containerOk || !env.ready then (Purge(d3, h, env.faults).0, false)
    else (d3, true)
  }

  function Destroyed(d: Docker, h: Handle, f: Faults): (Docker, bool) {
    if Managed(h.container) && Managed(h.network) && Managed(h.volume) then Purge(d, h, f) else (d, false)
  }

  // --------------------------------------------------------------- what they keep

  /** Some resource of the sandbox exists. */
  predicate Present(d: Docker, h: Handle) {
    h.container in d.containers || h.network in d.networks || h.volume in d.volumes
  }

  predicate Residue(d: Docker, base: string) {
    Present(d, Names(base))
  }

  /** The sandbox's container, if any, uses the sandbox's network and volume, and no other
      container does. */
  ghost predicate Exclusive(d: Docker, h: Handle) {
    forall c :: c in d.containers ==>
      var m := d.containers[c];
      if c == h.container then m == Mount(h.network, h.volume)
      else m.network != h.network && m.volume != h.volume
  }

  /** The two worlds differ at most in the resources of one sandbox. */
  ghost predicate SameElsewhere(d: Docker, e: Docker, h: Handle) {
    && (forall c :: c != h.container ==> (c in d.containers <==> c in e.containers))
    && (forall c :: c in d.containers && c in e.containers && c != h.container ==> d.containers[c] == e.containers[c])
    && (forall n :: n != h.network ==> (n in d.networks <==> n in e.networks))
    && (forall v :: v != h.volume ==> (v in d.volumes <==> v in e.volumes))
  }

  ghost predicate Named(h: Handle) {
    h.container != "" && h.network != "" && h.volume != ""
  }

  /** A purge touches nothing outside the sandbox; when it reports success nothing of the
      sandbox is left; and without daemon faults it always succeeds. */
  lemma PurgeExact(d: Docker, h: Handle, f: Faults)
    requires Consistent(d) && Named(h)
    ensures var (e, ok) := Purge(d, h, f);
      && Consistent(e)
      && SameElsewhere(d, e, h)
      && (Exclusive(d, h) ==> Exclusive(e, h))
      && (ok ==> !Present(e, h))
      && (f == NO_FAULTS && Exclusive(d, h) ==> ok)
  {
    PurgeFrame(d, h, f);
    PurgeGone(d, h, f);
    if f == NO_FAULTS && Exclusive(d, h) {
      PurgeWorks(d, h);
    }
  }

  lemma PurgeFrame(d: Docker, h: Handle, f: Faults)
    requires Consistent(d) && Named(h)
    ensures var e := Purge(d, h, f).0;
      Consistent(e) && SameElsewhere(d, e, h) && (Exclusive(d, h) ==> Exclusive(e, h))
  {
    var d1 := ContainerRemove(d, h.container, f.container).0;
    var d2 := NetworkRemove(d1, h.network, f.network).0;
    var d3 := VolumeRemove(d2, h.volume, f.volume).0;
    assert Purge(d, h, f).0 == d3;
    assert Consistent(d1);
    assert Consistent(d2);
  }

  lemma PurgeGone(d: Docker, h: Handle, f: Faults)
    requires Named(h)
    ensures var (e, ok) := Purge(d, h, f); ok ==> !Present(e, h)
  {}

  lemma PurgeWorks(d: Docker, h: Handle)
    requires Named(h) && Exclusive(d, h)
    ensures Purge(d, h, NO_FAULTS).1
  {
    var d1 := ContainerRemove(d, h.container, false).0;
    var d2 := NetworkRemove(d1, h.network, false).0;
    assert !NetworkInUse(d1, h.network);
    assert !VolumeInUse(d2, h.volume);
  }

  lemma AbsentMeansSame(d: Docker, e: Docker, h: Handle)
    requires SameElsewhere(d, e, h) && !Present(d, h) && !Present(e, h)
    ensures d == e
  {
    assert d.networks == e.networks;
    assert d.volumes == e.volumes;
    assert d.containers.Keys == e.containers.Keys;
    assert d.containers == e.containers;
  }

  /** Giving up half-way through `Create` takes everything back. */
  lemma Abandoned(d: Docker, partial: Docker, h: Handle, f: Faults)
    requires Consistent(partial) && Named(h)
    requires SameElsewhere(d, partial, h) && Exclusive(partial, h) && !Present(d, h)
    ensures var e := Purge(partial, h, f).0;
      && Consistent(e) && SameElsewhere(d, e, h) && Exclusive(e, h)
      && (f == NO_FAULTS ==> e == d)
  {
    PurgeExact(partial, h, f);
    var e := Purge(partial, h, f).0;
    assert SameElsewhere(d, e, h);
    if f == NO_FAULTS { AbsentMeansSame(d, e, h); }
  }

  /** `Create` for a sandbox whose names are unused: success leaves all three resources,
      wired together; failure without daemon faults during the cleanup leaves the world
      exactly as it was. */
  lemma CreatedExact(d: Docker, base: string, env: CreateEnv)
    requires Consistent(d) && !Residue(d, base)
    ensures var (e, ok) := Created(d, base, env); var h := Names(base);
      && Consistent(e)
      && SameElsewhere(d, e, h)
      && Exclusive(e, h)
      && (ok ==> h.container in e.containers && h.network in e.networks && h.volume in e.volumes)
      && (!ok && env.faults == NO_FAULTS ==> e == d)
  {
    var h := Names(base);
    assert Named(h);
    var (d1, networkOk) := NetworkCreate(d, h.network, env.network);
    if networkOk {
      var (d2, volumeOk) := VolumeCreate(d1, h.volume, env.volume);
      if !volumeOk {
        Abandoned(d, d2, h, env.faults);
      } else {
        var (d3, containerOk) := ContainerRun(d2, h.container, Mount(h.network, h.volume), env.container);
        assert Consistent(d3) && SameElsewhere(d, d3, h) && Exclusive(d3, h);
        Abandoned(d, d3, h, env.faults);
      }
    }
  }

  /** Creating a sandbox and destroying it without faults restores the world. */
  lemma CreateDestroyRoundTrip(d: Docker, base: string, env: CreateEnv)
    requires Consistent(d) && !Residue(d, base) && PREFIX <= base
    requires Created(d, base, env).1
    ensures Destroyed(Created(d, base, env).0, Names(base), NO_FAULTS) == (d, true)
  {
    CreatedExact(d, base, env);
    ManagedNames(base);
    var e := Created(d, base, env).0;
    PurgeExact(e, Names(base), NO_FAULTS);
    Abandoned(d, e, Names(base), NO_FAULTS);
  }

  lemma ManagedNames(base: string)
    requires PREFIX <= base
    ensures var h := Names(base); Managed(h.container) && Managed(h.network) && Managed(h.volume)
  {
    assert PREFIX <= base + "-pg" && PREFIX <= base + "-net" && PREFIX <= base + "-data";
  }

  /** Work on one sandbox leaves every other sandbox alone. */
  lemma OthersUntouched(d: Docker, e: Docker, base: string, other: string)
    requires SameElsewhere(d, e, Names(base)) && base != other
    ensures Residue(d, other) <==> Residue(e, other)
    ensures Exclusive(e, Names(base)) && Exclusive(d, Names(other)) ==> Exclusive(e, Names(other))
  {
    NamesInjective(base, other);
  }

  // ------------------------------------------------------------------ the executor

  datatype Spec = Spec(drillID: string, image: string, cpus: real, memoryBytes: int, timeoutMs: int)

  const MIB := 1024 * 1024

  predicate ValidSpec(spec: Spec) {
    && SafeIdentifier(spec.drillID)
    && 0.0 < spec.cpus <= 4.0
    && 128 * MIB <= spec.memoryBytes <= 8 * 1024 * MIB
  }

  /** What a specification may ask for, bounds included: up to four CPUs and 128 MiB to 8 GiB. */
  lemma SpecBounds(spec: Spec)
    requires SafeIdentifier(spec.drillID)
    ensures ValidSpec(spec) <==> 0.0 < spec.cpus <= 4.0 && 134_217_728 <= spec.memoryBytes <= 8_589_934_592
  {}

  function ReadyBudget(timeoutMs: int): int {
    if timeoutMs <= 0 || timeoutMs > 300_000 then 90_000 else timeoutMs
  }

  /** What the polls of one readiness wait meet, round by round: whether the database is up,
      whether the caller's context has ended, how long the poll takes and how much longer
      than a second the sleep after it, in milliseconds. */
  datatype Polls = Polls(up: nat -> bool, cancelled: nat -> bool, poll: nat -> nat, oversleep: nat -> nat)

  /** The times at which poll `k` begins and ends. */
  function Wake(p: Polls, k: nat): nat
    decreases k, 0
  {
    if k == 0 then 0 else Clock(p, k - 1) + 1000 + p.oversleep(k - 1)
  }

  function Clock(p: Polls, k: nat): nat
    decreases k, 1
  {
    Wake(p, k) + p.poll(k)
  }

  /** Poll `k` finds the database up; its commands are killed at the deadline. */
  predicate Up(timeoutMs: int, p: Polls, k: nat) {
    p.up(k) && Clock(p, k) < ReadyBudget(timeoutMs)
  }

  /** The wait is over before the sleep after poll `k` is: the deadline ends the sleep. */
  predicate Over(timeoutMs: int, p: Polls, k: nat) {
    p.cancelled(k) || Clock(p, k) + 1000 > ReadyBudget(timeoutMs)
  }

  /** No round before the last found the database up or ended the wait; the last one found it
      up before the deadline, or else the wait was over. */
  ghost predicate Awaited(timeoutMs: int, p: Polls, ready: bool, rounds: nat) {
    && rounds >= 1
    && (forall k :: 0 <= k < rounds - 1 ==> !Up(timeoutMs, p, k) && !Over(timeoutMs, p, k))
    && ready == Up(timeoutMs, p, rounds - 1)
    && (!ready ==> Over(timeoutMs, p, rounds - 1))
  }

  /** A timeout within five minutes is taken as it is, any other means a minute and a half. */
  lemma ReadyBudgetIs(timeoutMs: int)
    ensures 0 < timeoutMs <= 300_000 ==> ReadyBudget(timeoutMs) == timeoutMs
    ensures !(0 < timeoutMs <= 300_000) ==> ReadyBudget(timeoutMs) == 90_000
    ensures 0 < ReadyBudget(timeoutMs) <= 300_000
  {}

  /** The database is up at poll `k`, which ends in time, and nobody cancelled before. */
  ghost predicate UpInTime(budgetMs: int, p: Polls, k: nat) {
    p.up(k) && Clock(p, k) < budgetMs && forall j :: 0 <= j < k ==> !p.cancelled(j)
  }

  lemma {:induction false} ClockGrows(p: Polls, j: nat, k: nat)
    requires j < k
    ensures Clock(p, j) + 1000 * (k - j) <= Clock(p, k)
    decreases k
  {
    if j < k - 1 { ClockGrows(p, j, k - 1); }
    assert Clock(p, k) >= Wake(p, k) >= Clock(p, k - 1) + 1000;
  }

  /** A second of sleep between polls that take `d` milliseconds each. */
  lemma {:induction false} SteadyClock(p: Polls, d: nat, k: nat)
    requires forall j :: 0 <= j <= k ==> p.poll(j) == d && p.oversleep(j) == 0
    ensures Clock(p, k) == k * (d + 1000) + d
    decreases k
  {
    if k > 0 { SteadyClock(p, d, k - 1); }
    assert Wake(p, k) == if k == 0 then 0 else Clock(p, k - 1) + 1000;
  }

  /** A database that comes up 4.5 seconds into the worker's two minutes is met at the fifth poll. */
  lemma FifthPoll(p: Polls, ready: bool, rounds: nat)
    requires forall j: nat :: p.poll(j) == 100 && p.oversleep(j) == 0 && !p.cancelled(j) && (p.up(j) <==> j >= 4)
    requires Awaited(120_000, p, ready, rounds)
    ensures ready && rounds == 5 && Clock(p, rounds - 1) == 4_500
  {
    SteadyClock(p, 100, 4);
    AwaitedExactly(120_000, 120_000, p, ready, rounds);
    assert UpInTime(120_000, p, 4);
  }

  /** How a wait ends, on the polls themselves: ready exactly when some poll finds the database
      up before the deadline and no cancel, and then at the first such poll. */
  lemma AwaitedExactly(timeoutMs: int, budgetMs: int, p: Polls, ready: bool, rounds: nat)
    requires budgetMs == if 0 < timeoutMs <= 300_000 then timeoutMs else 90_000
    requires Awaited(timeoutMs, p, ready, rounds)
    ensures ready <==> exists k: nat :: UpInTime(budgetMs, p, k)
    ensures ready ==> UpInTime(budgetMs, p, rounds - 1) && forall k :: 0 <= k < rounds - 1 ==> !UpInTime(budgetMs, p, k)
  {
    var last := rounds - 1;
    forall j | 0 <= j < last ensures !p.cancelled(j) { assert !Over(timeoutMs, p, j); }
    forall k: nat | UpInTime(budgetMs, p, k)
      ensures ready && k >= last
    {
      assert Up(timeoutMs, p, k);
      if last < k {
        ClockGrows(p, last, k);
        assert !Over(timeoutMs, p, last);
        assert UpInTime(budgetMs, p, last);
      }
    }
    if ready { assert UpInTime(budgetMs, p, last); }
  }

  /** What the worker asks of the executor for a drill whose id is a UUID. */
  function WorkerSpec(u: Uuid, image: string): Spec {
    Spec(Compact(Written(u)), image, 1.0, 536_870_912, 120_000)
  }

  /** The executor accepts it, waits for two minutes, and names the container as follows. */
  lemma WorkerSpecAccepted(u: Uuid, image: string, suffix: string)
    requires IsUuid(u)
    ensures var spec := WorkerSpec(u, image);
      && ValidSpec(spec) && ReadyBudget(spec.timeoutMs) == 120_000
      && Names(BaseName(spec.drillID, suffix)).container
         == "restoreguard-" + (u.a + u.b + u.c + u.d[..2]) + "-" + suffix + "-pg"
  {
    UuidCompact(u);
  }

  /** The daemon gets as far as a running container. */
  predicate Starts(d: Docker, base: string, env: CreateEnv) {
    var h := Names(base);
    var (d1, networkOk) := NetworkCreate(d, h.network, env.network);
    var (d2, volumeOk) := VolumeCreate(d1, h.volume, env.volume);
    networkOk && volumeOk && ContainerRun(d2, h.container, Mount(h.network, h.volume), env.container).1
  }

  class Executor {
    const allowedImage: string
    var docker: Docker

    constructor (allowedImage: string, docker: Docker)
      ensures this.allowedImage == allowedImage && this.docker == docker
    {
      this.allowedImage := allowedImage;
      this.docker := docker;
    }

    /** The readiness loop. Every round but the last sleeps a whole second before the deadline,
        which bounds their number. */
    method AwaitReady(timeoutMs: int, p: Polls) returns (ready: bool, rounds: nat)
      ensures Awaited(timeoutMs, p, ready, rounds)
      ensures var budgetMs := if 0 < timeoutMs <= 300_000 then timeoutMs else 90_000;
        && (ready <==> exists k: nat :: UpInTime(budgetMs, p, k))
        && (ready ==> UpInTime(budgetMs, p, rounds - 1) && forall k :: 0 <= k < rounds - 1 ==> !UpInTime(budgetMs, p, k))
        && rounds <= budgetMs / 1000 + 1
    {
      var budget := ReadyBudget(timeoutMs);
      var now := 0;
      rounds := 0;
      while true
        invariant now == Wake(p, rounds)
        invariant forall k :: 0 <= k < rounds ==> !Up(timeoutMs, p, k) && !Over(timeoutMs, p, k)
        invariant 1000 * rounds <= now
        invariant rounds > 0 ==> 1000 * rounds <= budget
        decreases budget - 1000 * rounds
      {
        now := now + p.poll(rounds);
        if p.up(rounds) && now < budget {
          AwaitedExactly(timeoutMs, budget, p, true, rounds + 1);
          return true, rounds + 1;
        }
        if p.cancelled(rounds) || now + 1000 > budget {
          AwaitedExactly(timeoutMs, budget, p, false, rounds + 1);
          return false, rounds + 1;
        }
        assert !Up(timeoutMs, p, rounds) && !Over(timeoutMs, p, rounds);
        now := now + 1000 + p.oversleep(rounds);
        rounds := rounds + 1;
      }
    }

    method RemoveAll(h: Handle, faults: Faults) returns (ok: bool)
      modifies this`docker
      ensures (docker, ok) == Purge(old(docker), h, faults)
    {
      var errs := 0;
      if h.container != "" {
        var (d, r) := ContainerRemove(docker, h.container, faults.container);
        docker := d;
        if r.Refused? { errs := errs + 1; }
      }
      if h.network != "" {
        var (d, r) := NetworkRemove(docker, h.network, faults.network);
        docker := d;
        if r.Refused? { errs := errs + 1; }
      }
      if h.volume != "" {
        var (d, r) := VolumeRemove(docker, h.volume, faults.volume);
        docker := d;
        if r.Refused? { errs := errs + 1; }
      }
      ok := errs == 0;
    }

    /** A rejected specification touches nothing; otherwise the world becomes what
        `Created` says of the daemon's answers, and a sandbox is returned exactly on
        success. */
    method Create(spec: Spec, suffix: string, env: CreateEnv, polls: Polls)
      returns (sandbox: Option<Handle>, ready: bool, rounds: nat)
      modifies this`docker
      ensures spec.image != allowedImage || !ValidSpec(spec) ==> sandbox == None && docker == old(docker)
      ensures spec.image == allowedImage && ValidSpec(spec) ==>
        var base := BaseName(spec.drillID, suffix);
        var (d, ok) := Created(old(docker), base, env.(ready := ready));
        && docker == d && sandbox == (if ok then Some(Names(base)) else None)
        && (Starts(old(docker), base, env) ==> Awaited(spec.timeoutMs, polls, ready, rounds))
      ensures rounds <= (if 0 < spec.timeoutMs <= 300_000 then spec.timeoutMs else 90_000) / 1000 + 1
    {
      ready, rounds := false, 0;
      if spec.image != allowedImage {
        return None, ready, rounds;
      }
      if !SafeIdentifier(spec.drillID) || spec.cpus <= 0.0 || spec.cpus > 4.0
         || spec.memoryBytes < 128 * MIB || spec.memoryBytes > 8 * 1024 * MIB {
        return None, ready, rounds;
      }
      var base := BaseName(spec.drillID, suffix);
      var h := Names(base);
      var (d1, networkOk) := NetworkCreate(docker, h.network, env.network);
      docker := d1;
      if !networkOk {
        return None, ready, rounds;
      }
      var (d2, volumeOk) := VolumeCreate(docker, h.volume, env.volume);
      docker := d2;
      if !volumeOk {
        var _ := RemoveAll(h, env.faults);
        return None, ready, rounds;
      }
      var (d3, containerOk) := ContainerRun(docker, h.container, Mount(h.network, h.volume), env.container);
      docker := d3;
      if !containerOk {
        var _ := RemoveAll(h, env.faults);
        return None, ready, rounds;
      }
      ready, rounds := AwaitReady(spec.timeoutMs, polls);
      if ready {
        return Some(h), ready, rounds;
      }
      var _ := RemoveAll(h, env.faults);
      return None, ready, rounds;
    }

    /** Refuses unmanaged names before touching anything; otherwise removes what it can
        and reports success exactly when nothing was refused. */
    method Destroy(h: Handle, faults: Faults) returns (ok: bool)
      modifies this`docker
      ensures (docker, ok) == Destroyed(old(docker), h, faults)
    {
      var names := [h.container, h.network, h.volume];
      for i := 0 to 3
        invariant docker == old(docker)
        invariant forall j :: 0 <= j < i ==> Managed(names[j])
      {
        if names[i] != "" && !(PREFIX <= names[i]) {
          assert !Managed(names[i]);
          return false;
        }
      }
      assert Managed(names[0]) && Managed(names[1]) && Managed(names[2]);
      ok := RemoveAll(h, faults);
    }
  }
}
