/** The keys of the evidence objects in the local store: what `run` writes is what `path`
    accepts, and the objects of different drills never get in each other's way. */
module EvidenceKeys {
  import opened Prelude
  import opened Paths
  import Sandbox
  import Drills
  import Local = LocalStorageTheorems

  /** The ids are the UUIDs of an organisation and a drill. */
  predicate Ids(org: Sandbox.Uuid, id: Sandbox.Uuid) { Sandbox.IsUuid(org) && Sandbox.IsUuid(id) }

  function Key(org: Sandbox.Uuid, id: Sandbox.Uuid): string {
    Drills.EvidenceKey(Sandbox.Written(org), Sandbox.Written(id))
  }

  /** Letters, digits and hyphens. */
  predicate Plain(s: string) {
    forall i :: 0 <= i < |s| ==> IsAlphanumeric(s[i]) || s[i] == '-'
  }

  lemma PlainAppend(group: string, rest: string)
    requires Sandbox.HexDigits(group) && Plain(rest)
    ensures Plain(group + ("-" + rest)) && |group + ("-" + rest)| == |group| + 1 + |rest|
  {}

  lemma UuidPlain(u: Sandbox.Uuid)
    requires Sandbox.IsUuid(u)
    ensures |Sandbox.Written(u)| == 36 && Plain(Sandbox.Written(u)) && IsAlphanumeric(Sandbox.Written(u)[0])
  {
    var afterC := u.d + ("-" + u.e);
    var afterB := u.c + ("-" + afterC);
    assert Plain(u.e);
    PlainAppend(u.d, u.e);
    PlainAppend(u.c, afterC);
    PlainAppend(u.b, afterB);
    PlainAppend(u.a, u.b + ("-" + afterB));
  }

  // -------------------------------------------------------------------- its elements

  function Elements(org: string, id: string): seq<string> {
    [org, "drills", id, "evidence", "recovery.json"]
  }

  lemma Spelled(org: string, id: string)
    ensures Drills.EvidenceKey(org, id)
         == org + ("/" + ("drills" + ("/" + (id + ("/" + ("evidence" + ("/" + "recovery.json")))))))
  {
    var tail := "/evidence/recovery.json";
    assert tail == "/" + ("evidence" + ("/" + "recovery.json"));
    assert "/drills/" == "/" + ("drills" + "/");
    Regroup(org, "/", "drills", "/", id, tail);
  }

  lemma Regroup(a: string, b: string, c: string, d: string, e: string, f: string)
    ensures a + (b + (c + d)) + e + f == a + (b + (c + (d + (e + f))))
  {
    assert (b + (c + d)) + (e + f) == b + (c + (d + (e + f)));
    assert a + (b + (c + d)) + e + f == a + ((b + (c + d)) + (e + f));
  }

  lemma KeyElements(org: string, id: string)
    requires '/' !in org && '/' !in id
    ensures Split(Drills.EvidenceKey(org, id)) == Elements(org, id)
  {
    var tail := "evidence" + ("/" + "recovery.json");
    Spelled(org, id);
    hide Split;
    SplitPlain("recovery.json");
    SplitFirst("evidence", "recovery.json");
    SplitFirst(id, tail);
    SplitFirst("drills", id + ("/" + tail));
    SplitFirst(org, "drills" + ("/" + (id + ("/" + tail))));
  }

  // ------------------------------------------------------------------------ theorems

  predicate NoDots(s: string) {
    forall i :: 0 <= i < |s| ==> IsKeyChar(s[i]) && s[i] != '.'
  }

  lemma OneDot(before: string, after: string)
    requires NoDots(before) && NoDots(after)
    ensures var s := before + "." + after; !HasDotDot(s) && forall i :: 0 <= i < |s| ==> IsKeyChar(s[i])
  {
    var s := before + "." + after;
    forall i | 0 <= i < |s| && i != |before| ensures s[i] != '.' && IsKeyChar(s[i]) {
      if i > |before| { assert s[i] == after[i - |before| - 1]; }
    }
  }

  lemma PlainNoDots(org: string, id: string)
    requires Plain(org) && Plain(id)
    ensures NoDots(org + "/drills/" + id + "/evidence/recovery")
  {
    assert NoDots("/drills/") && NoDots("/evidence/recovery");
    NoDotsAppend(org, "/drills/");
    NoDotsAppend(org + "/drills/", id);
    NoDotsAppend(org + "/drills/" + id, "/evidence/recovery");
  }

  lemma NoDotsAppend(a: string, b: string)
    requires NoDots(a) && NoDots(b)
    ensures NoDots(a + b)
  {}

  /** The evidence key of every drill is accepted, in normal form, free of temporary names and
      103 characters long. */
  lemma KeyAccepted(org: Sandbox.Uuid, id: Sandbox.Uuid)
    requires Ids(org, id)
    ensures Accepted(Key(org, id)) && IsNormal(Key(org, id)) && Local.Unreserved(Key(org, id)) && |Key(org, id)| == 103
  {
    UuidPlain(org);
    UuidPlain(id);
    var o, i := Sandbox.Written(org), Sandbox.Written(id);
    KeyElements(o, i);
    PlainNoDots(o, i);
    assert NoDots("json");
    OneDot(o + "/drills/" + i + "/evidence/recovery", "json");
    Dotted(o, i);
    assert Key(org, id)[0] == o[0];
    PlainUnreserved(o);
    PlainUnreserved(i);
    hide Split, HasDotDot, Plain, NoDots, Sandbox.Written;
  }

  lemma Dotted(org: string, id: string)
    ensures Drills.EvidenceKey(org, id) == org + "/drills/" + id + "/evidence/recovery" + "." + "json"
  {
    assert "/evidence/recovery.json" == "/evidence/recovery" + "." + "json";
  }

  lemma PlainUnreserved(s: string)
    requires Plain(s)
    ensures !(Local.RESERVED <= s)
  {
    assert Local.RESERVED[0] == '.';
  }

  /** Any set of drills has a set of keys on which the local store behaves like a map. */
  lemma EvidenceKeySpace(drills: set<(Sandbox.Uuid, Sandbox.Uuid)>)
    requires forall d :: d in drills ==> Ids(d.0, d.1)
    ensures Local.KeySpace(set d | d in drills :: Key(d.0, d.1))
  {
    var keys := set d | d in drills :: Key(d.0, d.1);
    forall k | k in keys ensures Accepted(k) && IsNormal(k) && Local.Unreserved(k) && |k| == 103 {
      var d :| d in drills && k == Key(d.0, d.1);
      KeyAccepted(d.0, d.1);
    }
    hide Key, Accepted, IsNormal, Local.Unreserved;
  }
}
