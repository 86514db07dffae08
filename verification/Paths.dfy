/** Object keys and where they resolve, as in backend/internal/storage/local.go. A path is
    the list of its elements; the storage root is absolute and clean. */
module Paths {
  import opened Prelude

  type Path = seq<string>

  predicate IsAlphanumeric(c: char) { 'a' <= c <= 'z' || 'A' <= c <= 'Z' || '0' <= c <= '9' }

  predicate IsKeyChar(c: char) { IsAlphanumeric(c) || c == '/' || c == '_' || c == '.' || c == '-' }

  predicate HasDotDot(s: string) {
    exists i | 0 <= i < |s| - 1 :: s[i] == '.' && s[i + 1] == '.'
  }

  /** The pattern `safeKey` and the two tests beside it. */
  predicate Accepted(key: string) {
    && 1 <= |key| <= 500 && IsAlphanumeric(key[0])
    && (forall i :: 0 <= i < |key| ==> IsKeyChar(key[i]))
    && !HasDotDot(key) && '\\' !in key
  }

  /** The elements between slashes. */
  function Split(s: string): (r: seq<string>)
    ensures |r| > 0
  {
    if s == "" then [""]
    else
      var rest := Split(s[1..]);
      if s[0] == '/' then [""] + rest else [[s[0]] + rest[0]] + rest[1..]
  }

  function Unsplit(elements: seq<string>): string
    requires |elements| > 0
  {
    if |elements| == 1 then elements[0] else elements[0] + ("/" + Unsplit(elements[1..]))
  }

  /** One element: nothing for an empty one or `.`, one level up for `..`, which stops at `/`. */
  function Push(base: Path, element: string): Path {
    if element == "" || element == "." then base
    else if element == ".." then if base == [] then [] else base[..|base| - 1]
    else base + [element]
  }

  function Clean(base: Path, elements: seq<string>): Path
    decreases |elements|
  {
    if elements == [] then base else Clean(Push(base, elements[0]), elements[1..])
  }

  function Join(root: Path, key: string): Path {
    Clean([], root + Split(key))
  }

  /** How far two paths agree. */
  function Common(a: Path, b: Path, i: nat): (n: nat)
    requires i <= |a| && i <= |b|
    ensures n <= |a| && n <= |b|
    decreases |a| - i
  {
    if i < |a| && i < |b| && a[i] == b[i] then Common(a, b, i + 1) else i
  }

  function Ups(n: nat): Path {
    if n == 0 then [] else [".."] + Ups(n - 1)
  }

  /** The way from one clean absolute path to another. */
  function Rel(base: Path, target: Path): Path {
    var n := Common(base, target, 0);
    Ups(|base| - n) + target[n..]
  }

  /** The method `path`, with its last test that the object stays under the root. */
  function Locate(root: Path, key: string): Option<Path> {
    if !Accepted(key) then None
    else
      var candidate := Join(root, key);
      var rel := Rel(root, candidate);
      if rel != [] && rel[0] == ".." then None else Some(candidate)
  }

  predicate IsName(element: string) { element != "" && element != "." && element != ".." }

  predicate IsClean(p: Path) {
    forall i :: 0 <= i < |p| ==> IsName(p[i])
  }

  /** A key of letters, digits, `_`, `-` and inner slashes is accepted exactly up to 500
      characters. */
  lemma PlainKeys(key: string)
    requires key != "" && IsAlphanumeric(key[0])
    requires forall i :: 0 <= i < |key| ==> IsAlphanumeric(key[i]) || key[i] == '_' || key[i] == '-' || key[i] == '/'
    ensures Accepted(key) <==> |key| <= 500
  {}

  // ------------------------------------------------------------------ under the root

  lemma {:induction false} UnsplitSplit(s: string)
    ensures Unsplit(Split(s)) == s
  {
    if s != "" {
      var rest := Split(s[1..]);
      UnsplitSplit(s[1..]);
      var r := Split(s);
      if s[0] == '/' {
        assert r[1..] == rest;
        assert s == "" + ("/" + s[1..]);
      } else {
        assert r[1..] == rest[1..];
        assert s == [s[0]] + s[1..];
        if |rest| > 1 {
          assert [s[0]] + (rest[0] + ("/" + Unsplit(rest[1..]))) == ([s[0]] + rest[0]) + ("/" + Unsplit(rest[1..]));
        }
      }
    }
  }

  lemma {:induction false} SplitPlain(s: string)
    requires '/' !in s
    ensures Split(s) == [s]
  {
    if s != "" {
      SplitPlain(s[1..]);
      assert [s[0]] + s[1..] == s;
    }
  }

  /** The first slash ends the first element. */
  lemma {:induction false} SplitFirst(head: string, rest: string)
    requires '/' !in head
    ensures Split(head + ("/" + rest)) == [head] + Split(rest)
  {
    var s := head + ("/" + rest);
    if head == "" {
      assert s == "/" + rest && s[1..] == rest;
    } else {
      SplitFirst(head[1..], rest);
      assert s[1..] == head[1..] + ("/" + rest);
      assert [head[0]] + head[1..] == head;
    }
  }

  /** The first element starts the key. */
  lemma {:induction false} FirstElement(s: string)
    ensures Split(s)[0] <= s
    ensures s != "" && s[0] != '/' ==> Split(s)[0] != "" && Split(s)[0][0] == s[0]
  {
    if s != "" && s[0] != '/' {
      FirstElement(s[1..]);
      assert s == [s[0]] + s[1..];
    }
  }

  lemma StartsDotDot(s: string)
    requires ".." <= s
    ensures HasDotDot(s)
  {
    assert s[0] == ".."[0] && s[1] == ".."[1];
  }

  lemma {:induction false} NoDotDot(s: string)
    requires !HasDotDot(s)
    ensures forall k :: 0 <= k < |Split(s)| ==> Split(s)[k] != ".."
  {
    if s != "" {
      var rest := s[1..];
      assert HasDotDot(rest) ==> HasDotDot(s) by {
        assert forall i :: 0 <= i < |rest| ==> rest[i] == s[i + 1];
      }
      NoDotDot(rest);
      FirstElement(s);
      if ".." <= s { StartsDotDot(s); }
      assert forall k :: 1 <= k < |Split(s)| ==> Split(s)[k] in Split(rest);
    }
  }

  /** What an accepted key adds to the root: its elements but for the empty ones and `.`. */
  function Kept(elements: seq<string>): Path {
    if elements == [] then []
    else if elements[0] == "" || elements[0] == "." then Kept(elements[1..])
    else [elements[0]] + Kept(elements[1..])
  }

  function Resolved(key: string): Path { Kept(Split(key)) }

  lemma {:induction false} CleanKept(base: Path, elements: seq<string>)
    requires forall k :: 0 <= k < |elements| ==> elements[k] != ".."
    ensures Clean(base, elements) == base + Kept(elements)
    ensures IsClean(Kept(elements))
    decreases |elements|
  {
    if elements != [] {
      CleanKept(Push(base, elements[0]), elements[1..]);
    }
  }

  lemma {:induction false} CleanRoot(base: Path, root: Path, elements: seq<string>)
    requires IsClean(root)
    ensures Clean(base, root + elements) == Clean(base + root, elements)
    decreases |root|
  {
    if root == [] {
      assert root + elements == elements && base + root == base;
    } else {
      CleanRoot(base + [root[0]], root[1..], elements);
      assert (root + elements)[1..] == root[1..] + elements;
      assert base + [root[0]] + root[1..] == base + root;
    }
  }

  lemma {:induction false} CommonBelow(root: Path, below: Path, i: nat)
    requires i <= |root|
    ensures Common(root, root + below, i) == |root|
    decreases |root| - i
  {
    if i < |root| { CommonBelow(root, below, i + 1); }
  }

  lemma RelBelow(root: Path, below: Path)
    ensures Rel(root, root + below) == below
  {
    CommonBelow(root, below, 0);
    assert (root + below)[|root|..] == below;
  }

  lemma ResolvedClean(key: string)
    requires Accepted(key)
    ensures Resolved(key) != [] && IsClean(Resolved(key))
  {
    NoDotDot(key);
    CleanKept([], Split(key));
    FirstElement(key);
    assert Split(key)[0][0] != '.';
  }

  /** Every accepted key, in normal form or not, resolves strictly below the root, so the
      test for escaping never fires. */
  lemma KeysStayBelow(root: Path, key: string)
    requires IsClean(root)
    ensures Locate(root, key) == if Accepted(key) then Some(root + Resolved(key)) else None
    ensures Accepted(key) ==> Resolved(key) != [] && IsClean(Resolved(key))
  {
    if Accepted(key) {
      NoDotDot(key);
      CleanRoot([], root, Split(key));
      assert [] + root == root;
      CleanKept(root, Split(key));
      RelBelow(root, Resolved(key));
      ResolvedClean(key);
    }
  }

  // -------------------------------------------------------------------- normal form

  /** No doubled or final slash and no element `.`. */
  predicate IsNormal(key: string) {
    forall k :: 0 <= k < |Split(key)| ==> Split(key)[k] != "" && Split(key)[k] != "."
  }

  lemma {:induction false} KeptAll(elements: seq<string>)
    requires forall k :: 0 <= k < |elements| ==> elements[k] != "" && elements[k] != "."
    ensures Kept(elements) == elements
  {
    if elements != [] { KeptAll(elements[1..]); }
  }

  /** Two keys share a place exactly when their kept elements agree; keys in normal form never
      do unless they are equal. */
  lemma NormalKeysDistinct(k: string, l: string)
    requires IsNormal(k) && IsNormal(l) && Resolved(k) == Resolved(l)
    ensures k == l
  {
    KeptAll(Split(k));
    KeptAll(Split(l));
    UnsplitSplit(k);
    UnsplitSplit(l);
  }
}
