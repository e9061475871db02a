/** Validating a set of output paths by one scan over their sorted portable keys. */
module PathSets {
  import opened Options

  /** Strings by code points, as `sorted` compares them. */
  predicate Less(a: string, b: string) {
    b != [] && (a == [] || a[0] < b[0] || (a[0] == b[0] && Less(a[1..], b[1..])))
  }

  lemma {:induction false} LessTotal(a: string, b: string)
    ensures a == b || Less(a, b) || Less(b, a)
    ensures !(Less(a, b) && Less(b, a)) && !Less(a, a)
  {
    if a != [] && b != [] && a[0] == b[0] {
      LessTotal(a[1..], b[1..]);
      if a[1..] == b[1..] { assert a == [a[0]] + a[1..] && b == [b[0]] + b[1..]; }
    }
    if a != [] { LessTotal(a[1..], a[1..]); }
  }

  lemma {:induction false} LessTransitive(a: string, b: string, c: string)
    requires Less(a, b) && Less(b, c)
    ensures Less(a, c)
  {
    if a != [] && b != [] && c != [] && a[0] == b[0] == c[0] { LessTransitive(a[1..], b[1..], c[1..]); }
  }

  /** A string starting with `p` does not come before `p`. */
  lemma {:induction false} PrefixNotAfter(p: string, o: string)
    requires p <= o
    ensures !Less(o, p)
  {
    if p != [] { PrefixNotAfter(p[1..], o[1..]); }
  }

  /** What starts with `p` is an interval: a string past `p` that does not start with it comes after
      everything that does. */
  lemma {:induction false} PrefixInterval(p: string, o: string, x: string)
    requires p <= o && Less(p, x) && !(p <= x)
    ensures Less(o, x)
  {
    if p != [] && p[0] == x[0] {
      PrefixInterval(p[1..], o[1..], x[1..]);
    }
  }

  /** The file at key `k` would have to be a directory for `o`. */
  predicate DirectoryOf(k: string, o: string) {
    k + "/" <= o
  }

  /** That is, `o` goes on after `k` with a slash. */
  lemma DirectoryOfMeans(k: string, o: string)
    ensures DirectoryOf(k, o) <==> |k| < |o| && o[|k|] == '/' && forall i :: 0 <= i < |k| ==> o[i] == k[i]
  {
    if |k| < |o| && o[|k|] == '/' && forall i :: 0 <= i < |k| ==> o[i] == k[i] {
      assert o[..|k| + 1] == k + "/";
    }
    if DirectoryOf(k, o) {
      assert forall i :: 0 <= i <= |k| ==> o[i] == (k + "/")[i];
    }
  }

  lemma DirectoryComesFirst(k: string, o: string)
    requires DirectoryOf(k, o)
    ensures Less(k, o)
  {
    assert k <= o;
    PrefixNotAfter(k, o);
    LessTotal(k, o);
  }

  ghost predicate Increasing(s: seq<string>) {
    forall i, j :: 0 <= i < j < |s| ==> Less(s[i], s[j])
  }

  /** The keys in order. They are distinct, so the order is strict. */
  method Sort(keys: set<string>) returns (s: seq<string>)
    ensures Increasing(s) && forall k :: k in s <==> k in keys
  {
    s := [];
    var rest := keys;
    while rest != {}
      invariant rest <= keys && Increasing(s) && (forall k :: k in s <==> k in keys - rest)
      invariant forall x, y :: x in s && y in rest ==> Less(x, y)
    {
      var least :| least in rest;
      var others := rest - {least};
      while others != {}
        invariant others <= rest && least in rest && least !in others
        invariant forall y :: y in rest && y !in others && y != least ==> Less(least, y)
      {
        var y :| y in others;
        LessTotal(y, least);
        if Less(y, least) {
          forall z | z in rest && z !in others && z != least ensures Less(y, z) { LessTransitive(y, least, z); }
          least := y;
        }
        others := others - {y};
      }
      s := s + [least];
      rest := rest - {least};
    }
  }

  /** Scans the keys after position `i` until none can lie below it any more: the first that does. */
  method ScanAfter(keys: seq<string>, i: nat) returns (found: Option<nat>)
    requires Increasing(keys) && i < |keys|
    ensures found.None? ==> forall j :: 0 <= j < |keys| ==> !DirectoryOf(keys[i], keys[j])
    ensures found.Some? ==>
      && found.value < |keys| && DirectoryOf(keys[i], keys[found.value])
      && forall j :: 0 <= j < found.value ==> !DirectoryOf(keys[i], keys[j])
  {
    var prefix := keys[i] + "/";
    forall j | 0 <= j <= i ensures !DirectoryOf(keys[i], keys[j]) {
      if DirectoryOf(keys[i], keys[j]) {
        DirectoryComesFirst(keys[i], keys[j]);
        LessTotal(keys[i], keys[j]);
      }
    }
    for m := i + 1 to |keys|
      invariant forall j :: 0 <= j < m ==> !DirectoryOf(keys[i], keys[j])
    {
      if prefix <= keys[m] { return Some(m); }
      if Less(prefix, keys[m]) && !(prefix <= keys[m]) {
        forall j | m < j < |keys| ensures !DirectoryOf(keys[i], keys[j]) { PastThePrefix(prefix, keys[m], keys[j]); }
        return None;
      }
    }
    return None;
  }

  lemma PastThePrefix(p: string, x: string, y: string)
    requires Less(p, x) && !(p <= x) && Less(x, y)
    ensures !(p <= y)
  {
    LessTotal(x, y);
    if p <= y { PrefixInterval(p, y, x); }
  }

  /** Why a set of paths is refused: path `at` is not normal, is there before, or has the portable key of the path
      `earlier`; or the file `file` would have to be a directory for `below`. */
  datatype Verdict =
    | Accepted
    | NotNormal(at: nat)
    | Duplicate(at: nat)
    | Collision(earlier: nat, at: nat)
    | Conflict(file: nat, below: nat)

  /** The first `n` paths are normal, and their keys differ. */
  ghost predicate Apart(paths: seq<string>, normal: string -> bool, key: string -> string, n: nat)
    requires n <= |paths|
  {
    && (forall i :: 0 <= i < n ==> normal(paths[i]))
    && (forall i, j :: 0 <= i < j < n ==> key(paths[i]) != key(paths[j]))
  }

  ghost predicate Nested(paths: seq<string>, key: string -> string, i: int, j: int) {
    0 <= i < |paths| && 0 <= j < |paths| && DirectoryOf(key(paths[i]), key(paths[j]))
  }

  /** What is wrong with path `n`, the first with anything wrong. */
  ghost predicate FirstBad(paths: seq<string>, normal: string -> bool, key: string -> string, n: nat, v: Verdict) {
    && n < |paths| && Apart(paths, normal, key, n)
    && match v
       case NotNormal(at) => at == n && !normal(paths[n])
       case Duplicate(at) => at == n && normal(paths[n]) && paths[n] in paths[..n]
       case Collision(m, at) =>
         at == n && normal(paths[n]) && paths[n] !in paths[..n] && m < n && key(paths[m]) == key(paths[n])
       case _ => false
  }

  /** The first conflict: no file with an earlier key is a directory of anything, and nothing with an earlier key lies
      below this one. */
  ghost predicate FirstConflict(paths: seq<string>, key: string -> string, i: nat, j: nat) {
    && Nested(paths, key, i, j)
    && forall x, y :: Nested(paths, key, x, y) ==>
         !Less(key(paths[x]), key(paths[i])) && (x == i ==> !Less(key(paths[y]), key(paths[j])))
  }

  /** Accepts exactly the sets of normal paths with pairwise different keys, none of which lies below another, and says
      of any other set what is wrong first. `key` is the portable form of a path. */
  method ValidatePathSet(paths: seq<string>, normal: string -> bool, key: string -> string) returns (v: Verdict)
    ensures v.Accepted? <==> Apart(paths, normal, key, |paths|) && forall i, j :: !Nested(paths, key, i, j)
    ensures v.NotNormal? || v.Duplicate? || v.Collision? ==> FirstBad(paths, normal, key, v.at, v)
    ensures v.Conflict? ==> Apart(paths, normal, key, |paths|) && FirstConflict(paths, key, v.file, v.below)
  {
    var portable: map<string, nat> := map[];
    for n := 0 to |paths|
      invariant Apart(paths, normal, key, n)
      invariant forall i :: 0 <= i < n ==> key(paths[i]) in portable && portable[key(paths[i])] == i
      invariant forall k :: k in portable ==> portable[k] < n && key(paths[portable[k]]) == k
    {
      if !normal(paths[n]) { return NotNormal(n); }
      if paths[n] in paths[..n] { return Duplicate(n); }
      var k := key(paths[n]);
      if k in portable { return Collision(portable[k], n); }
      portable := portable[k := n];
    }
    var ordered := Sort(portable.Keys);
    for i := 0 to |ordered|
      invariant forall m, j :: 0 <= m < i && 0 <= j < |ordered| ==> !DirectoryOf(ordered[m], ordered[j])
    {
      var found := ScanAfter(ordered, i);
      if found.Some? {
        FirstInOrder(paths, key, portable, ordered, i, found.value);
        return Conflict(portable[ordered[i]], portable[ordered[found.value]]);
      }
    }
    forall i, j | 0 <= i < |paths| && 0 <= j < |paths| ensures !DirectoryOf(key(paths[i]), key(paths[j])) {
      assert key(paths[i]) in ordered && key(paths[j]) in ordered;
    }
    return Accepted;
  }

  /** What the scan meets first comes first. */
  lemma FirstInOrder(paths: seq<string>, key: string -> string, portable: map<string, nat>, ordered: seq<string>,
      i: nat, j: nat)
    requires Increasing(ordered) && i < |ordered| && j < |ordered| && DirectoryOf(ordered[i], ordered[j])
    requires forall k :: k in ordered <==> k in portable
    requires forall n :: 0 <= n < |paths| ==> key(paths[n]) in portable && portable[key(paths[n])] == n
    requires forall k :: k in portable ==> portable[k] < |paths| && key(paths[portable[k]]) == k
    requires forall m, n :: 0 <= m < i && 0 <= n < |ordered| ==> !DirectoryOf(ordered[m], ordered[n])
    requires forall n :: 0 <= n < j ==> !DirectoryOf(ordered[i], ordered[n])
    ensures ordered[i] in portable && ordered[j] in portable
    ensures FirstConflict(paths, key, portable[ordered[i]], portable[ordered[j]])
  {
    var file, below := portable[ordered[i]], portable[ordered[j]];
    forall x, y | Nested(paths, key, x, y)
      ensures !Less(key(paths[x]), key(paths[file])) && (x == file ==> !Less(key(paths[y]), key(paths[below])))
    {
      assert key(paths[x]) in ordered && key(paths[y]) in ordered;
      var m :| 0 <= m < |ordered| && ordered[m] == key(paths[x]);
      var n :| 0 <= n < |ordered| && ordered[n] == key(paths[y]);
      LessTotal(ordered[m], ordered[i]);
      LessTotal(ordered[n], ordered[j]);
      assert m > i ==> Less(ordered[i], ordered[m]);
      assert n > j ==> Less(ordered[j], ordered[n]);
    }
  }
}
