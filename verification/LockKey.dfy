/**
 The registry key of a lock file path: the real path components joined again.
 */
module LockKey {
  // ---------------------------------------------------------------------------------------------------------
  // Split and join

  /** The length of the first path component. */
  function Slash(s: string): (n: nat)
    ensures n <= |s| && (forall i :: 0 <= i < n ==> s[i] != '/') && (n < |s| ==> s[n] == '/')
  {
    if s == "" || s[0] == '/' then 0 else 1 + Slash(s[1..])
  }

  /** A component that means something: neither empty nor the directory itself. */
  predicate Real(part: string) {
    part != "" && part != "."
  }

  function Kept(part: string): seq<string> {
    if Real(part) then [part] else []
  }

  function Components(s: string): seq<string>
    decreases |s|
  {
    var end := Slash(s);
    if end == |s| then Kept(s) else Kept(s[..end]) + Components(s[end + 1..])
  }

  predicate IsAbsolute(s: string) {
    s != "" && s[0] == '/'
  }

  function Join(key: string, part: string): string {
    (if key != "" && key[|key| - 1] != '/' then key + "/" else key) + part
  }

  function JoinAll(key: string, parts: seq<string>): string
    decreases |parts|
  {
    if parts == [] then key else JoinAll(Join(key, parts[0]), parts[1..])
  }

  function Root(s: string): string {
    if IsAbsolute(s) then "/" else ""
  }

  function Key(s: string): string {
    var key := JoinAll(Root(s), Components(s));
    if key == "" then s else key
  }

  method FindSlash(s: string, beg: nat) returns (end: nat)
    requires beg <= |s|
    ensures end == beg + Slash(s[beg..])
  {
    end := beg;
    while end < |s| && s[end] != '/'
      invariant beg <= end <= |s|
      invariant end + Slash(s[end..]) == beg + Slash(s[beg..])
    {
      assert s[end..][1..] == s[end + 1..];
      end := end + 1;
    }
  }

  /** The loop of the source: collects the real components behind the root. */
  method NormalizeLockKey(filename: string) returns (key: string)
    ensures key == Key(filename)
  {
    hide JoinAll, Components, Slash;
    key := "";
    if filename != "" && filename[0] == '/' {
      key := "/";
    }
    var beg := 0;
    assert filename[0..] == filename;
    while true
      invariant 0 <= beg <= |filename|
      invariant JoinAll(key, Components(filename[beg..])) == JoinAll(Root(filename), Components(filename))
      decreases |filename| - beg
    {
      var end := FindSlash(filename, beg);
      var part := filename[beg..end];
      assert part == filename[beg..][..end - beg];
      NextPart(key, filename[beg..]);
      if part != "" && part != "." {
        if key != "" && key[|key| - 1] != '/' {
          key := key + "/";
        }
        key := key + part;
      }
      if end == |filename| {
        break;
      }
      assert filename[beg..][end - beg + 1..] == filename[end + 1..];
      beg := end + 1;
    }
    if key == "" {
      key := filename;
    }
  }

  /** What one turn of the loop does to the key. */
  lemma NextPart(key: string, s: string)
    ensures var part := s[..Slash(s)];
            var next := if Real(part) then Join(key, part) else key;
            JoinAll(key, Components(s))
            == if Slash(s) == |s| then next else JoinAll(next, Components(s[Slash(s) + 1..]))
  {
    hide Join, Real, Slash;
    var part := s[..Slash(s)];
    JoinKept(key, part);
    if Slash(s) == |s| {
      assert part == s;
    } else {
      JoinAllOf(key, Kept(part), Components(s[Slash(s) + 1..]));
    }
  }

  lemma JoinKept(key: string, part: string)
    ensures JoinAll(key, Kept(part)) == if Real(part) then Join(key, part) else key
  {
    hide Join, Real;
    if Real(part) {
      assert [part][1..] == [];
    }
  }

  lemma {:induction false} JoinAllOf(key: string, x: seq<string>, y: seq<string>)
    ensures JoinAll(key, x + y) == JoinAll(JoinAll(key, x), y)
    decreases |x|
  {
    if x == [] {
      assert x + y == y;
    } else {
      assert (x + y)[1..] == x[1..] + y;
      JoinAllOf(Join(key, x[0]), x[1..], y);
    }
  }

  // ---------------------------------------------------------------------------------------------------------
  // Splitting what was joined

  predicate Component(part: string) {
    Real(part) && forall i :: 0 <= i < |part| ==> part[i] != '/'
  }

  lemma {:induction false} ComponentsAreReal(s: string)
    ensures forall part <- Components(s) :: Component(part)
    decreases |s|
  {
    if Slash(s) < |s| {
      ComponentsAreReal(s[Slash(s) + 1..]);
    }
  }

  lemma {:induction false} SlashOf(s: string, n: nat)
    requires n <= |s| && (forall i :: 0 <= i < n ==> s[i] != '/') && (n < |s| ==> s[n] == '/')
    ensures Slash(s) == n
  {
  }

  lemma {:induction false} ComponentsOfTwo(a: string, b: string)
    ensures Components(a + "/" + b) == Components(a) + Components(b)
    decreases |a|
  {
    var s, n := a + "/" + b, Slash(a);
    SlashOf(s, n);
    assert s[..n] == a[..n];
    if n == |a| {
      assert s[n + 1..] == b && a[..n] == a;
    } else {
      assert s[n + 1..] == a[n + 1..] + "/" + b;
      ComponentsOfTwo(a[n + 1..], b);
      assert Kept(a[..n]) + (Components(a[n + 1..]) + Components(b))
          == Kept(a[..n]) + Components(a[n + 1..]) + Components(b);
    }
  }

  lemma ComponentOfOne(part: string)
    requires Component(part)
    ensures Components(part) == [part]
  {
    SlashOf(part, |part|);
  }

  /** A key under construction: the root, nothing yet, or something that ends in a component. */
  predicate Open(key: string) {
    key == "" || key == "/" || key[|key| - 1] != '/'
  }

  lemma JoinAdds(key: string, part: string)
    requires Open(key) && Component(part)
    ensures Components(Join(key, part)) == Components(key) + [part]
    ensures Open(Join(key, part)) && Join(key, part) != "" && Join(key, part) != "/"
    ensures IsAbsolute(Join(key, part)) == IsAbsolute(key)
  {
    ComponentOfOne(part);
    if key == "" {
      assert Join(key, part) == part;
    } else if key == "/" {
      ComponentsOfTwo("", part);
      assert "" + "/" + part == Join(key, part);
      assert Components(key) == Components("") == [];
    } else {
      ComponentsOfTwo(key, part);
      assert key + "/" + part == Join(key, part);
    }
  }

  lemma {:induction false} JoinAllAdds(key: string, parts: seq<string>)
    requires Open(key) && forall part <- parts :: Component(part)
    ensures Components(JoinAll(key, parts)) == Components(key) + parts
    ensures IsAbsolute(JoinAll(key, parts)) == IsAbsolute(key)
    ensures parts != [] ==> JoinAll(key, parts) != ""
    decreases |parts|
  {
    hide Join, Components, Component;
    if parts != [] {
      assert parts[0] in parts;
      JoinAdds(key, parts[0]);
      JoinAllAdds(Join(key, parts[0]), parts[1..]);
      assert Components(key) + [parts[0]] + parts[1..] == Components(key) + parts;
    }
  }

  /** A path of no real component and no root names nothing the key could be made of. */
  predicate Bare(s: string) {
    !IsAbsolute(s) && Components(s) == []
  }

  lemma RootHasNone(s: string)
    ensures Components(Root(s)) == [] && Open(Root(s)) && IsAbsolute(Root(s)) == IsAbsolute(s)
  {
    assert Components("/") == Kept("") + Components("");
  }

  /** The key keeps the root and the real components of the path. */
  lemma KeyKeeps(s: string)
    ensures Components(Key(s)) == Components(s) && IsAbsolute(Key(s)) == IsAbsolute(s)
    ensures !Bare(s) ==> Key(s) == JoinAll(Root(s), Components(s))
    ensures Bare(s) ==> Key(s) == s
  {
    RootHasNone(s);
    ComponentsAreReal(s);
    JoinAllAdds(Root(s), Components(s));
    assert [] + Components(s) == Components(s);
  }

  lemma KeyIsIdempotent(s: string)
    ensures Key(Key(s)) == Key(s)
  {
    hide Key, Components;
    KeyKeeps(s);
    KeyKeeps(Key(s));
  }

  /** Two paths get one key exactly when they agree on the root and the real components; a path that has neither keeps
      its own spelling. */
  lemma SameKey(a: string, b: string)
    ensures Key(a) == Key(b)
       <==> IsAbsolute(a) == IsAbsolute(b) && Components(a) == Components(b) && (Bare(a) ==> a == b)
  {
    hide Key, Components, JoinAll;
    KeyKeeps(a);
    KeyKeeps(b);
  }

  /** Repeated and trailing separators and the directory itself do not count. */
  lemma SameFileSpellings(dir: string, file: string)
    ensures Components(dir + "//" + file) == Components(dir + "/" + file)
    ensures Components(dir + "/./" + file) == Components(dir + "/" + file)
    ensures Components(dir + "/") == Components(dir)
    ensures Components("./" + file) == Components(file)
  {
    hide Components;
    NoComponents();
    ComponentsOfTwo(dir, file);
    ComponentsOfTwo(dir, "" + "/" + file);
    ComponentsOfTwo("", file);
    assert dir + "/" + ("" + "/" + file) == dir + "//" + file;
    ComponentsOfTwo(dir, "." + "/" + file);
    ComponentsOfTwo(".", file);
    assert dir + "/" + ("." + "/" + file) == dir + "/./" + file;
    ComponentsOfTwo(dir, "");
    assert dir + "/" + "" == dir + "/";
    assert "." + "/" + file == "./" + file;
  }

  lemma NoComponents()
    ensures Components("") == [] && Components(".") == []
  {
    SlashOf(".", 1);
  }
}
