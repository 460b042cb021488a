/** Moving a closure of store paths to a fixed prefix: the replacement for each path, and the
    rewriting of references in a file's bytes without changing their length. */
module Rewriting {
  import opened Wrappers

  const STORE: string := "/nix/store/"

  /** The length of a store path's hash, and of a reference up to the dash after it. */
  const HASH: nat := 32
  const REF: nat := 44

  predicate IsHashChar(c: char)
  {
    '0' <= c <= '9' || 'a' <= c <= 'd' || 'f' <= c <= 'n' || 'p' <= c <= 's' || 'v' <= c <= 'z'
  }

  predicate IsHash(s: string)
  {
    |s| == HASH && forall k :: 0 <= k < |s| ==> IsHashChar(s[k])
  }

  /** A directory of the store: hash, dash and name, without a slash. */
  predicate IsStorePath(path: string)
  {
    |path| >= REF && path[..|STORE|] == STORE && IsHash(path[|STORE|..REF - 1]) && path[REF - 1] == '-' &&
    '/' !in path[|STORE|..]
  }

  function Hash(path: string): string
    requires IsStorePath(path)
  {
    path[|STORE|..REF - 1]
  }

  // ----- Replacements -----

  /** A prefix without slashes at its end. */
  function Strip(prefix: string): (r: string)
    ensures r <= prefix && (r == [] || r[|r| - 1] != '/')
  {
    if prefix != [] && prefix[|prefix| - 1] == '/' then Strip(prefix[..|prefix| - 1]) else prefix
  }

  function Slashes(n: nat): (r: string)
    ensures |r| == n && forall k :: 0 <= k < n ==> r[k] == '/'
  {
    if n == 0 then "" else Slashes(n - 1) + "/"
  }

  /** A directory's name in the new tree: the hash loses as many characters as the tree's own
      path is longer than the store's. */
  function ShortName(path: string, cut: nat): string
    requires IsStorePath(path) && cut <= HASH
  {
    path[|STORE|..REF - 1 - cut] + path[REF - 1..]
  }

  /** What references to a path become, before padding. */
  function Replacement(path: string, prefix: string, cut: nat, flat: bool): string
    requires IsStorePath(path) && cut <= HASH
  {
    if flat then prefix else prefix + "/s/" + ShortName(path, cut)
  }

  /** Padded with slashes to the length of the path it replaces, or cut to that length. */
  function Padded(repl: string, n: nat): (r: string)
    ensures |r| == n
  {
    if |repl| < n then repl + Slashes(n - |repl|) else repl[..n]
  }

  /** A path and its replacement. */
  datatype Target = Target(path: string, repl: string)

  function Written(t: Target): (r: string)
    ensures |r| == |t.path|
  {
    Padded(t.repl, |t.path|)
  }

  ghost predicate WellFormed(targets: map<string, Target>)
  {
    forall h :: h in targets ==> IsStorePath(targets[h].path) && Hash(targets[h].path) == h
  }

  /** How many characters of each hash have to go. */
  function Cut(prefix: string): int
  {
    |prefix + "/s/"| - |STORE|
  }

  /** A replacement is a spelling of its target: nothing is cut off, and a shorter one only
      gains slashes at its end. */
  lemma SpellsTarget(path: string, prefix: string, flat: bool)
    requires IsStorePath(path) && 0 <= Cut(prefix) <= 12
    ensures var repl := Replacement(path, prefix, Cut(prefix), flat);
            Padded(repl, |path|) == repl + Slashes(if flat then |path| - |repl| else 0) && (flat || |repl| == |path|) &&
            |repl| <= |path|
  {
    var repl := Replacement(path, prefix, Cut(prefix), flat);
    if !flat {
      assert |repl| == |path|;
      assert repl[..|path|] == repl && repl + "" == repl;
    }
  }

  /** Paths that stay apart get targets that differ if their short names do. */
  lemma ApartTargets(p: string, q: string, prefix: string)
    requires IsStorePath(p) && IsStorePath(q) && 0 <= Cut(prefix) <= 12
    requires ShortName(p, Cut(prefix)) != ShortName(q, Cut(prefix))
    ensures Replacement(p, prefix, Cut(prefix), false) != Replacement(q, prefix, Cut(prefix), false)
  {
    var n := |prefix + "/s/"|;
    var a, b := Replacement(p, prefix, Cut(prefix), false), Replacement(q, prefix, Cut(prefix), false);
    assert a[n..] == ShortName(p, Cut(prefix)) && b[n..] == ShortName(q, Cut(prefix));
  }

  /** What is written for a merged path is never what is written for one that stays apart. */
  lemma MergedApart(p: string, q: string, prefix: string)
    requires IsStorePath(p) && IsStorePath(q) && 0 <= Cut(prefix) <= 12
    ensures Padded(Replacement(p, prefix, Cut(prefix), true), |p|) != Padded(Replacement(q, prefix, Cut(prefix), false), |q|)
  {
    SpellsTarget(p, prefix, true);
    SpellsTarget(q, prefix, false);
    var n := |prefix|;
    var a, b := Padded(prefix, |p|), Padded(Replacement(q, prefix, Cut(prefix), false), |q|);
    assert a[n + 1] == '/';
    assert b == prefix + "/s/" + ShortName(q, Cut(prefix)) + "";
    assert b[n + 1] == 's';
  }

  // ----- References in bytes -----

  /** A reference starts here: the store's path, a hash and a dash. */
  predicate IsRef(data: string, i: nat)
  {
    i + REF <= |data| && data[i..i + |STORE|] == STORE && IsHash(data[i + |STORE|..i + REF - 1]) && data[i + REF - 1] == '-'
  }

  function HashAt(data: string, i: nat): string
    requires IsRef(data, i)
  {
    data[i + |STORE|..i + REF - 1]
  }

  /** The reference is to a known path, all of which follows. */
  predicate IsKnown(data: string, targets: map<string, Target>, i: nat)
  {
    IsRef(data, i) && HashAt(data, i) in targets && targets[HashAt(data, i)].path <= data[i..]
  }

  function TargetAt(data: string, targets: map<string, Target>, i: nat): Target
    requires IsKnown(data, targets, i)
  {
    targets[HashAt(data, i)]
  }

  /** A byte belongs to a reference to a known path. */
  ghost predicate Covered(data: string, targets: map<string, Target>, k: nat)
  {
    exists i: nat :: i <= k && IsKnown(data, targets, i) && k < i + |TargetAt(data, targets, i).path|
  }

  /** The characters of a reference: the store's path, then none that is a slash. */
  lemma RefText(data: string, i: nat, d: nat)
    requires IsRef(data, i) && d < REF
    ensures if d < |STORE| then data[i + d] == STORE[d] else data[i + d] != '/'
  {
    if d < |STORE| {
      assert data[i..i + |STORE|][d] == data[i + d];
    } else if d < REF - 1 {
      assert data[i + |STORE|..i + REF - 1][d - |STORE|] == data[i + d];
    }
  }

  /** No reference starts within another. */
  lemma RefsApart(data: string, i: nat, j: nat)
    requires IsRef(data, i) && IsRef(data, j) && i < j
    ensures j >= i + REF
  {
    hide IsRef;
    if j < i + REF {
      RefText(data, j, 0);
      RefText(data, j, 1);
      RefText(data, j, 4);
      RefText(data, i, 5);
      RefText(data, i, 14);
      RefText(data, i, j - i);
    }
  }

  lemma KnownText(data: string, targets: map<string, Target>, i: nat, d: nat)
    requires WellFormed(targets) && IsKnown(data, targets, i) && |STORE| <= d < |TargetAt(data, targets, i).path|
    ensures i + d < |data| && data[i + d] != '/'
  {
    var path := TargetAt(data, targets, i).path;
    assert path[d] == data[i..][d] == data[i + d];
    assert path[d] == path[|STORE|..][d - |STORE|];
  }

  /** No reference starts within a known path. */
  lemma NoneInside(data: string, targets: map<string, Target>, i: nat, j: nat)
    requires WellFormed(targets) && IsKnown(data, targets, i) && IsRef(data, j) && i < j
    ensures j >= i + |TargetAt(data, targets, i).path|
  {
    hide WellFormed;
    RefsApart(data, i, j);
    RefText(data, j, 0);
    if j < i + |TargetAt(data, targets, i).path| {
      KnownText(data, targets, i, j - i);
    }
  }

  // ----- Rewriting a file -----

  /** Every reference to a known path before a position has been replaced. */
  ghost predicate Replaced(data: string, targets: map<string, Target>, out: string, upTo: nat)
  {
    forall i: nat :: i < upTo && IsKnown(data, targets, i) ==>
      i + |TargetAt(data, targets, i).path| <= |out| &&
      out[i..i + |TargetAt(data, targets, i).path|] == Written(TargetAt(data, targets, i))
  }

  /** Every byte that belongs to no such reference is as it was. */
  ghost predicate Untouched(data: string, targets: map<string, Target>, out: string)
  {
    |out| <= |data| && forall k :: 0 <= k < |out| && !Covered(data, targets, k) ==> out[k] == data[k]
  }

  /** What has been written so far ends where the last replacement ends. */
  ghost predicate EndsAt(data: string, targets: map<string, Target>, pos: nat, at: nat)
  {
    pos == 0 || exists i: nat :: i < at && IsKnown(data, targets, i) && pos == i + |TargetAt(data, targets, i).path|
  }

  lemma NoSkip(data: string, targets: map<string, Target>, pos: nat, at: nat)
    requires WellFormed(targets) && EndsAt(data, targets, pos, at) && IsRef(data, at)
    ensures pos <= at
  {
    hide WellFormed, IsRef;
    if pos > 0 {
      var i: nat :| i < at && IsKnown(data, targets, i) && pos == i + |TargetAt(data, targets, i).path|;
      NoneInside(data, targets, i, at);
    }
  }

  /** Appending what lies before a known path, and its replacement. */
  lemma ReplaceNext(data: string, targets: map<string, Target>, out: string, at: nat)
    requires IsKnown(data, targets, at) && |out| <= at
    requires Replaced(data, targets, out, at) && Untouched(data, targets, out)
    ensures var t := TargetAt(data, targets, at);
            var more := out + data[|out|..at] + Written(t);
            |more| == at + |t.path| && Replaced(data, targets, more, at + 1) && Untouched(data, targets, more)
  {
    hide Covered, Written, IsHash;
    var t := TargetAt(data, targets, at);
    var more := out + data[|out|..at] + Written(t);
    assert more[..|out|] == out && more[at..at + |t.path|] == Written(t);
    forall i: nat | i < at + 1 && IsKnown(data, targets, i)
      ensures i + |TargetAt(data, targets, i).path| <= |more|
      ensures more[i..i + |TargetAt(data, targets, i).path|] == Written(TargetAt(data, targets, i))
    {
      if i < at {
        var n := i + |TargetAt(data, targets, i).path|;
        assert more[i..n] == out[i..n];
      }
    }
    forall k | 0 <= k < |more| && !Covered(data, targets, k) ensures more[k] == data[k] {
      if k >= at { CoversOwn(data, targets, at, k); }
    }
  }

  lemma CoversOwn(data: string, targets: map<string, Target>, at: nat, k: nat)
    requires IsKnown(data, targets, at) && at <= k < at + |TargetAt(data, targets, at).path|
    ensures Covered(data, targets, k)
  {
  }

  /** Rewrites the references in a file's bytes. The length stays; every reference to a known
      path is replaced; bytes outside such references stay; the others are reported. */
  method Rewrite(data: string, targets: map<string, Target>) returns (out: string, unknown: set<nat>)
    requires WellFormed(targets)
    ensures |out| == |data| && Replaced(data, targets, out, |data|) && Untouched(data, targets, out)
    ensures forall i: nat :: i in unknown <==> IsRef(data, i) && !IsKnown(data, targets, i)
  {
    hide WellFormed, IsRef, Written, Replaced, Untouched;
    out, unknown := "", {};
    var pos, at := 0, 0;
    NothingYet(data, targets);
    while at + REF <= |data|
      invariant pos == |out| <= |data| && at <= |data|
      invariant Replaced(data, targets, out, at) && Untouched(data, targets, out) && EndsAt(data, targets, pos, at)
      invariant forall i: nat :: i in unknown <==> i < at && IsRef(data, i) && !IsKnown(data, targets, i)
      decreases |data| - at
    {
      if IsRef(data, at) {
        NoSkip(data, targets, pos, at);
        forall i: nat | at < i < at + REF ensures !IsRef(data, i) {
          if IsRef(data, i) { RefsApart(data, at, i); }
        }
        if !IsKnown(data, targets, at) {
          unknown := unknown + {at};
          ReplacedOn(data, targets, out, at, at + REF);
        } else {
          var t := TargetAt(data, targets, at);
          ReplaceNext(data, targets, out, at);
          out := out + data[pos..at] + Written(t);
          pos := at + |t.path|;
          ReplacedOn(data, targets, out, at + 1, at + REF);
          assert EndsAt(data, targets, pos, at + REF);
        }
        at := at + REF;
      } else {
        ReplacedOn(data, targets, out, at, at + 1);
        at := at + 1;
      }
    }
    TailStays(data, targets, out, at);
    forall i: nat | IsRef(data, i) ensures i < at { RefFits(data, i); }
    out := out + data[pos..];
  }

  lemma RefFits(data: string, i: nat)
    requires IsRef(data, i)
    ensures i + REF <= |data|
  {
  }

  lemma NothingYet(data: string, targets: map<string, Target>)
    ensures Replaced(data, targets, "", 0) && Untouched(data, targets, "")
  {
  }

  /** Positions where no known path starts need no replacement. */
  lemma ReplacedOn(data: string, targets: map<string, Target>, out: string, a: nat, b: nat)
    requires Replaced(data, targets, out, a) && a <= b
    requires forall i: nat :: a <= i < b ==> !IsKnown(data, targets, i)
    ensures Replaced(data, targets, out, b)
  {
    hide IsKnown, Written;
  }

  lemma TailStays(data: string, targets: map<string, Target>, out: string, at: nat)
    requires Replaced(data, targets, out, at) && Untouched(data, targets, out) && at + REF > |data|
    ensures var all := out + data[|out|..];
            |all| == |data| && Replaced(data, targets, all, |data|) && Untouched(data, targets, all)
  {
    hide Covered, Written;
    var all := out + data[|out|..];
    forall i: nat | i < |data| && IsKnown(data, targets, i)
      ensures i + |TargetAt(data, targets, i).path| <= |all|
      ensures all[i..i + |TargetAt(data, targets, i).path|] == Written(TargetAt(data, targets, i))
    {
      var n := i + |TargetAt(data, targets, i).path|;
      assert i < at;
      assert all[i..n] == out[i..n];
    }
  }

  // ----- The table of targets -----

  ghost predicate Injective(names: map<string, string>)
  {
    forall p, q :: p in names && q in names && p != q ==> names[p] != names[q]
  }

  /** As many values as keys means that no two keys share a value. */
  lemma {:induction false} AsManyValues(names: map<string, string>)
    ensures |names.Values| <= |names.Keys|
    ensures |names.Values| == |names.Keys| <==> Injective(names)
    decreases |names|
  {
    if names != map[] {
      var p :| p in names;
      var rest := names - {p};
      AsManyValues(rest);
      assert names.Keys == rest.Keys + {p};
      assert names.Values == rest.Values + {names[p]} by {
        assert forall q :: q in rest ==> rest[q] == names[q];
      }
      if names[p] in rest.Values {
        var q :| q in rest && rest[q] == names[p];
        assert names.Values == rest.Values;
        assert names[q] == names[p];
      }
    }
  }

  ghost predicate AllStorePaths(closure: seq<string>)
  {
    forall i :: 0 <= i < |closure| ==> IsStorePath(closure[i])
  }

  /** Two paths of the closure have the same hash only if they are the same. */
  ghost predicate HashesApart(closure: seq<string>)
    requires AllStorePaths(closure)
  {
    forall i, j :: 0 <= i < |closure| && 0 <= j < |closure| && Hash(closure[i]) == Hash(closure[j]) ==> closure[i] == closure[j]
  }

  ghost predicate NamesApart(closure: seq<string>, cut: nat)
    requires AllStorePaths(closure) && cut <= HASH
  {
    forall i, j :: 0 <= i < |closure| && 0 <= j < |closure| && closure[i] != closure[j] ==>
      ShortName(closure[i], cut) != ShortName(closure[j], cut)
  }

  /** What the table says of the paths of a closure: each has its own target. */
  ghost predicate Tabled(targets: map<string, Target>, closure: seq<string>, prefix: string, flat: seq<string>)
    requires AllStorePaths(closure) && 0 <= Cut(prefix) <= 12
  {
    forall i :: 0 <= i < |closure| ==>
      Hash(closure[i]) in targets &&
      (HashesApart(closure) ==>
         targets[Hash(closure[i])] == Target(closure[i], Replacement(closure[i], prefix, Cut(prefix), closure[i] in flat)))
  }

  /** Fills the table, or says why the tree cannot be made: the prefix has the wrong length, a
      path to merge is not in the closure, or two names collide once shortened. */
  method FillTargets(given: string, closure: seq<string>, flat: seq<string>) returns (r: Result<map<string, Target>>)
    requires AllStorePaths(closure)
    ensures r.Ok? <==> 0 <= Cut(Strip(given)) <= 12 && (forall i :: 0 <= i < |flat| ==> flat[i] in closure) &&
                       NamesApart(closure, Cut(Strip(given)))
    ensures r.Ok? ==> WellFormed(r.value) && Tabled(r.value, closure, Strip(given), flat)
  {
    hide AllStorePaths, IsStorePath, Tabled, WellFormed, Shortened, NamesApart, ShortName, Replacement, Injective;
    var prefix := Strip(given);
    var cut := Cut(prefix);
    if !(0 <= cut <= 12) { return Err("prefix"); }
    if exists i :: 0 <= i < |flat| && flat[i] !in closure { return Err("merge"); }
    var targets: map<string, Target> := map[];
    var names: map<string, string> := map[];
    NoPaths(prefix, flat, cut);
    for i := 0 to |closure|
      invariant AllStorePaths(closure[..i]) && Shortened(names, closure[..i], cut)
      invariant WellFormed(targets) && Tabled(targets, closure[..i], prefix, flat)
    {
      var path := closure[i];
      assert closure[..i + 1] == closure[..i] + [path];
      PathAt(closure, i);
      NextPath(targets, names, closure[..i], path, prefix, flat);
      names := names[path := ShortName(path, cut)];
      targets := targets[Hash(path) := Target(path, Replacement(path, prefix, cut, path in flat))];
    }
    assert closure[..|closure|] == closure;
    AsManyValues(names);
    ShortenedApart(names, closure, cut);
    if |names.Values| != |names.Keys| { return Err("collision"); }
    r := Ok(targets);
  }

  /** The short name of each path. */
  ghost predicate Shortened(names: map<string, string>, closure: seq<string>, cut: nat)
    requires AllStorePaths(closure) && cut <= HASH
  {
    (forall p :: p in names <==> p in closure) &&
    forall i :: 0 <= i < |closure| ==> closure[i] in names && names[closure[i]] == ShortName(closure[i], cut)
  }

  lemma NoPaths(prefix: string, flat: seq<string>, cut: nat)
    requires 0 <= Cut(prefix) <= 12 && cut <= HASH
    ensures AllStorePaths([]) && Shortened(map[], [], cut) && WellFormed(map[]) && Tabled(map[], [], prefix, flat)
  {
  }

  lemma PathAt(closure: seq<string>, i: nat)
    requires AllStorePaths(closure) && i < |closure|
    ensures IsStorePath(closure[i])
  {
  }

  lemma NextPath(targets: map<string, Target>, names: map<string, string>, done: seq<string>, path: string, prefix: string,
                 flat: seq<string>)
    requires AllStorePaths(done) && IsStorePath(path) && 0 <= Cut(prefix) <= 12 && WellFormed(targets)
    requires Shortened(names, done, Cut(prefix)) && Tabled(targets, done, prefix, flat)
    ensures AllStorePaths(done + [path])
    ensures Shortened(names[path := ShortName(path, Cut(prefix))], done + [path], Cut(prefix))
    ensures var more := targets[Hash(path) := Target(path, Replacement(path, prefix, Cut(prefix), path in flat))];
            WellFormed(more) && Tabled(more, done + [path], prefix, flat)
  {
    hide IsStorePath, ShortName, Replacement, Hash;
    var all := done + [path];
    if HashesApart(all) {
      assert all[|done|] == path && forall i :: 0 <= i < |done| ==> all[i] == done[i];
      assert HashesApart(done);
    }
  }

  lemma ShortenedApart(names: map<string, string>, closure: seq<string>, cut: nat)
    requires AllStorePaths(closure) && cut <= HASH && Shortened(names, closure, cut)
    ensures Injective(names) <==> NamesApart(closure, cut)
  {
    hide IsStorePath, ShortName;
    if NamesApart(closure, cut) {
      forall p, q | p in names && q in names && p != q ensures names[p] != names[q] {
        var i, j :| 0 <= i < |closure| && 0 <= j < |closure| && closure[i] == p && closure[j] == q;
      }
    }
  }

  /** Paths that are not merged are written differently if they differ, and never like one that
      is merged. */
  lemma DistinctTargets(targets: map<string, Target>, closure: seq<string>, prefix: string, flat: seq<string>, i: nat, j: nat)
    requires AllStorePaths(closure) && HashesApart(closure) && 0 <= Cut(prefix) <= 12 && NamesApart(closure, Cut(prefix))
    requires Tabled(targets, closure, prefix, flat)
    requires i < |closure| && j < |closure| && closure[i] !in flat && closure[i] != closure[j]
    ensures Hash(closure[i]) in targets && Hash(closure[j]) in targets
    ensures Written(targets[Hash(closure[i])]) != Written(targets[Hash(closure[j])])
  {
    hide IsStorePath, ShortName, Replacement, Hash, HashesApart, Padded;
    var p, q := closure[i], closure[j];
    SpellsTarget(p, prefix, false);
    if q in flat {
      MergedApart(q, p, prefix);
    } else {
      SpellsTarget(q, prefix, false);
      ApartTargets(p, q, prefix);
      assert Slashes(0) == "";
      var a, b := Replacement(p, prefix, Cut(prefix), false), Replacement(q, prefix, Cut(prefix), false);
      assert a + "" == a && b + "" == b;
    }
  }
}
