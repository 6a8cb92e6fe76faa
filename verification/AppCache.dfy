/** The bounded table of per-resource applications, in order of latest use. */
module AppCache {
  import opened Prelude

  type Path = nat

  /** An application serves the resource path it was built for. */
  datatype App = App(path: Path, serial: nat)

  // ----- Latest uses -----

  /** The distinct paths of a history, each at its last occurrence. */
  function LastUses(history: seq<Path>): seq<Path> {
    if history == [] then []
    else if history[0] in history[1..] then LastUses(history[1..])
    else [history[0]] + LastUses(history[1..])
  }

  function Without(paths: seq<Path>, p: Path): seq<Path> {
    if paths == [] then []
    else (if paths[0] == p then [] else [paths[0]]) + Without(paths[1..], p)
  }

  /** The last k elements, or all of them. */
  function Last<T>(s: seq<T>, k: nat): seq<T> {
    if |s| <= k then s else s[|s| - k..]
  }

  lemma {:induction false} LastUsesDistinct(history: seq<Path>)
    ensures Distinct(LastUses(history))
    ensures forall p :: p in LastUses(history) <==> p in history
    decreases |history|
  {
    if history != [] {
      LastUsesDistinct(history[1..]);
      assert history == [history[0]] + history[1..];
    }
  }

  lemma {:induction false} WithoutFirst(paths: seq<Path>, p: Path)
    requires paths != []
    ensures Without(paths, p) == (if paths[0] == p then [] else [paths[0]]) + Without(paths[1..], p)
  {
  }

  /** Using a path moves it to the end. */
  lemma {:induction false} UseMoves(history: seq<Path>, p: Path)
    ensures LastUses(history + [p]) == Without(LastUses(history), p) + [p]
    decreases |history|
  {
    if history == [] {
      assert LastUses([p]) == [p];
    } else {
      var h, rest := history[0], history[1..];
      UseMoves(rest, p);
      assert (history + [p])[1..] == rest + [p];
      if h !in rest {
        var all := LastUses(history);
        assert all == [h] + LastUses(rest) && all[1..] == LastUses(rest);
        WithoutFirst(all, p);
      }
    }
  }

  lemma {:induction false} WithoutAbsent(paths: seq<Path>, p: Path)
    requires p !in paths
    ensures Without(paths, p) == paths
    decreases |paths|
  {
    if paths != [] { WithoutAbsent(paths[1..], p); }
  }

  /** Among distinct paths, removing one drops exactly its position. */
  lemma {:induction false} WithoutAt(paths: seq<Path>, i: nat)
    requires Distinct(paths) && i < |paths|
    ensures Without(paths, paths[i]) == paths[..i] + paths[i + 1..]
    decreases i
  {
    if i == 0 {
      WithoutAbsent(paths[1..], paths[0]);
    } else {
      WithoutAt(paths[1..], i - 1);
      assert paths[..i] == [paths[0]] + paths[1..][..i - 1];
    }
  }

  lemma {:induction false} WithoutSplit(a: seq<Path>, b: seq<Path>, p: Path)
    ensures Without(a + b, p) == Without(a, p) + Without(b, p)
    decreases |a|
  {
    if a == [] {
      assert a + b == b;
    } else {
      assert (a + b)[1..] == a[1..] + b;
      WithoutSplit(a[1..], b, p);
    }
  }

  lemma LastOfSuffix(a: seq<Path>, b: seq<Path>, k: nat)
    requires |b| >= k
    ensures Last(a + b, k) == Last(b, k)
  {
  }

  /** The part in front of the kept one. */
  function Forgotten(paths: seq<Path>, k: nat): (r: seq<Path>)
    ensures r + Last(paths, k) == paths
    ensures r == [] || |Last(paths, k)| == k
    ensures |Last(paths, k)| <= k
  {
    if |paths| <= k then [] else paths[..|paths| - k]
  }

  lemma WithoutCount(paths: seq<Path>, p: Path)
    requires Distinct(paths) && p in paths
    ensures |Without(paths, p)| == |paths| - 1
  {
    var i :| 0 <= i < |paths| && paths[i] == p;
    WithoutAt(paths, i);
  }

  lemma DistinctParts(a: seq<Path>, b: seq<Path>, p: Path)
    requires Distinct(a + b) && p in b
    ensures Distinct(b) && p !in a
  {
    forall i, j | 0 <= i < j < |b| ensures b[i] != b[j] {
      assert (a + b)[|a| + i] == b[i] && (a + b)[|a| + j] == b[j];
    }
    var j :| 0 <= j < |b| && b[j] == p;
    forall i | 0 <= i < |a| ensures a[i] != p {
      assert (a + b)[i] == a[i] && (a + b)[|a| + j] == p;
    }
  }

  /** A hit in the kept part: moving it there is moving it in the full list. */
  lemma HitKept(paths: seq<Path>, k: nat, p: Path)
    requires Distinct(paths) && p in Last(paths, k)
    ensures Without(Last(paths, k), p) + [p] == Last(Without(paths, p) + [p], k)
  {
    var head, kept := Forgotten(paths, k), Last(paths, k);
    DistinctParts(head, kept, p);
    WithoutSplit(head, kept, p);
    WithoutAbsent(head, p);
    WithoutCount(kept, p);
    assert Without(paths, p) + [p] == head + (Without(kept, p) + [p]);
    if head != [] { LastOfSuffix(head, Without(kept, p) + [p], k); }
  }

  /** A miss: adding it and keeping the last k forgets the same paths as the full list does. */
  lemma MissKept(paths: seq<Path>, k: nat, p: Path)
    requires p !in Last(paths, k)
    ensures Last(Last(paths, k) + [p], k) == Last(Without(paths, p) + [p], k)
  {
    var head, kept := Forgotten(paths, k), Last(paths, k);
    WithoutSplit(head, kept, p);
    WithoutAbsent(kept, p);
    assert Without(paths, p) + [p] == Without(head, p) + (kept + [p]);
    if head != [] { LastOfSuffix(Without(head, p), kept + [p], k); }
  }

  // ----- The table -----

  function Paths(apps: seq<App>): seq<Path> {
    seq(|apps|, i requires 0 <= i < |apps| => apps[i].path)
  }

  class Apps {
    const maxResources: int
    var apps: seq<App>
    var built: nat
    ghost var history: seq<Path>

    /** The table holds the last max_resources distinct paths in order of latest use. */
    ghost predicate Valid()
      reads this
    {
      maxResources >= 0 ==> Paths(apps) == Last(LastUses(history), maxResources)
    }

    constructor (capacity: int)
      ensures Valid() && maxResources == capacity && history == []
    {
      maxResources, apps, built, history := capacity, [], 0, [];
    }

    /** Move the entry to the end. */
    method Refresh(i: nat)
      requires Valid() && i < |apps|
      modifies this`apps, this`history
      ensures Valid() && history == old(history) + [old(apps)[i].path]
      ensures apps == old(apps)[..i] + old(apps)[i + 1..] + [old(apps)[i]]
    {
      ghost var before, path := Paths(apps), apps[i].path;
      apps := apps[..i] + apps[i + 1..] + [apps[i]];
      assert Paths(apps) == before[..i] + before[i + 1..] + [path];
      if maxResources >= 0 {
        ghost var uses := LastUses(history);
        LastUsesDistinct(history);
        UseMoves(history, path);
        DistinctParts(Forgotten(uses, maxResources), before, before[i]);
        HitKept(uses, maxResources, path);
        WithoutAt(before, i);
      }
      history := history + [path];
    }

    /** Drop from the front what is over the bound; a negative bound fails on the empty table. */
    method Evict() returns (ok: bool)
      modifies this`apps
      ensures maxResources >= 0 ==> ok && apps == Last(old(apps), maxResources)
      ensures ok == (maxResources >= 0)
    {
      ghost var grown := apps;
      while |apps| > maxResources
        invariant |apps| <= |grown| && apps == grown[|grown| - |apps|..]
        invariant maxResources >= 0 ==> |apps| >= maxResources || apps == grown
      {
        if apps == [] { return false; }
        apps := apps[1..];
      }
      ok := true;
    }

    /** Append an application just built for a path that is not in the table. */
    method Insert(app: App) returns (ok: bool)
      requires Valid() && app.path !in Paths(apps)
      modifies this`apps, this`history
      ensures Valid() && history == old(history) + [app.path] && ok == (maxResources >= 0)
      ensures ok ==> apps == Last(old(apps) + [app], maxResources)
    {
      ghost var before := Paths(apps);
      if maxResources >= 0 {
        UseMoves(history, app.path);
        MissKept(LastUses(history), maxResources, app.path);
      }
      history := history + [app.path];
      apps := apps + [app];
      assert Paths(apps) == before + [app.path];
      ghost var grown := apps;
      ok := Evict();
      if ok { LastPaths(grown, maxResources); }
    }

    /**
      A hit answers with the stored application; a miss builds one for this path. Either way the
      path is now the latest use.
     */
    method Get(path: Path) returns (app: Option<App>)
      requires Valid()
      modifies this
      ensures Valid() && history == old(history) + [path]
      ensures app.Some? ==> app.value.path == path
      ensures maxResources >= 0 ==> app.Some?
      ensures path in Paths(old(apps)) ==> app.Some? && app.value in old(apps) && built == old(built)
      ensures path !in Paths(old(apps)) ==> built == old(built) + 1 && (app.Some? ==> app.value.serial == old(built))
      ensures path in Paths(old(apps)) ==>
        exists i | 0 <= i < |old(apps)| ::
          app == Some(old(apps)[i]) && apps == old(apps)[..i] + old(apps)[i + 1..] + [old(apps)[i]]
      ensures path !in Paths(old(apps)) && app.Some? ==>
        maxResources >= 0 && apps == Last(old(apps) + [app.value], maxResources)
    {
      if i :| 0 <= i < |apps| && apps[i].path == path {
        app := Some(apps[i]);
        assert Paths(apps)[i] == path;
        Refresh(i);
      } else {
        var made := App(path, built);
        built := built + 1;
        var ok := Insert(made);
        app := if ok then Some(made) else None;
      }
    }
  }

  lemma LastPaths(apps: seq<App>, k: nat)
    ensures Paths(Last(apps, k)) == Last(Paths(apps), k)
  {
  }
}
