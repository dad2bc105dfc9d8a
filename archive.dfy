/** The entry naming of `zip_directory`: every file the directory walk
    yields is stored under `python/` followed by its path relative to the
    walked folder. */
module Archive {

  /** One directory of the walk: its path and the names of its files,
      in the order the walk yields them. */
  datatype WalkStep = WalkStep(root: string, files: seq<string>)

  /** The fixed first segment of every entry name. */
  const EntryRoot: string := "python/"

  /** `os.path.join(root, name)` for two POSIX path parts. */
  function PathJoin(root: string, name: string): (p: string)
    ensures name != [] && name[0] == '/' ==> p == name
    ensures !(name != [] && name[0] == '/') ==>
      && root <= p && |root| + |name| <= |p| <= |root| + 1 + |name| && p[|p| - |name|..] == name
      && (root != [] ==> p[|p| - |name| - 1] == '/')
  {
    if name != [] && name[0] == '/' then name
    else if root == [] || root[|root| - 1] == '/' then root + name
    else root + "/" + name
  }

  /** The paths of one directory's files. */
  function StepPaths(step: WalkStep): (ps: seq<string>)
    ensures |ps| == |step.files|
    ensures forall f :: f in step.files ==> PathJoin(step.root, f) in ps
    ensures forall p :: p in ps ==> exists f :: f in step.files && p == PathJoin(step.root, f)
  {
    var ps := seq(|step.files|, i requires 0 <= i < |step.files| => PathJoin(step.root, step.files[i]));
    assert forall f :: f in step.files ==> PathJoin(step.root, f) in ps by {
      forall f | f in step.files
        ensures PathJoin(step.root, f) in ps
      {
        var j :| 0 <= j < |step.files| && step.files[j] == f;
        assert ps[j] == PathJoin(step.root, f);
      }
    }
    assert forall p :: p in ps ==> exists f :: f in step.files && p == PathJoin(step.root, f) by {
      forall p | p in ps
        ensures exists f :: f in step.files && p == PathJoin(step.root, f)
      {
        var j :| 0 <= j < |ps| && ps[j] == p;
        assert step.files[j] in step.files;
      }
    }
    ps
  }

  /** The paths of all walked files, in walk order. */
  function WalkedPaths(walk: seq<WalkStep>): seq<string> {
    if walk == [] then [] else StepPaths(walk[0]) + WalkedPaths(walk[1..])
  }

  /** The number of files the walk lists. */
  function FileCount(walk: seq<WalkStep>): nat {
    if walk == [] then 0 else |walk[0].files| + FileCount(walk[1..])
  }

  /** One path per walked file. */
  lemma {:induction false} WalkedPathsCount(walk: seq<WalkStep>)
    ensures |WalkedPaths(walk)| == FileCount(walk)
  {
    if walk != [] {
      WalkedPathsCount(walk[1..]);
    }
  }

  /** A path is walked exactly when some walked directory yields it. */
  lemma {:induction false} WalkedPathsFrom(walk: seq<WalkStep>, p: string)
    ensures p in WalkedPaths(walk) <==> exists s :: s in walk && p in StepPaths(s)
  {
    if walk != [] {
      WalkedPathsFrom(walk[1..], p);
      assert forall s :: s in walk <==> s == walk[0] || s in walk[1..];
    }
  }

  /** Walking one more directory appends its files' paths. */
  lemma {:induction false} WalkedPathsSnoc(walk: seq<WalkStep>, step: WalkStep)
    ensures WalkedPaths(walk + [step]) == WalkedPaths(walk) + StepPaths(step)
  {
    if walk == [] {
      assert [step][1..] == [];
      assert WalkedPaths([step]) == StepPaths(step) + [];
    } else {
      assert (walk + [step])[1..] == walk[1..] + [step];
      WalkedPathsSnoc(walk[1..], step);
    }
  }

  /** `"python/" + path[len(folder):]`; the slice is empty when the path is
      shorter than the folder. */
  function EntryName(folder: string, path: string): (name: string)
    ensures EntryRoot <= name
    ensures folder <= path ==> folder + name[|EntryRoot|..] == path
  {
    EntryRoot + (if |folder| <= |path| then path[|folder|..] else "")
  }

  /** The entry names of a walk: one per walked file, in walk order. */
  function Entries(folder: string, walk: seq<WalkStep>): (es: seq<string>)
    ensures |es| == |WalkedPaths(walk)|
    ensures forall e :: e in es ==> EntryRoot <= e
  {
    var paths := WalkedPaths(walk);
    var es := seq(|paths|, i requires 0 <= i < |paths| => EntryName(folder, paths[i]));
    es
  }

  /** Every walked path has its entry name in the archive. */
  lemma EntriesCover(folder: string, walk: seq<WalkStep>, p: string)
    requires p in WalkedPaths(walk)
    ensures EntryName(folder, p) in Entries(folder, walk)
  {
    var paths := WalkedPaths(walk);
    var j :| 0 <= j < |paths| && paths[j] == p;
    assert Entries(folder, walk)[j] == EntryName(folder, p);
  }

  /** The entry names of one directory's files. */
  function StepEntries(folder: string, step: WalkStep): (es: seq<string>)
    ensures |es| == |step.files|
    ensures forall f :: f in step.files ==> EntryName(folder, PathJoin(step.root, f)) in es
  {
    var es := seq(|step.files|, i requires 0 <= i < |step.files| => EntryName(folder, PathJoin(step.root, step.files[i])));
    assert forall f :: f in step.files ==> EntryName(folder, PathJoin(step.root, f)) in es by {
      forall f | f in step.files
        ensures EntryName(folder, PathJoin(step.root, f)) in es
      {
        var j :| 0 <= j < |step.files| && step.files[j] == f;
        assert es[j] == EntryName(folder, PathJoin(step.root, f));
      }
    }
    es
  }

  /** Walking one more directory appends its files' entries. */
  lemma EntriesSnoc(folder: string, walk: seq<WalkStep>, step: WalkStep)
    ensures Entries(folder, walk + [step]) == Entries(folder, walk) + StepEntries(folder, step)
  {
    WalkedPathsSnoc(walk, step);
    var done := WalkedPaths(walk);
    assert forall i :: 0 <= i < |step.files| ==>
      WalkedPaths(walk + [step])[|done| + i] == PathJoin(step.root, step.files[i]);
  }

  /** The nested loops of `zip_directory`: one entry per walked file, in
      walk order, each named after that file's path. */
  method ZipEntries(folder: string, walk: seq<WalkStep>) returns (entries: seq<string>)
    ensures entries == Entries(folder, walk)
    ensures |entries| == |WalkedPaths(walk)| == FileCount(walk)
    ensures forall i :: 0 <= i < |entries| ==> entries[i] == EntryName(folder, WalkedPaths(walk)[i])
    ensures forall i :: 0 <= i < |entries| ==> EntryRoot <= entries[i]
    ensures forall i :: 0 <= i < |entries| && folder <= WalkedPaths(walk)[i] ==>
      folder + entries[i][|EntryRoot|..] == WalkedPaths(walk)[i]
  {
    entries := [];
    var k := 0;
    while k < |walk|
      invariant 0 <= k <= |walk|
      invariant entries == Entries(folder, walk[..k])
    {
      ghost var done := entries;
      var root, files := walk[k].root, walk[k].files;
      ghost var names := StepEntries(folder, walk[k]);
      var j := 0;
      while j < |files|
        invariant 0 <= j <= |files|
        invariant entries == done + names[..j]
      {
        var filePath := PathJoin(root, files[j]);
        assert names[..j + 1] == names[..j] + [EntryName(folder, filePath)];
        entries := entries + [EntryName(folder, filePath)];
        j := j + 1;
      }
      assert names[..j] == names;
      assert walk[..k + 1] == walk[..k] + [walk[k]];
      EntriesSnoc(folder, walk[..k], walk[k]);
      k := k + 1;
    }
    assert walk[..k] == walk;
    WalkedPathsCount(walk);
  }

  /** Packing a folder that holds `a/b.txt` stores it as `python/a/b.txt`. */
  lemma EntryExample()
    ensures WalkedPaths([WalkStep("/tmp/python/", []), WalkStep("/tmp/python/a", ["b.txt"])])
      == ["/tmp/python/a/b.txt"]
    ensures EntryName("/tmp/python/", "/tmp/python/a/b.txt") == "python/a/b.txt"
  {
    var walk := [WalkStep("/tmp/python/", []), WalkStep("/tmp/python/a", ["b.txt"])];
    assert PathJoin("/tmp/python/a", "b.txt") == "/tmp/python/a/b.txt";
    assert StepPaths(walk[1]) == ["/tmp/python/a/b.txt"];
    assert walk[1..][1..] == [];
    assert "/tmp/python/a/b.txt"[|"/tmp/python/"|..] == "a/b.txt";
  }
}
