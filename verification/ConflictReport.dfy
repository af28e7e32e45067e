/** The three-way conflicts of a patch as they are reported: all are found and counted, and
    the first of them, in the order of their URIs, are listed. */
module ConflictReport {
  import opened PatchArtifact
  import opened Wrappers

  const MAX_PATHS: nat := 256

  datatype Report = Report(paths: seq<string>, total: nat, truncated: bool)

  /** The target differs both from what the patch expects and from what it proposes. */
  predicate Conflicts(change: Change, target: Manifest) {
    Find(target.entries, change.path) != change.base && Find(target.entries, change.path) != change.current
  }

  function ConflictPaths(changes: seq<Change>, target: Manifest): set<string> {
    set i | 0 <= i < |changes| && Conflicts(changes[i], target) :: changes[i].path
  }

  // ---- Sorting ----

  /** Texts are compared character by character; URIs are plain ASCII. */
  predicate AtMost(a: string, b: string) {
    a == [] || (b != [] && (a[0] < b[0] || (a[0] == b[0] && AtMost(a[1..], b[1..]))))
  }

  lemma {:induction false} AtMostIsTotal(a: string, b: string)
    ensures AtMost(a, b) || AtMost(b, a)
  {
    if a != [] && b != [] {
      AtMostIsTotal(a[1..], b[1..]);
    }
  }

  lemma {:induction false} AtMostIsTransitive(a: string, b: string, c: string)
    requires AtMost(a, b) && AtMost(b, c)
    ensures AtMost(a, c)
  {
    if a != [] && a[0] == b[0] == c[0] {
      AtMostIsTransitive(a[1..], b[1..], c[1..]);
    }
  }

  /** The order of dictionaries: a prefix comes first, and otherwise the first character in
      which the texts differ decides. */
  lemma {:induction false} AtMostExactly(a: string, b: string)
    ensures AtMost(a, b) <==> a <= b || exists i: nat :: Decides(a, b, i)
  {
    if a != [] && b != [] && a[0] == b[0] {
      AtMostExactly(a[1..], b[1..]);
      assert a == [a[0]] + a[1..] && b == [b[0]] + b[1..];
      if i: nat :| Decides(a[1..], b[1..], i) {
        assert a[..i + 1] == [a[0]] + a[1..][..i] && b[..i + 1] == [b[0]] + b[1..][..i];
        assert Decides(a, b, i + 1);
      }
      if i: nat :| Decides(a, b, i) {
        assert i > 0 && a[1..][..i - 1] == a[..i][1..] && b[1..][..i - 1] == b[..i][1..];
        assert Decides(a[1..], b[1..], i - 1);
      }
    } else if a != [] && b != [] {
      assert a[0] < b[0] ==> Decides(a, b, 0);
    }
  }

  predicate Decides(a: string, b: string, i: nat) {
    i < |a| && i < |b| && a[..i] == b[..i] && a[i] < b[i]
  }

  predicate Sorted(texts: seq<string>) {
    forall i, j :: 0 <= i < j < |texts| ==> AtMost(texts[i], texts[j])
  }

  predicate Distinct(texts: seq<string>) {
    forall i, j :: 0 <= i < j < |texts| ==> texts[i] != texts[j]
  }

  function Insert(text: string, sorted: seq<string>): seq<string> {
    if sorted == [] || AtMost(text, sorted[0]) then [text] + sorted
    else [sorted[0]] + Insert(text, sorted[1..])
  }

  function SortText(texts: seq<string>): seq<string> {
    if texts == [] then [] else Insert(texts[0], SortText(texts[1..]))
  }

  lemma {:induction false} InsertedAmong(text: string, sorted: seq<string>)
    ensures |Insert(text, sorted)| == |sorted| + 1
    ensures forall x :: x in Insert(text, sorted) <==> x == text || x in sorted
  {
    if sorted != [] && !AtMost(text, sorted[0]) {
      InsertedAmong(text, sorted[1..]);
      assert sorted == [sorted[0]] + sorted[1..];
    }
  }

  lemma {:induction false} InsertSorts(text: string, sorted: seq<string>)
    requires Sorted(sorted)
    ensures Sorted(Insert(text, sorted))
    ensures Distinct(sorted) && text !in sorted ==> Distinct(Insert(text, sorted))
  {
    if sorted == [] {
    } else if AtMost(text, sorted[0]) {
      forall i | 0 <= i < |sorted|
        ensures AtMost(text, sorted[i])
      {
        if i > 0 {
          AtMostIsTransitive(text, sorted[0], sorted[i]);
        }
      }
    } else {
      var rest := Insert(text, sorted[1..]);
      InsertSorts(text, sorted[1..]);
      InsertedAmong(text, sorted[1..]);
      AtMostIsTotal(text, sorted[0]);
      assert forall x :: x in rest ==> AtMost(sorted[0], x);
      assert sorted[0] != text;
      assert Distinct(sorted) ==> sorted[0] !in sorted[1..];
    }
  }

  lemma {:induction false} SortTextSorts(texts: seq<string>)
    ensures Sorted(SortText(texts)) && |SortText(texts)| == |texts|
    ensures forall x :: x in SortText(texts) <==> x in texts
    ensures Distinct(texts) ==> Distinct(SortText(texts))
  {
    if texts != [] {
      SortTextSorts(texts[1..]);
      InsertSorts(texts[0], SortText(texts[1..]));
      InsertedAmong(texts[0], SortText(texts[1..]));
      assert texts == [texts[0]] + texts[1..];
    }
  }

  // ---- Finding ----

  /** The URIs of the conflicting paths, in the order of the changes. */
  function Found(uri: string -> string, changes: seq<Change>, target: Manifest): seq<string> {
    if changes == [] then []
    else
      var rest, last := changes[..|changes| - 1], changes[|changes| - 1];
      Found(uri, rest, target) + if Conflicts(last, target) then [uri(last.path)] else []
  }

  /** Different paths have different URIs. */
  ghost predicate Injective(uri: string -> string) {
    forall p, q :: uri(p) == uri(q) ==> p == q
  }

  lemma ConflictsByLast(changes: seq<Change>, target: Manifest)
    requires changes != [] && DistinctChanges(changes)
    ensures var rest, last := changes[..|changes| - 1], changes[|changes| - 1];
      && DistinctChanges(rest) && last.path !in ConflictPaths(rest, target)
      && ConflictPaths(changes, target) ==
           ConflictPaths(rest, target) + if Conflicts(last, target) then {last.path} else {}
  {
    var n := |changes| - 1;
    var rest := changes[..n];
    assert forall i :: 0 <= i < n ==> rest[i] == changes[i];
    forall p | p in ConflictPaths(changes, target)
      ensures p in ConflictPaths(rest, target) || (p == changes[n].path && Conflicts(changes[n], target))
    {
      var i :| 0 <= i < |changes| && Conflicts(changes[i], target) && changes[i].path == p;
      assert i < n ==> rest[i].path == p;
    }
    forall p | p in ConflictPaths(rest, target)
      ensures p in ConflictPaths(changes, target) && p != changes[n].path
    {
      var i :| 0 <= i < n && Conflicts(rest[i], target) && rest[i].path == p;
      assert changes[i].path == p;
    }
  }

  lemma {:induction false} FindsAll(uri: string -> string, changes: seq<Change>, target: Manifest)
    requires DistinctChanges(changes) && Injective(uri)
    ensures var found := Found(uri, changes, target); var paths := ConflictPaths(changes, target);
      && |found| == |paths| && Distinct(found)
      && (forall x :: x in found <==> exists p :: p in paths && uri(p) == x)
  {
    if changes != [] {
      var rest, last := changes[..|changes| - 1], changes[|changes| - 1];
      ConflictsByLast(changes, target);
      FindsAll(uri, rest, target);
      var found, before := Found(uri, changes, target), Found(uri, rest, target);
      assert uri(last.path) !in before;
      forall x
        ensures x in found <==> exists p :: p in ConflictPaths(changes, target) && uri(p) == x
      {
        if Conflicts(last, target) && x == uri(last.path) {
          assert last.path in ConflictPaths(changes, target);
        }
      }
    }
  }

  // ---- Reporting ----

  function CollectThreeWayConflicts(uri: string -> string, changes: seq<Change>, target: Manifest): Report {
    var found := SortText(Found(uri, changes, target));
    Report(if |found| > MAX_PATHS then found[..MAX_PATHS] else found, |found|, |found| > MAX_PATHS)
  }

  /** A report of these conflicting paths: counted exactly, and listed up to the cap, each
      once and the first ones in the order of their URIs. */
  ghost predicate Reports(r: Report, uri: string -> string, conflicts: set<string>) {
    && r.total == |conflicts| && (r.truncated <==> |conflicts| > MAX_PATHS)
    && |r.paths| == (if r.truncated then MAX_PATHS else |conflicts|)
    && Sorted(r.paths) && Distinct(r.paths)
    && (forall x :: x in r.paths ==> exists p :: p in conflicts && uri(p) == x)
    && (forall p :: p in conflicts ==> ListedOrLater(r.paths, uri(p)))
  }

  predicate ListedOrLater(paths: seq<string>, text: string) {
    text in paths || forall i :: 0 <= i < |paths| ==> AtMost(paths[i], text)
  }

  /** The first `n` of a sorted sequence. */
  lemma CutOff(found: seq<string>, n: nat, text: string)
    requires Sorted(found) && n <= |found| && text in found
    ensures ListedOrLater(found[..n], text)
  {
    var k :| 0 <= k < |found| && found[k] == text;
    if k < n {
      assert found[..n][k] == text;
    }
  }

  lemma ReportIsExact(uri: string -> string, changes: seq<Change>, target: Manifest)
    requires DistinctChanges(changes) && Injective(uri)
    ensures Reports(CollectThreeWayConflicts(uri, changes, target), uri, ConflictPaths(changes, target))
  {
    var found := SortText(Found(uri, changes, target));
    var n := if |found| > MAX_PATHS then MAX_PATHS else |found|;
    FindsAll(uri, changes, target);
    SortTextSorts(Found(uri, changes, target));
    var paths := CollectThreeWayConflicts(uri, changes, target).paths;
    assert paths == found[..n];
    forall x | x in paths
      ensures exists p :: p in ConflictPaths(changes, target) && uri(p) == x
    {
      assert x in found;
    }
    forall p | p in ConflictPaths(changes, target)
      ensures ListedOrLater(paths, uri(p))
    {
      CutOff(found, n, uri(p));
    }
  }

  /** The patch changes the path, and the target has there neither what the patch expects
      nor what it proposes. */
  predicate Clashes(base: Manifest, current: Manifest, target: Manifest, path: string) {
    && Find(base.entries, path) != Find(current.entries, path)
    && Find(target.entries, path) != Find(base.entries, path)
    && Find(target.entries, path) != Find(current.entries, path)
  }

  /** The conflicts found among the changes are exactly the clashes of the three manifests. */
  lemma ConflictsExactly(changes: seq<Change>, base: Manifest, current: Manifest, target: Manifest, path: string)
    requires IsDiff(changes, base, current)
    ensures path in ConflictPaths(changes, target) <==> Clashes(base, current, target, path)
  {
    if path in ConflictPaths(changes, target) {
      var i :| 0 <= i < |changes| && Conflicts(changes[i], target) && changes[i].path == path;
      assert ChangeAgrees(changes[i], base, current);
    }
    if Clashes(base, current, target, path) {
      assert HasPath(changes, path);
      var i :| 0 <= i < |changes| && changes[i].path == path;
      assert ChangeAgrees(changes[i], base, current);
    }
  }
}
