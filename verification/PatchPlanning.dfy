/** Planning a patch: the target's manifest overlaid by the patch's changes, with a content
    object for every file, or the conflicts, or a reason to reject. */
module PatchPlanning {
  import opened ConflictReport
  import opened PatchArtifact
  import opened Wrappers

  datatype Material = Material(id: string, checksum: string, size: nat)

  datatype Reason =
    | ArtifactInvalid | ManifestInvalid | MaterialInvalid | FileUnavailable | MaterialUnused
    | ContentSetIncomplete | ContentMismatch | ContentUnavailable | PlanIncomplete

  datatype Plan = Ready(manifest: Manifest, contents: map<string, Material>) | Conflict(report: Report)
                | Rejected(reason: Reason)

  datatype Outcome<T> = Got(value: T) | Refused(reason: Reason)

  const MAX_MATERIALS: nat := 100_000

  predicate Fits(m: Material, entry: Entry) {
    entry.File? && m.checksum == entry.digest && m.size == entry.size
  }

  // ---- Content metadata ----

  /** The objects by identifier. */
  function Index(values: seq<Material>): map<string, Material> {
    if values == [] then map[]
    else Index(values[..|values| - 1])[values[|values| - 1].id := values[|values| - 1]]
  }

  /** The metadata is within the limit, well formed, and names each object once. */
  predicate Indexable(values: seq<Material>, valid: Material -> bool) {
    && |values| <= MAX_MATERIALS
    && (forall i :: 0 <= i < |values| ==> valid(values[i]))
    && (forall i, j :: 0 <= i < j < |values| ==> values[i].id != values[j].id)
  }

  lemma {:induction false} IndexHolds(values: seq<Material>)
    ensures forall id :: id in Index(values) <==> exists i :: 0 <= i < |values| && values[i].id == id
    ensures forall id :: id in Index(values) ==> Index(values)[id].id == id
  {
    if values != [] {
      IndexHolds(values[..|values| - 1]);
    }
  }

  method MaterialById(values: seq<Material>, valid: Material -> bool) returns (r: Outcome<map<string, Material>>)
    ensures r == if Indexable(values, valid) then Got(Index(values)) else Refused(MaterialInvalid)
  {
    if |values| > MAX_MATERIALS { return Refused(MaterialInvalid); }
    var result: map<string, Material> := map[];
    var i := 0;
    while i < |values|
      invariant 0 <= i <= |values| && result == Index(values[..i])
      invariant forall j :: 0 <= j < i ==> valid(values[j])
      invariant forall j, k :: 0 <= j < k < i ==> values[j].id != values[k].id
    {
      IndexHolds(values[..i]);
      if !valid(values[i]) || values[i].id in result { return Refused(MaterialInvalid); }
      assert values[..i + 1][..i] == values[..i];
      result := result[values[i].id := values[i]];
      i := i + 1;
    }
    assert values[..i] == values;
    r := Got(result);
  }

  /** Exactly one object fits the entry. */
  predicate OneFits(objects: map<string, Material>, entry: Entry) {
    && (exists id :: id in objects && Fits(objects[id], entry))
    && (forall i, j :: i in objects && j in objects && Fits(objects[i], entry) && Fits(objects[j], entry) ==> i == j)
  }

  method OnlyFit(objects: map<string, Material>, entry: Entry) returns (r: Option<string>)
    ensures r.Some? <==> OneFits(objects, entry)
    ensures r.Some? ==> r.value in objects && Fits(objects[r.value], entry)
    ensures entry.File? ==>
      (r.Some? <==> exists id :: id in objects && OnlyOne(objects, id, entry.digest, entry.size))
    ensures entry.File? && r.Some? ==> OnlyOne(objects, r.value, entry.digest, entry.size)
  {
    r := None;
    var todo := objects.Keys;
    while todo != {}
      invariant todo <= objects.Keys
      invariant r.Some? ==> r.value in objects && r.value !in todo && Fits(objects[r.value], entry)
      invariant forall id :: id in objects && id !in todo && Fits(objects[id], entry) ==> r == Some(id)
    {
      var id :| id in todo;
      todo := todo - {id};
      if Fits(objects[id], entry) {
        if r.Some? { return None; }
        r := Some(id);
      }
    }
  }

  /** The object has the digest and size, and no other has both. */
  predicate OnlyOne(objects: map<string, Material>, id: string, digest: string, size: nat) {
    && id in objects && objects[id].checksum == digest && objects[id].size == size
    && forall o :: o in objects && o != id ==> objects[o].checksum != digest || objects[o].size != size
  }

  /** At one path: a content object exactly for a file, and one that fits it. */
  predicate CoveredAt(contents: map<string, Material>, entry: Option<Entry>, path: string) {
    (path in contents <==> IsFile(entry)) && (path in contents && IsFile(entry) ==> Fits(contents[path], entry.value))
  }

  /** The contents cover exactly the files, each with a fitting object. */
  ghost predicate Covers(contents: map<string, Material>, entries: seq<Entry>) {
    forall path :: CoveredAt(contents, Find(entries, path), path)
  }

  lemma FindOneMore(entries: seq<Entry>, i: nat, path: string)
    requires i < |entries|
    ensures Find(entries[..i + 1], path) ==
              if path == entries[i].path then Some(entries[i]) else Find(entries[..i], path)
  {
    assert entries[..i + 1][..i] == entries[..i];
  }

  lemma CoversOneMore(contents: map<string, Material>, entries: seq<Entry>, i: nat, m: Material)
    requires i < |entries| && DistinctPaths(entries) && Covers(contents, entries[..i])
    ensures entries[i].File? && Fits(m, entries[i]) ==> Covers(contents[entries[i].path := m], entries[..i + 1])
    ensures !entries[i].File? ==> Covers(contents, entries[..i + 1])
  {
    var next := if entries[i].File? then contents[entries[i].path := m] else contents;
    var more := entries[..i + 1];
    if !entries[i].File? || Fits(m, entries[i]) {
      assert Find(entries[..i], entries[i].path) == None;
      forall path
        ensures CoveredAt(next, Find(more, path), path)
      {
        FindOneMore(entries, i, path);
        assert CoveredAt(contents, Find(entries[..i], path), path);
      }
    }
  }

  /** Some file of the list uses the object. */
  predicate UsedBy(m: Material, entries: seq<Entry>) {
    exists i :: 0 <= i < |entries| && entries[i].File? && Fits(m, entries[i])
  }

  /** Every file has exactly one object and every object is some file's. */
  predicate ContentMatches(objects: map<string, Material>, entries: seq<Entry>) {
    && (forall i :: 0 <= i < |entries| && entries[i].File? ==> OneFits(objects, entries[i]))
    && (forall id :: id in objects ==> UsedBy(objects[id], entries))
  }

  method ManifestContent(manifest: Manifest, values: seq<Material>, valid: Material -> bool)
    returns (r: Outcome<map<string, Material>>)
    requires DistinctPaths(manifest.entries)
    ensures r.Got? <==> Indexable(values, valid) && ContentMatches(Index(values), manifest.entries)
    ensures r.Got? ==> Covers(r.value, manifest.entries)
    ensures r.Refused? ==> r.reason in {MaterialInvalid, FileUnavailable, MaterialUnused}
  {
    var indexed := MaterialById(values, valid);
    if indexed.Refused? { return Refused(indexed.reason); }
    var contents, used := FileContents(manifest.entries, indexed.value);
    if contents.None? { return Refused(FileUnavailable); }
    if used != indexed.value.Keys { return Refused(MaterialUnused); }
    r := Got(contents.value);
  }

  /** The loop over the files, with the objects they use. */
  method FileContents(entries: seq<Entry>, objects: map<string, Material>)
    returns (r: Option<map<string, Material>>, used: set<string>)
    requires DistinctPaths(entries)
    ensures r.Some? <==> forall i :: 0 <= i < |entries| && entries[i].File? ==> OneFits(objects, entries[i])
    ensures r.Some? ==> Covers(r.value, entries) && used <= objects.Keys
    ensures r.Some? ==> forall id :: id in objects ==> (id in used <==> UsedBy(objects[id], entries))
  {
    var result: map<string, Material> := map[];
    used := {};
    var i := 0;
    while i < |entries|
      invariant 0 <= i <= |entries| && Covers(result, entries[..i])
      invariant forall j :: 0 <= j < i && entries[j].File? ==> OneFits(objects, entries[j])
      invariant used <= objects.Keys
      invariant forall id :: id in objects ==> (id in used <==> UsedBefore(objects[id], entries, i))
    {
      var entry := entries[i];
      if entry.File? {
        var id := OnlyFit(objects, entry);
        if id.None? { return None, used; }
        CoversOneMore(result, entries, i, objects[id.value]);
        UsedOneMore(objects, entries, i, used, id.value);
        used := used + {id.value};
        result := result[entry.path := objects[id.value]];
      } else {
        CoversOneMore(result, entries, i, Material("", "", 0));
        UsedNoMore(objects, entries, i);
      }
      i := i + 1;
    }
    assert entries[..i] == entries;
    assert forall id :: id in objects ==> (id in used <==> UsedBy(objects[id], entries));
    r := Some(result);
  }

  lemma UsedNoMore(objects: map<string, Material>, entries: seq<Entry>, n: nat)
    requires n < |entries| && !entries[n].File?
    ensures forall o :: o in objects ==>
              (UsedBefore(objects[o], entries, n + 1) <==> UsedBefore(objects[o], entries, n))
  {
  }

  /** One of the first `n` entries is a file that uses the object. */
  predicate UsedBefore(m: Material, entries: seq<Entry>, n: nat)
    requires n <= |entries|
  {
    exists i :: 0 <= i < n && entries[i].File? && Fits(m, entries[i])
  }

  lemma UsedOneMore(objects: map<string, Material>, entries: seq<Entry>, n: nat, used: set<string>, id: string)
    requires n < |entries| && entries[n].File? && id in objects && Fits(objects[id], entries[n])
    requires OneFits(objects, entries[n])
    requires forall o :: o in objects ==> (o in used <==> UsedBefore(objects[o], entries, n))
    ensures forall o :: o in objects ==> (o in used + {id} <==> UsedBefore(objects[o], entries, n + 1))
  {
    forall o | o in objects
      ensures o in used + {id} <==> UsedBefore(objects[o], entries, n + 1)
    {
      if o in used {
        var i :| 0 <= i < n && entries[i].File? && Fits(objects[o], entries[i]);
        assert 0 <= i < n + 1;
      }
    }
  }

  /** Each content object named by a change is there and fits the file it is for. */
  ghost predicate Supplies(objects: map<string, Material>, a: Artifact) {
    forall i :: 0 <= i < |a.changes| && a.changes[i].content.Some? ==> SuppliesAt(objects, a, i)
  }

  predicate SuppliesAt(objects: map<string, Material>, a: Artifact, i: nat)
    requires i < |a.changes| && a.changes[i].content.Some?
  {
    && a.changes[i].content.value in objects
    && IsFile(Find(a.current.entries, a.changes[i].path))
    && Fits(objects[a.changes[i].content.value], Find(a.current.entries, a.changes[i].path).value)
  }

  /** The objects are exactly the artifact's content objects, each named by a change. */
  ghost predicate ArtifactMatches(objects: map<string, Material>, s: Serialized) {
    s.contentIds == objects.Keys && Supplies(objects, s.artifact) && Ids(s.artifact.changes) == objects.Keys
  }

  /** What a change names is not there, is not for a file, or is another file's content. */
  predicate Misfits(objects: map<string, Material>, s: Serialized, i: nat)
    requires i < |s.artifact.changes| && s.artifact.changes[i].content.Some?
  {
    var id, entry := s.artifact.changes[i].content.value, Find(s.artifact.current.entries, s.artifact.changes[i].path);
    || id !in objects || entry.None? || !entry.value.File?
    || objects[id].checksum != entry.value.digest || objects[id].size != entry.value.size
  }

  method ArtifactContent(s: Serialized, values: seq<Material>, valid: Material -> bool)
    returns (r: Outcome<map<string, Material>>)
    ensures r.Got? <==> Indexable(values, valid) && ArtifactMatches(Index(values), s)
    ensures r.Got? ==> r.value == Index(values)
    ensures r.Got? ==> forall i :: 0 <= i < |s.artifact.changes| && s.artifact.changes[i].content.Some? ==>
      var id := s.artifact.changes[i].content.value;
      var entry := Find(s.artifact.current.entries, s.artifact.changes[i].path);
      && id in r.value && entry.Some? && entry.value.File?
      && r.value[id].checksum == entry.value.digest && r.value[id].size == entry.value.size
    ensures r.Refused? && r.reason == ContentMismatch ==>
      exists i :: 0 <= i < |s.artifact.changes| && s.artifact.changes[i].content.Some? && Misfits(Index(values), s, i)
    ensures r.Refused? ==> r.reason in {MaterialInvalid, ContentSetIncomplete, ContentMismatch, MaterialUnused}
  {
    var indexed := MaterialById(values, valid);
    if indexed.Refused? { return Refused(indexed.reason); }
    var objects := indexed.value;
    IndexHolds(values);
    if s.contentIds != objects.Keys { return Refused(ContentSetIncomplete); }
    var used: set<string> := {};
    var a := s.artifact;
    var i := 0;
    while i < |a.changes|
      invariant 0 <= i <= |a.changes|
      invariant forall j :: 0 <= j < i && a.changes[j].content.Some? ==> SuppliesAt(objects, a, j)
      invariant used == (set j | 0 <= j < i && a.changes[j].content.Some? :: a.changes[j].content.value)
    {
      if a.changes[i].content.Some? {
        if !SuppliesAt(objects, a, i) {
          assert Misfits(objects, s, i);
          return Refused(ContentMismatch);
        }
        used := used + {objects[a.changes[i].content.value].id};
      }
      i := i + 1;
    }
    if used != objects.Keys { return Refused(MaterialUnused); }
    r := Got(objects);
  }

  // ---- The overlay ----

  /** The planned entry at a path: the patch's where it changes something, and otherwise
      the target's. */
  function Overlaid(a: Artifact, target: Manifest, path: string): Option<Entry> {
    if Find(a.base.entries, path) != Find(a.current.entries, path) then Find(a.current.entries, path)
    else Find(target.entries, path)
  }

  /** The entry at a path after some of the changes have been applied. */
  function Applied(changes: seq<Change>, target: Manifest, path: string): Option<Entry> {
    if changes == [] then Find(target.entries, path)
    else if changes[|changes| - 1].path == path then changes[|changes| - 1].current
    else Applied(changes[..|changes| - 1], target, path)
  }

  lemma {:induction false} AppliedIs(changes: seq<Change>, target: Manifest, path: string)
    requires DistinctChanges(changes)
    ensures !HasPath(changes, path) ==> Applied(changes, target, path) == Find(target.entries, path)
    ensures forall i :: 0 <= i < |changes| && changes[i].path == path ==>
                          Applied(changes, target, path) == changes[i].current
  {
    if changes != [] {
      AppliedIs(changes[..|changes| - 1], target, path);
    }
  }

  lemma AppliedIsOverlay(changes: seq<Change>, a: Artifact, target: Manifest, path: string)
    requires IsDiff(changes, a.base, a.current)
    ensures Applied(changes, target, path) == Overlaid(a, target, path)
  {
    AppliedIs(changes, target, path);
    if HasPath(changes, path) {
      var i :| 0 <= i < |changes| && changes[i].path == path;
      assert ChangeAgrees(changes[i], a.base, a.current);
    }
  }

  /** Entries and contents while the changes are applied, up to the `i`th. */
  ghost predicate PlannedUpTo(entries: map<string, Entry>, contents: map<string, Material>, changes: seq<Change>,
                              target: Manifest) {
    forall path :: PlannedAt(entries, contents, Applied(changes, target, path), path)
  }

  predicate PlannedAt(entries: map<string, Entry>, contents: map<string, Material>, entry: Option<Entry>,
                      path: string) {
    && entry == (if path in entries then Some(entries[path]) else None)
    && (entry.Some? ==> entry.value.path == path)
    && CoveredAt(contents, entry, path)
  }

  /** The content object of a changed file, looked up through the artifact's references. */
  lemma ChangedFileSupplied(rules: Rules, s: Serialized, objects: map<string, Material>, i: nat)
    requires Lawful(rules) && Consistent(rules, s) && Supplies(objects, s.artifact)
    requires var changes := rules.diff(s.artifact.base, s.artifact.current); i < |changes| && IsFile(changes[i].current)
    ensures i < |s.artifact.changes| && s.artifact.changes[i].content.Some?
    ensures s.artifact.changes[i].content.value in objects
    ensures Fits(objects[s.artifact.changes[i].content.value],
                 rules.diff(s.artifact.base, s.artifact.current)[i].current.value)
  {
    var changes := rules.diff(s.artifact.base, s.artifact.current);
    assert IsDiff(changes, s.artifact.base, s.artifact.current);
    assert ChangeAgrees(changes[i], s.artifact.base, s.artifact.current);
    assert SuppliesAt(objects, s.artifact, i);
  }

  function IdByPath(references: seq<Reference>, path: string): Option<string> {
    if references == [] then None
    else if references[|references| - 1].path == path then references[|references| - 1].content
    else IdByPath(references[..|references| - 1], path)
  }

  lemma {:induction false} IdOfReference(references: seq<Reference>, i: nat)
    requires forall k, l :: 0 <= k < l < |references| ==> references[k].path != references[l].path
    requires i < |references|
    ensures IdByPath(references, references[i].path) == references[i].content
  {
    if i < |references| - 1 {
      IdOfReference(references[..|references| - 1], i);
    }
  }

  /** The artifact's reference for the `i`th change. */
  lemma IdOfChange(rules: Rules, s: Serialized, i: nat)
    requires Lawful(rules) && Consistent(rules, s) && i < |s.artifact.changes|
    ensures IdByPath(s.artifact.changes, s.artifact.changes[i].path) == s.artifact.changes[i].content
  {
    var changes := rules.diff(s.artifact.base, s.artifact.current);
    assert IsDiff(changes, s.artifact.base, s.artifact.current);
    IdOfReference(s.artifact.changes, i);
  }

  lemma PlannedOneMore(entries: map<string, Entry>, contents: map<string, Material>, changes: seq<Change>, i: nat,
                       target: Manifest, e: map<string, Entry>, c: map<string, Material>)
    requires i < |changes| && PlannedUpTo(entries, contents, changes[..i], target)
    requires PlannedAt(e, c, changes[i].current, changes[i].path)
    requires e - {changes[i].path} == entries - {changes[i].path}
    requires c - {changes[i].path} == contents - {changes[i].path}
    ensures PlannedUpTo(e, c, changes[..i + 1], target)
  {
    var before, after, changed := changes[..i], changes[..i + 1], changes[i].path;
    assert after[..i] == before;
    forall path
      ensures PlannedAt(e, c, Applied(after, target, path), path)
    {
      if path != changed {
        assert PlannedAt(entries, contents, Applied(before, target, path), path);
        assert path in e <==> path in e - {changed};
        assert path in entries <==> path in entries - {changed};
        assert path in c <==> path in c - {changed};
        assert path in contents <==> path in contents - {changed};
        assert path in e ==> e[path] == (e - {changed})[path] == (entries - {changed})[path];
        assert path in c ==> c[path] == (c - {changed})[path] == (contents - {changed})[path];
      }
    }
  }

  /** Applies the changes to the target's entries and contents.  The lookup of a changed
      file's content cannot fail once the artifact and its content have been accepted. */
  method ApplyChanges(rules: Rules, s: Serialized, target: Manifest, objects: map<string, Material>,
                      e0: map<string, Entry>, c0: map<string, Material>)
    returns (r: Outcome<(map<string, Entry>, map<string, Material>)>)
    requires Lawful(rules) && Consistent(rules, s) && Supplies(objects, s.artifact) && PlannedUpTo(e0, c0, [], target)
    ensures r.Got?
    ensures PlannedUpTo(r.value.0, r.value.1, rules.diff(s.artifact.base, s.artifact.current), target)
  {
    var changes := rules.diff(s.artifact.base, s.artifact.current);
    assert IsDiff(changes, s.artifact.base, s.artifact.current);
    var entries, contents := e0, c0;
    var i := 0;
    while i < |changes|
      invariant 0 <= i <= |changes| && PlannedUpTo(entries, contents, changes[..i], target)
    {
      var change := changes[i];
      assert ChangeAgrees(change, s.artifact.base, s.artifact.current);
      var e, c := entries, contents;
      if change.current.None? {
        e, c := e - {change.path}, c - {change.path};
      } else {
        e := e[change.path := change.current.value];
        if !change.current.value.File? {
          c := c - {change.path};
        } else {
          ChangedFileSupplied(rules, s, objects, i);
          IdOfChange(rules, s, i);
          var id := IdByPath(s.artifact.changes, change.path);
          if id.None? || id.value !in objects || !Fits(objects[id.value], change.current.value) {
            return Refused(ContentUnavailable);
          }
          c := c[change.path := objects[id.value]];
        }
      }
      PlannedOneMore(entries, contents, changes, i, target, e, c);
      entries, contents := e, c;
      i := i + 1;
    }
    assert changes[..i] == changes;
    r := Got((entries, contents));
  }

  ghost predicate IsEntryMap(byPath: map<string, Entry>, entries: seq<Entry>) {
    forall path :: Find(entries, path) == if path in byPath then Some(byPath[path]) else None
  }

  method EntryMap(entries: seq<Entry>) returns (byPath: map<string, Entry>)
    ensures IsEntryMap(byPath, entries)
  {
    byPath := map[];
    var i := 0;
    while i < |entries|
      invariant 0 <= i <= |entries| && IsEntryMap(byPath, entries[..i])
    {
      assert entries[..i + 1][..i] == entries[..i];
      byPath := byPath[entries[i].path := entries[i]];
      i := i + 1;
    }
    assert entries[..i] == entries;
  }

  /** The map's values as a list; the order is the canonicaliser's business. */
  method Values(byPath: map<string, Entry>) returns (entries: seq<Entry>)
    requires forall path :: path in byPath ==> byPath[path].path == path
    ensures IsEntryMap(byPath, entries) && DistinctPaths(entries)
  {
    entries := [];
    var todo := byPath;
    while todo.Keys != {}
      invariant todo.Keys <= byPath.Keys && forall path :: path in todo ==> todo[path] == byPath[path]
      invariant IsEntryMap(byPath - todo.Keys, entries)
      invariant DistinctPaths(entries) && forall i :: 0 <= i < |entries| ==> entries[i].path !in todo
      decreases |todo|
    {
      var path :| path in todo;
      ghost var more := entries + [todo[path]];
      assert more[..|more| - 1] == entries;
      assert byPath - (todo - {path}).Keys == (byPath - todo.Keys)[path := byPath[path]];
      entries := entries + [todo[path]];
      todo := todo - {path};
    }
    assert byPath - todo.Keys == byPath;
  }

  datatype Request = Request(bytes: Bytes, checksum: string, target: Manifest, resultSnapshot: string,
                             targetMaterials: seq<Material>, artifactMaterials: seq<Material>)

  /** A ready plan: the overlay under the result's identity, with content for exactly its
      files. */
  ghost predicate PlansOverlay(plan: Plan, a: Artifact, target: Manifest, resultSnapshot: string)
    requires plan.Ready?
  {
    && plan.manifest.identity == resultSnapshot && DistinctPaths(plan.manifest.entries)
    && (forall path :: Find(plan.manifest.entries, path) == Overlaid(a, target, path))
    && Covers(plan.contents, plan.manifest.entries)
  }

  ghost predicate ListsOverlay(list: seq<Entry>, a: Artifact, target: Manifest) {
    DistinctPaths(list) && forall path :: Find(list, path) == Overlaid(a, target, path)
  }

  /** The manifest of the overlaid entries; none if they are not valid together. */
  ghost predicate Manifests(rules: Rules, id: string, a: Artifact, target: Manifest, manifest: Option<Manifest>) {
    && (exists list :: ListsOverlay(list, a, target))
    && (forall list :: ListsOverlay(list, a, target) ==> rules.create(id, list) == manifest)
  }

  /** A manifest does not depend on the order in which its entries are given. */
  ghost predicate OrderFree(rules: Rules) {
    forall id, list, other :: SameEntries(list, other) ==> rules.create(id, list) == rules.create(id, other)
  }

  ghost predicate SameEntries(list: seq<Entry>, other: seq<Entry>) {
    DistinctPaths(list) && DistinctPaths(other) && forall path :: Find(list, path) == Find(other, path)
  }

  lemma OneManifest(rules: Rules, id: string, a: Artifact, target: Manifest, list: seq<Entry>)
    requires OrderFree(rules) && ListsOverlay(list, a, target)
    ensures Manifests(rules, id, a, target, rules.create(id, list))
  {
    forall other | ListsOverlay(other, a, target)
      ensures rules.create(id, other) == rules.create(id, list)
    {
      assert SameEntries(other, list);
    }
  }

  function Planned(plan: Plan): Option<Manifest> {
    if plan.Ready? then Some(plan.manifest) else None
  }

  /** The last step: nothing the plan could lack is left to find. */
  method Finish(rules: Rules, q: Request, a: Artifact, entries: map<string, Entry>, contents: map<string, Material>)
    returns (plan: Plan)
    requires Lawful(rules) && OrderFree(rules)
    requires PlannedUpTo(entries, contents, rules.diff(a.base, a.current), q.target)
    ensures plan.Ready? || plan == Rejected(ManifestInvalid)
    ensures Manifests(rules, q.resultSnapshot, a, q.target, Planned(plan))
    ensures plan.Ready? ==> PlansOverlay(plan, a, q.target, q.resultSnapshot)
  {
    var changes := rules.diff(a.base, a.current);
    assert IsDiff(changes, a.base, a.current);
    forall path
      ensures PlannedAt(entries, contents, Overlaid(a, q.target, path), path)
    {
      AppliedIsOverlay(changes, a, q.target, path);
      assert PlannedAt(entries, contents, Applied(changes, q.target, path), path);
    }
    assert forall path :: path in entries ==> PlannedAt(entries, contents, Overlaid(a, q.target, path), path);
    var list := Values(entries);
    OneManifest(rules, q.resultSnapshot, a, q.target, list);
    var manifest := rules.create(q.resultSnapshot, list);
    if manifest.None? { return Rejected(ManifestInvalid); }
    var planned := manifest.value.entries;
    var files := set i | 0 <= i < |planned| && planned[i].File? :: planned[i].path;
    FilesAre(manifest.value.entries, files);
    forall path
      ensures Find(manifest.value.entries, path) == Overlaid(a, q.target, path)
      ensures CoveredAt(contents, Find(manifest.value.entries, path), path)
    {
      assert PlannedAt(entries, contents, Overlaid(a, q.target, path), path);
    }
    if files != contents.Keys { return Rejected(PlanIncomplete); }
    plan := Ready(manifest.value, contents);
  }

  lemma FilesAre(entries: seq<Entry>, files: set<string>)
    requires DistinctPaths(entries)
    requires files == (set i | 0 <= i < |entries| && entries[i].File? :: entries[i].path)
    ensures forall path :: path in files <==> IsFile(Find(entries, path))
  {
    forall path | path in files
      ensures IsFile(Find(entries, path))
    {
      var i :| 0 <= i < |entries| && entries[i].File? && entries[i].path == path;
      assert Find(entries, path).Some?;
    }
  }

  /** Everything the plan needs is there and fits together. */
  ghost predicate Acceptable(rules: Rules, valid: Material -> bool, q: Request) {
    && Parse(rules, q.bytes, q.checksum).Some?
    && AcceptableFor(rules, valid, q, Parse(rules, q.bytes, q.checksum).value)
  }

  ghost predicate AcceptableFor(rules: Rules, valid: Material -> bool, q: Request, s: Serialized) {
    var target := rules.create(q.target.identity, q.target.entries);
    && target.Some? && Indexable(q.targetMaterials, valid) && Indexable(q.artifactMaterials, valid)
    && ContentMatches(Index(q.targetMaterials), target.value.entries)
    && ArtifactMatches(Index(q.artifactMaterials), s)
  }

  /** The three outcomes: material that does not fit together is rejected, conflicting
      changes are reported and counted, and otherwise the overlay is planned, exactly if
      its entries make a manifest.  The two late rejections never happen. */
  method PlanPatchApplication(rules: Rules, valid: Material -> bool, uri: string -> string, q: Request)
    returns (plan: Plan)
    requires Lawful(rules) && OrderFree(rules) && Injective(uri)
    ensures plan != Rejected(ContentUnavailable) && plan != Rejected(PlanIncomplete)
    ensures !Acceptable(rules, valid, q) ==> plan.Rejected?
    ensures Acceptable(rules, valid, q) ==>
      var a := Parse(rules, q.bytes, q.checksum).value.artifact;
      var conflicts := ConflictPaths(rules.diff(a.base, a.current), q.target);
      if conflicts != {} then plan.Conflict? && Reports(plan.report, uri, conflicts)
      else
        && Manifests(rules, q.resultSnapshot, a, q.target, Planned(plan))
        && (plan == Rejected(ManifestInvalid) || (plan.Ready? && PlansOverlay(plan, a, q.target, q.resultSnapshot)))
    // The same in terms of the three manifests at a path.
    ensures Acceptable(rules, valid, q) ==>
      var a := Parse(rules, q.bytes, q.checksum).value.artifact;
      plan.Conflict? <==> exists path :: Clashes(a.base, a.current, q.target, path)
    ensures plan.Ready? ==>
      var a := Parse(rules, q.bytes, q.checksum).value.artifact;
      forall path :: PlansEntry(plan, a, q.target, path)
  {
    var s := Parse(rules, q.bytes, q.checksum);
    if s.None? { return Rejected(ArtifactInvalid); }
    ParsedIsConsistent(rules, q.bytes, q.checksum);
    plan := PlanParsed(rules, valid, uri, q, s.value);
    ClashesExactly(rules, s.value.artifact, q.target);
    if plan.Ready? {
      OverlayEntries(plan, s.value.artifact, q.target, q.resultSnapshot);
    }
  }

  lemma ClashesExactly(rules: Rules, a: Artifact, target: Manifest)
    requires Lawful(rules)
    ensures ConflictPaths(rules.diff(a.base, a.current), target) != {} <==>
              exists path :: Clashes(a.base, a.current, target, path)
  {
    var changes := rules.diff(a.base, a.current);
    assert IsDiff(changes, a.base, a.current);
    if path :| path in ConflictPaths(changes, target) {
      ConflictsExactly(changes, a.base, a.current, target, path);
    }
    if path :| Clashes(a.base, a.current, target, path) {
      ConflictsExactly(changes, a.base, a.current, target, path);
    }
  }

  /** At one path of a ready plan: the proposed entry where the patch changes it, and the
      target's otherwise; and for a file, an object with its digest and size. */
  predicate PlansEntry(plan: Plan, a: Artifact, target: Manifest, path: string)
    requires plan.Ready?
  {
    var planned := Find(plan.manifest.entries, path);
    && (Find(a.base.entries, path) != Find(a.current.entries, path) ==> planned == Find(a.current.entries, path))
    && (Find(a.base.entries, path) == Find(a.current.entries, path) ==> planned == Find(target.entries, path))
    && (path in plan.contents <==> planned.Some? && planned.value.File?)
    && (path in plan.contents ==>
          && plan.contents[path].checksum == planned.value.digest && plan.contents[path].size == planned.value.size)
  }

  lemma OverlayEntries(plan: Plan, a: Artifact, target: Manifest, resultSnapshot: string)
    requires plan.Ready? && PlansOverlay(plan, a, target, resultSnapshot)
    ensures forall path :: PlansEntry(plan, a, target, path)
  {
    forall path
      ensures PlansEntry(plan, a, target, path)
    {
      assert CoveredAt(plan.contents, Find(plan.manifest.entries, path), path);
    }
  }

  method PlanParsed(rules: Rules, valid: Material -> bool, uri: string -> string, q: Request, s: Serialized)
    returns (plan: Plan)
    requires Lawful(rules) && OrderFree(rules) && Injective(uri) && Consistent(rules, s)
    ensures plan != Rejected(ContentUnavailable) && plan != Rejected(PlanIncomplete)
    ensures !AcceptableFor(rules, valid, q, s) ==> plan.Rejected?
    ensures AcceptableFor(rules, valid, q, s) ==>
      var conflicts := ConflictPaths(rules.diff(s.artifact.base, s.artifact.current), q.target);
      if conflicts != {} then plan.Conflict? && Reports(plan.report, uri, conflicts)
      else
        && Manifests(rules, q.resultSnapshot, s.artifact, q.target, Planned(plan))
        && (plan == Rejected(ManifestInvalid)
            || (plan.Ready? && PlansOverlay(plan, s.artifact, q.target, q.resultSnapshot)))
  {
    var target := rules.create(q.target.identity, q.target.entries);
    if target.None? { return Rejected(ManifestInvalid); }
    var targetContent := ManifestContent(target.value, q.targetMaterials, valid);
    if targetContent.Refused? { return Rejected(targetContent.reason); }
    var changedContent := ArtifactContent(s, q.artifactMaterials, valid);
    if changedContent.Refused? { return Rejected(changedContent.reason); }
    var changes := rules.diff(s.artifact.base, s.artifact.current);
    SameConflicts(changes, q.target, target.value);
    assert IsDiff(changes, s.artifact.base, s.artifact.current);
    ReportIsExact(uri, changes, target.value);
    var conflicts := CollectThreeWayConflicts(uri, changes, target.value);
    if conflicts.total > 0 { return Conflict(conflicts); }
    plan := PlanWithoutConflict(rules, q, s, target.value, targetContent.value, changedContent.value);
  }

  lemma SameConflicts(changes: seq<Change>, target: Manifest, canonical: Manifest)
    requires forall path :: Find(canonical.entries, path) == Find(target.entries, path)
    ensures ConflictPaths(changes, canonical) == ConflictPaths(changes, target)
  {
    assert forall i :: 0 <= i < |changes| ==> Conflicts(changes[i], canonical) == Conflicts(changes[i], target);
  }

  method PlanWithoutConflict(rules: Rules, q: Request, s: Serialized, target: Manifest,
                             targetContent: map<string, Material>, changedContent: map<string, Material>)
    returns (plan: Plan)
    requires Lawful(rules) && OrderFree(rules) && Consistent(rules, s) && Supplies(changedContent, s.artifact)
    requires Covers(targetContent, target.entries)
    requires forall path :: Find(target.entries, path) == Find(q.target.entries, path)
    ensures plan.Ready? || plan == Rejected(ManifestInvalid)
    ensures Manifests(rules, q.resultSnapshot, s.artifact, q.target, Planned(plan))
    ensures plan.Ready? ==> PlansOverlay(plan, s.artifact, q.target, q.resultSnapshot)
  {
    var entries := EntryMap(target.entries);
    forall path
      ensures PlannedAt(entries, targetContent, Applied([], q.target, path), path)
    {
      assert CoveredAt(targetContent, Find(target.entries, path), path);
    }
    var applied := ApplyChanges(rules, s, q.target, changedContent, entries, targetContent);
    plan := Finish(rules, q, s.artifact, applied.value.0, applied.value.1);
  }
}
