/** The canonical patch artifact: two manifests, the changes between them and the content
    object of each changed file.  JSON, UTF-8, hashing, manifest canonicalisation and the
    manifest diff are taken as given, with the laws stated in Lawful. */
module PatchArtifact {
  import opened Wrappers

  datatype Entry =
    | Directory(path: string, mode: nat)
    | File(path: string, mode: nat, digest: string, size: nat)
    | Symlink(path: string, mode: nat, target: string)

  datatype Manifest = Manifest(identity: string, entries: seq<Entry>)

  datatype Change = Change(path: string, base: Option<Entry>, current: Option<Entry>)

  datatype Reference = Reference(path: string, content: Option<string>)

  datatype Artifact = Artifact(agent: string, baseSnapshot: string, currentSnapshot: string, base: Manifest,
                               current: Manifest, changes: seq<Reference>, changedFiles: nat, size: nat)

  /** A decoded JSON value: of the artifact's exact shape, or anything else. */
  datatype Json = Shaped(artifact: Artifact) | Unshaped(id: nat)

  datatype Content = Content(path: string, id: string)

  datatype Input = Input(agent: string, baseSnapshot: string, currentSnapshot: string, base: Manifest,
                         current: Manifest, contents: seq<Content>)

  type Bytes = seq<int>

  datatype Serialized = Serialized(artifact: Artifact, bytes: Bytes, checksum: string, contentIds: set<string>)

  /** The largest integer that is represented exactly. */
  const MAX_SAFE_INTEGER := 9007199254740991

  /** The limits, and the functions of other modules. */
  datatype Rules = Rules(
    maxBytes: nat, maxChanges: nat,
    validId: string -> bool,
    create: (string, seq<Entry>) -> Option<Manifest>,
    diff: (Manifest, Manifest) -> seq<Change>,
    encode: Json -> Bytes,
    decode: Bytes -> Option<Json>,
    hash: Bytes -> string)

  /** The entry at a path, as a map built from the list has it. */
  function Find(entries: seq<Entry>, path: string): (e: Option<Entry>)
    ensures e.Some? ==> e.value in entries && e.value.path == path
    ensures e.None? ==> forall i :: 0 <= i < |entries| ==> entries[i].path != path
  {
    if entries == [] then None
    else if entries[|entries| - 1].path == path then Some(entries[|entries| - 1])
    else Find(entries[..|entries| - 1], path)
  }

  predicate DistinctPaths(entries: seq<Entry>) {
    forall i, j :: 0 <= i < j < |entries| ==> entries[i].path != entries[j].path
  }

  predicate DistinctChanges(changes: seq<Change>) {
    forall i, j :: 0 <= i < j < |changes| ==> changes[i].path != changes[j].path
  }

  /** Exactly the paths that differ, once each, with both entries. */
  ghost predicate IsDiff(changes: seq<Change>, base: Manifest, current: Manifest) {
    && DistinctChanges(changes)
    && (forall i :: 0 <= i < |changes| ==> ChangeAgrees(changes[i], base, current))
    && (forall path: string :: Find(base.entries, path) != Find(current.entries, path) ==> HasPath(changes, path))
  }

  predicate ChangeAgrees(c: Change, base: Manifest, current: Manifest) {
    c.base == Find(base.entries, c.path) && c.current == Find(current.entries, c.path) && c.base != c.current
  }

  predicate HasPath(changes: seq<Change>, path: string) {
    exists i :: 0 <= i < |changes| && changes[i].path == path
  }

  ghost predicate Lawful(rules: Rules) {
    && (forall id, entries :: rules.create(id, entries).Some? ==>
          && rules.create(id, entries).value.identity == id
          && DistinctPaths(rules.create(id, entries).value.entries)
          && (forall path :: Find(rules.create(id, entries).value.entries, path) == Find(entries, path)))
    && (forall base, current :: IsDiff(rules.diff(base, current), base, current))
    && (forall json :: rules.decode(rules.encode(json)) == Some(json))
  }

  // ---- Serializing ----

  /** A manifest is accepted as it stands, or not at all. */
  predicate Canonical(rules: Rules, manifest: Manifest, snapshot: string) {
    manifest.identity == snapshot && rules.create(manifest.identity, manifest.entries) == Some(manifest)
  }

  predicate DistinctContents(contents: seq<Content>) {
    forall i, j :: 0 <= i < j < |contents| ==> contents[i].path != contents[j].path
  }

  function ContentAt(contents: seq<Content>, path: string): (id: Option<string>)
    ensures id.Some? ==> Content(path, id.value) in contents
    ensures id.None? ==> forall i :: 0 <= i < |contents| ==> contents[i].path != path
  {
    if contents == [] then None
    else if contents[|contents| - 1].path == path then Some(contents[|contents| - 1].id)
    else ContentAt(contents[..|contents| - 1], path)
  }

  predicate IsFile(entry: Option<Entry>) {
    entry.Some? && entry.value.File?
  }

  /** A changed file has a content object, and any other change has none. */
  predicate Matched(change: Change, contents: seq<Content>) {
    IsFile(change.current) <==> ContentAt(contents, change.path).Some?
  }

  /** Every content object belongs to a changed file. */
  predicate AllUsed(contents: seq<Content>, changes: seq<Change>) {
    forall i :: 0 <= i < |contents| ==> Used(contents[i], changes)
  }

  predicate Used(content: Content, changes: seq<Change>) {
    exists j :: 0 <= j < |changes| && changes[j].path == content.path && IsFile(changes[j].current)
  }

  function References(changes: seq<Change>, contents: seq<Content>): seq<Reference> {
    seq(|changes|, i requires 0 <= i < |changes| => Reference(changes[i].path, ContentAt(contents, changes[i].path)))
  }

  function SizeOf(entry: Option<Entry>): nat {
    if IsFile(entry) then entry.value.size else 0
  }

  function TotalSize(changes: seq<Change>): nat {
    if changes == [] then 0 else TotalSize(changes[..|changes| - 1]) + SizeOf(changes[|changes| - 1].current)
  }

  function ArtifactOf(input: Input, changes: seq<Change>): Artifact {
    Artifact(input.agent, input.baseSnapshot, input.currentSnapshot, input.base, input.current,
             References(changes, input.contents), |changes|, TotalSize(changes))
  }

  function Ids(references: seq<Reference>): set<string> {
    set i | 0 <= i < |references| && references[i].content.Some? :: references[i].content.value
  }

  function Finished(rules: Rules, artifact: Artifact): Serialized {
    var bytes := rules.encode(Shaped(artifact));
    Serialized(artifact, bytes, rules.hash(bytes), Ids(artifact.changes))
  }

  /** The inputs that can be serialized at all. */
  predicate Serializable(rules: Rules, input: Input) {
    && rules.validId(input.agent) && rules.validId(input.baseSnapshot) && rules.validId(input.currentSnapshot)
    && Canonical(rules, input.base, input.baseSnapshot) && Canonical(rules, input.current, input.currentSnapshot)
    && var changes := rules.diff(input.base, input.current);
       && |changes| <= rules.maxChanges && |input.contents| <= rules.maxChanges
       && (forall i :: 0 <= i < |input.contents| ==> rules.validId(input.contents[i].id))
       && DistinctContents(input.contents)
       && (forall i :: 0 <= i < |changes| ==> Matched(changes[i], input.contents))
       && AllUsed(input.contents, changes)
       && TotalSize(changes) <= MAX_SAFE_INTEGER
       && |rules.encode(Shaped(ArtifactOf(input, changes)))| <= rules.maxBytes
  }

  /** What serializing an acceptable input gives. */
  function Serialize(rules: Rules, input: Input): Option<Serialized> {
    if Serializable(rules, input)
    then Some(Finished(rules, ArtifactOf(input, rules.diff(input.base, input.current)))) else None
  }

  // ---- Parsing ----

  function ContentsOf(references: seq<Reference>): seq<Content> {
    if references == [] then []
    else
      var before, last := references[..|references| - 1], references[|references| - 1];
      if last.content.Some? then ContentsOf(before) + [Content(last.path, last.content.value)] else ContentsOf(before)
  }

  function InputOf(a: Artifact): Input {
    Input(a.agent, a.baseSnapshot, a.currentSnapshot, a.base, a.current, ContentsOf(a.changes))
  }

  function Parse(rules: Rules, bytes: Bytes, checksum: string): Option<Serialized> {
    if |bytes| > rules.maxBytes || rules.hash(bytes) != checksum then None
    else
      var json := rules.decode(bytes);
      if json.None? || rules.encode(json.value) != bytes || json.value.Unshaped? then None
      else
        var rebuilt := Serialize(rules, InputOf(json.value.artifact));
        if rebuilt.None? || rules.encode(Shaped(rebuilt.value.artifact)) != bytes then None else rebuilt
  }

  // ---- The two laws ----

  predicate DistinctReferences(references: seq<Reference>) {
    forall i, j :: 0 <= i < j < |references| ==> references[i].path != references[j].path
  }

  /** Each recovered content comes from a reference, and each path once. */
  lemma {:induction false} ContentsFromReferences(references: seq<Reference>)
    requires DistinctReferences(references)
    ensures forall c :: c in ContentsOf(references) ==> Reference(c.path, Some(c.id)) in references
    ensures DistinctContents(ContentsOf(references)) && |ContentsOf(references)| <= |references|
  {
    if references != [] {
      var before, last := references[..|references| - 1], references[|references| - 1];
      ContentsFromReferences(before);
      assert references == before + [last];
      var earlier := ContentsOf(before);
      forall i | 0 <= i < |earlier|
        ensures earlier[i].path != last.path
      {
        assert Reference(earlier[i].path, Some(earlier[i].id)) in before;
      }
    }
  }

  lemma ContentAtLast(contents: seq<Content>, last: Content, path: string)
    ensures ContentAt(contents + [last], path) == if last.path == path then Some(last.id) else ContentAt(contents, path)
  {
    assert (contents + [last])[..|contents|] == contents;
  }

  /** Looking a path up among the recovered contents gives what its reference says. */
  lemma {:induction false} ContentsOfReferences(references: seq<Reference>, i: nat)
    requires DistinctReferences(references) && i < |references|
    ensures ContentAt(ContentsOf(references), references[i].path) == references[i].content
  {
    var before, last := references[..|references| - 1], references[|references| - 1];
    var path := references[i].path;
    if last.content.Some? {
      ContentAtLast(ContentsOf(before), Content(last.path, last.content.value), path);
    }
    if i < |before| {
      assert before[i] == references[i];
      ContentsOfReferences(before, i);
    } else if last.content.None? {
      NoContentAt(before, path);
    }
  }

  lemma NoContentAt(references: seq<Reference>, path: string)
    requires DistinctReferences(references) && forall i :: 0 <= i < |references| ==> references[i].path != path
    ensures ContentAt(ContentsOf(references), path).None?
  {
    ContentsFromReferences(references);
  }

  lemma RebuiltReference(changes: seq<Change>, contents: seq<Content>, i: nat)
    requires DistinctChanges(changes) && i < |changes|
    ensures ContentAt(ContentsOf(References(changes, contents)), changes[i].path) ==
              ContentAt(contents, changes[i].path)
  {
    var references := References(changes, contents);
    assert references[i].path == changes[i].path;
    ContentsOfReferences(references, i);
  }

  lemma RebuiltReferences(changes: seq<Change>, contents: seq<Content>)
    requires DistinctChanges(changes)
    ensures References(changes, ContentsOf(References(changes, contents))) == References(changes, contents)
  {
    forall i | 0 <= i < |changes|
      ensures References(changes, ContentsOf(References(changes, contents)))[i] == References(changes, contents)[i]
    {
      RebuiltReference(changes, contents, i);
    }
  }

  /** The contents recovered from the references are acceptable again. */
  lemma RebuiltContents(rules: Rules, changes: seq<Change>, contents: seq<Content>)
    requires DistinctChanges(changes) && |changes| <= rules.maxChanges
    requires forall i :: 0 <= i < |contents| ==> rules.validId(contents[i].id)
    requires forall i :: 0 <= i < |changes| ==> Matched(changes[i], contents)
    ensures var again := ContentsOf(References(changes, contents));
      && |again| <= rules.maxChanges && DistinctContents(again) && AllUsed(again, changes)
      && (forall i :: 0 <= i < |again| ==> rules.validId(again[i].id))
      && (forall i :: 0 <= i < |changes| ==> Matched(changes[i], again))
  {
    var references := References(changes, contents);
    var again := ContentsOf(references);
    ContentsFromReferences(references);
    forall i | 0 <= i < |again|
      ensures rules.validId(again[i].id) && Used(again[i], changes)
    {
      var j :| 0 <= j < |references| && references[j] == Reference(again[i].path, Some(again[i].id));
      assert Content(changes[j].path, again[i].id) in contents;
      assert Matched(changes[j], contents);
    }
    forall i | 0 <= i < |changes|
      ensures Matched(changes[i], again)
    {
      RebuiltReference(changes, contents, i);
    }
  }

  /** Serializing what parsing would pass on gives the same result again. */
  lemma SerializeAgain(rules: Rules, input: Input)
    requires Lawful(rules) && Serializable(rules, input)
    ensures var s := Serialize(rules, input).value; Serialize(rules, InputOf(s.artifact)) == Some(s)
  {
    var changes := rules.diff(input.base, input.current);
    assert IsDiff(changes, input.base, input.current);
    RebuiltReferences(changes, input.contents);
    RebuiltContents(rules, changes, input.contents);
    assert ArtifactOf(InputOf(ArtifactOf(input, changes)), changes) == ArtifactOf(input, changes);
  }

  /** Parsing a serialized artifact under the same limits returns that same artifact. */
  lemma ParseAfterSerialize(rules: Rules, input: Input)
    requires Lawful(rules) && Serialize(rules, input).Some?
    ensures var s := Serialize(rules, input).value; Parse(rules, s.bytes, s.checksum) == Some(s)
  {
    SerializeAgain(rules, input);
  }

  /** Whatever the parser accepts is byte for byte what the serializer produces for the
      result. */
  lemma SerializeAfterParse(rules: Rules, bytes: Bytes, checksum: string)
    requires Lawful(rules) && Parse(rules, bytes, checksum).Some?
    ensures var s := Parse(rules, bytes, checksum).value;
      s.bytes == bytes && s.checksum == checksum && Serialize(rules, InputOf(s.artifact)) == Some(s)
  {
    var json := rules.decode(bytes).value;
    SerializeAgain(rules, InputOf(json.artifact));
  }

  /** Two accepted encodings of one artifact are equal. */
  lemma OneEncoding(rules: Rules, bytes: Bytes, checksum: string, other: Bytes, otherChecksum: string)
    requires Lawful(rules) && Parse(rules, bytes, checksum).Some? && Parse(rules, other, otherChecksum).Some?
    requires Parse(rules, bytes, checksum).value.artifact == Parse(rules, other, otherChecksum).value.artifact
    ensures bytes == other
  {
    SerializeAfterParse(rules, bytes, checksum);
    SerializeAfterParse(rules, other, otherChecksum);
  }

  /** The parser accepts exactly what the serializer produces. */
  lemma ParsesExactly(rules: Rules, bytes: Bytes, checksum: string)
    requires Lawful(rules)
    ensures Parse(rules, bytes, checksum).Some? <==> exists input :: Produces(rules, input, bytes, checksum)
  {
    if Parse(rules, bytes, checksum).Some? {
      SerializeAfterParse(rules, bytes, checksum);
      assert Produces(rules, InputOf(Parse(rules, bytes, checksum).value.artifact), bytes, checksum);
    }
    if input :| Produces(rules, input, bytes, checksum) {
      ParseAfterSerialize(rules, input);
    }
  }

  predicate Produces(rules: Rules, input: Input, bytes: Bytes, checksum: string) {
    && Serialize(rules, input).Some?
    && Serialize(rules, input).value.bytes == bytes && Serialize(rules, input).value.checksum == checksum
  }

  /** What a parsed artifact guarantees: its changes are the diff of its manifests, with a
      content object for exactly the changed files. */
  ghost predicate Consistent(rules: Rules, s: Serialized) {
    var changes := rules.diff(s.artifact.base, s.artifact.current);
    && DistinctPaths(s.artifact.base.entries) && DistinctPaths(s.artifact.current.entries)
    && |s.artifact.changes| == |changes|
    && (forall i :: 0 <= i < |changes| ==>
          s.artifact.changes[i].path == changes[i].path
          && (s.artifact.changes[i].content.Some? <==> IsFile(changes[i].current)))
    && s.contentIds == Ids(s.artifact.changes)
  }

  lemma ParsedIsConsistent(rules: Rules, bytes: Bytes, checksum: string)
    requires Lawful(rules) && Parse(rules, bytes, checksum).Some?
    ensures Consistent(rules, Parse(rules, bytes, checksum).value)
  {
    var input := InputOf(rules.decode(bytes).value.artifact);
    var changes := rules.diff(input.base, input.current);
    assert forall i :: 0 <= i < |changes| ==> Matched(changes[i], input.contents);
  }

  // ---- What is serialized ----

  /** The path has a new file, or a file that differs from before. */
  predicate ChangedFile(base: Manifest, current: Manifest, path: string) {
    && Find(current.entries, path).Some? && Find(current.entries, path).value.File?
    && Find(base.entries, path) != Find(current.entries, path)
  }

  ghost predicate Supplied(contents: seq<Content>, path: string) {
    exists id :: Content(path, id) in contents
  }

  lemma SuppliedIsFound(contents: seq<Content>, path: string)
    ensures Supplied(contents, path) <==> ContentAt(contents, path).Some?
  {
    if ContentAt(contents, path).Some? {
      assert Content(path, ContentAt(contents, path).value) in contents;
    }
    if id :| Content(path, id) in contents {
      var i :| 0 <= i < |contents| && contents[i] == Content(path, id);
      assert contents[i].path == path;
    }
  }

  /** Contents match the changes exactly when they are supplied for the changed files. */
  lemma MatchedExactly(changes: seq<Change>, base: Manifest, current: Manifest, contents: seq<Content>)
    requires IsDiff(changes, base, current)
    ensures (forall i :: 0 <= i < |changes| ==> Matched(changes[i], contents)) && AllUsed(contents, changes) <==>
            (forall path :: Supplied(contents, path) <==> ChangedFile(base, current, path))
  {
    if (forall i :: 0 <= i < |changes| ==> Matched(changes[i], contents)) && AllUsed(contents, changes) {
      forall path
        ensures Supplied(contents, path) <==> ChangedFile(base, current, path)
      {
        MatchedAt(changes, base, current, contents, path);
      }
    }
    if forall path :: Supplied(contents, path) <==> ChangedFile(base, current, path) {
      forall i | 0 <= i < |changes|
        ensures Matched(changes[i], contents)
      {
        assert ChangeAgrees(changes[i], base, current);
        SuppliedIsFound(contents, changes[i].path);
      }
      forall i | 0 <= i < |contents|
        ensures Used(contents[i], changes)
      {
        assert Content(contents[i].path, contents[i].id) in contents;
        assert Supplied(contents, contents[i].path);
        var j :| 0 <= j < |changes| && changes[j].path == contents[i].path;
        assert ChangeAgrees(changes[j], base, current);
      }
    }
  }

  lemma MatchedAt(changes: seq<Change>, base: Manifest, current: Manifest, contents: seq<Content>, path: string)
    requires IsDiff(changes, base, current) && AllUsed(contents, changes)
    requires forall i :: 0 <= i < |changes| ==> Matched(changes[i], contents)
    ensures Supplied(contents, path) <==> ChangedFile(base, current, path)
  {
    SuppliedIsFound(contents, path);
    if id :| Content(path, id) in contents {
      var i :| 0 <= i < |contents| && contents[i] == Content(path, id);
      assert Used(contents[i], changes);
      var j :| 0 <= j < |changes| && changes[j].path == path && IsFile(changes[j].current);
      assert ChangeAgrees(changes[j], base, current);
    }
    if ChangedFile(base, current, path) {
      assert HasPath(changes, path);
      var j :| 0 <= j < |changes| && changes[j].path == path;
      assert ChangeAgrees(changes[j], base, current) && Matched(changes[j], contents);
    }
  }

  /** An input is serialized exactly if its identifiers are valid, both manifests are
      canonical and of the named snapshots, one valid content object is supplied for each
      changed file and for nothing else, and the limits are kept. */
  lemma SerializesExactly(rules: Rules, input: Input)
    requires Lawful(rules)
    ensures var changes := rules.diff(input.base, input.current);
      Serialize(rules, input).Some? <==>
        && rules.validId(input.agent) && rules.validId(input.baseSnapshot) && rules.validId(input.currentSnapshot)
        && input.base.identity == input.baseSnapshot && input.current.identity == input.currentSnapshot
        && rules.create(input.baseSnapshot, input.base.entries) == Some(input.base)
        && rules.create(input.currentSnapshot, input.current.entries) == Some(input.current)
        && |changes| <= rules.maxChanges && |input.contents| <= rules.maxChanges
        && (forall i :: 0 <= i < |input.contents| ==> rules.validId(input.contents[i].id))
        && (forall i, j :: 0 <= i < j < |input.contents| ==> input.contents[i].path != input.contents[j].path)
        && (forall path :: Supplied(input.contents, path) <==> ChangedFile(input.base, input.current, path))
        && TotalSize(changes) <= MAX_SAFE_INTEGER
        && |rules.encode(Shaped(ArtifactOf(input, changes)))| <= rules.maxBytes
  {
    MatchedExactly(rules.diff(input.base, input.current), input.base, input.current, input.contents);
  }

  /** The artifact names exactly the paths at which the manifests differ, each with the
      content object supplied for it, if any; its content objects are those supplied. */
  lemma SerializedNames(rules: Rules, input: Input, path: string, content: Option<string>)
    requires Lawful(rules) && Serialize(rules, input).Some?
    ensures var s := Serialize(rules, input).value;
      && (Reference(path, content) in s.artifact.changes <==>
            && Find(input.base.entries, path) != Find(input.current.entries, path)
            && (if content.Some? then Content(path, content.value) in input.contents
                else !Supplied(input.contents, path)))
      && s.contentIds == (set i | 0 <= i < |input.contents| :: input.contents[i].id)
  {
    var changes := rules.diff(input.base, input.current);
    assert IsDiff(changes, input.base, input.current);
    NamedReference(changes, input, path, content);
    AllNamed(changes, input);
  }

  /** With one object per path, the one found is the one supplied. */
  lemma FoundIsSupplied(contents: seq<Content>, path: string, id: string)
    requires DistinctContents(contents)
    ensures ContentAt(contents, path) == Some(id) <==> Content(path, id) in contents
  {
    if Content(path, id) in contents {
      SuppliedIsFound(contents, path);
      var found := ContentAt(contents, path).value;
      var i :| 0 <= i < |contents| && contents[i] == Content(path, id);
      var j :| 0 <= j < |contents| && contents[j] == Content(path, found);
      assert i == j;
    }
  }

  lemma NamedReference(changes: seq<Change>, input: Input, path: string, content: Option<string>)
    requires IsDiff(changes, input.base, input.current) && DistinctContents(input.contents)
    ensures Reference(path, content) in References(changes, input.contents) <==>
              && Find(input.base.entries, path) != Find(input.current.entries, path)
              && (if content.Some? then Content(path, content.value) in input.contents
                  else !Supplied(input.contents, path))
  {
    var references := References(changes, input.contents);
    SuppliedIsFound(input.contents, path);
    if content.Some? {
      FoundIsSupplied(input.contents, path, content.value);
    }
    assert ContentAt(input.contents, path) == content <==>
             if content.Some? then Content(path, content.value) in input.contents else !Supplied(input.contents, path);
    if Reference(path, content) in references {
      var i :| 0 <= i < |references| && references[i] == Reference(path, content);
      assert ChangeAgrees(changes[i], input.base, input.current);
    }
    if Find(input.base.entries, path) != Find(input.current.entries, path) {
      assert HasPath(changes, path);
      var i :| 0 <= i < |changes| && changes[i].path == path;
      assert references[i] == Reference(path, ContentAt(input.contents, path));
    }
  }

  lemma AllNamed(changes: seq<Change>, input: Input)
    requires DistinctContents(input.contents) && AllUsed(input.contents, changes)
    ensures Ids(References(changes, input.contents)) ==
              (set i | 0 <= i < |input.contents| :: input.contents[i].id)
  {
    var references := References(changes, input.contents);
    forall id | id in Ids(references)
      ensures exists i :: 0 <= i < |input.contents| && input.contents[i].id == id
    {
      var j :| 0 <= j < |references| && references[j].content == Some(id);
      assert Content(changes[j].path, id) in input.contents;
    }
    forall i | 0 <= i < |input.contents|
      ensures input.contents[i].id in Ids(references)
    {
      var c := input.contents[i];
      assert Used(c, changes) && c == Content(c.path, c.id);
      var j :| 0 <= j < |changes| && changes[j].path == c.path && IsFile(changes[j].current);
      FoundIsSupplied(input.contents, c.path, c.id);
      assert references[j] == Reference(c.path, Some(c.id));
    }
  }

  // ---- The serializer's loops ----

  /** The map from paths to content objects, refusing a path that comes twice. */
  method CollectContents(rules: Rules, contents: seq<Content>) returns (byPath: Option<map<string, string>>)
    ensures byPath.Some? <==>
      DistinctContents(contents) && forall i :: 0 <= i < |contents| ==> rules.validId(contents[i].id)
    ensures byPath.Some? ==> IsMapOf(byPath.value, contents)
  {
    var result: map<string, string> := map[];
    var i := 0;
    while i < |contents|
      invariant 0 <= i <= |contents|
      invariant IsMapOf(result, contents[..i]) && DistinctContents(contents[..i])
      invariant forall j :: 0 <= j < i ==> rules.validId(contents[j].id)
    {
      if !rules.validId(contents[i].id) { return None; }
      if contents[i].path in result {
        PathTwice(result, contents, i);
        return None;
      }
      assert contents[..i + 1] == contents[..i] + [contents[i]];
      assert contents[..i + 1][..i] == contents[..i];
      result := result[contents[i].path := contents[i].id];
      i := i + 1;
    }
    assert contents[..i] == contents;
    byPath := Some(result);
  }

  ghost predicate IsMapOf(byPath: map<string, string>, contents: seq<Content>) {
    forall path :: ContentAt(contents, path) == if path in byPath then Some(byPath[path]) else None
  }

  lemma PathTwice(byPath: map<string, string>, contents: seq<Content>, i: nat)
    requires i < |contents| && IsMapOf(byPath, contents[..i]) && contents[i].path in byPath
    ensures !DistinctContents(contents)
  {
    assert ContentAt(contents[..i], contents[i].path).Some?;
    var j :| 0 <= j < i && contents[..i][j].path == contents[i].path;
    assert contents[j].path == contents[i].path;
  }

  /** The loop over the changes: references, the paths used and the total size. */
  method CollectReferences(changes: seq<Change>, contents: seq<Content>, byPath: map<string, string>)
    returns (references: Option<seq<Reference>>, used: set<string>, size: nat)
    requires IsMapOf(byPath, contents)
    ensures references.Some? <==>
      (forall i :: 0 <= i < |changes| ==> Matched(changes[i], contents)) && TotalSize(changes) <= MAX_SAFE_INTEGER
    ensures references.Some? ==> references.value == References(changes, contents) && size == TotalSize(changes)
    ensures references.Some? ==> used == (set i | 0 <= i < |changes| && IsFile(changes[i].current) :: changes[i].path)
  {
    var result := [];
    used, size := {}, 0;
    var i := 0;
    while i < |changes|
      invariant 0 <= i <= |changes| && result == References(changes[..i], contents)
      invariant size == TotalSize(changes[..i]) && size <= MAX_SAFE_INTEGER
      invariant used == (set j | 0 <= j < i && IsFile(changes[j].current) :: changes[j].path)
      invariant forall j :: 0 <= j < i ==> Matched(changes[j], contents)
    {
      var change := changes[i];
      OneMoreChange(changes, contents, i);
      if IsFile(change.current) {
        if change.path !in byPath {
          assert !Matched(changes[i], contents);
          return None, used, size;
        }
        used := used + {change.path};
        size := size + change.current.value.size;
        if size > MAX_SAFE_INTEGER { return None, used, size; }
      } else if change.path in byPath {
        assert !Matched(changes[i], contents);
        return None, used, size;
      }
      result := result + [Reference(change.path, if change.path in byPath then Some(byPath[change.path]) else None)];
      i := i + 1;
    }
    assert changes[..i] == changes;
    references := Some(result);
  }

  lemma OneMoreChange(changes: seq<Change>, contents: seq<Content>, i: nat)
    requires i < |changes|
    ensures References(changes[..i + 1], contents) ==
            References(changes[..i], contents) + [Reference(changes[i].path, ContentAt(contents, changes[i].path))]
    ensures TotalSize(changes[..i + 1]) == TotalSize(changes[..i]) + SizeOf(changes[i].current)
    ensures TotalSize(changes[..i + 1]) <= TotalSize(changes)
  {
    assert changes[..i + 1][..i] == changes[..i];
    SizeGrows(changes, i + 1);
  }

  lemma {:induction false} SizeGrows(changes: seq<Change>, i: nat)
    requires i <= |changes|
    ensures TotalSize(changes[..i]) <= TotalSize(changes)
    decreases |changes| - i
  {
    if i < |changes| {
      assert changes[..|changes| - 1][..i] == changes[..i];
      SizeGrows(changes[..|changes| - 1], i);
    } else {
      assert changes[..i] == changes;
    }
  }

  method SerializePatchArtifact(rules: Rules, input: Input) returns (r: Option<Serialized>)
    requires Lawful(rules)
    ensures r == Serialize(rules, input)
  {
    if !rules.validId(input.agent) || !rules.validId(input.baseSnapshot) || !rules.validId(input.currentSnapshot)
       || !Canonical(rules, input.base, input.baseSnapshot) || !Canonical(rules, input.current, input.currentSnapshot)
    { return None; }
    var changes := rules.diff(input.base, input.current);
    if |changes| > rules.maxChanges || |input.contents| > rules.maxChanges { return None; }
    var byPath := CollectContents(rules, input.contents);
    if byPath.None? { return None; }
    var references, used, size := CollectReferences(changes, input.contents, byPath.value);
    if references.None? { return None; }
    UsedIsAll(changes, input.contents, byPath.value, used);
    if used != byPath.value.Keys { return None; }
    var artifact := Artifact(input.agent, input.baseSnapshot, input.currentSnapshot, input.base, input.current,
                             references.value, |changes|, size);
    var bytes := rules.encode(Shaped(artifact));
    if |bytes| > rules.maxBytes { return None; }
    r := Some(Serialized(artifact, bytes, rules.hash(bytes), Ids(references.value)));
  }

  /** Comparing the used paths with the map's paths decides whether a reference is unused. */
  lemma UsedIsAll(changes: seq<Change>, contents: seq<Content>, byPath: map<string, string>, used: set<string>)
    requires IsMapOf(byPath, contents) && forall i :: 0 <= i < |changes| ==> Matched(changes[i], contents)
    requires used == (set i | 0 <= i < |changes| && IsFile(changes[i].current) :: changes[i].path)
    ensures used == byPath.Keys <==> AllUsed(contents, changes)
  {
    forall path | path in used
      ensures path in byPath
    {
      var i :| 0 <= i < |changes| && IsFile(changes[i].current) && changes[i].path == path;
      assert Matched(changes[i], contents);
    }
    if AllUsed(contents, changes) {
      forall path | path in byPath
        ensures path in used
      {
        assert ContentAt(contents, path) == Some(byPath[path]);
        var i :| 0 <= i < |contents| && contents[i] == Content(path, byPath[path]);
        assert Used(contents[i], changes);
      }
    } else {
      var i :| 0 <= i < |contents| && !Used(contents[i], changes);
      assert ContentAt(contents, contents[i].path).Some?;
      assert contents[i].path in byPath && contents[i].path !in used;
    }
  }
}
