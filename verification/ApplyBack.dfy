/**
 The apply-back transaction: writes in place, deletions moved into a trash session, and an undo in
 reverse order when anything fails.

 `Faults` names every step that can fail by itself, phase by phase; a phase touches each path once, so
 a set of paths per phase is every combination of fault positions. A failing step leaves its own
 effect undone, except that creating a file links it into place and only then removes the temporary
 name, so a fault there leaves the new file behind, unrecorded. That the clean-up of a temporary name
 can fail too, and leave it in the source, is not part of this model.

 The source is the set of files its fingerprint covers, and the fingerprint is injective.
 */
module ApplyBack {
  import opened Results
  import opened Utf8
  import opened Workspace
  import opened Collections
  import opened DirtySnapshot

  datatype PlannedChange = PlannedChange(
    path: Path,
    operation: Operation,
    sha256: Digest,
    expected: Option<Digest>,
    before: Option<seq<Scalar>>)

  datatype Pending = Pending(source: Tree, files: seq<SnapFile>, changes: seq<PlannedChange>)

  datatype Faults = Faults(
    session: bool, writer: bool, write: set<Path>, link: set<Path>, move: set<Path>, event: bool,
    undoMove: set<Path>, undoWriter: bool, undoWrite: set<Path>, undoSession: bool, undoTrash: set<Path>,
    inspect: bool, failureEvent: bool)

  datatype Reason = StateChanged | NotApproved

  /** `FailureEventLost` is the error of the failed event itself, raised in place of the real one. */
  datatype Outcome =
    | Refused(reason: Reason)
    | Applied(writes: nat, deletesMovedToTrash: nat, trashSession: bool)
    | Failed(cause: Error)
    | PartialRollbackFailed
    | FailureEventLost

  /** What was done so far: paths written, writes undone again, and paths now in the trash. */
  datatype Steps = Steps(written: set<Path>, undone: set<Path>, moved: set<Path>)

  // ----- preparing -----

  /** What a captured snapshot guarantees about its files, whatever source they meet. */
  ghost predicate WellCaptured(files: seq<SnapFile>) {
    && DistinctFiles(files)
    && FlatWrites(files)
    && (forall f | f in files && f.operation == Write ::
          f.content.Some? && |Encode(Content(f))| <= MAX_FILE_BYTES && 0 !in Encode(Content(f)))
  }

  function ChangeFor(t: Tree, f: SnapFile): PlannedChange {
    PlannedChange(f.path, f.operation, f.sha256, DigestAt(t, f.path),
           if f.path in t then DecodeText(t[f.path].bytes) else None)
  }

  /** Whether the read-only broker can tell the state of a path: a readable file, or nothing there. */
  predicate Knowable(t: Tree, hooks: set<seq<string>>, p: Path) {
    && !InHooks(hooks, p)
    && !UnderFile(t, p)
    && (if p in t then Readable(t[p].bytes) else !IsDirectory(t, p))
  }

  ghost predicate Prepared(hooks: set<seq<string>>, p: Pending) {
    && TreeShaped(p.source)
    && WellCaptured(p.files)
    && |p.changes| == |p.files|
    && (forall k | 0 <= k < |p.files| :: p.changes[k] == ChangeFor(p.source, p.files[k]))
    && (forall f | f in p.files :: Knowable(p.source, hooks, f.path))
    && |p.files| <= MAX_TOOL_CALLS
  }

  /** The first file that cannot be told, or the one after 128 reads, and the error it is refused with. */
  ghost predicate PrepareStops(t: Tree, hooks: set<seq<string>>, files: seq<SnapFile>, k: nat, e: Error) {
    && k < |files| && k <= 128
    && (forall j | 0 <= j < k :: Knowable(t, hooks, files[j].path))
    && (if k == 128 then e == CallLimit else ReadFile(t, hooks, files[k].path) == ReadOutcome.Refused(e))
  }

  /** Pairs every captured file with the source's current state of the same path. */
  method Prepare(source: Disk, hooks: set<seq<string>>, files: seq<SnapFile>) returns (r: Result<Pending, Error>)
    requires TreeShaped(source.files) && WellCaptured(files)
    ensures r.Ok? <==> |files| <= MAX_TOOL_CALLS && forall f | f in files :: Knowable(source.files, hooks, f.path)
    ensures r.Ok? ==> Prepared(hooks, r.value) && r.value.source == source.files && r.value.files == files
    ensures r.Err? ==> exists k: nat :: PrepareStops(source.files, hooks, files, k, r.error)
  {
    var reader := new Broker(source, hooks);
    ghost var t := source.files;
    var changes: seq<PlannedChange> := [];
    for i := 0 to |files|
      invariant reader.toolCalls == i <= MAX_TOOL_CALLS && |changes| == i
      invariant source.files == t
      invariant forall k | 0 <= k < i :: changes[k] == ChangeFor(t, files[k]) && Knowable(t, hooks, files[k].path)
    {
      var f := files[i];
      assert f in files;
      var read := reader.Read(f.path);
      match read {
        case Refused(e) =>
          assert PrepareStops(t, hooks, files, i, e);
          return Err(e);
        case Missing => changes := changes + [PlannedChange(f.path, f.operation, f.sha256, None, None)];
        case Found(digest, content) =>
          changes := changes + [PlannedChange(f.path, f.operation, f.sha256, Some(digest), Some(content))];
      }
    }
    return Ok(Pending(source.files, files, changes));
  }

  // ----- the state along the way -----

  predicate Overwrites(c: PlannedChange) {
    c.operation == Write && c.expected != Some(c.sha256)
  }

  predicate Removes(c: PlannedChange) {
    c.operation == Delete && c.expected.Some?
  }

  predicate Affects(op: Operation, c: PlannedChange) {
    if op == Write then Overwrites(c) else Removes(c)
  }

  /** The changes one loop of the commit carries out, in order. */
  function Agenda(op: Operation, cs: seq<PlannedChange>): seq<PlannedChange> {
    if cs == [] then []
    else
      var last := cs[|cs| - 1];
      Agenda(op, cs[..|cs| - 1]) + if Affects(op, last) then [last] else []
  }

  function Paths(cs: seq<PlannedChange>): set<Path> {
    if cs == [] then {} else Paths(cs[..|cs| - 1]) + {cs[|cs| - 1].path}
  }

  function WriteSet(p: Pending): set<Path> {
    Paths(Agenda(Write, p.changes))
  }

  function RemoveSet(p: Pending): set<Path> {
    Paths(Agenda(Delete, p.changes))
  }

  predicate DistinctPaths(cs: seq<PlannedChange>) {
    forall i, j | 0 <= i < j < |cs| :: cs[i].path != cs[j].path
  }

  lemma {:induction false} PathsHas(cs: seq<PlannedChange>, k: nat)
    requires k < |cs|
    ensures cs[k].path in Paths(cs)
  {
    if k < |cs| - 1 { PathsHas(cs[..|cs| - 1], k); }
  }

  lemma {:induction false} PathsFrom(cs: seq<PlannedChange>, q: Path) returns (k: nat)
    requires q in Paths(cs)
    ensures k < |cs| && cs[k].path == q
  {
    if q == cs[|cs| - 1].path { return |cs| - 1; }
    k := PathsFrom(cs[..|cs| - 1], q);
  }

  lemma {:induction false} AgendaFacts(op: Operation, cs: seq<PlannedChange>)
    ensures forall c :: c in Agenda(op, cs) <==> c in cs && Affects(op, c)
  {
    if cs != [] {
      var rest, last := cs[..|cs| - 1], cs[|cs| - 1];
      assert cs == rest + [last];
      AgendaFacts(op, rest);
    }
  }

  lemma {:induction false} AgendaIsDistinct(op: Operation, cs: seq<PlannedChange>)
    requires DistinctPaths(cs)
    ensures DistinctPaths(Agenda(op, cs))
  {
    if cs != [] {
      var rest, last := cs[..|cs| - 1], cs[|cs| - 1];
      AgendaIsDistinct(op, rest);
      AgendaFacts(op, rest);
      assert forall c | c in rest :: c.path != last.path;
    }
  }

  lemma TargetFrom(p: Pending, op: Operation, q: Path) returns (c: PlannedChange)
    requires q in Paths(Agenda(op, p.changes))
    ensures c in p.changes && Affects(op, c) && c.path == q
  {
    var k := PathsFrom(Agenda(op, p.changes), q);
    AgendaFacts(op, p.changes);
    c := Agenda(op, p.changes)[k];
  }

  lemma TargetTo(p: Pending, op: Operation, c: PlannedChange)
    requires c in p.changes && Affects(op, c)
    ensures c.path in Paths(Agenda(op, p.changes))
  {
    AgendaFacts(op, p.changes);
    var k :| 0 <= k < |Agenda(op, p.changes)| && Agenda(op, p.changes)[k] == c;
    PathsHas(Agenda(op, p.changes), k);
  }

  /** The source once every write of the snapshot is in place. */
  function Final(p: Pending): Tree {
    Overlay(p.source, p.files)
  }

  function Get(t: Tree, q: Path): Option<File> {
    if q in t then Some(t[q]) else None
  }

  /** What the source holds at one path: written, moved away, put back from decoded text, or as before. */
  function FileAt(p: Pending, s: Steps, q: Path): Option<File> {
    if q in s.moved then None
    else if q in s.written - s.undone then Get(Final(p), q)
    else if q !in p.source then None
    else if q in s.undone then Some(File(StripBom(p.source[q].bytes), p.source[q].exec))
    else Some(p.source[q])
  }

  function SourceAt(p: Pending, s: Steps): Tree {
    map q | q in p.source.Keys + s.written && FileAt(p, s, q).Some? :: FileAt(p, s, q).value
  }

  function TrashedAt(p: Pending, s: Steps, q: Path): Option<File> {
    if q in s.moved then Get(p.source, q)
    else if q in s.undone && q !in p.source then Get(Final(p), q)
    else None
  }

  function TrashAt(p: Pending, s: Steps): Tree {
    map q | q in s.moved + s.undone && TrashedAt(p, s, q).Some? :: TrashedAt(p, s, q).value
  }

  predicate Sound(p: Pending, s: Steps) {
    s.undone <= s.written <= WriteSet(p) && s.moved <= RemoveSet(p)
  }

  /** Both trees are what the steps say. */
  predicate At(p: Pending, s: Steps, source: Tree, trash: Tree) {
    && Sound(p, s)
    && source == SourceAt(p, s)
    && trash == TrashAt(p, s)
  }

  lemma ChangeFacts(p: Pending, hooks: set<seq<string>>, c: PlannedChange) returns (f: SnapFile)
    requires Prepared(hooks, p) && c in p.changes
    ensures f in p.files && c == ChangeFor(p.source, f) && Knowable(p.source, hooks, c.path)
  {
    var k :| 0 <= k < |p.changes| && p.changes[k] == c;
    f := p.files[k];
  }

  /** The paths of a transaction never nest, so no step can find a file or a directory in its way. */
  lemma NothingNests(p: Pending, hooks: set<seq<string>>, x: Path, y: Path)
    requires Prepared(hooks, p)
    requires x in p.source.Keys + WriteSet(p) && y in p.source.Keys + WriteSet(p)
    ensures !(x < y)
  {
    if x in WriteSet(p) {
      var c := TargetFrom(p, Write, x);
      var f := ChangeFacts(p, hooks, c);
      if y in WriteSet(p) {
        var e := TargetFrom(p, Write, y);
        var g := ChangeFacts(p, hooks, e);
      }
    } else if y in WriteSet(p) {
      var e := TargetFrom(p, Write, y);
      var g := ChangeFacts(p, hooks, e);
    }
  }

  lemma NothingInTheWay(p: Pending, hooks: set<seq<string>>, t: Tree, x: Path)
    requires Prepared(hooks, p)
    requires t.Keys <= p.source.Keys + WriteSet(p) && x in p.source.Keys + WriteSet(p)
    ensures !UnderFile(t, x) && !IsDirectory(t, x)
  {
    forall q | q in t ensures !(q < x) && !(x < q) {
      NothingNests(p, hooks, q, x);
      NothingNests(p, hooks, x, q);
    }
  }

  /** A path is either written or removed, never both, and what is removed was there. */
  lemma PathFacts(p: Pending, hooks: set<seq<string>>, c: PlannedChange, f: SnapFile)
    requires Prepared(hooks, p) && c in p.changes && f in p.files && f.path == c.path
    ensures c == ChangeFor(p.source, f)
    ensures Overwrites(c) ==> c.path in WriteSet(p) && c.path !in RemoveSet(p)
    ensures Removes(c) ==> c.path in RemoveSet(p) && c.path !in WriteSet(p) && c.path in p.source
    ensures Overwrites(c) ==>
      Get(Final(p), c.path) == Some(File(Encode(Content(f)), c.path in p.source && p.source[c.path].exec))
  {
    var g := ChangeFacts(p, hooks, c);
    if c.path in WriteSet(p) {
      var e := TargetFrom(p, Write, c.path);
      g := ChangeFacts(p, hooks, e);
    }
    if c.path in RemoveSet(p) {
      var e := TargetFrom(p, Delete, c.path);
      g := ChangeFacts(p, hooks, e);
    }
    if Overwrites(c) { TargetTo(p, Write, c); OverlayTouched(p.source, p.files, f); }
    if Removes(c) { TargetTo(p, Delete, c); }
  }

  // ----- what one step does to the two trees -----

  lemma Written(p: Pending, s: Steps, q: Path)
    requires s.undone == {} && s.moved == {} && q !in s.written && q in Final(p)
    ensures SourceAt(p, s.(written := s.written + {q})) == SourceAt(p, s)[q := Final(p)[q]]
    ensures TrashAt(p, s.(written := s.written + {q})) == TrashAt(p, s)
    ensures Get(SourceAt(p, s), q) == Get(p.source, q)
  {
  }

  lemma Moved(p: Pending, s: Steps, q: Path)
    requires s.undone == {} && q !in s.moved && q !in s.written && q in p.source
    ensures Get(SourceAt(p, s), q) == Some(p.source[q]) && q !in TrashAt(p, s)
    ensures SourceAt(p, s.(moved := s.moved + {q})) == SourceAt(p, s) - {q}
    ensures TrashAt(p, s.(moved := s.moved + {q})) == TrashAt(p, s)[q := p.source[q]]
  {
  }

  lemma MovedBack(p: Pending, s: Steps, q: Path)
    requires s.undone == {} && q in s.moved && q !in s.written && q in p.source
    ensures Get(TrashAt(p, s), q) == Some(p.source[q]) && q !in SourceAt(p, s)
    ensures TrashAt(p, s.(moved := s.moved - {q})) == TrashAt(p, s) - {q}
    ensures SourceAt(p, s.(moved := s.moved - {q})) == SourceAt(p, s)[q := p.source[q]]
  {
  }

  lemma WrittenBack(p: Pending, s: Steps, q: Path)
    requires s.moved == {} && q in s.written - s.undone && q in p.source && q in Final(p)
    ensures SourceAt(p, s.(undone := s.undone + {q}))
            == SourceAt(p, s)[q := File(StripBom(p.source[q].bytes), p.source[q].exec)]
    ensures TrashAt(p, s.(undone := s.undone + {q})) == TrashAt(p, s)
    ensures Get(SourceAt(p, s), q) == Some(Final(p)[q])
  {
  }

  lemma TrashedBack(p: Pending, s: Steps, q: Path)
    requires s.moved == {} && q in s.written - s.undone && q !in p.source && q in Final(p)
    ensures Get(SourceAt(p, s), q) == Some(Final(p)[q]) && q !in TrashAt(p, s)
    ensures SourceAt(p, s.(undone := s.undone + {q})) == SourceAt(p, s) - {q}
    ensures TrashAt(p, s.(undone := s.undone + {q})) == TrashAt(p, s)[q := Final(p)[q]]
  {
  }

  /** Where a file can be renamed to: nothing there, no file above, no directory. */
  predicate FreeFor(t: Tree, q: Path) {
    q !in t && !UnderFile(t, q) && !IsDirectory(t, q)
  }

  lemma Unobstructed(p: Pending, hooks: set<seq<string>>, s: Steps, q: Path)
    requires Prepared(hooks, p) && Sound(p, s) && q in p.source.Keys + WriteSet(p)
    ensures !UnderFile(SourceAt(p, s), q) && !IsDirectory(SourceAt(p, s), q)
    ensures !UnderFile(TrashAt(p, s), q) && !IsDirectory(TrashAt(p, s), q)
  {
    assert SourceAt(p, s).Keys <= p.source.Keys + WriteSet(p);
    RemovesWereThere(p, hooks);
    assert TrashAt(p, s).Keys <= p.source.Keys + WriteSet(p);
    NothingInTheWay(p, hooks, SourceAt(p, s), q);
    NothingInTheWay(p, hooks, TrashAt(p, s), q);
  }

  lemma RemovesWereThere(p: Pending, hooks: set<seq<string>>)
    requires Prepared(hooks, p)
    ensures RemoveSet(p) <= p.source.Keys && RemoveSet(p) !! WriteSet(p)
  {
    forall q | q in RemoveSet(p)
      ensures q in p.source && q !in WriteSet(p)
    {
      var c := TargetFrom(p, Delete, q);
      var f := ChangeFacts(p, hooks, c);
      PathFacts(p, hooks, c, f);
    }
  }

  // ----- the same steps as the broker and the renames perform them -----

  lemma WriteOnto(t: Tree, hooks: set<seq<string>>, q: Path, content: seq<Scalar>, expected: Option<Digest>, exec: bool)
    requires !InHooks(hooks, q) && !UnderFile(t, q) && (q !in t ==> !IsDirectory(t, q))
    requires |Encode(content)| <= MAX_FILE_BYTES && 0 !in Encode(content)
    requires exec == (q in t && t[q].exec)
    ensures WriteFile(t, hooks, q, content, expected)
            == if DigestAt(t, q) == expected then Ok(t[q := File(Encode(content), exec)])
               else if q in t then Err(Stale) else Err(CreateExpectedHashMustBeNull)
  {
  }

  lemma WriteForward(p: Pending, hooks: set<seq<string>>, s: Steps, c: PlannedChange, f: SnapFile)
    requires Prepared(hooks, p) && c in p.changes && f in p.files && f.path == c.path && Overwrites(c)
    requires Sound(p, s) && s.undone == {} && s.moved == {} && c.path !in s.written
    ensures var after := s.(written := s.written + {c.path});
            && WriteFile(SourceAt(p, s), hooks, c.path, Content(f), c.expected) == Ok(SourceAt(p, after))
            && TrashAt(p, after) == TrashAt(p, s)
  {
    PathFacts(p, hooks, c, f);
    var g := ChangeFacts(p, hooks, c);
    Written(p, s, c.path);
    Unobstructed(p, hooks, s, c.path);
    WriteOnto(SourceAt(p, s), hooks, c.path, Content(f), c.expected, Final(p)[c.path].exec);
  }

  lemma MoveForward(p: Pending, hooks: set<seq<string>>, s: Steps, c: PlannedChange, f: SnapFile)
    requires Prepared(hooks, p) && c in p.changes && f in p.files && f.path == c.path && Removes(c)
    requires Sound(p, s) && s.undone == {} && c.path !in s.moved
    ensures DigestAt(SourceAt(p, s), c.path) == c.expected && FreeFor(TrashAt(p, s), c.path)
    ensures var after := s.(moved := s.moved + {c.path});
            && SourceAt(p, after) == SourceAt(p, s) - {c.path}
            && TrashAt(p, after) == TrashAt(p, s)[c.path := SourceAt(p, s)[c.path]]
  {
    PathFacts(p, hooks, c, f);
    Moved(p, s, c.path);
    Unobstructed(p, hooks, s, c.path);
  }

  lemma MoveBack(p: Pending, hooks: set<seq<string>>, s: Steps, q: Path)
    requires Prepared(hooks, p) && Sound(p, s) && s.undone == {} && q in s.moved
    ensures q in TrashAt(p, s) && FreeFor(SourceAt(p, s), q)
    ensures var after := s.(moved := s.moved - {q});
            && TrashAt(p, after) == TrashAt(p, s) - {q}
            && SourceAt(p, after) == SourceAt(p, s)[q := TrashAt(p, s)[q]]
  {
    RemovesWereThere(p, hooks);
    MovedBack(p, s, q);
    Unobstructed(p, hooks, s, q);
  }

  /** Its recorded hash is the hash of what was really written. */
  predicate Faithful(f: SnapFile) {
    Sha256(Encode(Content(f))) == f.sha256
  }

  /** Writing the remembered text back over an overwritten file. */
  lemma WriteBack(p: Pending, hooks: set<seq<string>>, s: Steps, c: PlannedChange, f: SnapFile)
    requires Prepared(hooks, p) && c in p.changes && f in p.files && f.path == c.path
    requires Sound(p, s) && s.moved == {} && c.path in s.written - s.undone && Overwrites(c)
    requires c.before.Some?
    ensures var after := s.(undone := s.undone + {c.path});
            && WriteFile(SourceAt(p, s), hooks, c.path, c.before.value, Some(c.sha256))
               == (if Faithful(f) then Ok(SourceAt(p, after)) else Err(Stale))
            && TrashAt(p, after) == TrashAt(p, s)
  {
    PathFacts(p, hooks, c, f);
    var g := ChangeFacts(p, hooks, c);
    ReencodeLosesOnlyTheBom(p.source[c.path].bytes);
    WrittenBack(p, s, c.path);
    Unobstructed(p, hooks, s, c.path);
    WriteOnto(SourceAt(p, s), hooks, c.path, c.before.value, Some(c.sha256), Final(p)[c.path].exec);
  }

  /** A file this transaction created goes to the trash instead of being deleted. */
  lemma TrashBack(p: Pending, hooks: set<seq<string>>, s: Steps, c: PlannedChange, f: SnapFile)
    requires Prepared(hooks, p) && c in p.changes && f in p.files && f.path == c.path
    requires Sound(p, s) && s.moved == {} && c.path in s.written - s.undone && Overwrites(c)
    requires c.before.None?
    ensures c.path in SourceAt(p, s) && FreeFor(TrashAt(p, s), c.path)
    ensures DigestAt(SourceAt(p, s), c.path) == Some(c.sha256) <==> Faithful(f)
    ensures var after := s.(undone := s.undone + {c.path});
            && SourceAt(p, after) == SourceAt(p, s) - {c.path}
            && TrashAt(p, after) == TrashAt(p, s)[c.path := SourceAt(p, s)[c.path]]
  {
    PathFacts(p, hooks, c, f);
    var g := ChangeFacts(p, hooks, c);
    TrashedBack(p, s, c.path);
    Unobstructed(p, hooks, s, c.path);
  }

  // ----- the two loops of the commit -----

  const START := Steps({}, {}, {})

  /** The list one loop works off: every path once, each with what is needed to do and undo it. */
  ghost predicate Worklist(p: Pending, op: Operation, agenda: seq<PlannedChange>) {
    && DistinctPaths(agenda)
    && (forall c | c in agenda :: c in p.changes && Affects(op, c))
  }

  lemma AgendaIsWorklist(p: Pending, hooks: set<seq<string>>, op: Operation)
    requires Prepared(hooks, p)
    ensures Worklist(p, op, Agenda(op, p.changes))
  {
    assert forall k | 0 <= k < |p.changes| :: p.changes[k].path == p.files[k].path;
    AgendaIsDistinct(op, p.changes);
    AgendaFacts(op, p.changes);
  }

  /** One change after the first `i`: its path is a new one. */
  lemma Next(agenda: seq<PlannedChange>, i: nat)
    requires DistinctPaths(agenda) && i < |agenda|
    ensures agenda[i].path !in Paths(agenda[..i])
    ensures Paths(agenda[..i + 1]) == Paths(agenda[..i]) + {agenda[i].path}
  {
    if agenda[i].path in Paths(agenda[..i]) {
      var k := PathsFrom(agenda[..i], agenda[i].path);
      assert false;
    }
    assert agenda[..i + 1][..i] == agenda[..i];
  }

  lemma {:induction false} PathsCount(cs: seq<PlannedChange>)
    requires DistinctPaths(cs)
    ensures |Paths(cs)| == |cs|
  {
    if cs != [] {
      Next(cs, |cs| - 1);
      PathsCount(cs[..|cs| - 1]);
      assert cs[..|cs|] == cs;
    }
  }

  /** A new file is linked into place before the step can still fail. */
  predicate FailsAfterLinking(c: PlannedChange, faults: Faults) {
    c.expected.None? && c.path in faults.link
  }

  predicate Clear(op: Operation, c: PlannedChange, faults: Faults) {
    if op == Write then c.path !in faults.write && !FailsAfterLinking(c, faults) else c.path !in faults.move
  }

  /** Whether no step of the loop over `op` fails by itself. */
  predicate AllClear(op: Operation, agenda: seq<PlannedChange>, faults: Faults) {
    forall k | 0 <= k < |agenda| :: Clear(op, agenda[k], faults)
  }

  /** How many changes of an agenda are carried out before the first one that fails. */
  function ClearCount(op: Operation, agenda: seq<PlannedChange>, faults: Faults): (n: nat)
    ensures n <= |agenda|
  {
    if agenda == [] || !Clear(op, agenda[0], faults) then 0 else 1 + ClearCount(op, agenda[1..], faults)
  }

  /** How far the write loop gets: to the first failing write, or to the end of the write budget. */
  function WriteCount(agenda: seq<PlannedChange>, faults: Faults): (n: nat)
    ensures n <= |agenda| && n <= MAX_WRITE_CALLS
  {
    var n := ClearCount(Write, agenda, faults);
    if n < MAX_WRITE_CALLS then n else MAX_WRITE_CALLS
  }

  /** The new file a failing write left linked in place, if any. */
  function Stray(agenda: seq<PlannedChange>, faults: Faults): set<Path> {
    var n := WriteCount(agenda, faults);
    if n < |agenda| && n < MAX_WRITE_CALLS && agenda[n].path !in faults.write then {agenda[n].path} else {}
  }

  /** The captured file of a path. */
  method FileOf(p: Pending, ghost hooks: set<seq<string>>, c: PlannedChange) returns (f: SnapFile)
    requires Prepared(hooks, p) && c in p.changes
    ensures f in p.files && f.path == c.path
  {
    ghost var g := ChangeFacts(p, hooks, c);
    var i := 0;
    while p.files[i].path != c.path
      invariant i < |p.files| && g in p.files[i..]
      decreases |p.files| - i
    {
      i := i + 1;
    }
    return p.files[i];
  }

  /** What the writes have recorded to be undone; only a stray new file can be missing from it. */
  ghost predicate Recorded(p: Pending, applied: seq<PlannedChange>, s: Steps) {
    && Worklist(p, Write, applied) && |applied| <= MAX_WRITE_CALLS
    && Paths(applied) <= s.written
    && (forall q | q in s.written - Paths(applied) :: q !in p.source)
  }

  lemma RecordedPrefix(p: Pending, agenda: seq<PlannedChange>, n: nat, s: Steps)
    requires Worklist(p, Write, agenda) && n <= |agenda| && n <= MAX_WRITE_CALLS && Paths(agenda[..n]) <= s.written
    requires forall q | q in s.written - Paths(agenda[..n]) :: q !in p.source
    ensures Recorded(p, agenda[..n], s)
  {
  }

  method WriteOne(p: Pending, broker: Broker, c: PlannedChange, faults: Faults, ghost s: Steps)
    returns (failure: Option<Error>, ghost after: Steps)
    requires Prepared(broker.hooks, p) && c in p.changes && Overwrites(c)
    requires Sound(p, s) && s.undone == {} && s.moved == {} && c.path !in s.written
    requires broker.disk.files == SourceAt(p, s) && broker.toolCalls == broker.writeCalls
    modifies broker, broker.disk
    ensures Sound(p, after) && broker.disk.files == SourceAt(p, after)
    ensures failure.None? <==> Clear(Write, c, faults) && old(broker.writeCalls) < MAX_WRITE_CALLS
    ensures failure.None? ==> broker.toolCalls == broker.writeCalls == old(broker.writeCalls) + 1
    ensures after == if c.path in faults.write || old(broker.writeCalls) >= MAX_WRITE_CALLS then s
                     else s.(written := s.written + {c.path})
    ensures failure.Some? && after != s ==> c.path !in p.source
    ensures failure.Some? ==>
      failure.value == if old(broker.writeCalls) >= MAX_WRITE_CALLS && c.path !in faults.write then CallLimit else Fault
  {
    var f := FileOf(p, broker.hooks, c);
    PathFacts(p, broker.hooks, c, f);
    WriteForward(p, broker.hooks, s, c, f);
    after := s;
    if c.path in faults.write { return Some(Fault), after; }
    failure := broker.Write(c.path, f.content.value, c.expected);
    if failure.Some? { return; }
    after := s.(written := s.written + {c.path});
    if FailsAfterLinking(c, faults) { return Some(Fault), after; }
  }

  /** The write budget is what ends the loop: 64 writes go through, and the next one gets as far as its call. */
  predicate BudgetEnds(agenda: seq<PlannedChange>, faults: Faults) {
    && |agenda| > 64 && agenda[64].path !in faults.write
    && forall k | 0 <= k < 64 :: agenda[k].path !in faults.write && (agenda[k].expected.None? ==> agenda[k].path !in faults.link)
  }

  lemma {:induction false} CountedAreClear(op: Operation, agenda: seq<PlannedChange>, faults: Faults)
    ensures ClearUpTo(op, agenda, ClearCount(op, agenda, faults), faults)
    ensures var n := ClearCount(op, agenda, faults); n < |agenda| ==> !Clear(op, agenda[n], faults)
  {
    if agenda != [] && Clear(op, agenda[0], faults) { CountedAreClear(op, agenda[1..], faults); }
  }

  lemma BudgetEndsIff(agenda: seq<PlannedChange>, faults: Faults)
    requires WriteCount(agenda, faults) < |agenda|
    ensures var n := WriteCount(agenda, faults);
            BudgetEnds(agenda, faults) <==> n == MAX_WRITE_CALLS && agenda[n].path !in faults.write
  {
    CountedAreClear(Write, agenda, faults);
    if BudgetEnds(agenda, faults) {
      assert forall k | 0 <= k < 64 :: Clear(Write, agenda[k], faults);
    }
  }

  /** What a write that failed by itself after `n` others has left: a new file, if its step got as far as linking it. */
  function LeftAt(agenda: seq<PlannedChange>, n: nat, faults: Faults): set<Path> {
    if n < |agenda| && n < MAX_WRITE_CALLS && agenda[n].path !in faults.write then {agenda[n].path} else {}
  }

  /** The loop over the writes, through a broker of their own; it stops after `n` of them. */
  method WriteEach(p: Pending, hooks: set<seq<string>>, source: Disk, agenda: seq<PlannedChange>, faults: Faults)
    returns (failure: Option<Error>, n: nat, ghost s: Steps)
    requires Prepared(hooks, p) && source.files == p.source
    requires Worklist(p, Write, agenda)
    modifies source
    ensures n <= |agenda| && n <= MAX_WRITE_CALLS && ClearUpTo(Write, agenda, n, faults)
    ensures failure.None? ==> n == |agenda|
    ensures failure.Some? ==>
      && n < |agenda| && (n == MAX_WRITE_CALLS || !Clear(Write, agenda[n], faults))
      && failure.value == if n == MAX_WRITE_CALLS && agenda[n].path !in faults.write then CallLimit else Fault
    ensures Sound(p, s) && source.files == SourceAt(p, s)
    ensures s == START.(written := Paths(agenda[..n]) + LeftAt(agenda, n, faults))
    ensures forall q | q in LeftAt(agenda, n, faults) :: q !in p.source
  {
    s, n := START, 0;
    NothingDone(p);
    var writer := new Broker(source, hooks);
    while n < |agenda|
      invariant n <= |agenda| && n == writer.toolCalls == writer.writeCalls <= MAX_WRITE_CALLS
      invariant Sound(p, s) && source.files == SourceAt(p, s) && s == START.(written := Paths(agenda[..n]))
      invariant ClearUpTo(Write, agenda, n, faults)
    {
      Next(agenda, n);
      ClearNext(Write, agenda, n, faults);
      failure, s := WriteOne(p, writer, agenda[n], faults, s);
      if failure.Some? { return; }
      n := n + 1;
    }
    return None, n, s;
  }

  /** The writes. The first `n` are recorded, a number given by the list and the faults. */
  method WriteAll(p: Pending, hooks: set<seq<string>>, source: Disk, agenda: seq<PlannedChange>, faults: Faults)
    returns (failure: Option<Error>, n: nat, ghost s: Steps)
    requires Prepared(hooks, p) && source.files == p.source
    requires Worklist(p, Write, agenda)
    modifies source
    ensures Sound(p, s) && source.files == SourceAt(p, s) && s.undone == {} && s.moved == {}
    ensures n == WriteCount(agenda, faults) && Recorded(p, agenda[..n], s)
    ensures s.written == Paths(agenda[..n]) + Stray(agenda, faults)
    ensures failure.None? <==> |agenda| <= MAX_WRITE_CALLS && AllClear(Write, agenda, faults)
    ensures failure.None? <==> n == |agenda|
    ensures failure.None? ==> Paths(agenda) == s.written
    ensures failure.Some? ==>
      n < |agenda| && failure.value == if n == MAX_WRITE_CALLS && agenda[n].path !in faults.write then CallLimit else Fault
  {
    failure, n, s := WriteEach(p, hooks, source, agenda, faults);
    StopsAt(agenda, n, faults);
    RecordedPrefix(p, agenda, n, s);
    WholePrefix(agenda);
  }

  /** Where the loop stopped is what the count says. */
  lemma StopsAt(agenda: seq<PlannedChange>, n: nat, faults: Faults)
    requires n <= |agenda| && n <= MAX_WRITE_CALLS && ClearUpTo(Write, agenda, n, faults)
    requires n < |agenda| ==> n == MAX_WRITE_CALLS || !Clear(Write, agenda[n], faults)
    ensures n == WriteCount(agenda, faults) && LeftAt(agenda, n, faults) == Stray(agenda, faults)
    ensures n == |agenda| <==> |agenda| <= MAX_WRITE_CALLS && AllClear(Write, agenda, faults)
  {
    ClearCountAt(Write, agenda, n, faults);
  }

  /** After `n` clear changes the count is decided by the next one. */
  lemma {:induction false} ClearCountAt(op: Operation, agenda: seq<PlannedChange>, n: nat, faults: Faults)
    requires n <= |agenda| && ClearUpTo(op, agenda, n, faults)
    ensures ClearCount(op, agenda, faults) >= n
    ensures n == |agenda| || !Clear(op, agenda[n], faults) ==> ClearCount(op, agenda, faults) == n
    ensures n < |agenda| && Clear(op, agenda[n], faults) ==> ClearCount(op, agenda, faults) > n
  {
    if n > 0 {
      assert Clear(op, agenda[0], faults);
      assert forall k | 0 <= k < |agenda| - 1 :: agenda[1..][k] == agenda[k + 1];
      ClearCountAt(op, agenda[1..], n - 1, faults);
    }
  }

  lemma WriteCountAt(agenda: seq<PlannedChange>, n: nat, faults: Faults)
    requires n < |agenda| && n <= MAX_WRITE_CALLS && ClearUpTo(Write, agenda, n, faults)
    ensures n == MAX_WRITE_CALLS || !Clear(Write, agenda[n], faults) ==>
      WriteCount(agenda, faults) == n
      && Stray(agenda, faults) == if n < MAX_WRITE_CALLS && agenda[n].path !in faults.write then {agenda[n].path} else {}
  {
    ClearCountAt(Write, agenda, n, faults);
  }

  lemma NothingDone(p: Pending)
    ensures At(p, START, p.source, map[])
  {
  }

  lemma NothingTrashed(p: Pending, s: Steps)
    requires s.undone == {} && s.moved == {}
    ensures TrashAt(p, s) == map[]
  {
  }

  predicate ClearUpTo(op: Operation, agenda: seq<PlannedChange>, n: nat, faults: Faults)
    requires n <= |agenda|
  {
    forall k | 0 <= k < n :: Clear(op, agenda[k], faults)
  }

  lemma ClearNext(op: Operation, agenda: seq<PlannedChange>, n: nat, faults: Faults)
    requires n < |agenda| && ClearUpTo(op, agenda, n, faults)
    ensures Clear(op, agenda[n], faults) <==> ClearUpTo(op, agenda, n + 1, faults)
    ensures !Clear(op, agenda[n], faults) ==> !AllClear(op, agenda, faults)
    ensures agenda[n] in agenda
  {
  }

  /** Renames a file into the trash after comparing its hash. */
  method MoveToTrash(source: Disk, trash: Disk, q: Path, expected: Digest, fault: bool) returns (failure: Option<Error>)
    requires source != trash
    modifies source, trash
    ensures failure.None? <==>
      && !fault && DigestAt(old(source.files), q) == Some(expected)
      && !UnderFile(old(trash.files), q) && !IsDirectory(old(trash.files), q)
    ensures if failure.None? then
              && q in old(source.files)
              && source.files == old(source.files) - {q}
              && trash.files == old(trash.files)[q := old(source.files)[q]]
            else source.files == old(source.files) && trash.files == old(trash.files)
    ensures DigestAt(old(source.files), q) == Some(expected) && !UnderFile(old(trash.files), q) && !IsDirectory(old(trash.files), q) ==>
      failure == if fault then Some(Fault) else None
  {
    if q !in source.files { return Some(NotRegular); }
    if Sha256(source.files[q].bytes) != expected { return Some(Stale); }
    if UnderFile(trash.files, q) || IsDirectory(trash.files, q) { return Some(NotDirectory); }
    if fault { return Some(Fault); }
    trash.files, source.files := trash.files[q := source.files[q]], source.files - {q};
    return None;
  }

  method MoveOne(
      p: Pending, ghost hooks: set<seq<string>>, source: Disk, trash: Disk, c: PlannedChange, faults: Faults, ghost s: Steps)
    returns (failure: Option<Error>, ghost after: Steps)
    requires Prepared(hooks, p) && source != trash && c in p.changes && Removes(c)
    requires At(p, s, source.files, trash.files) && s.undone == {} && c.path !in s.moved
    modifies source, trash
    ensures At(p, after, source.files, trash.files)
    ensures failure == if Clear(Delete, c, faults) then None else Some(Fault)
    ensures after == if failure.None? then s.(moved := s.moved + {c.path}) else s
  {
    ghost var f := ChangeFacts(p, hooks, c);
    MoveForward(p, hooks, s, c, f);
    TargetTo(p, Delete, c);
    failure := MoveToTrash(source, trash, c.path, c.expected.value, c.path in faults.move);
    after := if failure.None? then s.(moved := s.moved + {c.path}) else s;
  }

  /** The deletions, each a rename into the trash. `n` of them are recorded. */
  method MoveAll(
      p: Pending, ghost hooks: set<seq<string>>, source: Disk, trash: Disk, agenda: seq<PlannedChange>, faults: Faults,
      ghost s0: Steps)
    returns (failure: Option<Error>, n: nat, ghost s: Steps)
    requires Prepared(hooks, p) && source != trash
    requires At(p, s0, source.files, trash.files) && s0.undone == {} && s0.moved == {}
    requires Worklist(p, Delete, agenda)
    modifies source, trash
    ensures n == ClearCount(Delete, agenda, faults)
    ensures At(p, s, source.files, trash.files) && s == s0.(moved := Paths(agenda[..n]))
    ensures failure == if AllClear(Delete, agenda, faults) then None else Some(Fault)
    ensures failure.None? ==> n == |agenda| && Paths(agenda) == s.moved
  {
    s, n := s0, 0;
    while n < |agenda|
      invariant n <= |agenda| && At(p, s, source.files, trash.files) && s == s0.(moved := Paths(agenda[..n]))
      invariant ClearUpTo(Delete, agenda, n, faults)
    {
      Next(agenda, n);
      ClearNext(Delete, agenda, n, faults);
      ClearCountAt(Delete, agenda, n, faults);
      failure, s := MoveOne(p, hooks, source, trash, agenda[n], faults, s);
      if failure.Some? { return; }
      n := n + 1;
    }
    WholePrefix(agenda);
    ClearCountAt(Delete, agenda, n, faults);
    return None, n, s;
  }

  // ----- the rollback -----

  /** How many moves are still in the trash when undoing them, last one first, has stopped. */
  function MovesLeft(agenda: seq<PlannedChange>, faults: Faults): (n: nat)
    ensures n <= |agenda|
  {
    if agenda == [] then 0
    else if agenda[|agenda| - 1].path in faults.undoMove then |agenda|
    else MovesLeft(agenda[..|agenda| - 1], faults)
  }

  method UndoOneMove(
      p: Pending, ghost hooks: set<seq<string>>, source: Disk, trash: Disk, q: Path, faults: Faults, ghost s: Steps)
    returns (ok: bool, ghost after: Steps)
    requires Prepared(hooks, p) && source != trash && At(p, s, source.files, trash.files)
    requires s.undone == {} && q in s.moved
    modifies source, trash
    ensures ok <==> q !in faults.undoMove
    ensures At(p, after, source.files, trash.files)
    ensures after == if ok then s.(moved := s.moved - {q}) else s
  {
    MoveBack(p, hooks, s, q);
    after := s;
    if !FreeFor(source.files, q) || q !in trash.files || q in faults.undoMove { return false, after; }
    source.files, trash.files := source.files[q := trash.files[q]], trash.files - {q};
    return true, s.(moved := s.moved - {q});
  }

  /** Puts the moved files back, last one first. */
  method UndoMoves(
      p: Pending, ghost hooks: set<seq<string>>, source: Disk, trash: Disk, agenda: seq<PlannedChange>,
      faults: Faults, ghost s0: Steps)
    returns (ok: bool, ghost s: Steps)
    requires Prepared(hooks, p) && source != trash && At(p, s0, source.files, trash.files)
    requires DistinctPaths(agenda) && s0.undone == {} && s0.moved == Paths(agenda)
    modifies source, trash
    ensures ok <==> forall k | 0 <= k < |agenda| :: agenda[k].path !in faults.undoMove
    ensures At(p, s, source.files, trash.files) && s == s0.(moved := Paths(agenda[..MovesLeft(agenda, faults)]))
    ensures ok <==> MovesLeft(agenda, faults) == 0
  {
    s := s0;
    WholePrefix(agenda);
    for k := |agenda| downto 0
      invariant At(p, s, source.files, trash.files) && s == s0.(moved := Paths(agenda[..k]))
      invariant forall j | k <= j < |agenda| :: agenda[j].path !in faults.undoMove
      invariant MovesLeft(agenda, faults) == MovesLeft(agenda[..k], faults)
    {
      Next(agenda, k);
      PrefixGrows(agenda, k);
      ok, s := UndoOneMove(p, hooks, source, trash, agenda[k].path, faults, s);
      if !ok { return; }
      assert s.moved == Paths(agenda[..k]);
    }
    return true, s;
  }

  /** The recorded hash of a change is the hash of the bytes its write left behind. */
  ghost predicate FaithfulAt(p: Pending, q: Path) {
    forall f | f in p.files && f.path == q :: Faithful(f)
  }

  /** Whether undoing one write can fail by itself. `session`: the trash session already exists. */
  predicate UndoClear(c: PlannedChange, session: bool, faults: Faults) {
    if c.before.Some? then c.path !in faults.undoWrite
    else c.path !in faults.undoTrash && (session || !faults.undoSession)
  }

  /** Writes the remembered text back. */
  method UndoOverwrite(
      p: Pending, broker: Broker, trash: Disk, c: PlannedChange, fault: bool, ghost s: Steps)
    returns (ok: bool, ghost after: Steps)
    requires Prepared(broker.hooks, p) && broker.disk != trash && At(p, s, broker.disk.files, trash.files)
    requires c in p.changes && Overwrites(c) && s.moved == {} && c.path in s.written - s.undone
    requires broker.toolCalls == broker.writeCalls < MAX_WRITE_CALLS && c.before.Some?
    modifies broker, broker.disk
    ensures ok <==> FaithfulAt(p, c.path) && !fault
    ensures At(p, after, broker.disk.files, trash.files)
    ensures after == if ok then s.(undone := s.undone + {c.path}) else s
    ensures ok ==> broker.toolCalls == broker.writeCalls == old(broker.writeCalls) + 1
  {
    ghost var f := ChangeFacts(p, broker.hooks, c);
    OneFilePerPath(p, broker.hooks, f);
    WriteBack(p, broker.hooks, s, c, f);
    after := s;
    if fault { return false, after; }
    var refused := broker.Write(c.path, c.before.value, Some(c.sha256));
    if refused.Some? { return false, after; }
    return true, s.(undone := s.undone + {c.path});
  }

  /** Moves a file that was not there before into the trash. */
  method UndoCreation(
      p: Pending, ghost hooks: set<seq<string>>, source: Disk, trash: Disk, c: PlannedChange, fault: bool, ghost s: Steps)
    returns (ok: bool, ghost after: Steps)
    requires Prepared(hooks, p) && source != trash && At(p, s, source.files, trash.files)
    requires c in p.changes && Overwrites(c) && s.moved == {} && c.path in s.written - s.undone
    requires c.before.None?
    modifies source, trash
    ensures ok <==> FaithfulAt(p, c.path) && !fault
    ensures At(p, after, source.files, trash.files)
    ensures after == if ok then s.(undone := s.undone + {c.path}) else s
  {
    ghost var f := ChangeFacts(p, hooks, c);
    OneFilePerPath(p, hooks, f);
    TrashBack(p, hooks, s, c, f);
    var refused := MoveToTrash(source, trash, c.path, c.sha256, fault);
    if refused.Some? { return false, s; }
    return true, s.(undone := s.undone + {c.path});
  }

  method UndoOneWrite(
      p: Pending, broker: Broker, trash: Disk, c: PlannedChange, session0: bool, faults: Faults, ghost s: Steps)
    returns (ok: bool, session: bool, ghost after: Steps)
    requires Prepared(broker.hooks, p) && broker.disk != trash && At(p, s, broker.disk.files, trash.files)
    requires c in p.changes && Overwrites(c) && s.moved == {} && c.path in s.written - s.undone
    requires broker.toolCalls == broker.writeCalls < MAX_WRITE_CALLS
    modifies broker, broker.disk, trash
    ensures ok ==> FaithfulAt(p, c.path) && UndoClear(c, session0, faults)
    ensures FaithfulAt(p, c.path) && UndoClear(c, session0, faults) ==> ok
    ensures At(p, after, broker.disk.files, trash.files)
    ensures after == if ok then s.(undone := s.undone + {c.path}) else s
    ensures ok ==> broker.toolCalls == broker.writeCalls <= old(broker.writeCalls) + 1
    ensures ok && session && !session0 ==> !faults.undoSession
    ensures session0 ==> session
  {
    session := session0;
    if c.before.Some? {
      ok, after := UndoOverwrite(p, broker, trash, c, c.path in faults.undoWrite, s);
    } else {
      if !session {
        if faults.undoSession { return false, session, s; }
        session := true;
      }
      ok, after := UndoCreation(p, broker.hooks, broker.disk, trash, c, c.path in faults.undoTrash, s);
    }
  }

  lemma OneFilePerPath(p: Pending, hooks: set<seq<string>>, f: SnapFile)
    requires Prepared(hooks, p) && f in p.files
    ensures FaithfulAt(p, f.path) <==> Faithful(f)
  {
  }

  /** No write from `k` on is in the way of undoing them all. */
  ghost predicate UndoableFrom(p: Pending, agenda: seq<PlannedChange>, k: nat, session: bool, faults: Faults) {
    forall j | k <= j < |agenda| :: FaithfulAt(p, agenda[j].path) && UndoClear(agenda[j], session, faults)
  }

  lemma UndoableNext(p: Pending, agenda: seq<PlannedChange>, k: nat, session: bool, faults: Faults)
    requires k < |agenda|
    ensures UndoableFrom(p, agenda, k, session, faults) <==>
      && UndoableFrom(p, agenda, k + 1, session, faults)
      && FaithfulAt(p, agenda[k].path) && UndoClear(agenda[k], session, faults)
    ensures UndoableFrom(p, agenda, 0, session, faults) ==> UndoableFrom(p, agenda, k, session, faults)
    ensures agenda[k] in agenda
  {
  }

  /** How many recorded writes still stand when undoing them, last one first, has stopped. */
  ghost function WritesLeft(p: Pending, agenda: seq<PlannedChange>, session: bool, faults: Faults): (n: nat)
    ensures n <= |agenda|
  {
    if agenda == [] then 0
    else
      var last := agenda[|agenda| - 1];
      if FaithfulAt(p, last.path) && UndoClear(last, session, faults)
      then WritesLeft(p, agenda[..|agenda| - 1], session, faults)
      else |agenda|
  }

  /** The writes from `k` on are undone. */
  predicate UndoneAfter(undone: set<Path>, agenda: seq<PlannedChange>, k: nat)
    requires k <= |agenda|
  {
    undone !! Paths(agenda[..k]) && undone + Paths(agenda[..k]) == Paths(agenda)
  }

  lemma UndoneNext(undone: set<Path>, agenda: seq<PlannedChange>, k: nat)
    requires k < |agenda| && DistinctPaths(agenda) && UndoneAfter(undone, agenda, k + 1)
    ensures agenda[k].path in Paths(agenda) && agenda[k].path !in undone
    ensures UndoneAfter(undone + {agenda[k].path}, agenda, k)
  {
    Next(agenda, k);
  }

  method UndoWrites(
      p: Pending, hooks: set<seq<string>>, source: Disk, trash: Disk, agenda: seq<PlannedChange>,
      session0: bool, faults: Faults, ghost s0: Steps)
    returns (ok: bool, ghost s: Steps)
    requires Prepared(hooks, p) && source != trash && At(p, s0, source.files, trash.files)
    requires Worklist(p, Write, agenda) && |agenda| <= MAX_WRITE_CALLS
    requires s0.moved == {} && s0.undone == {} && Paths(agenda) <= s0.written
    modifies source, trash
    ensures ok <==> UndoableFrom(p, agenda, 0, session0, faults)
    ensures At(p, s, source.files, trash.files) && s == s0.(undone := s.undone)
    ensures s.undone == Paths(agenda) - Paths(agenda[..WritesLeft(p, agenda, session0, faults)])
    ensures ok ==> s.undone == Paths(agenda)
  {
    s := s0;
    var writer := new Broker(source, hooks);
    var session := session0;
    WholePrefix(agenda);
    for k := |agenda| downto 0
      invariant writer.toolCalls == writer.writeCalls <= |agenda| - k
      invariant At(p, s, source.files, trash.files) && s == s0.(undone := s.undone)
      invariant UndoneAfter(s.undone, agenda, k)
      invariant UndoableFrom(p, agenda, k, session0, faults)
      invariant WritesLeft(p, agenda, session0, faults) == WritesLeft(p, agenda[..k], session0, faults)
      invariant session0 ==> session
      invariant session && !session0 ==> !faults.undoSession
    {
      UndoneNext(s.undone, agenda, k);
      UndoableNext(p, agenda, k, session0, faults);
      PrefixGrows(agenda, k);
      ok, session, s := UndoOneWrite(p, writer, trash, agenda[k], session, faults, s);
      if !ok { return; }
    }
    return true, s;
  }

  /** What was written can be taken back: no recorded hash is wrong, no overwritten file had a mark. */
  ghost predicate Restorable(p: Pending, written: set<Path>) {
    forall q | q in written :: FaithfulAt(p, q) && (q in p.source ==> !HasBom(p.source[q].bytes))
  }

  /** Nothing is moved away, what stands written is what was there, and what was undone had no mark to lose. */
  predicate LeavesSource(p: Pending, s: Steps) {
    && s.moved == {}
    && (forall q | q in s.written && q !in s.undone :: Get(Final(p), q) == Get(p.source, q))
    && (forall q | q in s.undone && q in p.source :: !HasBom(p.source[q].bytes))
  }

  lemma LeavesSourceAt(p: Pending, hooks: set<seq<string>>, s: Steps, q: Path)
    requires Prepared(hooks, p) && Sound(p, s)
    ensures Get(SourceAt(p, s), q) == Get(p.source, q) <==>
      && q !in s.moved
      && (q in s.written && q !in s.undone ==> Get(Final(p), q) == Get(p.source, q))
      && (q in s.undone && q in p.source ==> !HasBom(p.source[q].bytes))
  {
    RemovesWereThere(p, hooks);
    if q in p.source {
      assert File(StripBom(p.source[q].bytes), p.source[q].exec) == p.source[q] <==> !HasBom(p.source[q].bytes);
    }
  }

  /** In every state of the transaction: the source is what it was exactly when the steps leave it so. */
  lemma SourceUnchangedIff(p: Pending, hooks: set<seq<string>>, s: Steps)
    requires Prepared(hooks, p) && Sound(p, s)
    ensures SourceAt(p, s) == p.source <==> LeavesSource(p, s)
  {
    forall q: Path
      ensures Get(SourceAt(p, s), q) == Get(p.source, q) <==>
        && q !in s.moved
        && (q in s.written && q !in s.undone ==> Get(Final(p), q) == Get(p.source, q))
        && (q in s.undone && q in p.source ==> !HasBom(p.source[q].bytes))
    {
      LeavesSourceAt(p, hooks, s, q);
    }
    if LeavesSource(p, s) { SameFiles(SourceAt(p, s), p.source); }
  }

  /** After every recorded step was undone, only a stray new file or a lost mark can make a difference. */
  lemma RestoredIff(p: Pending, hooks: set<seq<string>>, s: Steps)
    requires Prepared(hooks, p) && Sound(p, s) && s.moved == {}
    requires forall q | q in s.written - s.undone :: q !in p.source
    ensures SourceAt(p, s) == p.source
            <==> s.written == s.undone && forall q | q in s.undone && q in p.source :: !HasBom(p.source[q].bytes)
  {
    forall q | q in s.written - s.undone ensures q in SourceAt(p, s) {
      var c := TargetFrom(p, Write, q);
      var f := ChangeFacts(p, hooks, c);
      PathFacts(p, hooks, c, f);
    }
    forall q | q in s.undone && q in p.source
      ensures SourceAt(p, s)[q] == p.source[q] <==> !HasBom(p.source[q].bytes)
    {
    }
  }

  lemma RestorableIff(p: Pending, cs: seq<PlannedChange>)
    ensures Restorable(p, Paths(cs)) <==>
      && (forall k | 0 <= k < |cs| :: FaithfulAt(p, cs[k].path))
      && (forall q | q in Paths(cs) && q in p.source :: !HasBom(p.source[q].bytes))
  {
    forall k | 0 <= k < |cs| ensures cs[k].path in Paths(cs) { PathsHas(cs, k); }
    forall q | q in Paths(cs)
      ensures exists k :: 0 <= k < |cs| && cs[k].path == q
    {
      var k := PathsFrom(cs, q);
    }
  }

  /** Whether no step of the rollback fails by itself. */
  predicate UndoFaultless(removes: seq<PlannedChange>, writes: seq<PlannedChange>, session: bool, faults: Faults) {
    && (forall k | 0 <= k < |removes| :: removes[k].path !in faults.undoMove)
    && !faults.undoWriter
    && (forall k | 0 <= k < |writes| :: UndoClear(writes[k], session, faults))
    && !faults.inspect
  }

  lemma UndoClearAt(p: Pending, hooks: set<seq<string>>, c: PlannedChange, session: bool, faults: Faults)
    requires Prepared(hooks, p) && c in p.changes
    ensures UndoClear(c, session, faults) <==>
      if c.path in p.source then c.path !in faults.undoWrite
      else c.path !in faults.undoTrash && (session || !faults.undoSession)
  {
    var f := ChangeFacts(p, hooks, c);
  }

  /**
   In terms of paths: what the undoing of recorded steps needs. Only a file that was not there before goes
   to the trash, and only then a trash session is needed that the commit did not have.
   */
  lemma UndoFaultlessIff(
      p: Pending, hooks: set<seq<string>>, removes: seq<PlannedChange>, writes: seq<PlannedChange>, session: bool, faults: Faults)
    requires Prepared(hooks, p) && forall c | c in writes :: c in p.changes
    ensures UndoFaultless(removes, writes, session, faults) <==>
      && Paths(removes) !! faults.undoMove && !faults.undoWriter && !faults.inspect
      && (forall q | q in Paths(writes) && q in p.source :: q !in faults.undoWrite)
      && (forall q | q in Paths(writes) && q !in p.source :: q !in faults.undoTrash && (session || !faults.undoSession))
  {
    forall k | 0 <= k < |removes| ensures removes[k].path in Paths(removes) { PathsHas(removes, k); }
    forall k | 0 <= k < |writes|
      ensures writes[k].path in Paths(writes)
      ensures UndoClear(writes[k], session, faults) <==>
        if writes[k].path in p.source then writes[k].path !in faults.undoWrite
        else writes[k].path !in faults.undoTrash && (session || !faults.undoSession)
    {
      PathsHas(writes, k);
      assert writes[k] in writes;
      UndoClearAt(p, hooks, writes[k], session, faults);
    }
    if UndoFaultless(removes, writes, session, faults) {
      forall q | q in Paths(removes) ensures q !in faults.undoMove { var k := PathsFrom(removes, q); }
      forall q | q in Paths(writes)
        ensures if q in p.source then q !in faults.undoWrite else q !in faults.undoTrash && (session || !faults.undoSession)
      {
        var k := PathsFrom(writes, q);
      }
    }
  }

  /** Where the rollback of `s` stops. */
  ghost function AfterUndo(
      p: Pending, moved: seq<PlannedChange>, applied: seq<PlannedChange>, session: bool, faults: Faults, s: Steps): Steps
  {
    var left := MovesLeft(moved, faults);
    if left > 0 || faults.undoWriter then s.(moved := Paths(moved[..left]))
    else s.(moved := {}, undone := Paths(applied) - Paths(applied[..WritesLeft(p, applied, session, faults)]))
  }

  /** Undoes the moves, then the writes, and reports whether the source is what it was. */
  method Rollback(
      p: Pending, hooks: set<seq<string>>, source: Disk, trash: Disk, moved: seq<PlannedChange>,
      applied: seq<PlannedChange>, session: bool, faults: Faults, ghost s0: Steps)
    returns (ok: bool, ghost s: Steps)
    requires Prepared(hooks, p) && source != trash && At(p, s0, source.files, trash.files)
    requires Worklist(p, Delete, moved) && s0.moved == Paths(moved) && s0.undone == {}
    requires Recorded(p, applied, s0)
    modifies source, trash
    ensures At(p, s, source.files, trash.files) && s == AfterUndo(p, moved, applied, session, faults, s0)
    ensures ok <==>
      && UndoFaultless(moved, applied, session, faults)
      && s0.written == Paths(applied) && Restorable(p, s0.written)
    ensures ok ==> source.files == p.source && s.moved == {} && s.undone == s.written
  {
    ok, s := UndoMoves(p, hooks, source, trash, moved, faults, s0);
    if !ok || faults.undoWriter { return false, s; }
    RestorableIff(p, applied);
    ok, s := UndoWrites(p, hooks, source, trash, applied, session, faults, s);
    if !ok || faults.inspect { return false, s; }
    RestoredIff(p, hooks, s);
    return source.files == p.source, s;
  }

  // ----- the transaction -----

  /** No step fails by itself, and the write budget of one broker suffices. */
  predicate CommitFaultless(p: Pending, faults: Faults) {
    var writes, removes := Agenda(Write, p.changes), Agenda(Delete, p.changes);
    && (removes != [] ==> !faults.session)
    && !faults.writer
    && |writes| <= MAX_WRITE_CALLS && AllClear(Write, writes, faults)
    && AllClear(Delete, removes, faults)
    && !faults.event
  }

  /** In terms of paths: what a transaction without a failing step needs. */
  lemma FaultlessIff(p: Pending, hooks: set<seq<string>>, faults: Faults)
    requires Prepared(hooks, p)
    ensures CommitFaultless(p, faults) <==>
      && (RemoveSet(p) != {} ==> !faults.session) && !faults.writer && !faults.event
      && |WriteSet(p)| <= 64 && faults.write !! WriteSet(p) && faults.move !! RemoveSet(p)
      && (forall q | q in faults.link && q in WriteSet(p) :: q in p.source)
  {
    var writes, removes := Agenda(Write, p.changes), Agenda(Delete, p.changes);
    AgendaIsWorklist(p, hooks, Write);
    AgendaIsWorklist(p, hooks, Delete);
    PathsCount(writes);
    PathsCount(removes);
    forall k | 0 <= k < |writes|
      ensures writes[k].path in WriteSet(p) && (writes[k].expected.None? <==> writes[k].path !in p.source)
    {
      PathsHas(writes, k);
      assert writes[k] in writes;
      var f := ChangeFacts(p, hooks, writes[k]);
    }
    forall k | 0 <= k < |removes| ensures removes[k].path in RemoveSet(p) { PathsHas(removes, k); }
    if CommitFaultless(p, faults) {
      forall q | q in WriteSet(p) ensures q !in faults.write && (q in faults.link ==> q in p.source) {
        var k := PathsFrom(writes, q);
        assert Clear(Write, writes[k], faults);
      }
      forall q | q in RemoveSet(p) ensures q !in faults.move {
        var k := PathsFrom(removes, q);
        assert Clear(Delete, removes[k], faults);
      }
    }
  }

  // ----- how far a transaction gets, read off its faults -----

  /** The trash session, if one is needed, and the writing broker could be created. */
  predicate Starts(p: Pending, faults: Faults) {
    (Agenda(Delete, p.changes) != [] ==> !faults.session) && !faults.writer
  }

  /** The writes that are recorded before anything fails: at most the first 64. */
  function AppliedBy(p: Pending, faults: Faults): seq<PlannedChange> {
    var writes := Agenda(Write, p.changes);
    if Starts(p, faults) then writes[..WriteCount(writes, faults)] else []
  }

  function StrayOf(p: Pending, faults: Faults): set<Path> {
    if Starts(p, faults) then Stray(Agenda(Write, p.changes), faults) else {}
  }

  function MovedBy(p: Pending, faults: Faults): seq<PlannedChange> {
    var writes, removes := Agenda(Write, p.changes), Agenda(Delete, p.changes);
    if Starts(p, faults) && WriteCount(writes, faults) == |writes| then removes[..ClearCount(Delete, removes, faults)]
    else []
  }

  function SessionBy(p: Pending, faults: Faults): bool {
    Agenda(Delete, p.changes) != [] && !faults.session
  }

  /** What is done when the commit ends, by itself or by a failure. */
  function Reached(p: Pending, faults: Faults): Steps {
    Steps(Paths(AppliedBy(p, faults)) + StrayOf(p, faults), {}, Paths(MovedBy(p, faults)))
  }

  /** What is still done when the rollback of a failed commit ends. */
  ghost function RolledBack(p: Pending, faults: Faults): Steps {
    AfterUndo(p, MovedBy(p, faults), AppliedBy(p, faults), SessionBy(p, faults), faults, Reached(p, faults))
  }

  /** Whether the rollback of a failed commit restores the source, and says so. */
  ghost predicate RollbackWorks(p: Pending, faults: Faults) {
    && UndoFaultless(MovedBy(p, faults), AppliedBy(p, faults), SessionBy(p, faults), faults)
    && StrayOf(p, faults) == {}
    && Restorable(p, Paths(AppliedBy(p, faults)))
  }

  /** Without a failure before the event all of it is done. */
  lemma FaultlessReachesAll(p: Pending, faults: Faults)
    requires CommitFaultless(p, faults.(event := false))
    ensures AppliedBy(p, faults) == Agenda(Write, p.changes) && MovedBy(p, faults) == Agenda(Delete, p.changes)
    ensures SessionBy(p, faults) <==> MovedBy(p, faults) != []
    ensures StrayOf(p, faults) == {} && Reached(p, faults) == Complete(p)
  {
    var writes, removes := Agenda(Write, p.changes), Agenda(Delete, p.changes);
    ClearCountAt(Write, writes, |writes|, faults);
    ClearCountAt(Delete, removes, |removes|, faults);
    WholePrefix(writes);
    WholePrefix(removes);
  }

  /** A stray file is never one of the recorded writes. */
  lemma StrayIsNotRecorded(p: Pending, hooks: set<seq<string>>, faults: Faults)
    requires Prepared(hooks, p)
    ensures Reached(p, faults).written == Paths(AppliedBy(p, faults)) <==> StrayOf(p, faults) == {}
  {
    var writes := Agenda(Write, p.changes);
    if StrayOf(p, faults) != {} {
      AgendaIsWorklist(p, hooks, Write);
      Next(writes, WriteCount(writes, faults));
    }
  }

  method CommitWrites(p: Pending, hooks: set<seq<string>>, source: Disk, faults: Faults)
    returns (failure: Option<Error>, applied: seq<PlannedChange>, ghost s: Steps)
    requires Prepared(hooks, p) && source.files == p.source && Starts(p, faults)
    modifies source
    ensures s == Steps(Paths(AppliedBy(p, faults)) + StrayOf(p, faults), {}, {})
    ensures At(p, s, source.files, map[]) && applied == AppliedBy(p, faults) && Recorded(p, applied, s)
    ensures var writes := Agenda(Write, p.changes);
            && (failure.None? <==> |writes| <= MAX_WRITE_CALLS && AllClear(Write, writes, faults))
            && (failure.None? <==> WriteCount(writes, faults) == |writes|)
            && (failure.Some? ==> failure.value == if BudgetEnds(writes, faults) then CallLimit else Fault)
  {
    var writes := Agenda(Write, p.changes);
    AgendaIsWorklist(p, hooks, Write);
    var n;
    failure, n, s := WriteAll(p, hooks, source, writes, faults);
    if failure.Some? { BudgetEndsIff(writes, faults); }
    NothingTrashed(p, s);
    applied := writes[..n];
  }

  method CommitMoves(p: Pending, ghost hooks: set<seq<string>>, source: Disk, trash: Disk, faults: Faults, ghost s0: Steps)
    returns (failure: Option<Error>, moved: seq<PlannedChange>, ghost s: Steps)
    requires Prepared(hooks, p) && source != trash && Starts(p, faults)
    requires At(p, s0, source.files, trash.files) && s0.undone == {} && s0.moved == {}
    requires WriteCount(Agenda(Write, p.changes), faults) == |Agenda(Write, p.changes)|
    modifies source, trash
    ensures At(p, s, source.files, trash.files) && s == s0.(moved := Paths(moved))
    ensures moved == MovedBy(p, faults) && Worklist(p, Delete, moved)
    ensures failure == if AllClear(Delete, Agenda(Delete, p.changes), faults) then None else Some(Fault)
  {
    var removes := Agenda(Delete, p.changes);
    AgendaIsWorklist(p, hooks, Delete);
    var n: nat;
    failure, n, s := MoveAll(p, hooks, source, trash, removes, faults, s0);
    moved := removes[..n];
  }

  /** Everything that happens before the transaction is reported: writes first, then deletions. */
  method Commit(p: Pending, hooks: set<seq<string>>, source: Disk, trash: Disk, faults: Faults)
    returns (failure: Option<Error>, applied: seq<PlannedChange>, moved: seq<PlannedChange>, session: bool, ghost s: Steps)
    requires Prepared(hooks, p) && source != trash && source.files == p.source && trash.files == map[]
    modifies source, trash
    ensures At(p, s, source.files, trash.files) && s.undone == {}
    ensures s == Reached(p, faults)
    ensures applied == AppliedBy(p, faults) && Recorded(p, applied, s)
    ensures moved == MovedBy(p, faults) && Worklist(p, Delete, moved)
    ensures session == SessionBy(p, faults)
    ensures failure.None? <==> CommitFaultless(p, faults)
    ensures failure.Some? ==> failure.value == if Starts(p, faults) && BudgetEnds(Agenda(Write, p.changes), faults) then CallLimit else Fault
  {
    applied, moved, session, s := [], [], Agenda(Delete, p.changes) != [], START;
    NothingDone(p);
    if session && faults.session { return Some(Fault), applied, moved, false, s; }
    if faults.writer { return Some(Fault), applied, moved, session, s; }
    failure, applied, s := CommitWrites(p, hooks, source, faults);
    if failure.Some? { return; }
    failure, moved, s := CommitMoves(p, hooks, source, trash, faults, s);
    if failure.Some? { return; }
    if faults.event { failure := Some(Fault); }
  }

  /**
   The approved transaction, on every combination of fault positions.

   It is applied exactly when no step fails and the write budget suffices; otherwise everything done
   is undone. Outcome and both trees are functions of what was prepared and of the faults.
   */
  method Apply(
      p: Pending, hooks: set<seq<string>>, source: Disk, trash: Disk, approved: bool, faults: Faults)
    returns (o: Outcome, ghost s: Steps)
    requires Prepared(hooks, p) && source != trash && trash.files == map[]
    modifies source, trash
    ensures o.Refused? <==> !approved || old(source.files) != p.source
    ensures o.Refused? ==>
      && source.files == old(source.files) && trash.files == map[]
      && o.reason == if old(source.files) != p.source then StateChanged else NotApproved
    ensures o.Failed? ==>
      o.cause == if Starts(p, faults) && BudgetEnds(Agenda(Write, p.changes), faults) then CallLimit else Fault
    ensures !o.Refused? ==>
      && At(p, s, source.files, trash.files)
      && s == if CommitFaultless(p, faults) then Complete(p) else RolledBack(p, faults)
    ensures o.Applied? <==> !o.Refused? && CommitFaultless(p, faults)
    ensures o.Applied? ==>
      && o.writes == |WriteSet(p)| && o.deletesMovedToTrash == |RemoveSet(p)|
      && (o.trashSession <==> RemoveSet(p) != {})
    ensures var failed := !o.Refused? && !CommitFaultless(p, faults);
            && (o.FailureEventLost? <==> failed && faults.failureEvent)
            && (o.Failed? <==> failed && !faults.failureEvent && RollbackWorks(p, faults))
            && (o.PartialRollbackFailed? <==> failed && !faults.failureEvent && !RollbackWorks(p, faults))
            && (failed && RollbackWorks(p, faults) ==> source.files == p.source && s.moved == {} && s.undone == s.written)
            && (failed ==> (source.files == p.source <==> LeavesSource(p, RolledBack(p, faults))))
  {
    s := START;
    if source.files != p.source { return Outcome.Refused(StateChanged), s; }
    if !approved { return Outcome.Refused(NotApproved), s; }
    var failure, applied, moved, session;
    failure, applied, moved, session, s := Commit(p, hooks, source, trash, faults);
    if failure.None? {
      FaultlessReachesAll(p, faults);
      PathsCount(applied);
      PathsCount(moved);
      return Applied(|applied|, |moved|, session), s;
    }
    var restored;
    StrayIsNotRecorded(p, hooks, faults);
    restored, s := Rollback(p, hooks, source, trash, moved, applied, session, faults, s);
    assert restored <==> RollbackWorks(p, faults);
    assert s == RolledBack(p, faults);
    SourceUnchangedIff(p, hooks, s);
    if faults.failureEvent { return FailureEventLost, s; }
    if !restored { return PartialRollbackFailed, s; }
    return Failed(failure.value), s;
  }

  /** Every step of the rollback works. */
  predicate NoUndoFaults(faults: Faults) {
    && faults.undoMove == {} && !faults.undoWriter && faults.undoWrite == {}
    && !faults.undoSession && faults.undoTrash == {} && !faults.inspect
  }

  // ----- what the two trees mean -----

  /** The steps of a transaction that was applied. */
  function Complete(p: Pending): Steps {
    Steps(WriteSet(p), {}, RemoveSet(p))
  }

  /** At every point, an original is in the source, in the trash at the same path, or was overwritten. */
  lemma NothingIsLost(p: Pending, s: Steps, q: Path)
    requires Sound(p, s) && q in p.source
    ensures
      || Get(SourceAt(p, s), q) == Some(p.source[q])
      || Get(TrashAt(p, s), q) == Some(p.source[q])
      || q in s.written
  {
  }

  /** Applied: the trash is exactly the removed originals. */
  lemma TrashAfterApply(p: Pending, hooks: set<seq<string>>)
    requires Prepared(hooks, p)
    ensures TrashAt(p, Complete(p)) == map q | q in RemoveSet(p) && q in p.source :: p.source[q]
    ensures RemoveSet(p) == set f | f in p.files && f.operation == Delete && f.path in p.source :: f.path
  {
    var gone := set f | f in p.files && f.operation == Delete && f.path in p.source :: f.path;
    forall q | q in RemoveSet(p) ensures q in gone {
      var c := TargetFrom(p, Delete, q);
      var f := ChangeFacts(p, hooks, c);
    }
    forall q | q in gone ensures q in RemoveSet(p) {
      var k :| 0 <= k < |p.files| && p.files[k].operation == Delete && p.files[k].path in p.source && p.files[k].path == q;
      TargetTo(p, Delete, p.changes[k]);
    }
  }

  /** Rolled back: the trash holds only what this apply had newly created. */
  lemma TrashAfterRollback(p: Pending, s: Steps)
    requires Sound(p, s) && s.moved == {} && s.undone == s.written
    ensures TrashAt(p, s) == map q | q in s.written && q !in p.source && q in Final(p) :: Final(p)[q]
  {
  }

  /** What an applied change leaves at its path: gone, or the new text, or a file that already had the hash. */
  lemma AppliedAt(p: Pending, hooks: set<seq<string>>, f: SnapFile)
    requires Prepared(hooks, p) && f in p.files
    ensures var after := SourceAt(p, Complete(p));
            if f.operation == Delete then f.path !in after
            else
              && f.path in after
              && after[f.path].exec == (f.path in p.source && p.source[f.path].exec)
              && after[f.path].bytes == if f.path in WriteSet(p) then Encode(Content(f)) else f.sha256.preimage
    ensures f.operation == Write ==> (f.path in WriteSet(p) <==> DigestAt(p.source, f.path) != Some(f.sha256))
  {
    var k :| 0 <= k < |p.files| && p.files[k] == f;
    var c := p.changes[k];
    PathFacts(p, hooks, c, f);
    if f.path in WriteSet(p) {
      var e := TargetFrom(p, Write, f.path);
      PathFacts(p, hooks, e, f);
    }
    if f.path in RemoveSet(p) {
      var e := TargetFrom(p, Delete, f.path);
      PathFacts(p, hooks, e, f);
    }
  }

  /** No other path changes. */
  lemma AppliedElsewhere(p: Pending, hooks: set<seq<string>>, q: Path)
    requires Prepared(hooks, p) && Untouched(p.files, q)
    ensures Get(SourceAt(p, Complete(p)), q) == Get(p.source, q)
  {
    if q in WriteSet(p) {
      var c := TargetFrom(p, Write, q);
      var f := ChangeFacts(p, hooks, c);
    }
    if q in RemoveSet(p) {
      var c := TargetFrom(p, Delete, q);
      var f := ChangeFacts(p, hooks, c);
    }
  }

  // ----- against the worktree that was captured -----

  /** What a captured file says about the path it was captured at. */
  predicate Represents(f: SnapFile, visible: Option<File>, base: Option<File>) {
    && (f.operation == Write <==> visible.Some?)
    && (f.operation == Write ==>
          && f.content.Some? && Encode(Content(f)) == StripBom(visible.value.bytes)
          && f.sha256 == Sha256(visible.value.bytes)
          && |visible.value.bytes| <= MAX_FILE_BYTES && 0 !in visible.value.bytes
          && (base.Some? ==> base.value.bytes != visible.value.bytes))
  }

  lemma CapturedRepresents(r: Repo, f: SnapFile)
    requires f.path in ChangeMap(r) && CapturesEntry(r, Entry(f.path, ChangeMap(r)[f.path]), f)
    ensures Represents(f, Get(Visible(r), f.path), Get(r.head, f.path))
  {
    CapturedIsVisible(r, f);
    if f.operation == Write { CapturedContent(r, f); }
  }

  /** `p` was prepared from a capture of the worktree `r`. */
  ghost predicate PreparedFrom(p: Pending, hooks: set<seq<string>>, r: Repo) {
    && Prepared(hooks, p)
    && (forall f | f in p.files :: Represents(f, Get(Visible(r), f.path), Get(r.head, f.path)))
    && (forall q | q in ChangeMap(r) :: exists f :: f in p.files && f.path == q)
  }

  lemma RepresentedIsSmall(f: SnapFile, visible: Option<File>, base: Option<File>)
    requires Represents(f, visible, base) && f.operation == Write
    ensures f.content.Some? && |Encode(Content(f))| <= MAX_FILE_BYTES && 0 !in Encode(Content(f))
  {
    var bytes := visible.value.bytes;
    assert StripBom(bytes) == bytes || StripBom(bytes) == bytes[|BOM|..];
  }

  /** A capture is what `Prepare` expects, and what `PreparedFrom` says about its files. */
  lemma CaptureIsWell(r: Repo, limits: Limits, snapshot: Snapshot)
    requires TreeShaped(r.head) && TreeShaped(r.work) && IsCapture(r, limits, snapshot)
    ensures WellCaptured(snapshot.body.files)
    ensures forall f | f in snapshot.body.files :: Represents(f, Get(Visible(r), f.path), Get(r.head, f.path))
    ensures forall q | q in ChangeMap(r) :: exists f :: f in snapshot.body.files && f.path == q
  {
    CaptureIsFlat(r, limits, snapshot);
    forall f | f in snapshot.body.files
      ensures Represents(f, Get(Visible(r), f.path), Get(r.head, f.path))
      ensures f.operation == Write ==>
        f.content.Some? && |Encode(Content(f))| <= MAX_FILE_BYTES && 0 !in Encode(Content(f))
    {
      CapturedRepresents(r, f);
      if f.operation == Write { RepresentedIsSmall(f, Get(Visible(r), f.path), Get(r.head, f.path)); }
    }
    forall q | q in ChangeMap(r)
      ensures exists f :: f in snapshot.body.files && f.path == q
    {
      var f := CapturedFile(r, limits, snapshot, q);
    }
  }

  /**
   Applied: on every captured path the source has the worktree's bytes, unless a file that had to be
   written carries a byte order mark; the executable bit stays the source's own.
   */
  lemma AppliedAgrees(p: Pending, hooks: set<seq<string>>, r: Repo, q: Path)
    requires PreparedFrom(p, hooks, r) && q in ChangeMap(r)
    ensures var after, work := Get(SourceAt(p, Complete(p)), q), Get(Visible(r), q);
            && (after.Some? <==> work.Some?)
            && (after.Some? ==>
                  (after.value.bytes == work.value.bytes <==> q !in WriteSet(p) || !HasBom(work.value.bytes)))
            && (after == work <==> work.Some? ==>
                  && (q !in WriteSet(p) || !HasBom(work.value.bytes))
                  && work.value.exec == (q in p.source && p.source[q].exec))
  {
    var f :| f in p.files && f.path == q;
    AppliedAt(p, hooks, f);
  }

  /** A file of the letter a over a HEAD file of the letter b, and a source where that one was made executable. */
  const MODE_WRITE := SnapFile(ABOVE, Write, true, 1, Sha256([0x61]), Some([0x61]))

  function ModeCase(): Pending {
    var source: Tree := map[ABOVE := File([0x62], true)];
    Pending(source, [MODE_WRITE], [ChangeFor(source, MODE_WRITE)])
  }

  const MODE_REPO := Repo(map[ABOVE := File([0x62], false)], {ABOVE}, map[ABOVE := File([0x61], false)], {})

  lemma ModeCaseIsPrepared()
    ensures PreparedFrom(ModeCase(), {}, MODE_REPO) && ABOVE in ChangeMap(MODE_REPO)
  {
    var p := ModeCase();
    DecodeUndoesEncode([0x62]);
    assert Encode([0x62]) == [0x62] == StripBom([0x62]) && Encode([0x61]) == [0x61] == StripBom([0x61]);
    assert forall g | g in p.files :: g == MODE_WRITE;
    assert p.files[0] == MODE_WRITE && Knowable(p.source, {}, ABOVE);
    assert ChangeMap(MODE_REPO).Keys == {ABOVE};
  }

  /** Applied, the source keeps its own mode, and the file differs from the worktree's. */
  lemma ModeSurvives()
    ensures Get(SourceAt(ModeCase(), Complete(ModeCase())), ABOVE) == Some(File([0x61], true))
    ensures Get(Visible(MODE_REPO), ABOVE) == Some(File([0x61], false))
  {
    ModeCaseIsPrepared();
    assert ModeCase().files[0] == MODE_WRITE && Encode([0x61]) == [0x61];
    AppliedAt(ModeCase(), {}, MODE_WRITE);
  }

  /** On a source that was clean at the base commit, every captured path becomes what the overlay says. */
  lemma CleanSourceAt(p: Pending, hooks: set<seq<string>>, r: Repo, q: Path)
    requires PreparedFrom(p, hooks, r) && p.source == r.head
    ensures Get(SourceAt(p, Complete(p)), q) == Get(Overlay(r.head, p.files), q)
  {
    if Untouched(p.files, q) {
      AppliedElsewhere(p, hooks, q);
      OverlayUntouched(r.head, p.files, q);
    } else {
      var f :| f in p.files && f.path == q;
      AppliedAt(p, hooks, f);
      OverlayTouched(r.head, p.files, f);
    }
  }

  lemma SameFiles(t: Tree, u: Tree)
    requires forall q: Path :: Get(t, q) == Get(u, q)
    ensures t == u
  {
    assert forall q: Path :: (q in t <==> Get(t, q).Some?) && (q in u <==> Get(u, q).Some?);
  }

  /** Applied on a clean source: the two whole trees are equal exactly when no written file has a mark. */
  lemma CleanSourceBecomesWorktree(p: Pending, hooks: set<seq<string>>, r: Repo, limits: Limits, snapshot: Snapshot)
    requires PreparedFrom(p, hooks, r) && p.source == r.head
    requires IsCapture(r, limits, snapshot) && p.files == snapshot.body.files
    ensures WrittenPaths(r) <= Visible(r).Keys
    ensures SourceAt(p, Complete(p)) == Visible(r) <==> forall q | q in WrittenPaths(r) :: !HasBom(Visible(r)[q].bytes)
  {
    forall q: Path
      ensures Get(SourceAt(p, Complete(p)), q) == Get(Overlay(r.head, p.files), q)
    {
      CleanSourceAt(p, hooks, r, q);
    }
    SameFiles(SourceAt(p, Complete(p)), Overlay(r.head, p.files));
    OverlayIsVisible(r, limits, snapshot);
  }

  /** A rollback can succeed exactly when neither a new file nor an overwritten one carries a mark. */
  lemma RestorableWithoutMarks(p: Pending, hooks: set<seq<string>>, r: Repo, q: Path)
    requires PreparedFrom(p, hooks, r) && q in WriteSet(p)
    ensures q in Visible(r)
    ensures Restorable(p, {q}) <==>
      !HasBom(Visible(r)[q].bytes) && (q in p.source ==> !HasBom(p.source[q].bytes))
  {
    var c := TargetFrom(p, Write, q);
    var f := ChangeFacts(p, hooks, c);
    OneFilePerPath(p, hooks, f);
  }

  // ----- the smallest case -----

  type Letter = b: int | 0 < b < 0x80 witness 1

  /** The source file `a` holds one letter, the worktree's holds a mark and the letter a. */
  const MARKED_WRITE := SnapFile(ABOVE, Write, true, 4, Sha256(MARKED), Some([0x61]))

  function MarkedCase(letter: Letter): Pending {
    var source: Tree := map[ABOVE := File([letter], false)];
    Pending(source, [MARKED_WRITE], [ChangeFor(source, MARKED_WRITE)])
  }

  lemma MarkedCaseIsPrepared(letter: Letter)
    ensures Prepared({}, MarkedCase(letter))
  {
    var p := MarkedCase(letter);
    DecodeUndoesEncode([letter]);
    assert Encode([letter]) == [letter] == StripBom([letter]) && Encode([0x61]) == [0x61];
    assert forall g | g in p.files :: g == MARKED_WRITE;
    assert Knowable(p.source, {}, ABOVE);
  }

  lemma MarkedIsUnfaithful()
    ensures !Faithful(MARKED_WRITE)
  {
    assert Encode([0x61]) == [0x61];
    assert |MARKED| == 4;
  }

  lemma SingleAgenda(op: Operation, c: PlannedChange)
    ensures Agenda(op, [c]) == if Affects(op, c) then [c] else []
    ensures Paths([c]) == {c.path}
  {
    assert [c][..0] == [];
  }

  lemma MarkedCaseAgenda(letter: Letter)
    ensures Agenda(Write, MarkedCase(letter).changes) == MarkedCase(letter).changes && Agenda(Delete, MarkedCase(letter).changes) == []
    ensures |MarkedCase(letter).changes| == 1 && MarkedCase(letter).changes[0].path == ABOVE
  {
    var c := MarkedCase(letter).changes[0];
    SingleAgenda(Write, c);
    SingleAgenda(Delete, c);
    assert [letter] != MARKED;
  }

  /** Nothing in it can fail by itself, yet once written it cannot be taken back. */
  lemma MarkedFileCannotBeRestored(letter: Letter)
    ensures Prepared({}, MarkedCase(letter))
    ensures !FaithfulAt(MarkedCase(letter), ABOVE) && !Restorable(MarkedCase(letter), {ABOVE})
  {
    MarkedCaseIsPrepared(letter);
    MarkedIsUnfaithful();
    assert MarkedCase(letter).files[0] == MARKED_WRITE;
    OneFilePerPath(MarkedCase(letter), {}, MARKED_WRITE);
    assert ABOVE in {ABOVE};
  }

  /** Only the event after the commit fails, and perhaps the one that should report it. */
  function EventFails(failureEvent: bool): Faults {
    Faults(false, false, {}, {}, {}, true, {}, false, {}, false, {}, false, failureEvent)
  }

  /** Only the event fails: everything before it is done, and the rollback starts from there. */
  lemma EventFailsLast(p: Pending, failureEvent: bool)
    requires |Agenda(Write, p.changes)| <= MAX_WRITE_CALLS
    ensures var faults := EventFails(failureEvent);
            && !CommitFaultless(p, faults) && CommitFaultless(p, faults.(event := false))
            && NoUndoFaults(faults) && faults.link == {}
  {
  }

  /** One write that cannot be undone: it stands. */
  lemma SingleWriteStands(p: Pending, failureEvent: bool, c: PlannedChange)
    requires Agenda(Write, p.changes) == [c] && Agenda(Delete, p.changes) == []
    requires !FaithfulAt(p, c.path)
    ensures AppliedBy(p, EventFails(failureEvent)) == [c]
    ensures RolledBack(p, EventFails(failureEvent)) == Steps({c.path}, {}, {})
  {
    var faults := EventFails(failureEvent);
    EventFailsLast(p, failureEvent);
    FaultlessReachesAll(p, faults);
    SingleAgenda(Write, c);
    assert WritesLeft(p, [c], SessionBy(p, faults), faults) == 1;
    WholePrefix([c]);
  }

  /** How such an apply of the marked case ends. */
  lemma MarkedCaseEnds(letter: Letter, failureEvent: bool)
    ensures var p, faults := MarkedCase(letter), EventFails(failureEvent);
            && !CommitFaultless(p, faults) && !RollbackWorks(p, faults)
            && RolledBack(p, faults) == Steps({ABOVE}, {}, {})
  {
    MarkedCaseAgenda(letter);
    MarkedFileCannotBeRestored(letter);
    var c := MarkedCase(letter).changes[0];
    assert MarkedCase(letter).changes == [c];
    SingleWriteStands(MarkedCase(letter), failureEvent, c);
    EventFailsLast(MarkedCase(letter), failureEvent);
    RollbackWorksIff(MarkedCase(letter), EventFails(failureEvent));
    SingleAgenda(Write, c);
  }

  /**
   That apply, carried out. The rollback gives up, and when the second event is lost as well its error is
   all the caller gets. The source is left changed, unless it held the letter a before: then a partial
   rollback is reported of a source that is what it was.
   */
  method MarkedApply(letter: Letter, failureEvent: bool) returns (o: Outcome, left: Tree)
    ensures o == if failureEvent then FailureEventLost else PartialRollbackFailed
    ensures left == map[ABOVE := File([0x61], false)] && (left == MarkedCase(letter).source <==> letter == 0x61)
  {
    var p := MarkedCase(letter);
    MarkedFileCannotBeRestored(letter);
    MarkedCaseEnds(letter, failureEvent);
    var source := new Disk(p.source);
    var trash := new Disk(map[]);
    ghost var s;
    o, s := Apply(p, {}, source, trash, true, EventFails(failureEvent));
    MarkedTreeLeft(letter);
    left := source.files;
  }

  lemma MarkedTreeLeft(letter: Letter)
    ensures SourceAt(MarkedCase(letter), Steps({ABOVE}, {}, {})) == map[ABOVE := File([0x61], false)]
  {
    var p := MarkedCase(letter);
    assert p.files[..0] == [] && p.files[0] == MARKED_WRITE;
    assert Encode([0x61]) == [0x61];
    var last: File := File([0x61], false);
    assert Overlay(p.source, p.files[..0]) == p.source;
    assert Final(p) == p.source[ABOVE := last];
  }

  // ----- which rollbacks work -----

  /** The writes one broker can do: the most that can ever have to be taken back. */
  function FirstWrites(p: Pending): seq<PlannedChange> {
    var writes := Agenda(Write, p.changes);
    if |writes| <= MAX_WRITE_CALLS then writes else writes[..MAX_WRITE_CALLS]
  }

  lemma {:induction false} PathsOfPrefix(cs: seq<PlannedChange>, n: nat)
    requires n <= |cs|
    ensures Paths(cs[..n]) <= Paths(cs)
  {
    if n < |cs| {
      PathsOfPrefix(cs[..|cs| - 1], n);
      assert cs[..|cs| - 1][..n] == cs[..n];
    } else {
      assert cs[..n] == cs;
    }
  }

  lemma AppliedAreFirst(p: Pending, faults: Faults)
    ensures Paths(AppliedBy(p, faults)) <= Paths(FirstWrites(p))
  {
    var writes := Agenda(Write, p.changes);
    if Starts(p, faults) {
      var n := WriteCount(writes, faults);
      assert FirstWrites(p)[..n] == writes[..n];
      PathsOfPrefix(FirstWrites(p), n);
    }
  }

  /** Where the commit leaves no stray file and the undo works: restored exactly when restorable. */
  lemma RollbackWorksIff(p: Pending, faults: Faults)
    requires NoUndoFaults(faults) && faults.link == {}
    ensures RollbackWorks(p, faults) <==> Restorable(p, Paths(AppliedBy(p, faults)))
  {
    var writes := Agenda(Write, p.changes);
    var n := WriteCount(writes, faults);
    if n < |writes| && n < MAX_WRITE_CALLS { CountedAreClear(Write, writes, faults); }
  }

  /** The run in which every write is done, and something after it fails. */
  function AllWritten(): Faults {
    EventFails(false)
  }

  /** The run in which only the link of one new file fails. */
  function LinkFails(q: Path): Faults {
    EventFails(false).(event := false, link := {q})
  }

  /** It leaves that file behind, and the rollback cannot work. */
  lemma LinkLeavesStray(p: Pending, hooks: set<seq<string>>, k: nat)
    requires Prepared(hooks, p) && k < |FirstWrites(p)| && FirstWrites(p)[k].expected.None?
    ensures var faults := LinkFails(FirstWrites(p)[k].path);
            NoUndoFaults(faults) && !CommitFaultless(p, faults) && StrayOf(p, faults) != {}
  {
    var writes := Agenda(Write, p.changes);
    var faults := LinkFails(writes[k].path);
    AgendaIsWorklist(p, hooks, Write);
    assert FirstWrites(p)[k] == writes[k];
    forall i | 0 <= i < k ensures Clear(Write, writes[i], faults) {
      assert writes[i].path != writes[k].path;
    }
    assert writes[k].path in faults.link;
    assert !Clear(Write, writes[k], faults);
    WriteCountAt(writes, k, faults);
  }

  /** None of the first writes creates a file. */
  predicate CreatesNothing(p: Pending) {
    forall k | 0 <= k < |FirstWrites(p)| :: FirstWrites(p)[k].expected.Some?
  }

  /** Without a new file among the first writes nothing can stray. */
  lemma NoStrayWithoutNewFiles(p: Pending, faults: Faults)
    requires CreatesNothing(p)
    ensures StrayOf(p, faults) == {}
  {
    var writes := Agenda(Write, p.changes);
    var n := WriteCount(writes, faults);
    if n < |writes| && n < MAX_WRITE_CALLS {
      CountedAreClear(Write, writes, faults);
      assert FirstWrites(p)[n] == writes[n];
    }
  }

  /**
   Over every combination of faults of the commit, a rollback whose own steps work succeeds if and only if
   the first 64 writes are restorable and none of them creates a file.
   */
  lemma EveryRollbackWorksIff(p: Pending, hooks: set<seq<string>>)
    requires Prepared(hooks, p)
    ensures
      (forall faults | NoUndoFaults(faults) && !CommitFaultless(p, faults) :: RollbackWorks(p, faults))
      <==>
      Restorable(p, Paths(FirstWrites(p))) && CreatesNothing(p)
  {
    if forall faults | NoUndoFaults(faults) && !CommitFaultless(p, faults) :: RollbackWorks(p, faults) {
      forall k | 0 <= k < |FirstWrites(p)| ensures FirstWrites(p)[k].expected.Some? {
        if FirstWrites(p)[k].expected.None? { LinkLeavesStray(p, hooks, k); }
      }
      AllWrittenReachesFirst(p);
      RollbackFollowsWrites(p, AllWritten());
    }
    if Restorable(p, Paths(FirstWrites(p))) && CreatesNothing(p) {
      forall faults | NoUndoFaults(faults) && !CommitFaultless(p, faults) ensures RollbackWorks(p, faults) {
        NoStrayWithoutNewFiles(p, faults);
        RollbackFollowsWrites(p, faults);
        AppliedAreFirst(p, faults);
        FewerAreRestorable(p, Paths(AppliedBy(p, faults)), Paths(FirstWrites(p)));
      }
    }
  }

  lemma FewerAreRestorable(p: Pending, few: set<Path>, many: set<Path>)
    requires few <= many && Restorable(p, many)
    ensures Restorable(p, few)
  {
  }

  lemma RollbackFollowsWrites(p: Pending, faults: Faults)
    requires NoUndoFaults(faults)
    ensures RollbackWorks(p, faults) ==> Restorable(p, Paths(AppliedBy(p, faults)))
    ensures StrayOf(p, faults) == {} && Restorable(p, Paths(AppliedBy(p, faults))) ==> RollbackWorks(p, faults)
  {
  }

  lemma AllWrittenReachesFirst(p: Pending)
    ensures AppliedBy(p, AllWritten()) == FirstWrites(p)
    ensures NoUndoFaults(AllWritten()) && !CommitFaultless(p, AllWritten())
  {
    var writes := Agenda(Write, p.changes);
    ClearCountAt(Write, writes, |writes|, AllWritten());
    WholePrefix(writes);
  }

  // ----- which sources are restored -----

  /** One write as the tree sees it: what was written is what was there. */
  predicate NoDifference(p: Pending, c: PlannedChange) {
    Get(Final(p), c.path) == Get(p.source, c.path)
  }

  predicate NoMarkLost(p: Pending, c: PlannedChange) {
    c.path in p.source ==> !HasBom(p.source[c.path].bytes)
  }

  /**
   What undoing a list of writes, last one first, needs to leave the source as it was: the writes up to
   the last unfaithful one stand, those after it are undone.
   */
  ghost predicate ListRestored(p: Pending, cs: seq<PlannedChange>) {
    forall i | 0 <= i < |cs| ::
      if FaithfulFrom(p, cs, i) then NoMarkLost(p, cs[i]) else NoDifference(p, cs[i])
  }

  ghost predicate FaithfulFrom(p: Pending, cs: seq<PlannedChange>, i: nat) {
    forall j | i <= j < |cs| :: FaithfulAt(p, cs[j].path)
  }

  lemma {:induction false} WritesLeftIs(p: Pending, cs: seq<PlannedChange>, session: bool, faults: Faults)
    requires NoUndoFaults(faults)
    ensures var n := WritesLeft(p, cs, session, faults);
            && FaithfulFrom(p, cs, n)
            && (n > 0 ==> !FaithfulAt(p, cs[n - 1].path))
  {
    if cs != [] {
      var rest := cs[..|cs| - 1];
      WritesLeftIs(p, rest, session, faults);
      assert forall j | 0 <= j < |rest| :: rest[j] == cs[j];
    }
  }

  lemma {:induction false} NoMovesLeft(cs: seq<PlannedChange>, faults: Faults)
    requires faults.undoMove == {}
    ensures MovesLeft(cs, faults) == 0
  {
    if cs != [] { NoMovesLeft(cs[..|cs| - 1], faults); }
  }

  /** With a working undo only the writes before the last unfaithful one are left, and what strayed. */
  lemma WorkingUndoLeaves(p: Pending, faults: Faults)
    requires NoUndoFaults(faults)
    ensures var applied := AppliedBy(p, faults);
            var left := WritesLeft(p, applied, SessionBy(p, faults), faults);
            RolledBack(p, faults) == Steps(Paths(applied) + StrayOf(p, faults), Paths(applied) - Paths(applied[..left]), {})
  {
    NoMovesLeft(MovedBy(p, faults), faults);
  }

  /** A path of a list stands at one place in it. */
  lemma PathStands(cs: seq<PlannedChange>, n: nat, i: nat)
    requires DistinctPaths(cs) && n <= |cs| && i < |cs|
    ensures cs[i].path in Paths(cs)
    ensures cs[i].path in Paths(cs[..n]) <==> i < n
  {
    PathsHas(cs, i);
    if i < n {
      PathsHas(cs[..n], i);
    } else if cs[i].path in Paths(cs[..n]) {
      var k := PathsFrom(cs[..n], cs[i].path);
    }
  }

  /** The first `n` writes stand, the others are undone. */
  predicate EntryRestored(p: Pending, c: PlannedChange, stands: bool) {
    if stands then NoDifference(p, c) else NoMarkLost(p, c)
  }

  lemma EntriesDecide(p: Pending, cs: seq<PlannedChange>, n: nat)
    requires n <= |cs| && (n > 0 ==> !FaithfulAt(p, cs[n - 1].path))
    requires FaithfulFrom(p, cs, n)
    ensures ListRestored(p, cs) <==> forall i | 0 <= i < |cs| :: EntryRestored(p, cs[i], i < n)
  {
    forall i | 0 <= i < |cs|
      ensures FaithfulFrom(p, cs, i) <==> n <= i
    {
      if i < n { assert i <= n - 1 < |cs|; }
    }
  }

  function PartlyUndone(cs: seq<PlannedChange>, n: nat): Steps
    requires n <= |cs|
  {
    Steps(Paths(cs), Paths(cs) - Paths(cs[..n]), {})
  }

  lemma EntriesLeaveSource(p: Pending, cs: seq<PlannedChange>, n: nat)
    requires DistinctPaths(cs) && n <= |cs|
    requires forall i | 0 <= i < |cs| :: EntryRestored(p, cs[i], i < n)
    ensures LeavesSource(p, PartlyUndone(cs, n))
  {
    var s := PartlyUndone(cs, n);
    forall q | q in s.written
      ensures q !in s.undone ==> Get(Final(p), q) == Get(p.source, q)
      ensures q in s.undone && q in p.source ==> !HasBom(p.source[q].bytes)
    {
      var i := PathsFrom(cs, q);
      PathStands(cs, n, i);
      assert EntryRestored(p, cs[i], i < n);
    }
  }

  lemma SourceLeftByEntries(p: Pending, cs: seq<PlannedChange>, n: nat, i: nat)
    requires DistinctPaths(cs) && n <= |cs| && i < |cs|
    requires LeavesSource(p, PartlyUndone(cs, n))
    ensures EntryRestored(p, cs[i], i < n)
  {
    PathStands(cs, n, i);
    assert cs[i].path in PartlyUndone(cs, n).written;
  }

  lemma ListRestoredIff(p: Pending, cs: seq<PlannedChange>, session: bool, faults: Faults)
    requires NoUndoFaults(faults) && DistinctPaths(cs)
    ensures LeavesSource(p, PartlyUndone(cs, WritesLeft(p, cs, session, faults))) <==> ListRestored(p, cs)
  {
    var n := WritesLeft(p, cs, session, faults);
    WritesLeftIs(p, cs, session, faults);
    EntriesDecide(p, cs, n);
    if LeavesSource(p, PartlyUndone(cs, n)) {
      forall i | 0 <= i < |cs| ensures EntryRestored(p, cs[i], i < n) { SourceLeftByEntries(p, cs, n, i); }
    }
    if forall i | 0 <= i < |cs| :: EntryRestored(p, cs[i], i < n) { EntriesLeaveSource(p, cs, n); }
  }

  /** A failed commit without a stray file: the source is what it was exactly when its writes are restored. */
  lemma StraylessRestoredIff(p: Pending, hooks: set<seq<string>>, faults: Faults)
    requires Prepared(hooks, p) && NoUndoFaults(faults) && StrayOf(p, faults) == {}
    ensures LeavesSource(p, RolledBack(p, faults)) <==> ListRestored(p, AppliedBy(p, faults))
  {
    AgendaIsWorklist(p, hooks, Write);
    WorkingUndoLeaves(p, faults);
    assert Paths(AppliedBy(p, faults)) + {} == Paths(AppliedBy(p, faults));
    ListRestoredIff(p, AppliedBy(p, faults), SessionBy(p, faults), faults);
  }

  /** The run that stops after `n` writes. */
  function StopsAfter(p: Pending, n: nat): Faults {
    if n < |FirstWrites(p)| then EventFails(false).(event := false, write := {FirstWrites(p)[n].path}) else AllWritten()
  }

  lemma StopsAfterReaches(p: Pending, hooks: set<seq<string>>, n: nat)
    requires Prepared(hooks, p) && n <= |FirstWrites(p)|
    ensures var faults := StopsAfter(p, n);
            && NoUndoFaults(faults) && !CommitFaultless(p, faults) && StrayOf(p, faults) == {}
            && AppliedBy(p, faults) == FirstWrites(p)[..n]
  {
    var writes, faults := Agenda(Write, p.changes), StopsAfter(p, n);
    if n < |FirstWrites(p)| {
      AgendaIsWorklist(p, hooks, Write);
      assert FirstWrites(p)[n] == writes[n] && FirstWrites(p)[..n] == writes[..n];
      forall i | 0 <= i < n ensures Clear(Write, writes[i], faults) {
        assert writes[i].path != writes[n].path;
      }
      assert !Clear(Write, writes[n], faults);
      WriteCountAt(writes, n, faults);
    } else {
      AllWrittenReachesFirst(p);
      WholePrefix(FirstWrites(p));
      ClearCountAt(Write, writes, |writes|, faults);
    }
  }

  /** Every fault stops the writes somewhere among the first 64. */
  lemma AppliedIsFirst(p: Pending, faults: Faults)
    ensures |AppliedBy(p, faults)| <= |FirstWrites(p)|
    ensures AppliedBy(p, faults) == FirstWrites(p)[..|AppliedBy(p, faults)|]
  {
  }

  /** A new file that strayed is a difference, whatever else is undone. */
  lemma StrayIsLeft(p: Pending, hooks: set<seq<string>>, k: nat)
    requires Prepared(hooks, p) && k < |FirstWrites(p)| && FirstWrites(p)[k].expected.None?
    ensures var faults := LinkFails(FirstWrites(p)[k].path); !LeavesSource(p, RolledBack(p, faults))
  {
    var faults, c := LinkFails(FirstWrites(p)[k].path), FirstWrites(p)[k];
    LinkLeavesStray(p, hooks, k);
    WorkingUndoLeaves(p, faults);
    StrayIsNotRecorded(p, hooks, faults);
    LinkStrayIs(p, hooks, k);
    AgendaIsWorklist(p, hooks, Write);
    var f := ChangeFacts(p, hooks, c);
    PathFacts(p, hooks, c, f);
    assert c.path !in p.source;
  }

  lemma LinkStrayIs(p: Pending, hooks: set<seq<string>>, k: nat)
    requires Prepared(hooks, p) && k < |FirstWrites(p)| && FirstWrites(p)[k].expected.None?
    ensures var faults, c := LinkFails(FirstWrites(p)[k].path), FirstWrites(p)[k];
            && c in Agenda(Write, p.changes) && StrayOf(p, faults) == {c.path} && c.path !in Paths(AppliedBy(p, faults))
  {
    var writes, faults := Agenda(Write, p.changes), LinkFails(FirstWrites(p)[k].path);
    AgendaIsWorklist(p, hooks, Write);
    assert FirstWrites(p)[k] == writes[k];
    forall i | 0 <= i < k ensures Clear(Write, writes[i], faults) {
      assert writes[i].path != writes[k].path;
    }
    assert writes[k].path in faults.link;
    assert !Clear(Write, writes[k], faults);
    WriteCountAt(writes, k, faults);
    Next(writes, k);
  }

  /**
   The tree itself: with a working undo the source is what it was after every combination of faults of the
   commit if and only if none of the first 64 writes creates a file and every prefix of them is restored.
   */
  lemma EverySourceRestoredIff(p: Pending, hooks: set<seq<string>>)
    requires Prepared(hooks, p)
    ensures
      (forall faults | NoUndoFaults(faults) && !CommitFaultless(p, faults) :: LeavesSource(p, RolledBack(p, faults)))
      <==>
      CreatesNothing(p) && forall n | 0 <= n <= |FirstWrites(p)| :: ListRestored(p, FirstWrites(p)[..n])
  {
    if forall faults | NoUndoFaults(faults) && !CommitFaultless(p, faults) :: LeavesSource(p, RolledBack(p, faults)) {
      forall k | 0 <= k < |FirstWrites(p)| ensures FirstWrites(p)[k].expected.Some? {
        if FirstWrites(p)[k].expected.None? {
          LinkLeavesStray(p, hooks, k);
          StrayIsLeft(p, hooks, k);
        }
      }
      forall n | 0 <= n <= |FirstWrites(p)| ensures ListRestored(p, FirstWrites(p)[..n]) {
        StopsAfterReaches(p, hooks, n);
        StraylessRestoredIff(p, hooks, StopsAfter(p, n));
      }
    } else if CreatesNothing(p) {
      var faults :| NoUndoFaults(faults) && !CommitFaultless(p, faults) && !LeavesSource(p, RolledBack(p, faults));
      NoStrayWithoutNewFiles(p, faults);
      StraylessRestoredIff(p, hooks, faults);
      AppliedIsFirst(p, faults);
    }
  }
}
