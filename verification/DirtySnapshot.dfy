/**
 Capturing the difference between HEAD and a working tree, and replaying it on a clean checkout of
 the same HEAD.

 `Capture` and `ApplyToWorktree` are the two loops of the snapshot broker. Each is specified without
 its own steps: a capture by which entries it holds, a replay by the tree it leaves. `RoundTrip` joins
 them: it says exactly which captured snapshots can be replayed, and that the replay then is the
 captured working tree.
 */
module DirtySnapshot {
  import opened Results
  import opened Utf8
  import opened Workspace
  import opened Collections

  /** A repository as git sees it. `ignored` are the excluded paths, `index` the tracked ones. */
  datatype Repo = Repo(head: Tree, index: set<Path>, work: Tree, ignored: set<Path>)

  datatype Operation = Write | Delete
  datatype Change = Change(operation: Operation, baseExists: bool)
  datatype Entry = Entry(path: Path, change: Change)
  datatype Status = Added | Modified | Deleted

  datatype SnapFile = SnapFile(
    path: Path,
    operation: Operation,
    baseExists: bool,
    bytes: nat,
    sha256: Digest,
    content: Option<seq<Scalar>>)

  datatype Limits = Limits(maxFiles: nat, maxTotalBytes: nat)

  /** The commit is named by its tree; the seal is the injective hash over the rest. */
  datatype Body = Body(base: Tree, files: seq<SnapFile>, totalBytes: nat)
  datatype Seal = SealOf(body: Body)
  datatype Snapshot = Snapshot(body: Body, seal: Seal)

  // ----- what git reports -----

  function DiffStatus(r: Repo, p: Path): Option<Status> {
    if p in r.index && p in r.work then
      if p !in r.head then Some(Added)
      else if r.head[p] != r.work[p] then Some(Modified)
      else None
    else if p in r.head then Some(Deleted)
    else None
  }

  predicate Untracked(r: Repo, p: Path) {
    p in r.work && p !in r.index && p !in r.ignored
  }

  /** The tree an owner means by "my working tree": everything but the ignored untracked files. */
  function Visible(r: Repo): Tree {
    map p | p in r.work && (p in r.index || p !in r.ignored) :: r.work[p]
  }

  function StatusChange(s: Status): Change {
    match s
    case Added => Change(Write, false)
    case Modified => Change(Write, true)
    case Deleted => Change(Delete, true)
  }

  /** An untracked path overrides whatever the diff said about it. */
  function ChangeAt(r: Repo, p: Path): Option<Change> {
    if Untracked(r, p) then Some(Change(Write, false))
    else match DiffStatus(r, p)
      case None => None
      case Some(s) => Some(StatusChange(s))
  }

  function ChangeMap(r: Repo): map<Path, Change> {
    map p | p in r.head.Keys + r.index + r.work.Keys && ChangeAt(r, p).Some? :: ChangeAt(r, p).value
  }

  /** The two git listings describe `r`: every changed path once, nothing else. */
  ghost predicate Lists(r: Repo, diff: seq<(Status, Path)>, untracked: seq<Path>) {
    && (forall i | 0 <= i < |diff| :: DiffStatus(r, diff[i].1) == Some(diff[i].0))
    && (forall p | p in r.head.Keys + r.index && DiffStatus(r, p).Some? :: (DiffStatus(r, p).value, p) in diff)
    && (forall p :: p in untracked <==> Untracked(r, p))
  }

  /** The diff loop as a fold: a later row for a path replaces an earlier one. */
  function FromDiff(diff: seq<(Status, Path)>): map<Path, Change> {
    if diff == [] then map[]
    else
      var last := diff[|diff| - 1];
      FromDiff(diff[..|diff| - 1])[last.1 := StatusChange(last.0)]
  }

  /** The untracked loop as a fold over the diff's result. */
  function WithUntracked(changes: map<Path, Change>, untracked: seq<Path>): map<Path, Change> {
    if untracked == [] then changes
    else WithUntracked(changes, untracked[..|untracked| - 1])[untracked[|untracked| - 1] := Change(Write, false)]
  }

  lemma {:induction false} FromDiffHas(diff: seq<(Status, Path)>, k: nat)
    requires k < |diff|
    ensures diff[k].1 in FromDiff(diff)
  {
    if k < |diff| - 1 { FromDiffHas(diff[..|diff| - 1], k); }
  }

  /** The row a path of the fold came from. */
  lemma {:induction false} FromDiffRow(diff: seq<(Status, Path)>, p: Path) returns (k: nat)
    requires p in FromDiff(diff)
    ensures k < |diff| && diff[k].1 == p && FromDiff(diff)[p] == StatusChange(diff[k].0)
  {
    if p == diff[|diff| - 1].1 { return |diff| - 1; }
    k := FromDiffRow(diff[..|diff| - 1], p);
  }

  lemma {:induction false} WithUntrackedRows(changes: map<Path, Change>, untracked: seq<Path>)
    ensures forall p :: p in WithUntracked(changes, untracked) <==> p in changes || p in untracked
    ensures forall p | p in WithUntracked(changes, untracked) ::
      WithUntracked(changes, untracked)[p] == if p in untracked then Change(Write, false) else changes[p]
  {
    if untracked != [] {
      WithUntrackedRows(changes, untracked[..|untracked| - 1]);
      assert untracked == untracked[..|untracked| - 1] + [untracked[|untracked| - 1]];
    }
  }

  /** Both loops together hold exactly the changed paths, each with its own change. */
  lemma ListingsGiveChanges(r: Repo, diff: seq<(Status, Path)>, untracked: seq<Path>)
    requires Lists(r, diff, untracked)
    ensures WithUntracked(FromDiff(diff), untracked) == ChangeMap(r)
  {
    var d := FromDiff(diff);
    var m := WithUntracked(d, untracked);
    WithUntrackedRows(d, untracked);
    forall p
      ensures p in d <==> DiffStatus(r, p).Some?
      ensures p in d ==> d[p] == StatusChange(DiffStatus(r, p).value)
    {
      DiffGivesStatus(r, diff, untracked, p);
    }
    forall p
      ensures p in m <==> ChangeAt(r, p).Some?
      ensures p in m ==> m[p] == ChangeAt(r, p).value
    {
    }
  }

  lemma DiffGivesStatus(r: Repo, diff: seq<(Status, Path)>, untracked: seq<Path>, p: Path)
    requires Lists(r, diff, untracked)
    ensures p in FromDiff(diff) <==> DiffStatus(r, p).Some?
    ensures p in FromDiff(diff) ==> FromDiff(diff)[p] == StatusChange(DiffStatus(r, p).value)
  {
    if p in FromDiff(diff) { var k := FromDiffRow(diff, p); }
    if DiffStatus(r, p).Some? {
      assert (DiffStatus(r, p).value, p) in diff;
      var k :| 0 <= k < |diff| && diff[k] == (DiffStatus(r, p).value, p);
      FromDiffHas(diff, k);
    }
  }

  method ChangedPaths(ghost r: Repo, diff: seq<(Status, Path)>, untracked: seq<Path>) returns (changed: seq<Entry>)
    requires Lists(r, diff, untracked)
    ensures Enumerates(changed, ChangeMap(r))
  {
    var changes: map<Path, Change> := map[];
    for i := 0 to |diff|
      invariant changes == FromDiff(diff[..i])
    {
      PrefixGrows(diff, i);
      changes := changes[diff[i].1 := StatusChange(diff[i].0)];
    }
    WholePrefix(diff);
    for i := 0 to |untracked|
      invariant changes == WithUntracked(FromDiff(diff), untracked[..i])
    {
      PrefixGrows(untracked, i);
      changes := changes[untracked[i] := Change(Write, false)];
    }
    WholePrefix(untracked);
    ListingsGiveChanges(r, diff, untracked);
    changed := Entries(changes);
  }

  /** The keys of a map as a list, in any order. */
  method Entries(m: map<Path, Change>) returns (entries: seq<Entry>)
    ensures Enumerates(entries, m)
  {
    entries := [];
    var keys := m.Keys;
    while keys != {}
      invariant keys <= m.Keys
      invariant Distinct(entries)
      invariant forall e | e in entries :: e.path in m.Keys - keys && m[e.path] == e.change
      invariant forall p | p in m.Keys - keys :: Entry(p, m[p]) in entries
      invariant |entries| + |keys| == |m|
    {
      var p :| p in keys;
      assert forall e | e in entries :: e.path != p;
      entries := entries + [Entry(p, m[p])];
      keys := keys - {p};
    }
  }

  /** The entries list the map: each key once, with its value. */
  ghost predicate Enumerates(entries: seq<Entry>, m: map<Path, Change>) {
    && Distinct(entries)
    && (forall e | e in entries :: e.path in m && m[e.path] == e.change)
    && (forall p | p in m :: Entry(p, m[p]) in entries)
    && |entries| == |m|
  }

  predicate Distinct(entries: seq<Entry>) {
    forall i, j | 0 <= i < j < |entries| :: entries[i].path != entries[j].path
  }

  // ----- capture -----

  datatype CaptureError =
    | SourceIsClean | FileLimitExceeded | TotalBytesExceeded
    | BaseEntryUnsupported | BaseEntryMismatch | FileTooLarge | ExecutableModeDenied | BinaryDenied | InvalidUtf8Denied

  /** One entry of the capture loop: the HEAD entry first, then the file's own checks. */
  function CaptureEntry(r: Repo, e: Entry): Result<SnapFile, CaptureError>
    requires e.change.operation == Write ==> e.path in r.work
  {
    if e.path !in r.head && IsDirectory(r.head, e.path) then Err(BaseEntryUnsupported)
    else if e.change.baseExists != (e.path in r.head) then Err(BaseEntryMismatch)
    else if e.change.operation == Delete then Ok(SnapFile(e.path, Delete, true, 0, Sha256([]), None))
    else
      var file := r.work[e.path];
      if |file.bytes| > MAX_FILE_BYTES then Err(FileTooLarge)
      else if file.exec != (e.path in r.head && r.head[e.path].exec) then Err(ExecutableModeDenied)
      else if 0 in file.bytes then Err(BinaryDenied)
      else match DecodeText(file.bytes)
        case None => Err(InvalidUtf8Denied)
        case Some(text) =>
          Ok(SnapFile(e.path, Write, e.change.baseExists, |file.bytes|, Sha256(file.bytes), Some(text)))
  }

  function TotalBytes(files: seq<SnapFile>): nat {
    if files == [] then 0 else TotalBytes(files[..|files| - 1]) + files[|files| - 1].bytes
  }

  ghost predicate CapturesEntry(r: Repo, e: Entry, f: SnapFile) {
    && (e.change.operation == Write ==> e.path in r.work)
    && CaptureEntry(r, e) == Ok(f)
  }

  /** What a capture is: one entry per changed path, the bytes totalled, the whole sealed. */
  ghost predicate IsCapture(r: Repo, limits: Limits, s: Snapshot) {
    && s.seal == SealOf(s.body)
    && s.body.base == r.head
    && CapturedDistinct(r, s.body.files)
    && |s.body.files| == |ChangeMap(r)| <= limits.maxFiles
    && (forall p | p in ChangeMap(r) :: exists k :: 0 <= k < |s.body.files| && s.body.files[k].path == p)
    && s.body.totalBytes == TotalBytes(s.body.files) <= limits.maxTotalBytes
  }

  predicate DistinctFiles(files: seq<SnapFile>) {
    forall i, j | 0 <= i < j < |files| :: files[i].path != files[j].path
  }

  ghost predicate CapturedDistinct(r: Repo, files: seq<SnapFile>) {
    && DistinctFiles(files)
    && (forall f | f in files :: f.path in ChangeMap(r) && CapturesEntry(r, Entry(f.path, ChangeMap(r)[f.path]), f))
  }

  /** Which captures are refused: exactly these reasons, each named by its own error. */
  ghost predicate CaptureRefused(r: Repo, limits: Limits, allowClean: bool, e: CaptureError) {
    match e
    case SourceIsClean => ChangeMap(r) == map[] && !allowClean
    case FileLimitExceeded => |ChangeMap(r)| > limits.maxFiles
    case TotalBytesExceeded => exists files :: CapturedDistinct(r, files) && TotalBytes(files) > limits.maxTotalBytes
    case _ => exists p :: p in ChangeMap(r) && (ChangeMap(r)[p].operation == Write ==> p in r.work)
                       && CaptureEntry(r, Entry(p, ChangeMap(r)[p])) == Err(e)
  }

  lemma WritesAreInWork(r: Repo, p: Path)
    requires p in ChangeMap(r) && ChangeMap(r)[p].operation == Write
    ensures p in r.work
  {
  }

  ghost predicate CapturesAll(r: Repo, entries: seq<Entry>, files: seq<SnapFile>) {
    && |files| == |entries|
    && (forall k | 0 <= k < |files| :: files[k].path == entries[k].path && CapturesEntry(r, entries[k], files[k]))
  }

  /** Entries taken from the change map, captured one by one, are a distinct capture of it. */
  lemma CapturedPrefix(r: Repo, changed: seq<Entry>, n: nat, files: seq<SnapFile>)
    requires Enumerates(changed, ChangeMap(r)) && n <= |changed|
    requires CapturesAll(r, changed[..n], files)
    ensures CapturedDistinct(r, files)
    ensures n == |changed| ==> forall p | p in ChangeMap(r) :: exists k :: 0 <= k < |files| && files[k].path == p
  {
    forall f | f in files
      ensures f.path in ChangeMap(r) && CapturesEntry(r, Entry(f.path, ChangeMap(r)[f.path]), f)
    {
      var k :| 0 <= k < |files| && files[k] == f;
      assert changed[..n][k] == changed[k] && changed[k] in changed;
    }
    if n == |changed| {
      forall p | p in ChangeMap(r)
        ensures exists k :: 0 <= k < |files| && files[k].path == p
      {
        var k :| 0 <= k < |changed| && changed[k] == Entry(p, ChangeMap(r)[p]);
        assert changed[..n][k] == changed[k];
        assert files[k].path == p;
      }
    }
  }

  lemma CapturesOneMore(r: Repo, limits: Limits, changed: seq<Entry>, i: nat, files: seq<SnapFile>, f: SnapFile)
    requires Enumerates(changed, ChangeMap(r)) && i < |changed|
    requires CapturesAll(r, changed[..i], files) && CapturesEntry(r, changed[i], f)
    ensures CapturesAll(r, changed[..i + 1], files + [f])
    ensures TotalBytes(files + [f]) == TotalBytes(files) + f.bytes
    ensures TotalBytes(files + [f]) > limits.maxTotalBytes ==> CaptureRefused(r, limits, true, TotalBytesExceeded)
  {
    PrefixGrows(changed, i);
    assert f.path == changed[i].path;
    assert (files + [f])[..|files|] == files;
    CapturedPrefix(r, changed, i + 1, files + [f]);
  }

  /** A refused entry of the change map is a refusal of the capture. */
  lemma EntryRefused(r: Repo, limits: Limits, changed: seq<Entry>, i: nat)
    requires Enumerates(changed, ChangeMap(r)) && i < |changed|
    ensures var e := changed[i];
            && (e.change.operation == Write ==> e.path in r.work)
            && (CaptureEntry(r, e).Err? ==> CaptureRefused(r, limits, true, CaptureEntry(r, e).error))
            && (CaptureEntry(r, e).Ok? ==> CapturesEntry(r, e, CaptureEntry(r, e).value))
  {
    var e := changed[i];
    assert e in changed;
    if e.change.operation == Write { WritesAreInWork(r, e.path); }
    assert e == Entry(e.path, ChangeMap(r)[e.path]);
  }

  /** A capture of the repository exists, and an empty one only where that is allowed. */
  ghost predicate Capturable(r: Repo, limits: Limits, allowClean: bool) {
    (ChangeMap(r) == map[] ==> allowClean) && exists s :: IsCapture(r, limits, s)
  }

  function Without(files: seq<SnapFile>, k: nat): seq<SnapFile>
    requires k < |files|
  {
    files[..k] + files[k + 1..]
  }

  lemma WithoutSnoc(files: seq<SnapFile>, k: nat)
    requires k < |files| - 1
    ensures Without(files, k) == Without(files[..|files| - 1], k) + [files[|files| - 1]]
  {
  }

  lemma TotalSnoc(files: seq<SnapFile>, f: SnapFile)
    ensures TotalBytes(files + [f]) == TotalBytes(files) + f.bytes
  {
    assert (files + [f])[..|files|] == files;
  }

  lemma {:induction false} WithoutOne(files: seq<SnapFile>, k: nat)
    requires k < |files|
    ensures TotalBytes(files) == TotalBytes(Without(files, k)) + files[k].bytes
  {
    if k == |files| - 1 {
      assert Without(files, k) == files[..|files| - 1];
    } else {
      WithoutOne(files[..|files| - 1], k);
      WithoutSnoc(files, k);
      TotalSnoc(Without(files[..|files| - 1], k), files[|files| - 1]);
    }
  }

  lemma StillIn(files: seq<SnapFile>, k: nat, f: SnapFile)
    requires k < |files| && f in files && f != files[k]
    ensures f in Without(files, k)
  {
    var j :| 0 <= j < |files| && files[j] == f;
    if j < k { assert Without(files, k)[j] == f; } else { assert Without(files, k)[j - 1] == f; }
  }

  /** Fewer files have fewer bytes. */
  lemma {:induction false} FewerBytes(few: seq<SnapFile>, many: seq<SnapFile>)
    requires DistinctFiles(few) && forall f | f in few :: f in many
    ensures TotalBytes(few) <= TotalBytes(many)
  {
    if few != [] {
      var rest, last := few[..|few| - 1], few[|few| - 1];
      assert last in few;
      var k :| 0 <= k < |many| && many[k] == last;
      WithoutOne(many, k);
      forall f | f in rest ensures f in Without(many, k) {
        var i :| 0 <= i < |rest| && rest[i] == f;
        assert few[i] == f && f in few;
        StillIn(many, k, f);
      }
      FewerBytes(rest, Without(many, k));
    }
  }

  /** Whatever was captured of a path is the same file. */
  lemma CapturedIsIn(r: Repo, limits: Limits, s: Snapshot, f: SnapFile)
    requires IsCapture(r, limits, s)
    requires f.path in ChangeMap(r) && CapturesEntry(r, Entry(f.path, ChangeMap(r)[f.path]), f)
    ensures f in s.body.files
  {
    var g := CapturedFile(r, limits, s, f.path);
  }

  /** A justified error rules every capture out. */
  lemma RefusedIsNotCapturable(r: Repo, limits: Limits, allowClean: bool, e: CaptureError)
    requires CaptureRefused(r, limits, allowClean, e)
    ensures !Capturable(r, limits, allowClean)
  {
    if s :| IsCapture(r, limits, s) && (ChangeMap(r) == map[] ==> allowClean) {
      match e
      case SourceIsClean =>
      case FileLimitExceeded =>
      case TotalBytesExceeded =>
        var files :| CapturedDistinct(r, files) && TotalBytes(files) > limits.maxTotalBytes;
        forall f | f in files ensures f in s.body.files { CapturedIsIn(r, limits, s, f); }
        FewerBytes(files, s.body.files);
      case _ =>
        var p :| p in ChangeMap(r) && (ChangeMap(r)[p].operation == Write ==> p in r.work)
                 && CaptureEntry(r, Entry(p, ChangeMap(r)[p])) == Err(e);
        var f := CapturedFile(r, limits, s, p);
    }
  }

  lemma RefusalsAreJustified(r: Repo, limits: Limits, allowClean: bool)
    ensures forall e | CaptureRefused(r, limits, allowClean, e) :: !Capturable(r, limits, allowClean)
    ensures forall e | CaptureRefused(r, limits, true, e) :: CaptureRefused(r, limits, allowClean, e)
  {
    forall e | CaptureRefused(r, limits, allowClean, e) ensures !Capturable(r, limits, allowClean) {
      RefusedIsNotCapturable(r, limits, allowClean, e);
    }
  }

  lemma CaptureIsCapturable(r: Repo, limits: Limits, allowClean: bool, s: Snapshot)
    requires IsCapture(r, limits, s) && (s.body.files == [] ==> allowClean)
    ensures Capturable(r, limits, allowClean)
  {
  }

  method CaptureFiles(r: Repo, limits: Limits, changed: seq<Entry>)
    returns (result: Result<(seq<SnapFile>, nat), CaptureError>)
    requires Enumerates(changed, ChangeMap(r))
    ensures result.Ok? ==> CapturesAll(r, changed, result.value.0)
                           && result.value.1 == TotalBytes(result.value.0) <= limits.maxTotalBytes
    ensures result.Err? ==> CaptureRefused(r, limits, true, result.error)
  {
    var files: seq<SnapFile> := [];
    var totalBytes := 0;
    for i := 0 to |changed|
      invariant CapturesAll(r, changed[..i], files)
      invariant totalBytes == TotalBytes(files) <= limits.maxTotalBytes
    {
      EntryRefused(r, limits, changed, i);
      var captured := CaptureEntry(r, changed[i]);
      if captured.Err? { return Err(captured.error); }
      CapturesOneMore(r, limits, changed, i, files, captured.value);
      totalBytes := totalBytes + captured.value.bytes;
      files := files + [captured.value];
      if totalBytes > limits.maxTotalBytes { return Err(TotalBytesExceeded); }
    }
    WholePrefix(changed);
    return Ok((files, totalBytes));
  }

  method Capture(r: Repo, limits: Limits, allowClean: bool, diff: seq<(Status, Path)>, untracked: seq<Path>)
    returns (result: Result<Snapshot, CaptureError>)
    requires Lists(r, diff, untracked)
    ensures result.Ok? ==> IsCapture(r, limits, result.value)
    ensures result.Ok? <==> Capturable(r, limits, allowClean)
    ensures result.Err? ==> CaptureRefused(r, limits, allowClean, result.error)
  {
    RefusalsAreJustified(r, limits, allowClean);
    var changed := ChangedPaths(r, diff, untracked);
    if changed == [] && !allowClean { return Err(SourceIsClean); }
    if |changed| > limits.maxFiles { return Err(FileLimitExceeded); }
    var captured := CaptureFiles(r, limits, changed);
    if captured.Err? { return Err(captured.error); }
    assert changed[..|changed|] == changed;
    CapturedPrefix(r, changed, |changed|, captured.value.0);
    var body := Body(r.head, captured.value.0, captured.value.1);
    CaptureIsCapturable(r, limits, allowClean, Snapshot(body, SealOf(body)));
    return Ok(Snapshot(body, SealOf(body)));
  }

  // ----- what a capture takes and refuses, in terms of the repository -----

  /** A visible file that is not what HEAD has, or that the index does not know. */
  predicate Edited(r: Repo, p: Path) {
    p in Visible(r) && (p !in r.head || r.head[p] != Visible(r)[p] || p !in r.index)
  }

  predicate Gone(r: Repo, p: Path) {
    p in r.head && p !in Visible(r)
  }

  /** The file a capture can hold: small text with the executable bit HEAD has. */
  predicate Takeable(r: Repo, p: Path) {
    && (p !in r.head ==> !IsDirectory(r.head, p))
    && !(p in r.head && Untracked(r, p))
    && (Edited(r, p) ==>
          var file := Visible(r)[p];
          && |file.bytes| <= 524_288 && 0 !in file.bytes && DecodeText(file.bytes).Some?
          && file.exec == (p in r.head && r.head[p].exec))
  }

  function CapturedAs(r: Repo, p: Path): SnapFile
    requires Edited(r, p) || Gone(r, p)
  {
    if Gone(r, p) then SnapFile(p, Delete, true, 0, Sha256([]), None)
    else
      var bytes := Visible(r)[p].bytes;
      SnapFile(p, Write, p in r.head, |bytes|, Sha256(bytes), DecodeText(bytes))
  }

  lemma ChangedIff(r: Repo, p: Path)
    ensures p in ChangeMap(r) <==> Edited(r, p) || Gone(r, p)
    ensures p in ChangeMap(r) ==> (ChangeMap(r)[p].operation == Write <==> Edited(r, p))
    ensures Edited(r, p) ==> p in r.work && Visible(r)[p] == r.work[p]
  {
  }

  lemma EntryTakenIff(r: Repo, p: Path)
    requires p in ChangeMap(r)
    ensures Edited(r, p) || Gone(r, p)
    ensures ChangeMap(r)[p].operation == Write ==> p in r.work
    ensures CaptureEntry(r, Entry(p, ChangeMap(r)[p])).Ok? <==> Takeable(r, p)
    ensures Takeable(r, p) ==> CaptureEntry(r, Entry(p, ChangeMap(r)[p])) == Ok(CapturedAs(r, p))
  {
    ChangedIff(r, p);
  }

  /** What an error about one path means. */
  predicate RefusedAt(r: Repo, p: Path, e: CaptureError) {
    && (Edited(r, p) || Gone(r, p))
    && match e
       case BaseEntryUnsupported => p !in r.head && IsDirectory(r.head, p)
       case BaseEntryMismatch => p in r.head && Untracked(r, p)
       case FileTooLarge => Edited(r, p) && |Visible(r)[p].bytes| > 524_288
       case ExecutableModeDenied => Edited(r, p) && Visible(r)[p].exec != (p in r.head && r.head[p].exec)
       case BinaryDenied => Edited(r, p) && 0 in Visible(r)[p].bytes
       case InvalidUtf8Denied => Edited(r, p) && DecodeText(Visible(r)[p].bytes).None?
       case _ => false
  }

  lemma EntryRefusedAs(r: Repo, p: Path)
    requires p in ChangeMap(r) && (ChangeMap(r)[p].operation == Write ==> p in r.work)
    ensures var taken := CaptureEntry(r, Entry(p, ChangeMap(r)[p])); taken.Err? ==> RefusedAt(r, p, taken.error)
  {
    ChangedIff(r, p);
  }

  /** What each error means. */
  lemma RefusalMeans(r: Repo, limits: Limits, allowClean: bool, e: CaptureError)
    requires CaptureRefused(r, limits, allowClean, e)
    ensures e == SourceIsClean ==> !allowClean && forall p :: !Edited(r, p) && !Gone(r, p)
    ensures e !in {SourceIsClean, FileLimitExceeded, TotalBytesExceeded} ==> exists p :: RefusedAt(r, p, e)
  {
    if e == SourceIsClean {
      forall p ensures !Edited(r, p) && !Gone(r, p) { ChangedIff(r, p); }
    } else if e != FileLimitExceeded && e != TotalBytesExceeded {
      var p :| p in ChangeMap(r) && (ChangeMap(r)[p].operation == Write ==> p in r.work)
               && CaptureEntry(r, Entry(p, ChangeMap(r)[p])) == Err(e);
      EntryRefusedAs(r, p);
    }
  }

  /** Every changed path once. */
  ghost predicate ListsChanged(r: Repo, paths: seq<Path>) {
    && (forall i, j | 0 <= i < j < |paths| :: paths[i] != paths[j])
    && (forall p :: p in paths <==> Edited(r, p) || Gone(r, p))
  }

  function EditedBytes(r: Repo, paths: seq<Path>): nat {
    if paths == [] then 0
    else
      var p := paths[|paths| - 1];
      EditedBytes(r, paths[..|paths| - 1]) + if Edited(r, p) then |Visible(r)[p].bytes| else 0
  }

  ghost predicate CapturesPaths(r: Repo, paths: seq<Path>, files: seq<SnapFile>) {
    && |files| == |paths|
    && (forall k | 0 <= k < |files| :: (Edited(r, paths[k]) || Gone(r, paths[k])) && files[k] == CapturedAs(r, paths[k]))
  }

  lemma {:induction false} CaptureListed(r: Repo, paths: seq<Path>) returns (files: seq<SnapFile>)
    requires forall p | p in paths :: Edited(r, p) || Gone(r, p)
    ensures CapturesPaths(r, paths, files) && TotalBytes(files) == EditedBytes(r, paths)
  {
    files := [];
    if paths != [] {
      var rest, p := paths[..|paths| - 1], paths[|paths| - 1];
      assert p in paths && forall q | q in rest :: q in paths;
      var before := CaptureListed(r, rest);
      files := before + [CapturedAs(r, p)];
      TotalSnoc(before, CapturedAs(r, p));
    }
  }

  lemma ListedIsCaptured(r: Repo, paths: seq<Path>, files: seq<SnapFile>)
    requires ListsChanged(r, paths) && CapturesPaths(r, paths, files)
    requires forall p | p in ChangeMap(r) :: Takeable(r, p)
    ensures CapturedDistinct(r, files)
    ensures forall p | p in ChangeMap(r) :: exists k :: 0 <= k < |files| && files[k].path == p
  {
    forall k | 0 <= k < |files|
      ensures files[k].path == paths[k] && paths[k] in ChangeMap(r)
      ensures CapturesEntry(r, Entry(paths[k], ChangeMap(r)[paths[k]]), files[k])
    {
      ChangedIff(r, paths[k]);
      EntryTakenIff(r, paths[k]);
    }
    forall p | p in ChangeMap(r) ensures exists k :: 0 <= k < |files| && files[k].path == p {
      ChangedIff(r, p);
      assert p in paths;
      var k :| 0 <= k < |paths| && paths[k] == p;
      assert files[k].path == p;
    }
  }

  lemma {:induction false} DistinctSize(paths: seq<Path>)
    requires forall i, j | 0 <= i < j < |paths| :: paths[i] != paths[j]
    ensures |set p | p in paths| == |paths|
  {
    if paths != [] {
      var rest, last := paths[..|paths| - 1], paths[|paths| - 1];
      DistinctSize(rest);
      assert paths == rest + [last];
      assert (set p | p in paths) == (set p | p in rest) + {last};
      assert last !in rest;
    }
  }

  lemma ListedCount(r: Repo, paths: seq<Path>)
    requires ListsChanged(r, paths)
    ensures |paths| == |ChangeMap(r)|
  {
    forall p ensures p in paths <==> p in ChangeMap(r) { ChangedIff(r, p); }
    DistinctSize(paths);
    assert (set p | p in paths) == ChangeMap(r).Keys;
  }

  lemma {:induction false} ListOf(keys: set<Path>) returns (paths: seq<Path>)
    ensures forall i, j | 0 <= i < j < |paths| :: paths[i] != paths[j]
    ensures forall p :: p in paths <==> p in keys
    decreases |keys|
  {
    paths := [];
    if p :| p in keys {
      var rest := ListOf(keys - {p});
      paths := rest + [p];
    }
  }

  lemma ChangedListed(r: Repo) returns (paths: seq<Path>)
    ensures ListsChanged(r, paths)
  {
    paths := ListOf(ChangeMap(r).Keys);
    forall p ensures p in paths <==> Edited(r, p) || Gone(r, p) { ChangedIff(r, p); }
  }

  /** Every capture has the size of the listed files. */
  lemma SameBytes(r: Repo, limits: Limits, s: Snapshot, paths: seq<Path>)
    requires IsCapture(r, limits, s) && ListsChanged(r, paths)
    ensures TotalBytes(s.body.files) == EditedBytes(r, paths)
  {
    forall p | p in ChangeMap(r) ensures Takeable(r, p) {
      var f := CapturedFile(r, limits, s, p);
      EntryTakenIff(r, p);
    }
    forall p | p in paths ensures p in ChangeMap(r) { ChangedIff(r, p); }
    var files := CaptureListed(r, paths);
    ListedIsCaptured(r, paths, files);
    forall f | f in files ensures f in s.body.files { CapturedIsIn(r, limits, s, f); }
    forall f | f in s.body.files ensures f in files {
      var k :| 0 <= k < |files| && files[k].path == f.path;
      assert files[k] in files;
    }
    FewerBytes(files, s.body.files);
    FewerBytes(s.body.files, files);
  }

  lemma CapturableThen(r: Repo, limits: Limits, paths: seq<Path>, s: Snapshot)
    requires ListsChanged(r, paths) && IsCapture(r, limits, s)
    ensures |paths| <= limits.maxFiles && EditedBytes(r, paths) <= limits.maxTotalBytes
    ensures forall p | p in paths :: Takeable(r, p)
  {
    SameBytes(r, limits, s, paths);
    ListedCount(r, paths);
    forall p | p in paths ensures Takeable(r, p) {
      ChangedIff(r, p);
      var f := CapturedFile(r, limits, s, p);
      EntryTakenIff(r, p);
    }
  }

  lemma ThenCapturable(r: Repo, limits: Limits, paths: seq<Path>) returns (s: Snapshot)
    requires ListsChanged(r, paths)
    requires |paths| <= limits.maxFiles && EditedBytes(r, paths) <= limits.maxTotalBytes
    requires forall p | p in paths :: Takeable(r, p)
    ensures IsCapture(r, limits, s)
  {
    forall p | p in ChangeMap(r) ensures Takeable(r, p) { ChangedIff(r, p); }
    var files := CaptureListed(r, paths);
    ListedIsCaptured(r, paths, files);
    ListedCount(r, paths);
    var body := Body(r.head, files, TotalBytes(files));
    s := Snapshot(body, SealOf(body));
  }

  /**
   A repository is captured exactly if the number of changed paths and the bytes of the edited files are
   within the limits, no changed path is a directory of HEAD or both in HEAD and untracked, and every
   edited file is small text with the executable bit HEAD has; an empty capture has to be allowed.
   */
  lemma CapturableIff(r: Repo, limits: Limits, allowClean: bool, paths: seq<Path>)
    requires ListsChanged(r, paths)
    ensures Capturable(r, limits, allowClean) <==>
      && (paths == [] ==> allowClean)
      && |paths| <= limits.maxFiles && EditedBytes(r, paths) <= limits.maxTotalBytes
      && (forall p | p in paths :: Takeable(r, p))
  {
    ListedCount(r, paths);
    if s :| IsCapture(r, limits, s) { CapturableThen(r, limits, paths, s); }
    if |paths| <= limits.maxFiles && EditedBytes(r, paths) <= limits.maxTotalBytes && (forall p | p in paths :: Takeable(r, p)) {
      var s := ThenCapturable(r, limits, paths);
    }
  }

  /** What a capture holds: one file for each changed path, told by the repository alone. */
  lemma CaptureHolds(r: Repo, limits: Limits, s: Snapshot, p: Path)
    requires IsCapture(r, limits, s)
    ensures (exists f :: f in s.body.files && f.path == p) <==> Edited(r, p) || Gone(r, p)
    ensures forall f | f in s.body.files && f.path == p :: f == CapturedAs(r, p)
  {
    ChangedIff(r, p);
    if p in ChangeMap(r) {
      EntryTakenIff(r, p);
      var f := CapturedFile(r, limits, s, p);
    }
  }

  // ----- validation -----

  predicate FileValid(f: SnapFile) {
    match f.operation
    case Delete => f.baseExists && f.bytes == 0 && f.sha256 == Sha256([]) && f.content.None?
    case Write =>
      && f.content.Some?
      && var raw := Encode(f.content.value);
      && |raw| == f.bytes <= MAX_FILE_BYTES && 0 !in raw && Sha256(raw) == f.sha256
  }

  predicate Valid(s: Snapshot, limits: Limits) {
    && 1 <= |s.body.files| <= limits.maxFiles
    && DistinctFiles(s.body.files)
    && (forall f | f in s.body.files :: FileValid(f))
    && s.body.totalBytes == TotalBytes(s.body.files) <= limits.maxTotalBytes
  }

  /** A repository whose one change gives that file. */
  function ExampleOf(f: SnapFile): Repo {
    if f.operation == Delete then Repo(map[f.path := File([], false)], {}, map[], {})
    else
      var raw := Encode(Content(f));
      var work := map[f.path := File(raw, false)];
      if f.baseExists then Repo(map[f.path := File(if raw == [] then [1] else [], false)], {f.path}, work, {})
      else Repo(map[], {}, work, {})
  }

  /**
   Validation accepts exactly the files that a capture of some repository holds, of a file without a mark;
   and beyond them only texts that start with the mark as a character, which no capture contains.
   */
  lemma FileValidIff(f: SnapFile)
    requires f.operation == Write ==> !HasBom(Encode(Content(f)))
    ensures FileValid(f) <==> exists r: Repo :: HoldsUnmarked(r, f)
  {
    if FileValid(f) { ExampleHolds(f); }
    if r: Repo :| HoldsUnmarked(r, f) { HeldIsValid(r, f); }
  }

  lemma ExampleHolds(f: SnapFile)
    requires FileValid(f) && (f.operation == Write ==> !HasBom(Encode(Content(f))))
    ensures HoldsUnmarked(ExampleOf(f), f)
  {
    if f.operation == Write { DecodeUndoesEncode(Content(f)); }
  }

  lemma HeldIsValid(r: Repo, f: SnapFile)
    requires HoldsUnmarked(r, f)
    ensures FileValid(f)
  {
    if f.operation == Write { ReencodeLosesOnlyTheBom(Visible(r)[f.path].bytes); }
  }

  predicate HoldsUnmarked(r: Repo, f: SnapFile) {
    && (Edited(r, f.path) || Gone(r, f.path)) && Takeable(r, f.path) && f == CapturedAs(r, f.path)
    && (Edited(r, f.path) ==> !HasBom(Visible(r)[f.path].bytes))
  }

  method ValidateSnapshot(s: Snapshot, limits: Limits) returns (ok: bool)
    ensures ok <==> Valid(s, limits)
    ensures ok <==>
      && 1 <= |s.body.files| <= limits.maxFiles
      && (forall i, j | 0 <= i < j < |s.body.files| :: s.body.files[i].path != s.body.files[j].path)
      && (forall f | f in s.body.files :: FileValid(f))
      && s.body.totalBytes == TotalBytes(s.body.files) <= limits.maxTotalBytes
  {
    var files := s.body.files;
    if |files| < 1 || |files| > limits.maxFiles { return false; }
    var seen: set<Path> := {};
    var totalBytes := 0;
    for i := 0 to |files|
      invariant SeenBefore(files, i, seen)
      invariant totalBytes == TotalBytes(files[..i])
    {
      if files[i].path in seen {
        SeenTwice(files, i, seen);
        return false;
      }
      if !FileValid(files[i]) {
        assert files[i] in files;
        return false;
      }
      SeenOneMore(files, i, seen);
      seen := seen + {files[i].path};
      TotalBytesOneMore(files, i);
      totalBytes := totalBytes + files[i].bytes;
    }
    WholePrefix(files);
    SeenAll(files, seen);
    return totalBytes == s.body.totalBytes && totalBytes <= limits.maxTotalBytes;
  }

  /** The paths of the first `n` files, all of them valid and no two the same. */
  ghost predicate SeenBefore(files: seq<SnapFile>, n: nat, seen: set<Path>)
    requires n <= |files|
  {
    && (forall p :: p in seen ==> exists k :: 0 <= k < n && files[k].path == p)
    && (forall k | 0 <= k < n :: files[k].path in seen && FileValid(files[k]))
    && (forall i, j | 0 <= i < j < n :: files[i].path != files[j].path)
  }

  lemma SeenPaths(files: seq<SnapFile>, n: nat, seen: set<Path>, p: Path)
    requires n < |files| && SeenBefore(files, n, seen) && p in seen + {files[n].path}
    ensures exists k :: 0 <= k < n + 1 && files[k].path == p
  {
    if p == files[n].path {
      assert files[n].path == p;
    } else {
      var k :| 0 <= k < n && files[k].path == p;
      assert files[k].path == p;
    }
  }

  lemma SeenOneMore(files: seq<SnapFile>, n: nat, seen: set<Path>)
    requires n < |files| && SeenBefore(files, n, seen) && files[n].path !in seen && FileValid(files[n])
    ensures SeenBefore(files, n + 1, seen + {files[n].path})
  {
    var path := files[n].path;
    forall p | p in seen + {path} ensures exists k :: 0 <= k < n + 1 && files[k].path == p { SeenPaths(files, n, seen, p); }
    forall i, j | 0 <= i < j < n + 1 ensures files[i].path != files[j].path {
      assert files[i].path in seen;
    }
  }

  lemma SeenTwice(files: seq<SnapFile>, n: nat, seen: set<Path>)
    requires n < |files| && SeenBefore(files, n, seen) && files[n].path in seen
    ensures !DistinctFiles(files)
  {
    var k :| 0 <= k < n && files[k].path == files[n].path;
  }

  lemma TotalBytesOneMore(files: seq<SnapFile>, n: nat)
    requires n < |files|
    ensures TotalBytes(files[..n + 1]) == TotalBytes(files[..n]) + files[n].bytes
  {
    PrefixGrows(files, n);
    TotalSnoc(files[..n], files[n]);
  }

  lemma SeenAll(files: seq<SnapFile>, seen: set<Path>)
    requires SeenBefore(files, |files|, seen)
    ensures DistinctFiles(files) && forall f | f in files :: FileValid(f)
  {
  }

  // ----- replay -----

  function Content(f: SnapFile): seq<Scalar> {
    if f.content.Some? then f.content.value else []
  }

  /** The tree a snapshot describes on top of `t`: deletions gone, writes in place, modes kept. */
  function Overlay(t: Tree, files: seq<SnapFile>): Tree {
    if files == [] then t
    else
      var u := Overlay(t, files[..|files| - 1]);
      var f := files[|files| - 1];
      if f.operation == Delete then u - {f.path}
      else u[f.path := File(Encode(Content(f)), f.path in u && u[f.path].exec)]
  }

  function Writes(files: seq<SnapFile>): nat {
    if files == [] then 0
    else Writes(files[..|files| - 1]) + if files[|files| - 1].operation == Write then 1 else 0
  }

  /** What the first loop asks of one path of the target. */
  predicate TargetAccepts(t: Tree, hooks: set<seq<string>>, f: SnapFile) {
    && !InHooks(hooks, f.path)
    && (f.baseExists <==> f.path in t)
    && (f.path in t ==> !UnderFile(t, f.path) && Readable(t[f.path].bytes))
    && (f.path !in t ==> !UnderFile(t, f.path) && !IsDirectory(t, f.path))
  }

  /** No written path lies below another written path. */
  predicate FlatWrites(files: seq<SnapFile>) {
    forall f, g | f in files && g in files && f.operation == Write && g.operation == Write :: !(f.path < g.path)
  }

  predicate WithinCallLimits(files: seq<SnapFile>) {
    |files| + Writes(files) <= MAX_TOOL_CALLS && Writes(files) <= MAX_WRITE_CALLS
  }

  /** Everything a clean target must satisfy for the replay to go through. */
  ghost predicate Replayable(s: Snapshot, limits: Limits, hooks: set<seq<string>>, t: Tree) {
    && s.seal == SealOf(s.body)
    && Valid(s, limits)
    && Accepted(t, hooks, s.body.files)
    && FlatWrites(s.body.files)
    && WithinCallLimits(s.body.files)
  }

  predicate Untouched(files: seq<SnapFile>, p: Path) {
    forall f | f in files :: f.path != p
  }

  lemma DistinctLast(done: seq<SnapFile>, f: SnapFile)
    requires DistinctFiles(done + [f])
    ensures DistinctFiles(done) && Untouched(done, f.path)
  {
    var all := done + [f];
    assert forall i | 0 <= i < |done| :: all[i] == done[i];
    assert all[|done|] == f;
  }

  lemma {:induction false} OverlayUntouched(t: Tree, files: seq<SnapFile>, p: Path)
    requires Untouched(files, p)
    ensures p in Overlay(t, files) <==> p in t
    ensures p in t ==> Overlay(t, files)[p] == t[p]
  {
    if files != [] {
      var rest, last := files[..|files| - 1], files[|files| - 1];
      assert last in files && forall f | f in rest :: f in files;
      OverlayUntouched(t, rest, p);
    }
  }

  /** The one file of a path decides what the overlay holds there. */
  lemma {:induction false} OverlayTouched(t: Tree, files: seq<SnapFile>, f: SnapFile)
    requires DistinctFiles(files) && f in files
    ensures f.operation == Delete ==> f.path !in Overlay(t, files)
    ensures f.operation == Write ==>
      f.path in Overlay(t, files) && Overlay(t, files)[f.path] == File(Encode(Content(f)), f.path in t && t[f.path].exec)
  {
    var rest, last := files[..|files| - 1], files[|files| - 1];
    assert files == rest + [last];
    DistinctLast(rest, last);
    if f == last {
      OverlayUntouched(t, rest, f.path);
    } else {
      OverlayTouched(t, rest, f);
    }
  }

  predicate Nested(p: Path, q: Path) {
    p < q || q < p
  }

  lemma FlatStep(files: seq<SnapFile>, f: SnapFile)
    requires FlatWrites(files) && f.operation == Write
    ensures FlatWrites(files + [f]) <==> forall g | g in files && g.operation == Write :: !Nested(f.path, g.path)
  {
    if forall g | g in files && g.operation == Write :: !Nested(f.path, g.path) {
      assert forall g | g in files + [f] :: g in files || g == f;
    } else {
      var g :| g in files && g.operation == Write && Nested(f.path, g.path);
      assert f in files + [f] && g in files + [f];
    }
  }

  /** A path of the overlay comes from the base or from an earlier write. */
  lemma OverlayOrigin(t: Tree, files: seq<SnapFile>, p: Path)
    requires DistinctFiles(files) && p in Overlay(t, files)
    ensures p in t || exists g :: g in files && g.operation == Write && g.path == p
  {
    if Untouched(files, p) {
      OverlayUntouched(t, files, p);
    } else {
      var g :| g in files && g.path == p;
      OverlayTouched(t, files, g);
    }
  }

  ghost predicate Accepted(t: Tree, hooks: set<seq<string>>, files: seq<SnapFile>) {
    && DistinctFiles(files)
    && (forall f | f in files :: FileValid(f) && TargetAccepts(t, hooks, f))
  }

  lemma AcceptedPrefix(t: Tree, hooks: set<seq<string>>, done: seq<SnapFile>, f: SnapFile)
    requires Accepted(t, hooks, done + [f])
    ensures Accepted(t, hooks, done) && Untouched(done, f.path) && FileValid(f) && TargetAccepts(t, hooks, f)
  {
    DistinctLast(done, f);
    assert f in done + [f] && forall g | g in done :: g in done + [f];
  }

  /** Where a path may go, after the writes before it: nowhere nested with one of them. */
  lemma RoomForWrite(t: Tree, hooks: set<seq<string>>, done: seq<SnapFile>, f: SnapFile)
    requires TreeShaped(t) && Accepted(t, hooks, done + [f]) && f.operation == Write
    ensures var u := Overlay(t, done);
            (UnderFile(u, f.path) || (f.path !in u && IsDirectory(u, f.path)))
            <==> exists g :: g in done && g.operation == Write && Nested(f.path, g.path)
  {
    var u := Overlay(t, done);
    AcceptedPrefix(t, hooks, done, f);
    OverlayUntouched(t, done, f.path);
    forall q | q in u && Nested(q, f.path) && (q < f.path || f.path !in t)
      ensures exists g :: g in done && g.operation == Write && Nested(f.path, g.path)
    {
      OverlayOrigin(t, done, q);
    }
    if g :| g in done && g.operation == Write && Nested(f.path, g.path) {
      OverlayTouched(t, done, g);
      assert TargetAccepts(t, hooks, g);
    }
  }

  /** One write of the second loop: it succeeds exactly when the writes so far stay flat. */
  lemma WriteStep(t: Tree, hooks: set<seq<string>>, done: seq<SnapFile>, f: SnapFile)
    requires TreeShaped(t) && Accepted(t, hooks, done + [f]) && FlatWrites(done) && f.operation == Write
    ensures var r := WriteFile(Overlay(t, done), hooks, f.path, Content(f), DigestAt(t, f.path));
            if FlatWrites(done + [f]) then r == Ok(Overlay(t, done + [f]))
            else r == Err(NotDirectory) || r == Err(NotRegular)
  {
    RoomForWrite(t, hooks, done, f);
    FlatStep(done, f);
    AcceptedPrefix(t, hooks, done, f);
    OverlayUntouched(t, done, f.path);
    assert (done + [f])[..|done|] == done;
  }

  lemma DeleteStep(t: Tree, hooks: set<seq<string>>, done: seq<SnapFile>, f: SnapFile)
    requires Accepted(t, hooks, done + [f]) && f.operation == Delete
    ensures DigestAt(Overlay(t, done), f.path) == DigestAt(t, f.path) && DigestAt(t, f.path).Some?
    ensures Overlay(t, done + [f]) == Overlay(t, done) - {f.path}
    ensures FlatWrites(done) ==> FlatWrites(done + [f])
  {
    AcceptedPrefix(t, hooks, done, f);
    OverlayUntouched(t, done, f.path);
    assert (done + [f])[..|done|] == done;
    assert forall g | g in done + [f] && g.operation == Write :: g in done;
  }

  lemma Snoc(files: seq<SnapFile>, i: nat)
    requires i < |files|
    ensures files[..i + 1] == files[..i] + [files[i]]
    ensures Writes(files[..i + 1]) == Writes(files[..i]) + if files[i].operation == Write then 1 else 0
  {
    assert files[..i + 1][..i] == files[..i];
  }

  /** A failed prefix fails the whole: flatness and the call limits only get harder. */
  lemma {:induction false} PrefixFacts(t: Tree, hooks: set<seq<string>>, files: seq<SnapFile>, n: nat)
    requires n <= |files|
    ensures FlatWrites(files) ==> FlatWrites(files[..n])
    ensures Writes(files[..n]) <= Writes(files)
    ensures Accepted(t, hooks, files) ==> Accepted(t, hooks, files[..n])
    decreases |files| - n
  {
    if n == |files| {
      assert files[..n] == files;
    } else {
      PrefixFacts(t, hooks, files, n + 1);
      Snoc(files, n);
      if Accepted(t, hooks, files) {
        AcceptedPrefix(t, hooks, files[..n], files[n]);
      }
      assert forall f | f in files[..n] :: f in files[..n + 1];
    }
  }

  datatype ReplayError =
    | HashMismatch | SnapshotInvalid | SourceChanged | TargetNotIsolated | TargetNotClean | BaseMismatch
    | TargetBaseMissing | TargetNewPathExists | DeleteTargetMissing | DeleteTargetChanged
    | ToolRefused(error: Error)

  /** The first file the target does not accept, or the one after 128 reads, and the error of it. */
  ghost predicate ReadStops(t: Tree, hooks: set<seq<string>>, files: seq<SnapFile>, k: nat, e: ReplayError) {
    && k < |files| && k <= 128
    && (forall j | 0 <= j < k :: TargetAccepts(t, hooks, files[j]))
    && (if k == 128 then e == ToolRefused(CallLimit)
        else match ReadFile(t, hooks, files[k].path)
          case Refused(x) => e == ToolRefused(x)
          case Found(_, _) => !files[k].baseExists && e == TargetNewPathExists
          case Missing => files[k].baseExists && e == TargetBaseMissing)
  }

  /** The first loop: every path of the snapshot is read on the target and its hash remembered. */
  method ReadTarget(files: seq<SnapFile>, broker: Broker)
    returns (failure: Option<ReplayError>, hashes: map<Path, Option<Digest>>)
    requires forall f | f in files :: FileValid(f)
    requires TreeShaped(broker.disk.files) && broker.toolCalls == 0 && broker.writeCalls == 0
    modifies broker
    ensures failure.None? <==> |files| <= MAX_TOOL_CALLS
                               && forall f | f in files :: TargetAccepts(broker.disk.files, broker.hooks, f)
    ensures failure.Some? ==> exists k: nat :: ReadStops(broker.disk.files, broker.hooks, files, k, failure.value)
    ensures failure.None? ==> broker.toolCalls == |files| && broker.writeCalls == 0
    ensures failure.None? ==>
      forall f | f in files :: f.path in hashes && hashes[f.path] == DigestAt(broker.disk.files, f.path)
  {
    hashes := map[];
    ghost var t := broker.disk.files;
    for i := 0 to |files|
      invariant broker.toolCalls == i <= MAX_TOOL_CALLS && broker.writeCalls == 0
      invariant forall k | 0 <= k < i :: TargetAccepts(t, broker.hooks, files[k])
      invariant forall k | 0 <= k < i ::
        files[k].path in hashes && hashes[files[k].path] == DigestAt(t, files[k].path)
    {
      var f := files[i];
      assert f in files;
      var read := broker.Read(f.path);
      var current: Option<Digest>;
      match read {
        case Refused(e) =>
          assert ReadStops(t, broker.hooks, files, i, ToolRefused(e));
          return Some(ToolRefused(e)), hashes;
        case Found(digest, _) => current := Some(digest);
        case Missing => current := None;
      }
      if f.baseExists && current.None? {
        assert ReadStops(t, broker.hooks, files, i, TargetBaseMissing);
        return Some(TargetBaseMissing), hashes;
      }
      if !f.baseExists && current.Some? {
        assert ReadStops(t, broker.hooks, files, i, TargetNewPathExists);
        return Some(TargetNewPathExists), hashes;
      }
      hashes := hashes[f.path := current];
    }
    return None, hashes;
  }

  /** One turn of the second loop: the file is unlinked after its hash was compared, or written. */
  method ReplayOne(ghost t: Tree, ghost done: seq<SnapFile>, f: SnapFile, expected: Option<Digest>, broker: Broker)
    returns (failure: Option<ReplayError>)
    requires TreeShaped(t) && Accepted(t, broker.hooks, done + [f]) && FlatWrites(done)
    requires broker.disk.files == Overlay(t, done) && expected == DigestAt(t, f.path)
    modifies broker, broker.disk
    ensures failure.None? <==>
      && FlatWrites(done + [f])
      && (f.operation == Write ==> old(broker.toolCalls) < MAX_TOOL_CALLS && old(broker.writeCalls) < MAX_WRITE_CALLS)
    ensures failure.None? ==> broker.disk.files == Overlay(t, done + [f])
    ensures failure.None? ==> var n := if f.operation == Write then 1 else 0;
      broker.toolCalls == old(broker.toolCalls) + n && broker.writeCalls == old(broker.writeCalls) + n
    ensures failure.Some? ==>
      failure.value in {ToolRefused(CallLimit), ToolRefused(NotDirectory), ToolRefused(NotRegular)}
  {
    AcceptedPrefix(t, broker.hooks, done, f);
    if f.operation == Delete {
      DeleteStep(t, broker.hooks, done, f);
      if expected.None? { return Some(DeleteTargetMissing); }
      if f.path !in broker.disk.files { return Some(DeleteTargetMissing); }
      if Sha256(broker.disk.files[f.path].bytes) != expected.value { return Some(DeleteTargetChanged); }
      broker.disk.files := broker.disk.files - {f.path};
    } else {
      WriteStep(t, broker.hooks, done, f);
      var refused := broker.Write(f.path, f.content.value, expected);
      if refused.Some? { return Some(ToolRefused(refused.value)); }
    }
    return None;
  }

  /** The first `n` files can be replayed within the limits of one broker. */
  predicate Affordable(files: seq<SnapFile>, n: nat)
    requires n <= |files|
  {
    && FlatWrites(files[..n])
    && |files| + Writes(files[..n]) <= MAX_TOOL_CALLS && Writes(files[..n]) <= MAX_WRITE_CALLS
  }

  lemma AffordableIff(files: seq<SnapFile>, n: nat)
    requires n <= |files|
    ensures Affordable(files, |files|) <==> FlatWrites(files) && WithinCallLimits(files)
    ensures Affordable(files, |files|) ==> Affordable(files, n)
  {
    assert files[..|files|] == files;
    PrefixFacts(map[], {}, files, n);
  }

  lemma AffordableNext(files: seq<SnapFile>, n: nat)
    requires n < |files| && Affordable(files, n)
    ensures Affordable(files, n + 1) <==>
      && FlatWrites(files[..n] + [files[n]])
      && (files[n].operation == Write ==> |files| + Writes(files[..n]) < MAX_TOOL_CALLS && Writes(files[..n]) < MAX_WRITE_CALLS)
    ensures Writes(files[..n + 1]) == Writes(files[..n]) + if files[n].operation == Write then 1 else 0
  {
    Snoc(files, n);
  }

  lemma AcceptedNext(t: Tree, hooks: set<seq<string>>, files: seq<SnapFile>, n: nat)
    requires n < |files| && Accepted(t, hooks, files)
    ensures Accepted(t, hooks, files[..n] + [files[n]])
  {
    Snoc(files, n);
    PrefixFacts(t, hooks, files, n + 1);
  }

  /** The second loop: delete or write each path in turn. */
  method ReplayFiles(files: seq<SnapFile>, hashes: map<Path, Option<Digest>>, broker: Broker)
    returns (failure: Option<ReplayError>)
    requires TreeShaped(broker.disk.files) && Accepted(broker.disk.files, broker.hooks, files)
    requires broker.toolCalls == |files| <= MAX_TOOL_CALLS && broker.writeCalls == 0
    requires forall f | f in files :: f.path in hashes && hashes[f.path] == DigestAt(broker.disk.files, f.path)
    modifies broker, broker.disk
    ensures failure.None? <==> FlatWrites(files) && WithinCallLimits(files)
    ensures failure.None? ==> broker.disk.files == Overlay(old(broker.disk.files), files)
    ensures failure.Some? ==>
      failure.value in {ToolRefused(CallLimit), ToolRefused(NotDirectory), ToolRefused(NotRegular)}
  {
    ghost var t := broker.disk.files;
    WholePrefix(files);
    for i := 0 to |files|
      invariant broker.disk.files == Overlay(t, files[..i]) && Affordable(files, i)
      invariant broker.toolCalls == |files| + Writes(files[..i]) && broker.writeCalls == Writes(files[..i])
    {
      var f := files[i];
      AffordableIff(files, i + 1);
      AffordableNext(files, i);
      AcceptedNext(t, broker.hooks, files, i);
      failure := ReplayOne(t, files[..i], f, hashes[f.path], broker);
      if failure.Some? { return; }
      PrefixGrows(files, i);
    }
    AffordableIff(files, |files|);
    WholePrefix(files);
    return None;
  }

  /** What the last loop re-reads: every deleted path absent, every written path holding its hash. */
  predicate Verified(files: seq<SnapFile>, t: Tree) {
    forall f | f in files :: if f.operation == Delete then f.path !in t else DigestAt(t, f.path) == Some(f.sha256)
  }

  lemma OverlayVerified(t: Tree, files: seq<SnapFile>)
    requires DistinctFiles(files) && forall f | f in files :: FileValid(f)
    ensures Verified(files, Overlay(t, files))
  {
    forall f | f in files { OverlayTouched(t, files, f); }
  }

  /**
   Replays a snapshot on `target`, a checkout whose commit is `targetBase`.

   It succeeds exactly on a `Replayable` snapshot and then leaves the overlay. A refusal leaves the
   target as it was, except for the three refusals that can come from the middle of the second loop.
   */
  method ApplyToWorktree(
      s: Snapshot, limits: Limits, hooks: set<seq<string>>, target: Disk, targetBase: Tree,
      sourceUnchanged: bool, isolated: bool)
    returns (failure: Option<ReplayError>)
    requires TreeShaped(target.files)
    modifies target
    ensures failure.None? <==>
      && sourceUnchanged && isolated && old(target.files) == targetBase == s.body.base
      && Replayable(s, limits, hooks, old(target.files))
    ensures failure.Some? ==>
      var e := failure.value;
      if s.seal != SealOf(s.body) then e == HashMismatch
      else if !Valid(s, limits) then e == SnapshotInvalid
      else if !sourceUnchanged then e == SourceChanged
      else if !isolated then e == TargetNotIsolated
      else if old(target.files) != targetBase then e == TargetNotClean
      else if targetBase != s.body.base then e == BaseMismatch
      else || (exists k: nat :: ReadStops(targetBase, hooks, s.body.files, k, e))
           || (Accepted(targetBase, hooks, s.body.files)
               && e in {ToolRefused(CallLimit), ToolRefused(NotDirectory), ToolRefused(NotRegular)})
    ensures failure.None? ==> target.files == Overlay(old(target.files), s.body.files)
    ensures failure.None? ==> Verified(s.body.files, target.files)
    ensures failure.Some? && failure.value !in {ToolRefused(CallLimit), ToolRefused(NotDirectory), ToolRefused(NotRegular)}
      ==> target.files == old(target.files)
  {
    if s.seal != SealOf(s.body) { return Some(HashMismatch); }
    var valid := ValidateSnapshot(s, limits);
    if !valid { return Some(SnapshotInvalid); }
    if !sourceUnchanged { return Some(SourceChanged); }
    if !isolated { return Some(TargetNotIsolated); }
    if target.files != targetBase { return Some(TargetNotClean); }
    if targetBase != s.body.base { return Some(BaseMismatch); }
    var broker := new Broker(target, hooks);
    var hashes;
    failure, hashes := ReadTarget(s.body.files, broker);
    if failure.Some? { return failure; }
    failure := ReplayFiles(s.body.files, hashes, broker);
    if failure.None? { OverlayVerified(old(target.files), s.body.files); }
  }

  // ----- the round trip -----

  /** One changed path can be replayed: its text is readable, and nothing above it is in the way. */
  predicate ReproduciblePath(r: Repo, hooks: set<seq<string>>, p: Path)
    requires p in ChangeMap(r)
  {
    && !InHooks(hooks, p)
    && (p in r.head ==> Readable(r.head[p].bytes))
    && (p !in r.head ==> !UnderFile(r.head, p))
    && (ChangeMap(r)[p].operation == Write ==> p in r.work && !HasBom(r.work[p].bytes))
  }

  /**
   What a caller can check about the dirty repository before it is captured: no written file starts
   with a byte order mark, every replaced or deleted file is readable text, no new file lies below a
   file of HEAD, nothing is inside the hook directory, and the broker's call limits suffice.
   */
  ghost predicate Reproducible(r: Repo, hooks: set<seq<string>>) {
    && (forall p | p in ChangeMap(r) :: ReproduciblePath(r, hooks, p))
    && |ChangeMap(r)| + |WrittenPaths(r)| <= MAX_TOOL_CALLS
    && |WrittenPaths(r)| <= MAX_WRITE_CALLS
  }

  ghost function WrittenPaths(r: Repo): set<Path> {
    set p | p in ChangeMap(r) && ChangeMap(r)[p].operation == Write
  }

  function WritePaths(files: seq<SnapFile>): set<Path> {
    set f | f in files && f.operation == Write :: f.path
  }

  lemma {:induction false} WritesCounted(files: seq<SnapFile>)
    requires DistinctFiles(files)
    ensures Writes(files) == |WritePaths(files)|
  {
    if files == [] {
      assert WritePaths(files) == {};
    } else {
      var rest, last := files[..|files| - 1], files[|files| - 1];
      assert files == rest + [last];
      DistinctLast(rest, last);
      WritesCounted(rest);
      if last.operation == Write {
        assert WritePaths(files) == WritePaths(rest) + {last.path};
        assert last.path !in WritePaths(rest);
      } else {
        assert WritePaths(files) == WritePaths(rest);
      }
    }
  }

  /** One captured entry passes validation, and lands on its target, exactly when reproducible. */
  lemma CapturedEntryFacts(r: Repo, hooks: set<seq<string>>, f: SnapFile)
    requires TreeShaped(r.head)
    requires f.path in ChangeMap(r) && CapturesEntry(r, Entry(f.path, ChangeMap(r)[f.path]), f)
    ensures f.operation == ChangeMap(r)[f.path].operation
    ensures FileValid(f) && TargetAccepts(r.head, hooks, f) <==> ReproduciblePath(r, hooks, f.path)
  {
    if f.operation == Write {
      ReencodeLosesOnlyTheBom(r.work[f.path].bytes);
    }
  }

  lemma CapturedContent(r: Repo, f: SnapFile)
    requires f.path in ChangeMap(r) && CapturesEntry(r, Entry(f.path, ChangeMap(r)[f.path]), f)
    requires f.operation == Write
    ensures f.path in r.work && Encode(Content(f)) == StripBom(r.work[f.path].bytes)
    ensures r.work[f.path].exec == (f.path in r.head && r.head[f.path].exec)
  {
    ReencodeLosesOnlyTheBom(r.work[f.path].bytes);
  }

  lemma CapturedFile(r: Repo, limits: Limits, s: Snapshot, p: Path) returns (f: SnapFile)
    requires IsCapture(r, limits, s) && p in ChangeMap(r)
    ensures f in s.body.files && f.path == p && CapturesEntry(r, Entry(p, ChangeMap(r)[p]), f)
  {
    var k :| 0 <= k < |s.body.files| && s.body.files[k].path == p;
    f := s.body.files[k];
  }

  lemma UntrackedOverridesDeletion(r: Repo, p: Path)
    requires p in r.head && Untracked(r, p)
    ensures DiffStatus(r, p) == Some(Deleted)
    ensures p in ChangeMap(r) && ChangeMap(r)[p] == Change(Write, false)
    ensures CaptureEntry(r, Entry(p, Change(Write, false))) == Err(BaseEntryMismatch)
  {
  }

  /** A path of HEAD that the index dropped but the working tree still has untracked: no capture exists. */
  lemma DeletedYetUntracked(r: Repo, limits: Limits, p: Path, s: Snapshot)
    requires p in r.head && Untracked(r, p)
    ensures !IsCapture(r, limits, s)
  {
    UntrackedOverridesDeletion(r, p);
    if IsCapture(r, limits, s) {
      var f := CapturedFile(r, limits, s, p);
    }
  }

  /** The working tree is a real tree, so a capture never nests two written paths. */
  lemma CaptureIsFlat(r: Repo, limits: Limits, s: Snapshot)
    requires TreeShaped(r.head) && TreeShaped(r.work) && IsCapture(r, limits, s)
    ensures FlatWrites(s.body.files)
    ensures Writes(s.body.files) == |WrittenPaths(r)|
  {
    forall f | f in s.body.files && f.operation == Write
      ensures f.path in r.work && f.path in WrittenPaths(r)
    {
      CapturedEntryFacts(r, {}, f);
    }
    forall p | p in WrittenPaths(r)
      ensures p in WritePaths(s.body.files)
    {
      var f := CapturedFile(r, limits, s, p);
      CapturedEntryFacts(r, {}, f);
    }
    assert WritePaths(s.body.files) == WrittenPaths(r);
    WritesCounted(s.body.files);
  }

  lemma ReplayableEntries(r: Repo, limits: Limits, hooks: set<seq<string>>, s: Snapshot)
    requires TreeShaped(r.head) && IsCapture(r, limits, s)
    ensures Accepted(r.head, hooks, s.body.files)
            <==> forall p | p in ChangeMap(r) :: ReproduciblePath(r, hooks, p)
  {
    forall f | f in s.body.files
      ensures f.path in ChangeMap(r)
      ensures FileValid(f) && TargetAccepts(r.head, hooks, f) <==> ReproduciblePath(r, hooks, f.path)
    {
      CapturedEntryFacts(r, hooks, f);
    }
    forall p | p in ChangeMap(r)
      ensures exists f :: f in s.body.files && f.path == p
    {
      var f := CapturedFile(r, limits, s, p);
    }
  }

  /** A captured snapshot can be replayed on a clean checkout of its commit exactly when reproducible. */
  lemma ReplayableIffReproducible(r: Repo, limits: Limits, hooks: set<seq<string>>, s: Snapshot)
    requires TreeShaped(r.head) && TreeShaped(r.work) && ChangeMap(r) != map[]
    ensures IsCapture(r, limits, s) ==> (Replayable(s, limits, hooks, r.head) <==> Reproducible(r, hooks))
  {
    if IsCapture(r, limits, s) {
      CaptureIsFlat(r, limits, s);
      ReplayableEntries(r, limits, hooks, s);
      assert |s.body.files| == |ChangeMap(r)| > 0;
      assert Accepted(r.head, hooks, s.body.files) ==> Valid(s, limits);
    }
  }

  lemma UnchangedIsVisible(r: Repo, p: Path)
    requires p !in ChangeMap(r)
    ensures p in r.head <==> p in Visible(r)
    ensures p in r.head ==> r.head[p] == Visible(r)[p]
  {
    if p in r.head.Keys + r.index + r.work.Keys {
      assert ChangeAt(r, p).None?;
    }
  }

  /** A captured path is visible exactly when it was captured as a write. */
  lemma CapturedIsVisible(r: Repo, f: SnapFile)
    requires f.path in ChangeMap(r) && CapturesEntry(r, Entry(f.path, ChangeMap(r)[f.path]), f)
    ensures f.operation == ChangeMap(r)[f.path].operation
    ensures f.path in Visible(r) <==> f.operation == Write
  {
  }

  lemma ChangedIsVisible(r: Repo, limits: Limits, s: Snapshot, p: Path)
    requires IsCapture(r, limits, s) && p in ChangeMap(r)
    ensures p in Visible(r) <==> p in Overlay(r.head, s.body.files)
    ensures p in Visible(r) <==> p in WrittenPaths(r)
    ensures p in Visible(r) ==>
      Overlay(r.head, s.body.files)[p] == File(StripBom(Visible(r)[p].bytes), Visible(r)[p].exec)
  {
    var f := CapturedFile(r, limits, s, p);
    CapturedIsVisible(r, f);
    OverlayTouched(r.head, s.body.files, f);
    if f.operation == Write { CapturedContent(r, f); }
  }

  lemma OverlayAtPath(r: Repo, limits: Limits, s: Snapshot, p: Path)
    requires IsCapture(r, limits, s)
    ensures p in Overlay(r.head, s.body.files) <==> p in Visible(r)
    ensures p in Visible(r) && p !in WrittenPaths(r) ==> Overlay(r.head, s.body.files)[p] == Visible(r)[p]
    ensures p in WrittenPaths(r) ==> p in Visible(r)
    ensures p in WrittenPaths(r) ==>
      (Overlay(r.head, s.body.files)[p] == Visible(r)[p] <==> !HasBom(Visible(r)[p].bytes))
  {
    if p in ChangeMap(r) {
      ChangedIsVisible(r, limits, s, p);
    } else {
      OverlayUntouched(r.head, s.body.files, p);
      UnchangedIsVisible(r, p);
    }
  }

  /** Two trees that can only differ by marks on `w` are equal exactly when `w` carries none. */
  lemma EqualUnlessMarked(t: Tree, v: Tree, w: set<Path>)
    requires t.Keys == v.Keys && w <= v.Keys
    requires forall p | p in v && p !in w :: t[p] == v[p]
    requires forall p | p in w :: t[p] == v[p] <==> !HasBom(v[p].bytes)
    ensures t == v <==> forall p | p in w :: !HasBom(v[p].bytes)
  {
    if forall p | p in w :: !HasBom(v[p].bytes) {
      assert forall p | p in v :: t[p] == v[p];
    }
  }

  /** The overlay of a capture is the captured tree, but for the marks the decoder dropped. */
  lemma OverlayIsVisible(r: Repo, limits: Limits, s: Snapshot)
    requires IsCapture(r, limits, s)
    ensures WrittenPaths(r) <= Visible(r).Keys
    ensures Overlay(r.head, s.body.files) == Visible(r)
            <==> forall p | p in WrittenPaths(r) :: !HasBom(Visible(r)[p].bytes)
  {
    forall p: Path { OverlayAtPath(r, limits, s, p); }
    EqualUnlessMarked(Overlay(r.head, s.body.files), Visible(r), WrittenPaths(r));
  }

  /**
   The diff/patch round trip. A non-empty capture of `r` replays on a clean checkout of the same
   commit exactly when `r` is reproducible, and the replay then is the captured working tree.
   */
  lemma RoundTrip(r: Repo, limits: Limits, hooks: set<seq<string>>, s: Snapshot)
    requires TreeShaped(r.head) && TreeShaped(r.work) && ChangeMap(r) != map[]
    ensures IsCapture(r, limits, s) ==>
      && (Replayable(s, limits, hooks, r.head) <==> Reproducible(r, hooks))
      && (Replayable(s, limits, hooks, r.head) ==> Overlay(r.head, s.body.files) == Visible(r))
  {
    if IsCapture(r, limits, s) {
      ReplayableIffReproducible(r, limits, hooks, s);
      OverlayIsVisible(r, limits, s);
    }
  }

  // ----- concrete captures that do not replay -----

  /** The capture of a repository whose one change is a new file. */
  lemma SingleNewFile(r: Repo, p: Path, text: seq<Scalar>)
    requires r.head == map[] && r.index == {} && r.ignored == {} && r.work.Keys == {p}
    requires var file := r.work[p]; |file.bytes| <= 100 && !file.exec && 0 !in file.bytes && DecodeText(file.bytes) == Some(text)
    ensures ChangeMap(r) == map[p := Change(Write, false)]
    ensures var raw := r.work[p].bytes;
            var body := Body(r.head, [SnapFile(p, Write, false, |raw|, Sha256(raw), Some(text))], |raw|);
            IsCapture(r, Limits(1, 100), Snapshot(body, SealOf(body)))
  {
    var raw := r.work[p].bytes;
    var f := SnapFile(p, Write, false, |raw|, Sha256(raw), Some(text));
    assert ChangeMap(r) == map[p := Change(Write, false)];
    assert CapturesEntry(r, Entry(p, Change(Write, false)), f);
    assert [f][..0] == [] && [f][0].path == p;
  }

  const MARKED: seq<Byte> := [0xEF, 0xBB, 0xBF, 0x61]

  lemma MarkedDecodes()
    ensures DecodeText(MARKED) == Some([0x61]) && HasBom(MARKED)
  {
    assert StripBom(MARKED) == [0x61] == Encode([0x61]);
    DecodeUndoesEncode([0x61]);
  }

  lemma MarkedCapture(r: Repo, s: Snapshot)
    requires r == Repo(map[], {}, map[["a"] := File(MARKED, false)], {})
    requires s.seal == SealOf(s.body)
    requires s.body == Body(map[], [SnapFile(["a"], Write, false, 4, Sha256(MARKED), Some([0x61]))], 4)
    ensures IsCapture(r, Limits(1, 100), s) && !Replayable(s, Limits(1, 100), {}, map[])
  {
    var p: Path := ["a"];
    MarkedDecodes();
    SingleNewFile(r, p, [0x61]);
    assert !ReproduciblePath(r, {}, p);
    RoundTrip(r, Limits(1, 100), {}, s);
  }

  /** A new file that is a byte order mark and the letter a: captured, yet its own hash refuses it. */
  lemma MarkedFileDoesNotReplay()
    ensures exists r: Repo, s: Snapshot ::
      && TreeShaped(r.head) && TreeShaped(r.work) && IsCapture(r, Limits(1, 100), s)
      && !Replayable(s, Limits(1, 100), {}, r.head)
  {
    var r := Repo(map[], {}, map[["a"] := File(MARKED, false)], {});
    var body := Body(map[], [SnapFile(["a"], Write, false, 4, Sha256(MARKED), Some([0x61]))], 4);
    MarkedCapture(r, Snapshot(body, SealOf(body)));
  }

  const ABOVE: Path := ["a"]
  const BELOW: Path := ["a", "b"]
  const EMPTY_FILE := File([], false)

  /** The file `a` replaced by the directory `a` holding `b`. */
  const SWAPPED := Repo(map[ABOVE := EMPTY_FILE], {ABOVE}, map[BELOW := EMPTY_FILE], {})

  lemma SwappedChanges()
    ensures ChangeMap(SWAPPED) == map[ABOVE := Change(Delete, true), BELOW := Change(Write, false)]
    ensures TreeShaped(SWAPPED.head) && TreeShaped(SWAPPED.work)
  {
    assert ABOVE < BELOW;
  }

  lemma SwappedCapture(gone: SnapFile, added: SnapFile)
    requires gone == SnapFile(ABOVE, Delete, true, 0, Sha256([]), None)
    requires added == SnapFile(BELOW, Write, false, 0, Sha256([]), Some([]))
    ensures CapturedDistinct(SWAPPED, [gone, added]) && TotalBytes([gone, added]) == 0
  {
    SwappedChanges();
    assert [gone, added][..1] == [gone] && [gone][..0] == [];
    assert TotalBytes([gone]) == TotalBytes([]) + 0;
    assert TotalBytes([gone, added]) == TotalBytes([gone]) + 0;
    assert DecodeText([]) == Some([]);
    assert CapturesEntry(SWAPPED, Entry(ABOVE, Change(Delete, true)), gone);
    assert CapturesEntry(SWAPPED, Entry(BELOW, Change(Write, false)), added);
    var files := [gone, added];
    assert files[0].path == ABOVE && files[1].path == BELOW && |ABOVE| != |BELOW|;
    assert forall f | f in files :: f == gone || f == added;
    assert DistinctFiles(files);
  }

  lemma SwappedDoesNotReplay(s: Snapshot, gone: SnapFile, added: SnapFile)
    requires gone == SnapFile(ABOVE, Delete, true, 0, Sha256([]), None)
    requires added == SnapFile(BELOW, Write, false, 0, Sha256([]), Some([]))
    requires s.seal == SealOf(s.body) && s.body == Body(SWAPPED.head, [gone, added], 0)
    ensures IsCapture(SWAPPED, Limits(2, 100), s) && !Replayable(s, Limits(2, 100), {}, SWAPPED.head)
  {
    SwappedChanges();
    SwappedCapture(gone, added);
    var files := [gone, added];
    assert files[0].path == ABOVE && files[1].path == BELOW && added in files;
    assert UnderFile(SWAPPED.head, BELOW) && !TargetAccepts(SWAPPED.head, {}, added);
  }

  lemma SwappedIsValid(gone: SnapFile, added: SnapFile)
    requires gone == SnapFile(ABOVE, Delete, true, 0, Sha256([]), None)
    requires added == SnapFile(BELOW, Write, false, 0, Sha256([]), Some([]))
    ensures FileValid(gone) && FileValid(added)
  {
  }

  /** It is captured without any mark in it, yet the target cannot read a/b below its file a. */
  lemma FileBecomesDirectoryDoesNotReplay() returns (s: Snapshot)
    ensures IsCapture(SWAPPED, Limits(2, 100), s) && !Replayable(s, Limits(2, 100), {}, SWAPPED.head)
    ensures forall f | f in s.body.files :: FileValid(f)
  {
    var gone := SnapFile(ABOVE, Delete, true, 0, Sha256([]), None);
    var added := SnapFile(BELOW, Write, false, 0, Sha256([]), Some([]));
    var body := Body(SWAPPED.head, [gone, added], 0);
    s := Snapshot(body, SealOf(body));
    SwappedDoesNotReplay(s, gone, added);
    SwappedIsValid(gone, added);
  }
}
