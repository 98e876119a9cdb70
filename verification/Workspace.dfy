/**
 A working tree and the two broker tools that touch its files.

 A tree maps paths to files; directories exist exactly where a file lies below them. The broker
 refuses a path git would execute, a file it cannot read as bounded UTF-8 text, and a write whose
 expected hash is stale. SHA-256 is an injective constructor, so equal digests are equal contents.
 */
module Workspace {
  import opened Results
  import opened Utf8

  type Path = p: seq<string> | p != [] witness ["a"]

  datatype File = File(bytes: seq<Byte>, exec: bool)

  type Tree = map<Path, File>

  datatype Digest = Sha256(preimage: seq<Byte>)

  datatype Error =
    | NotDirectory | NotRegular | TooLarge | Binary | InvalidUtf8 | AutoExecuted
    | Stale | CreateExpectedHashMustBeNull | CallLimit
    | Fault | Structural(code: string)

  datatype ReadOutcome = Found(digest: Digest, content: seq<Scalar>) | Missing | Refused(error: Error)

  const MAX_FILE_BYTES := 524_288
  const MAX_TOOL_CALLS := 128
  const MAX_WRITE_CALLS := 64

  /** No file lies below another file: what every real directory tree satisfies. */
  predicate TreeShaped(t: Tree) {
    forall p, q | p in t && q in t :: !(p < q)
  }

  predicate UnderFile(t: Tree, p: Path) {
    exists q :: q in t && q < p
  }

  predicate IsDirectory(t: Tree, p: Path) {
    exists q :: q in t && p < q
  }

  /** `hooks` are the positions git runs programs from; the empty position is the whole tree. */
  predicate InHooks(hooks: set<seq<string>>, p: Path) {
    exists h :: h in hooks && h <= p
  }

  predicate Readable(bytes: seq<Byte>) {
    |bytes| <= MAX_FILE_BYTES && 0 !in bytes && DecodeText(bytes).Some?
  }

  function DigestAt(t: Tree, p: Path): Option<Digest> {
    if p in t then Some(Sha256(t[p].bytes)) else None
  }

  function ReadFile(t: Tree, hooks: set<seq<string>>, p: Path): ReadOutcome {
    if InHooks(hooks, p) then Refused(AutoExecuted)
    else if UnderFile(t, p) then Refused(NotDirectory)
    else if p !in t then (if IsDirectory(t, p) then Refused(NotRegular) else Missing)
    else
      var bytes := t[p].bytes;
      if |bytes| > MAX_FILE_BYTES then Refused(TooLarge)
      else if 0 in bytes then Refused(Binary)
      else match DecodeText(bytes)
        case None => Refused(InvalidUtf8)
        case Some(text) => Found(Sha256(bytes), text)
  }

  /** Compare the current hash, then replace. A new file is not executable, an old one keeps its mode. */
  function WriteFile(t: Tree, hooks: set<seq<string>>, p: Path, content: seq<Scalar>, expected: Option<Digest>)
    : Result<Tree, Error>
  {
    var bytes := Encode(content);
    if InHooks(hooks, p) then Err(AutoExecuted)
    else if |bytes| > MAX_FILE_BYTES then Err(TooLarge)
    else if 0 in bytes then Err(Binary)
    else if UnderFile(t, p) then Err(NotDirectory)
    else if p in t then
      if expected != DigestAt(t, p) then Err(Stale) else Ok(t[p := File(bytes, t[p].exec)])
    else if IsDirectory(t, p) then Err(NotRegular)
    else if expected.Some? then Err(CreateExpectedHashMustBeNull)
    else Ok(t[p := File(bytes, false)])
  }

  /** What each answer to a read means; a state with none of the refusals is read, or there is nothing. */
  lemma ReadMeans(t: Tree, hooks: set<seq<string>>, p: Path)
    ensures match ReadFile(t, hooks, p)
      case Found(digest, text) =>
        && !InHooks(hooks, p) && !UnderFile(t, p) && p in t
        && |t[p].bytes| <= 524_288 && 0 !in t[p].bytes && DecodeText(t[p].bytes) == Some(text)
        && digest == Sha256(t[p].bytes)
      case Missing => !InHooks(hooks, p) && !UnderFile(t, p) && p !in t && !IsDirectory(t, p)
      case Refused(AutoExecuted) => InHooks(hooks, p)
      case Refused(NotDirectory) => UnderFile(t, p)
      case Refused(NotRegular) => p !in t && IsDirectory(t, p)
      case Refused(TooLarge) => p in t && |t[p].bytes| > 524_288
      case Refused(Binary) => p in t && 0 in t[p].bytes
      case Refused(InvalidUtf8) => p in t && DecodeText(t[p].bytes).None?
      case Refused(_) => false
  {
  }

  /** What each answer to a write means; without any of the refusals exactly one path changes. */
  lemma WriteMeans(t: Tree, hooks: set<seq<string>>, p: Path, content: seq<Scalar>, expected: Option<Digest>)
    ensures match WriteFile(t, hooks, p, content, expected)
      case Ok(u) =>
        && !InHooks(hooks, p) && !UnderFile(t, p) && (p !in t ==> !IsDirectory(t, p))
        && |Encode(content)| <= 524_288 && 0 !in Encode(content)
        && expected == (if p in t then Some(Sha256(t[p].bytes)) else None)
        && u.Keys == t.Keys + {p} && u[p] == File(Encode(content), p in t && t[p].exec)
        && forall q | q in t && q != p :: u[q] == t[q]
      case Err(AutoExecuted) => InHooks(hooks, p)
      case Err(TooLarge) => |Encode(content)| > 524_288
      case Err(Binary) => 0 in Encode(content)
      case Err(NotDirectory) => UnderFile(t, p)
      case Err(NotRegular) => p !in t && IsDirectory(t, p)
      case Err(Stale) => p in t && expected != Some(Sha256(t[p].bytes))
      case Err(CreateExpectedHashMustBeNull) => p !in t && expected.Some?
      case Err(_) => false
  {
  }

  /** The mutable directory tree behind a workspace root. */
  class Disk {
    var files: Tree

    constructor (files: Tree)
      ensures this.files == files
    {
      this.files := files;
    }
  }

  /** One tool broker: a view of a disk with a budget of calls that is never refilled. */
  class Broker {
    const disk: Disk
    const hooks: set<seq<string>>
    var toolCalls: nat
    var writeCalls: nat

    constructor (disk: Disk, hooks: set<seq<string>>)
      ensures this.disk == disk && this.hooks == hooks && toolCalls == 0 && writeCalls == 0
    {
      this.disk, this.hooks, toolCalls, writeCalls := disk, hooks, 0, 0;
    }

    method Read(p: Path) returns (r: ReadOutcome)
      modifies this
      ensures toolCalls == old(toolCalls) + 1 && writeCalls == old(writeCalls)
      ensures r == if old(toolCalls) >= 128 then Refused(CallLimit) else ReadFile(disk.files, hooks, p)
    {
      toolCalls := toolCalls + 1;
      if toolCalls > MAX_TOOL_CALLS { return Refused(CallLimit); }
      return ReadFile(disk.files, hooks, p);
    }

    method Write(p: Path, content: seq<Scalar>, expected: Option<Digest>) returns (failure: Option<Error>)
      modifies this, disk
      ensures toolCalls == old(toolCalls) + 1
      ensures writeCalls == old(writeCalls) + if old(toolCalls) >= 128 then 0 else 1
      ensures var r := if old(toolCalls) >= 128 || old(writeCalls) >= 64 then Err(CallLimit)
                       else WriteFile(old(disk.files), hooks, p, content, expected);
              match r
              case Ok(t) => failure == None && disk.files == t
              case Err(e) => failure == Some(e) && disk.files == old(disk.files)
    {
      toolCalls := toolCalls + 1;
      if toolCalls > MAX_TOOL_CALLS { return Some(CallLimit); }
      writeCalls := writeCalls + 1;
      if writeCalls > MAX_WRITE_CALLS { return Some(CallLimit); }
      match WriteFile(disk.files, hooks, p, content, expected)
      case Err(e) => return Some(e);
      case Ok(t) =>
        disk.files := t;
        return None;
    }
  }
}
