/**
 The tamper-evident audit log: every row carries the MAC of its own contents and of the row before.

 The MAC is an injective constructor over the bare row, which is what HMAC (RFC 2104) over an
 injective encoding stands for, and no row has the genesis value for its MAC.
 */
module AuditChain {
  import opened Results
  import opened Utf8

  datatype AuditOutcome = Allowed | Denied | Succeeded | Failed

  datatype Content = Content(
    atMs: int, room: Option<string>, task: Option<string>, kind: string, actor: string,
    onBehalfOf: Option<string>, executedBy: Option<string>, leaseEpoch: Option<int>,
    action: Option<string>, path: Option<string>, outcome: AuditOutcome, detail: seq<Byte>)

  datatype Bare = Bare(sequence: int, content: Content, previous: Mac)
  datatype Mac = Genesis | Hmac(bare: Bare)
  datatype Row = Row(bare: Bare, mac: Mac)

  const MAX_PAGE := 1_000
  const MAX_DETAIL := 16_384

  function LastMac(rows: seq<Row>): Mac {
    if rows == [] then Genesis else rows[|rows| - 1].mac
  }

  /** What a sound log is, row by row. */
  predicate Chained(rows: seq<Row>, i: nat)
    requires i < |rows|
  {
    && rows[i].bare.sequence == i + 1
    && rows[i].bare.previous == LastMac(rows[..i])
    && rows[i].mac == Hmac(rows[i].bare)
  }

  predicate Verified(rows: seq<Row>) {
    forall i | 0 <= i < |rows| :: Chained(rows, i)
  }

  function NextRow(rows: seq<Row>, content: Content): Row {
    var sequence := if rows == [] then 1 else rows[|rows| - 1].bare.sequence + 1;
    var bare := Bare(sequence, content, LastMac(rows));
    Row(bare, Hmac(bare))
  }

  predicate ValidField(s: string, max: nat) {
    1 <= |s| <= max && '\0' !in s && '\r' !in s && '\n' !in s && '\t' !in s
  }

  predicate ValidOptional(s: Option<string>, max: nat) {
    s.Some? ==> ValidField(s.value, max)
  }

  predicate ValidContent(c: Content) {
    && ValidField(c.kind, 96) && ValidField(c.actor, 256)
    && ValidOptional(c.room, 48) && ValidOptional(c.task, 128)
    && ValidOptional(c.onBehalfOf, 256) && ValidOptional(c.executedBy, 256)
    && ValidOptional(c.action, 96) && ValidOptional(c.path, 4_096)
    && (c.leaseEpoch.Some? ==> c.leaseEpoch.value >= 1)
    && |c.detail| <= MAX_DETAIL
  }

  predicate Selected(row: Row, room: Option<string>, after: int) {
    row.bare.sequence > after && (room.Some? ==> row.bare.content.room == room)
  }

  /** The rows of a query, in order: of one room or of all, after a sequence number. */
  function Select(rows: seq<Row>, room: Option<string>, after: int): seq<Row> {
    if rows == [] then []
    else
      var last := rows[|rows| - 1];
      Select(rows[..|rows| - 1], room, after) + if Selected(last, room, after) then [last] else []
  }

  function Take(rows: seq<Row>, limit: nat): seq<Row> {
    if |rows| <= limit then rows else rows[..limit]
  }

  /** One page: the first `limit` matching rows after `after`. */
  function List(rows: seq<Row>, room: Option<string>, after: int, limit: int): Option<seq<Row>> {
    if after < 0 || limit < 1 || limit > MAX_PAGE then None else Some(Take(Select(rows, room, after), limit))
  }

  /** The text fields of an entry that are there, with the length each may have. */
  function Fields(c: Content): set<(string, nat)> {
    {(c.kind, 96), (c.actor, 256)}
    + Present(c.room, 48) + Present(c.task, 128) + Present(c.onBehalfOf, 256) + Present(c.executedBy, 256)
    + Present(c.action, 96) + Present(c.path, 4_096)
  }

  function Present(s: Option<string>, max: nat): set<(string, nat)> {
    if s.Some? then {(s.value, max)} else {}
  }

  predicate CleanText(s: string, max: nat) {
    1 <= |s| <= max && forall x | x in s :: x !in ['\0', '\r', '\n', '\t']
  }

  lemma FieldIff(s: string, max: nat)
    ensures ValidField(s, max) <==> CleanText(s, max)
  {
    if ValidField(s, max) {
      forall x | x in s ensures x !in ['\0', '\r', '\n', '\t'] {
      }
    }
    if CleanText(s, max) {
      assert '\0' in ['\0', '\r', '\n', '\t'] && '\r' in ['\0', '\r', '\n', '\t'];
      assert '\n' in ['\0', '\r', '\n', '\t'] && '\t' in ['\0', '\r', '\n', '\t'];
    }
  }

  lemma AllFields(c: Content)
    ensures ValidContent(c) <==>
      (forall f | f in Fields(c) :: ValidField(f.0, f.1)) && (c.leaseEpoch.Some? ==> 1 <= c.leaseEpoch.value) && |c.detail| <= 16_384
  {
    if forall f | f in Fields(c) :: ValidField(f.0, f.1) {
      assert (c.kind, 96) in Fields(c) && (c.actor, 256) in Fields(c);
      assert c.room.Some? ==> (c.room.value, 48) in Fields(c);
      assert c.task.Some? ==> (c.task.value, 128) in Fields(c);
      assert c.onBehalfOf.Some? ==> (c.onBehalfOf.value, 256) in Fields(c);
      assert c.executedBy.Some? ==> (c.executedBy.value, 256) in Fields(c);
      assert c.action.Some? ==> (c.action.value, 96) in Fields(c);
      assert c.path.Some? ==> (c.path.value, 4_096) in Fields(c);
    }
  }

  /** An entry is refused for a field that is empty, too long or has a control character, for an epoch below 1 or for its detail. */
  lemma ValidContentIff(c: Content)
    ensures ValidContent(c) <==>
      && (forall f | f in Fields(c) :: CleanText(f.0, f.1))
      && (c.leaseEpoch.Some? ==> 1 <= c.leaseEpoch.value)
      && |c.detail| <= 16_384
  {
    AllFields(c);
    forall f | f in Fields(c) ensures ValidField(f.0, f.1) <==> CleanText(f.0, f.1) { FieldIff(f.0, f.1); }
  }

  /** Strictly increasing positions below `n`. */
  predicate Rising(at: seq<nat>, n: nat) {
    && (forall i, j | 0 <= i < j < |at| :: at[i] < at[j])
    && (forall i | 0 <= i < |at| :: at[i] < n)
  }

  /** A query gives, in order, exactly the rows after the number asked for, of the room asked for if any. */
  lemma {:induction false} SelectMeans(rows: seq<Row>, room: Option<string>, after: int) returns (at: seq<nat>)
    ensures Rising(at, |rows|) && |at| == |Select(rows, room, after)|
    ensures forall k | 0 <= k < |at| :: Select(rows, room, after)[k] == rows[at[k]]
    ensures forall i: nat | i < |rows| ::
      i in at <==> rows[i].bare.sequence > after && (room.None? || rows[i].bare.content.room == room)
  {
    at := [];
    if rows != [] {
      var rest, last := rows[..|rows| - 1], rows[|rows| - 1];
      var before := SelectMeans(rest, room, after);
      assert forall i: nat | i < |rest| :: rest[i] == rows[i];
      at := before;
      if last.bare.sequence > after && (room.None? || last.bare.content.room == room) { at := before + [|rest|]; }
      assert |rest| !in before;
    }
  }

  /** A page is refused exactly for a negative start or a size outside 1 to 1000, and never longer than its size. */
  lemma ListedIff(rows: seq<Row>, room: Option<string>, after: int, limit: int)
    ensures List(rows, room, after, limit).Some? <==> 0 <= after && 1 <= limit <= 1_000
    ensures List(rows, room, after, limit).Some? ==>
      var page := List(rows, room, after, limit).value;
      page <= Select(rows, room, after) && (|page| == limit || (|page| < limit && page == Select(rows, room, after)))
  {
  }

  class AuditLog {
    var rows: seq<Row>

    constructor ()
      ensures rows == [] && Verified(rows)
    {
      rows := [];
    }

    /** Appends one row, or rolls back: on an invalid field or a failing store nothing changes. */
    method Append(content: Content, storeFails: bool) returns (row: Option<Row>)
      modifies this
      ensures row.Some? <==> ValidContent(content) && !storeFails
      ensures row.Some? ==> row.value == NextRow(old(rows), content) && rows == old(rows) + [row.value]
      ensures row.Some? ==> row.value.bare.content == content
      ensures row.None? ==> rows == old(rows)
      ensures Verified(old(rows)) ==> Verified(rows)
    {
      if !ValidContent(content) || storeFails { return None; }
      var last := if rows == [] then 0 else rows[|rows| - 1].bare.sequence;
      var previous := if rows == [] then Genesis else rows[|rows| - 1].mac;
      var bare := Bare(last + 1, content, previous);
      var next := Row(bare, Hmac(bare));
      if Verified(rows) { AppendKeepsVerified(rows, content); }
      rows := rows + [next];
      return Some(next);
    }

    method Verify() returns (ok: bool)
      ensures ok <==> Verified(rows)
    {
      var previous := Genesis;
      var expected := 1;
      for i := 0 to |rows|
        invariant forall j | 0 <= j < i :: Chained(rows, j)
        invariant previous == LastMac(rows[..i]) && expected == i + 1
      {
        var row := rows[i];
        if row.bare.sequence != expected || row.bare.previous != previous || Hmac(row.bare) != row.mac {
          assert !Chained(rows, i);
          return false;
        }
        previous, expected := row.mac, expected + 1;
      }
      return true;
    }
  }

  // ----- appending, verifying, and prefixes -----

  lemma AppendKeepsVerified(rows: seq<Row>, content: Content)
    requires Verified(rows)
    ensures Verified(rows + [NextRow(rows, content)])
  {
    var all := rows + [NextRow(rows, content)];
    forall i | 0 <= i < |all|
      ensures Chained(all, i)
    {
      if i < |rows| {
        assert Chained(rows, i) && all[..i] == rows[..i];
      } else {
        assert all[..i] == rows;
        if rows != [] { assert Chained(rows, |rows| - 1); }
      }
    }
  }

  datatype Attempt = Attempt(content: Content, storeFails: bool)

  /** The log after any sequence of attempts, successful or rolled back. */
  function After(attempts: seq<Attempt>): seq<Row> {
    if attempts == [] then []
    else
      var rows, last := After(attempts[..|attempts| - 1]), attempts[|attempts| - 1];
      if ValidContent(last.content) && !last.storeFails then rows + [NextRow(rows, last.content)] else rows
  }

  lemma {:induction false} EveryLogVerifies(attempts: seq<Attempt>, k: nat)
    requires k <= |After(attempts)|
    ensures Verified(After(attempts)) && Verified(After(attempts)[..k])
  {
    if attempts != [] {
      var rest := attempts[..|attempts| - 1];
      EveryLogVerifies(rest, 0);
      AppendKeepsVerified(After(rest), attempts[|attempts| - 1].content);
      PrefixVerifies(After(attempts), k);
    }
  }

  lemma PrefixVerifies(rows: seq<Row>, k: nat)
    requires Verified(rows) && k <= |rows|
    ensures Verified(rows[..k])
  {
    forall i | 0 <= i < k
      ensures Chained(rows[..k], i)
    {
      assert Chained(rows, i) && rows[..k][..i] == rows[..i];
    }
  }

  /** Two sound logs with the same last MAC are the same log. */
  lemma {:induction false} SameMacSameLog(a: seq<Row>, b: seq<Row>)
    requires Verified(a) && Verified(b) && LastMac(a) == LastMac(b)
    ensures a == b
    decreases |a|
  {
    if a != [] { assert Chained(a, |a| - 1); }
    if b != [] { assert Chained(b, |b| - 1); }
    if a != [] {
      PrefixVerifies(a, |a| - 1);
      PrefixVerifies(b, |b| - 1);
      SameMacSameLog(a[..|a| - 1], b[..|b| - 1]);
      assert a == a[..|a| - 1] + [a[|a| - 1]];
      assert b == b[..|b| - 1] + [b[|b| - 1]];
    }
  }

  // ----- paging -----

  /** The cursor a reader continues from: the last sequence number it saw. */
  function Cursor(page: seq<Row>, after: nat): int {
    if page == [] then after else page[|page| - 1].bare.sequence
  }

  lemma {:induction false} SelectAppends(a: seq<Row>, b: seq<Row>, room: Option<string>, after: int)
    ensures Select(a + b, room, after) == Select(a, room, after) + Select(b, room, after)
  {
    if b == [] {
      assert a + b == a;
    } else {
      SelectAppends(a, b[..|b| - 1], room, after);
      assert (a + b)[..|a + b| - 1] == a + b[..|b| - 1];
    }
  }

  /** In a sound log the rows up to a cursor are the rows before that index. */
  lemma {:induction false} SelectAfter(rows: seq<Row>, room: Option<string>, after: nat)
    requires Verified(rows)
    ensures after >= |rows| ==> Select(rows, room, after) == []
    ensures after <= |rows| ==> Select(rows, room, 0) == Select(rows[..after], room, 0) + Select(rows, room, after)
  {
    if rows != [] {
      var rest := rows[..|rows| - 1];
      assert Chained(rows, |rows| - 1);
      PrefixVerifies(rows, |rows| - 1);
      SelectAfter(rest, room, after);
      if after <= |rest| {
        assert rest[..after] == rows[..after];
      } else if after == |rows| {
        assert rows[..after] == rows;
      }
    }
  }

  /** Where the `k`-th selected row stands. */
  lemma {:induction false} SelectedAt(rows: seq<Row>, room: Option<string>, after: int, k: nat) returns (n: nat)
    requires 0 < k <= |Select(rows, room, after)|
    ensures 0 < n <= |rows| && Select(rows, room, after)[k - 1] == rows[n - 1]
    ensures Select(rows[..n], room, after) == Select(rows, room, after)[..k]
    ensures rows[n - 1].bare.sequence > after
  {
    var rest := rows[..|rows| - 1];
    if k <= |Select(rest, room, after)| {
      n := SelectedAt(rest, room, after, k);
      assert rest[..n] == rows[..n];
    } else {
      n := |rows|;
      assert rows[..n] == rows;
    }
  }

  /** A page that is not empty is what the query gives of the rows up to its cursor. */
  lemma PageEndsAt(rows: seq<Row>, room: Option<string>, after: nat, limit: nat) returns (n: nat)
    requires Verified(rows) && 1 <= limit <= MAX_PAGE && List(rows, room, after, limit).value != []
    ensures var page := List(rows, room, after, limit).value;
            && n == Cursor(page, after) && after < n <= |rows|
            && Verified(rows[..n]) && Select(rows[..n], room, after) == page
  {
    var page := List(rows, room, after, limit).value;
    n := SelectedAt(rows, room, after, |page|);
    assert Chained(rows, n - 1);
    PrefixVerifies(rows, n);
    assert page == Select(rows, room, after)[..|page|];
  }

  /**
   One more page of a log that may have grown: whoever has read exactly the rows up to the cursor has,
   with the page, exactly those up to the new one, and with a short page the whole log.
   */
  lemma PageExtends(rows: seq<Row>, room: Option<string>, after: nat, limit: nat)
    requires Verified(rows) && after <= |rows| && 1 <= limit <= MAX_PAGE
    ensures var page := List(rows, room, after, limit).value;
            && after <= Cursor(page, after) <= |rows|
            && Select(rows[..after], room, 0) + page == Select(rows[..Cursor(page, after)], room, 0)
            && (|page| < limit ==> Select(rows[..after], room, 0) + page == Select(rows, room, 0))
  {
    var page := List(rows, room, after, limit).value;
    SelectAfter(rows, room, after);
    if page != [] {
      var n := PageEndsAt(rows, room, after, limit);
      SelectAfter(rows[..n], room, after);
      assert rows[..n][..after] == rows[..after];
    }
  }

  /** Every page of a fixed log, from one cursor on. */
  function Pages(rows: seq<Row>, room: Option<string>, after: nat, limit: nat): seq<Row>
    requires Verified(rows) && after <= |rows| && 1 <= limit <= MAX_PAGE
    decreases |rows| - after
  {
    var page := List(rows, room, after, limit).value;
    PageThenRest(rows, room, after, limit);
    if page == [] then []
    else page + Pages(rows, room, Cursor(page, after), limit)
  }

  lemma Cancel(a: seq<Row>, x: seq<Row>, y: seq<Row>)
    requires a + x == a + y
    ensures x == y
  {
    assert x == (a + x)[|a|..] && y == (a + y)[|a|..];
  }

  /** Without a room every row of a sound log is selected. */
  lemma {:induction false} SelectAll(rows: seq<Row>)
    requires Verified(rows)
    ensures Select(rows, None, 0) == rows
  {
    if rows != [] {
      assert Chained(rows, |rows| - 1);
      PrefixVerifies(rows, |rows| - 1);
      SelectAll(rows[..|rows| - 1]);
    }
  }

  lemma PageThenRest(rows: seq<Row>, room: Option<string>, after: nat, limit: nat)
    requires Verified(rows) && after <= |rows| && 1 <= limit <= MAX_PAGE
    ensures var page := List(rows, room, after, limit).value;
            && after <= Cursor(page, after) <= |rows|
            && (page != [] ==> after < Cursor(page, after))
            && Select(rows, room, after) == page + Select(rows, room, Cursor(page, after))
  {
    var page := List(rows, room, after, limit).value;
    if page != [] {
      var n := SelectedAt(rows, room, after, |page|);
      assert Chained(rows, n - 1) && Cursor(page, after) == n;
      PageExtends(rows, room, after, limit);
      SelectAfter(rows, room, after);
      SelectAfter(rows, room, n);
      var before, rest := Select(rows[..after], room, 0), Select(rows, room, n);
      assert before + Select(rows, room, after) == (before + page) + rest == before + (page + rest);
      Cancel(before, Select(rows, room, after), page + rest);
    }
  }

  /** Paging reproduces the whole log, or one room of it, without gap or repeat, for every page size. */
  lemma {:induction false} PagingIsComplete(rows: seq<Row>, room: Option<string>, after: nat, limit: nat)
    requires Verified(rows) && after <= |rows| && 1 <= limit <= MAX_PAGE
    ensures Pages(rows, room, after, limit) == Select(rows, room, after)
    decreases |rows| - after
  {
    PageThenRest(rows, room, after, limit);
    var page := List(rows, room, after, limit).value;
    if page != [] { PagingIsComplete(rows, room, Cursor(page, after), limit); }
  }
}
