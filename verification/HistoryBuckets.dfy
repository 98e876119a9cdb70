/**
 Sorting a merge history into the groups the page shows.

 Promotions that this process cannot vouch for are paired with an open approval of the same task, and
 that approval then has no card of its own. A record is named by its position: two records with equal
 fields are still two records.
 */
module HistoryBuckets {
  import opened Results

  datatype PromotionState = Applied | Unreadable | OtherPromotion
  datatype ApprovalState = Rejected | Expired | Invalidated | Consumed | OtherApproval

  /** The fields the sorting reads. A task id that is missing, empty or not a string is `None`. */
  datatype Promotion = Promotion(
    state: PromotionState, attestationMissing: bool, task: Option<string>,
    authorizedMergeCommit: bool, hasHeadAfter: bool)

  datatype Approval = Approval(state: ApprovalState, task: Option<string>, eligible: bool)

  datatype Buckets = Buckets(
    mergedPromotions: seq<nat>,
    reviewPromotions: seq<nat>,
    notStartedApprovals: seq<nat>,
    closedApprovals: seq<nat>,
    invalidatedApprovals: seq<nat>,
    retryableApprovals: seq<nat>,
    blockedApprovals: seq<nat>,
    reviewApprovals: seq<nat>,
    paired: map<nat, nat>)

  datatype Counts = Counts(merged: nat, review: nat, closed: nat, unpromoted: nat)

  predicate Succeeded(p: Promotion) {
    p.state == Applied && p.authorizedMergeCommit && p.hasHeadAfter
  }

  predicate Unattested(p: Promotion) {
    p.state == Unreadable && p.attestationMissing && p.task.Some?
  }

  predicate Closed(a: Approval) {
    a.state == Rejected || a.state == Expired || a.state == Invalidated
  }

  predicate OpenFor(a: Approval, task: Option<string>) {
    !Closed(a) && a.task.Some? && a.task == task
  }

  function GroupCounts(b: Buckets): Counts {
    Counts(|b.mergedPromotions|, |b.reviewPromotions| + |b.reviewApprovals|, |b.closedApprovals|, |b.invalidatedApprovals|)
  }

  // ----- what the sorting promises -----

  datatype Group = NotStarted | ClosedGroup | InvalidatedGroup | Retryable | Blocked | Review

  predicate InGroup(a: Approval, g: Group) {
    match g
    case NotStarted => Closed(a)
    case ClosedGroup => Closed(a) && a.state != Invalidated
    case InvalidatedGroup => a.state == Invalidated
    case Retryable => Closed(a) && a.eligible
    case Blocked => Closed(a) && !a.eligible
    case Review => !Closed(a)
  }

  /** Exactly the positions below `n` with the property, each once and in order. */
  ghost predicate ListsPromotions(s: seq<nat>, promotions: seq<Promotion>, n: nat, succeeded: bool)
    requires n <= |promotions|
  {
    && (forall i, j | 0 <= i < j < |s| :: s[i] < s[j])
    && (forall k: nat :: k in s <==> k < n && Succeeded(promotions[k]) == succeeded)
  }

  ghost predicate ListsApprovals(s: seq<nat>, approvals: seq<Approval>, n: nat, claimed: set<nat>, g: Group)
    requires n <= |approvals|
  {
    && (forall i, j | 0 <= i < j < |s| :: s[i] < s[j])
    && (forall k: nat :: k in s <==> k < n && k !in claimed && InGroup(approvals[k], g))
  }

  /** Pairing: injective, same task, and only unattested promotions with open approvals. */
  predicate GoodPairs(promotions: seq<Promotion>, approvals: seq<Approval>, paired: map<nat, nat>) {
    && (forall i | i in paired ::
          && i < |promotions| && Unattested(promotions[i])
          && paired[i] < |approvals| && OpenFor(approvals[paired[i]], promotions[i].task))
    && (forall i, j | i in paired && j in paired && i != j :: paired[i] != paired[j])
  }

  /** Nothing more could be paired: an unattested promotion stays alone only when its task has nothing open. */
  predicate Maximal(promotions: seq<Promotion>, approvals: seq<Approval>, n: nat, paired: map<nat, nat>)
    requires n <= |promotions|
  {
    forall i, j | 0 <= i < n && Unattested(promotions[i]) && i !in paired && 0 <= j < |approvals| ::
      OpenFor(approvals[j], promotions[i].task) ==> j in paired.Values
  }

  /** Spent approvals go first: another one is taken only when no spent one with its task id is left. */
  predicate SpentFirst(promotions: seq<Promotion>, approvals: seq<Approval>, paired: map<nat, nat>) {
    forall i, j | i in paired && i < |promotions| && paired[i] < |approvals| && 0 <= j < |approvals| ::
      approvals[paired[i]].state != Consumed && approvals[j].state == Consumed && OpenFor(approvals[j], promotions[i].task) ==>
      j in paired.Values
  }

  /** The positions the loop has put into a group after the first `n` approvals. */
  function Pick(approvals: seq<Approval>, n: nat, claimed: set<nat>, g: Group): seq<nat>
    requires n <= |approvals|
  {
    if n == 0 then []
    else
      Pick(approvals, n - 1, claimed, g)
      + if n - 1 !in claimed && InGroup(approvals[n - 1], g) then [n - 1] else []
  }

  function PickPromotions(promotions: seq<Promotion>, n: nat, succeeded: bool): seq<nat>
    requires n <= |promotions|
  {
    if n == 0 then []
    else PickPromotions(promotions, n - 1, succeeded) + if Succeeded(promotions[n - 1]) == succeeded then [n - 1] else []
  }

  lemma {:induction false} PickLists(approvals: seq<Approval>, n: nat, claimed: set<nat>, g: Group)
    requires n <= |approvals|
    ensures ListsApprovals(Pick(approvals, n, claimed, g), approvals, n, claimed, g)
  {
    if n > 0 {
      PickLists(approvals, n - 1, claimed, g);
      var rest := Pick(approvals, n - 1, claimed, g);
      forall i | 0 <= i < |rest| ensures rest[i] < n - 1 { assert rest[i] in rest; }
    }
  }

  lemma {:induction false} PickListsPromotions(promotions: seq<Promotion>, n: nat, succeeded: bool)
    requires n <= |promotions|
    ensures ListsPromotions(PickPromotions(promotions, n, succeeded), promotions, n, succeeded)
  {
    if n > 0 {
      PickListsPromotions(promotions, n - 1, succeeded);
      var rest := PickPromotions(promotions, n - 1, succeeded);
      forall i | 0 <= i < |rest| ensures rest[i] < n - 1 { assert rest[i] in rest; }
    }
  }

  ghost predicate Sorted(promotions: seq<Promotion>, approvals: seq<Approval>, b: Buckets) {
    && ListsPromotions(b.mergedPromotions, promotions, |promotions|, true)
    && ListsPromotions(b.reviewPromotions, promotions, |promotions|, false)
    && GoodPairs(promotions, approvals, b.paired)
    && Maximal(promotions, approvals, |promotions|, b.paired)
    && SpentFirst(promotions, approvals, b.paired)
    && ListsApprovals(b.notStartedApprovals, approvals, |approvals|, b.paired.Values, NotStarted)
    && ListsApprovals(b.closedApprovals, approvals, |approvals|, b.paired.Values, ClosedGroup)
    && ListsApprovals(b.invalidatedApprovals, approvals, |approvals|, b.paired.Values, InvalidatedGroup)
    && ListsApprovals(b.retryableApprovals, approvals, |approvals|, b.paired.Values, Retryable)
    && ListsApprovals(b.blockedApprovals, approvals, |approvals|, b.paired.Values, Blocked)
    && ListsApprovals(b.reviewApprovals, approvals, |approvals|, b.paired.Values, Review)
  }

  /** The first open approval of a task that is not claimed, if any. */
  method Find(approvals: seq<Approval>, task: Option<string>, claimed: set<nat>, spentOnly: bool) returns (found: Option<nat>)
    requires task.Some?
    ensures found.Some? ==>
      && found.value < |approvals| && OpenFor(approvals[found.value], task) && found.value !in claimed
      && (spentOnly ==> approvals[found.value].state == Consumed)
    ensures found.Some? ==> forall j | 0 <= j < found.value && OpenFor(approvals[j], task) ::
      (spentOnly ==> approvals[j].state == Consumed) ==> j in claimed
    ensures found.None? ==> forall j | 0 <= j < |approvals| && OpenFor(approvals[j], task) ::
      (spentOnly ==> approvals[j].state == Consumed) ==> j in claimed
  {
    for j := 0 to |approvals|
      invariant forall k | 0 <= k < j && OpenFor(approvals[k], task) ::
        (spentOnly ==> approvals[k].state == Consumed) ==> k in claimed
    {
      var a := approvals[j];
      if !Closed(a) && a.task == task && (!spentOnly || a.state == Consumed) && j !in claimed { return Some(j); }
    }
    return None;
  }

  /** One turn of the pairing: the chosen approval is new, and a spent one if there is any. */
  lemma PairOneMore(
      promotions: seq<Promotion>, approvals: seq<Approval>, i: nat, paired: map<nat, nat>, found: Option<nat>, spent: bool)
    requires i < |promotions| && Unattested(promotions[i]) && forall k | k in paired :: k < i
    requires GoodPairs(promotions, approvals, paired) && Maximal(promotions, approvals, i, paired)
    requires SpentFirst(promotions, approvals, paired)
    requires found.Some? ==>
      && found.value < |approvals| && OpenFor(approvals[found.value], promotions[i].task) && found.value !in paired.Values
      && (spent ==> approvals[found.value].state == Consumed)
    requires found.None? ==> forall j | 0 <= j < |approvals| && OpenFor(approvals[j], promotions[i].task) :: j in paired.Values
    requires !spent ==>
      forall j | 0 <= j < |approvals| && OpenFor(approvals[j], promotions[i].task) && approvals[j].state == Consumed ::
        j in paired.Values
    ensures var after := if found.Some? then paired[i := found.value] else paired;
            && GoodPairs(promotions, approvals, after) && Maximal(promotions, approvals, i + 1, after)
            && SpentFirst(promotions, approvals, after)
            && after.Values == paired.Values + (if found.Some? then {found.value} else {})
  {
    if found.Some? {
      var after := paired[i := found.value];
      assert after.Values == paired.Values + {found.value} by {
        forall v | v in paired.Values ensures v in after.Values {
          var k :| k in paired && paired[k] == v;
          assert after[k] == v;
        }
        assert after[i] == found.value;
      }
    }
  }

  /** The approval that promotion `i` absorbs, if any: a spent one first. */
  method Match(promotions: seq<Promotion>, approvals: seq<Approval>, i: nat, ghost paired: map<nat, nat>, claimed: set<nat>)
    returns (found: Option<nat>)
    requires i < |promotions| && Unattested(promotions[i]) && forall k | k in paired :: k < i
    requires GoodPairs(promotions, approvals, paired) && Maximal(promotions, approvals, i, paired)
    requires SpentFirst(promotions, approvals, paired) && claimed == paired.Values
    ensures found.Some? ==> found.value !in claimed
    ensures var after := if found.Some? then paired[i := found.value] else paired;
            && GoodPairs(promotions, approvals, after) && Maximal(promotions, approvals, i + 1, after)
            && SpentFirst(promotions, approvals, after)
            && after.Values == paired.Values + (if found.Some? then {found.value} else {})
  {
    found := Find(approvals, promotions[i].task, claimed, true);
    ghost var spent := found.Some?;
    if found.None? { found := Find(approvals, promotions[i].task, claimed, false); }
    PairOneMore(promotions, approvals, i, paired, found, spent);
  }

  method PairUp(promotions: seq<Promotion>, approvals: seq<Approval>)
    returns (merged: seq<nat>, review: seq<nat>, paired: map<nat, nat>, claimed: set<nat>)
    ensures merged == PickPromotions(promotions, |promotions|, true)
    ensures review == PickPromotions(promotions, |promotions|, false)
    ensures GoodPairs(promotions, approvals, paired) && Maximal(promotions, approvals, |promotions|, paired)
    ensures SpentFirst(promotions, approvals, paired)
    ensures claimed == paired.Values && |claimed| == |paired|
  {
    merged, review, paired, claimed := [], [], map[], {};
    for i := 0 to |promotions|
      invariant merged == PickPromotions(promotions, i, true) && review == PickPromotions(promotions, i, false)
      invariant GoodPairs(promotions, approvals, paired) && Maximal(promotions, approvals, i, paired)
      invariant SpentFirst(promotions, approvals, paired)
      invariant forall k | k in paired :: k < i
      invariant claimed == paired.Values && |claimed| == |paired|
    {
      var p := promotions[i];
      if Succeeded(p) { merged := merged + [i]; } else { review := review + [i]; }
      if Unattested(p) {
        var found := Match(promotions, approvals, i, paired, claimed);
        if found.Some? {
          claimed := claimed + {found.value};
          paired := paired[i := found.value];
        }
      }
    }
  }

  /** Sorts one approval that no promotion absorbed. */
  function Place(b: Buckets, j: nat, a: Approval): Buckets {
    if Closed(a) then
      var c := b.(notStartedApprovals := b.notStartedApprovals + [j]);
      var d := if a.state == Invalidated then c.(invalidatedApprovals := c.invalidatedApprovals + [j])
               else c.(closedApprovals := c.closedApprovals + [j]);
      if a.eligible then d.(retryableApprovals := d.retryableApprovals + [j])
      else d.(blockedApprovals := d.blockedApprovals + [j])
    else b.(reviewApprovals := b.reviewApprovals + [j])
  }

  /** The groups after `j` approvals. */
  predicate Placed(approvals: seq<Approval>, j: nat, claimed: set<nat>, b: Buckets)
    requires j <= |approvals|
  {
    && b.notStartedApprovals == Pick(approvals, j, claimed, NotStarted)
    && b.closedApprovals == Pick(approvals, j, claimed, ClosedGroup)
    && b.invalidatedApprovals == Pick(approvals, j, claimed, InvalidatedGroup)
    && b.retryableApprovals == Pick(approvals, j, claimed, Retryable)
    && b.blockedApprovals == Pick(approvals, j, claimed, Blocked)
    && b.reviewApprovals == Pick(approvals, j, claimed, Review)
  }

  function Below(claimed: set<nat>, n: nat): set<nat> {
    set k | k in claimed && k < n
  }

  /** The groups add up: nothing is lost and nothing counted twice. */
  lemma {:induction false} PicksAddUp(approvals: seq<Approval>, n: nat, claimed: set<nat>)
    requires n <= |approvals|
    ensures var closed := |Pick(approvals, n, claimed, ClosedGroup)| + |Pick(approvals, n, claimed, InvalidatedGroup)|;
            && closed == |Pick(approvals, n, claimed, Retryable)| + |Pick(approvals, n, claimed, Blocked)|
            && closed == |Pick(approvals, n, claimed, NotStarted)|
            && closed + |Pick(approvals, n, claimed, Review)| + |Below(claimed, n)| == n
  {
    if n == 0 {
      assert Below(claimed, 0) == {};
    } else {
      PicksAddUp(approvals, n - 1, claimed);
      assert Below(claimed, n) == Below(claimed, n - 1) + if n - 1 in claimed then {n - 1} else {};
    }
  }

  lemma {:induction false} PromotionPicksAddUp(promotions: seq<Promotion>, n: nat)
    requires n <= |promotions|
    ensures |PickPromotions(promotions, n, true)| + |PickPromotions(promotions, n, false)| == n
  {
    if n > 0 { PromotionPicksAddUp(promotions, n - 1); }
  }

  lemma PlaceOneMore(approvals: seq<Approval>, j: nat, claimed: set<nat>, b: Buckets)
    requires j < |approvals| && Placed(approvals, j, claimed, b)
    ensures var after := if j in claimed then b else Place(b, j, approvals[j]);
            && Placed(approvals, j + 1, claimed, after)
            && after.mergedPromotions == b.mergedPromotions && after.reviewPromotions == b.reviewPromotions
            && after.paired == b.paired
  {
  }

  method MergeHistoryBuckets(promotions: seq<Promotion>, approvals: seq<Approval>) returns (b: Buckets)
    ensures Sorted(promotions, approvals, b)
    ensures |b.retryableApprovals| + |b.blockedApprovals| == |b.closedApprovals| + |b.invalidatedApprovals|
    ensures |b.notStartedApprovals| == |b.closedApprovals| + |b.invalidatedApprovals|
    ensures var c := GroupCounts(b);
            c.merged + c.review + c.closed + c.unpromoted == |promotions| + |approvals| - |b.paired|
  {
    var merged, review, paired, claimed := PairUp(promotions, approvals);
    b := Buckets(merged, review, [], [], [], [], [], [], paired);
    for j := 0 to |approvals|
      invariant b.mergedPromotions == merged && b.reviewPromotions == review && b.paired == paired
      invariant Placed(approvals, j, claimed, b)
    {
      PlaceOneMore(approvals, j, claimed, b);
      if j !in claimed { b := Place(b, j, approvals[j]); }
    }
    PlacedIsSorted(promotions, approvals, b);
    AddsUp(promotions, approvals, b);
  }

  lemma AddsUp(promotions: seq<Promotion>, approvals: seq<Approval>, b: Buckets)
    requires b.mergedPromotions == PickPromotions(promotions, |promotions|, true)
    requires b.reviewPromotions == PickPromotions(promotions, |promotions|, false)
    requires Placed(approvals, |approvals|, b.paired.Values, b)
    requires |b.paired.Values| == |b.paired| && forall j | j in b.paired.Values :: j < |approvals|
    ensures |b.retryableApprovals| + |b.blockedApprovals| == |b.closedApprovals| + |b.invalidatedApprovals|
    ensures |b.notStartedApprovals| == |b.closedApprovals| + |b.invalidatedApprovals|
    ensures var c := GroupCounts(b);
            c.merged + c.review + c.closed + c.unpromoted == |promotions| + |approvals| - |b.paired|
  {
    PicksAddUp(approvals, |approvals|, b.paired.Values);
    PromotionPicksAddUp(promotions, |promotions|);
    assert Below(b.paired.Values, |approvals|) == b.paired.Values;
  }

  lemma PlacedIsSorted(promotions: seq<Promotion>, approvals: seq<Approval>, b: Buckets)
    requires b.mergedPromotions == PickPromotions(promotions, |promotions|, true)
    requires b.reviewPromotions == PickPromotions(promotions, |promotions|, false)
    requires GoodPairs(promotions, approvals, b.paired) && Maximal(promotions, approvals, |promotions|, b.paired)
    requires SpentFirst(promotions, approvals, b.paired)
    requires Placed(approvals, |approvals|, b.paired.Values, b)
    ensures Sorted(promotions, approvals, b)
  {
    PickListsPromotions(promotions, |promotions|, true);
    PickListsPromotions(promotions, |promotions|, false);
    forall g: Group { PickLists(approvals, |approvals|, b.paired.Values, g); }
  }

  lemma {:induction false} IncreasingSize(s: seq<nat>, all: set<nat>)
    requires forall i, j | 0 <= i < j < |s| :: s[i] < s[j]
    requires forall k: nat :: k in s <==> k in all
    ensures |s| == |all|
  {
    if s == [] {
      assert forall k | k in all :: k in s;
      assert all == {};
    } else {
      var rest, last := s[..|s| - 1], s[|s| - 1];
      assert s == rest + [last];
      assert last !in rest;
      IncreasingSize(rest, all - {last});
    }
  }

  /** What the four counts on the page mean. */
  lemma CountsMean(promotions: seq<Promotion>, approvals: seq<Approval>, b: Buckets)
    requires Sorted(promotions, approvals, b)
    ensures var c := GroupCounts(b);
            var free := set j | 0 <= j < |approvals| && j !in b.paired.Values :: j;
            && c.merged == |set i | 0 <= i < |promotions| && promotions[i].state == Applied
                                     && promotions[i].authorizedMergeCommit && promotions[i].hasHeadAfter|
            && c.review == |set i | 0 <= i < |promotions|
                                    && !(promotions[i].state == Applied && promotions[i].authorizedMergeCommit && promotions[i].hasHeadAfter)|
                           + |set j | j in free && approvals[j].state in {Consumed, OtherApproval}|
            && c.closed == |set j | j in free && approvals[j].state in {Rejected, Expired}|
            && c.unpromoted == |set j | j in free && approvals[j].state == Invalidated|
  {
    var free := set j | 0 <= j < |approvals| && j !in b.paired.Values :: j;
    IncreasingSize(b.mergedPromotions,
                   set i | 0 <= i < |promotions| && promotions[i].state == Applied
                           && promotions[i].authorizedMergeCommit && promotions[i].hasHeadAfter);
    IncreasingSize(b.reviewPromotions,
                   set i | 0 <= i < |promotions|
                           && !(promotions[i].state == Applied && promotions[i].authorizedMergeCommit && promotions[i].hasHeadAfter));
    IncreasingSize(b.reviewApprovals, set j | j in free && approvals[j].state in {Consumed, OtherApproval});
    IncreasingSize(b.closedApprovals, set j | j in free && approvals[j].state in {Rejected, Expired});
    IncreasingSize(b.invalidatedApprovals, set j | j in free && approvals[j].state == Invalidated);
  }

  /** Every approval has exactly one place: absorbed by one promotion, or in one of the three groups. */
  lemma EveryApprovalHasOnePlace(promotions: seq<Promotion>, approvals: seq<Approval>, b: Buckets, j: nat)
    requires Sorted(promotions, approvals, b) && j < |approvals|
    ensures
      var places := [j in b.paired.Values, j in b.closedApprovals, j in b.invalidatedApprovals, j in b.reviewApprovals];
      exists k :: 0 <= k < 4 && places[k] && forall l | 0 <= l < 4 && l != k :: !places[l]
    ensures j in b.retryableApprovals || j in b.blockedApprovals <==> j in b.closedApprovals || j in b.invalidatedApprovals
    ensures !(j in b.retryableApprovals && j in b.blockedApprovals)
  {
    var places := [j in b.paired.Values, j in b.closedApprovals, j in b.invalidatedApprovals, j in b.reviewApprovals];
    var k := if j in b.paired.Values then 0 else if !Closed(approvals[j]) then 3
             else if approvals[j].state == Invalidated then 2 else 1;
    assert places[k];
  }

  /** A promotion that absorbed an approval is one the owner still has to look at. */
  lemma PairedPromotionsAreInReview(promotions: seq<Promotion>, approvals: seq<Approval>, b: Buckets, i: nat)
    requires Sorted(promotions, approvals, b) && i in b.paired
    ensures i in b.reviewPromotions && i !in b.mergedPromotions
  {
  }

  /**
   Who absorbs what: an unreadable promotion without attestation absorbs a spent or pending approval of
   its own task id, and stays alone only when others have absorbed every such approval.
   */
  lemma PairingMeans(promotions: seq<Promotion>, approvals: seq<Approval>, b: Buckets, i: nat)
    requires Sorted(promotions, approvals, b) && i < |promotions|
    ensures i in b.paired ==>
      && promotions[i].state == Unreadable && promotions[i].attestationMissing && promotions[i].task.Some?
      && b.paired[i] < |approvals| && approvals[b.paired[i]].state in {Consumed, OtherApproval}
      && approvals[b.paired[i]].task == promotions[i].task
    ensures i !in b.paired && promotions[i].state == Unreadable && promotions[i].attestationMissing && promotions[i].task.Some? ==>
      forall j | 0 <= j < |approvals| && approvals[j].state in {Consumed, OtherApproval} && approvals[j].task == promotions[i].task ::
        exists k :: k in b.paired && k != i && b.paired[k] == j
  {
    if i !in b.paired && promotions[i].state == Unreadable && promotions[i].attestationMissing && promotions[i].task.Some? {
      forall j | 0 <= j < |approvals| && approvals[j].state in {Consumed, OtherApproval} && approvals[j].task == promotions[i].task
        ensures exists k :: k in b.paired && k != i && b.paired[k] == j
      {
        assert OpenFor(approvals[j], promotions[i].task);
        assert j in b.paired.Values;
      }
    }
  }

  /** Which approvals can be asked for again: the closed ones that are eligible, unless absorbed. */
  lemma RetryableMeans(promotions: seq<Promotion>, approvals: seq<Approval>, b: Buckets, j: nat)
    requires Sorted(promotions, approvals, b) && j < |approvals|
    ensures j in b.retryableApprovals <==>
      approvals[j].eligible && approvals[j].state in {Rejected, Expired, Invalidated} && j !in b.paired.Values
    ensures j in b.blockedApprovals <==>
      !approvals[j].eligible && approvals[j].state in {Rejected, Expired, Invalidated} && j !in b.paired.Values
  {
  }
}
