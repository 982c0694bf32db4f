/**
 Automatic merge of two groups: compatibility, the winning GroupId, capacity, who sends a
 rejection, and the winner over a list of converging groups.
 */
module GroupMerge {
  import opened Types
  import opened MemberRecords

  datatype DiscoveryMode = OpenProximity | TokenScoped
  datatype TrustMode = OpenTofu | GroupPsk | PairwiseSas | KnownPeers

  // Hashes are compared as the numbers their 32 bytes spell.
  datatype Info = Info(
    namespace: nat,
    discovery: DiscoveryMode,
    autoMerge: bool,
    trust: TrustMode,
    knownPeersAutoMerge: bool,
    token: nat,
    group: GroupId,
    members: seq<Member>)

  datatype Decision =
    | Merge
    | NamespaceMismatch
    | AutoMergeDisabled
    | DiscoveryModeMismatch
    | JoinTokenMismatch
    | TrustModeMismatch
    | KnownPeersAutoMergeDisabled
    | Full
    | SameGroup

  datatype Evaluation = Evaluation(decision: Decision, winner: Option<Info>, effectiveMaxPeers: int, unionCount: nat)

  function Refused(decision: Decision): Evaluation { Evaluation(decision, None, 0, 0) }

  // The first failing check, in order.
  function Incompatibility(a: Info, b: Info): Option<Decision> {
    if a.namespace != b.namespace then Some(NamespaceMismatch)
    else if !a.autoMerge || !b.autoMerge then Some(AutoMergeDisabled)
    else if a.discovery != b.discovery then Some(DiscoveryModeMismatch)
    else if a.discovery == TokenScoped && a.token != b.token then Some(JoinTokenMismatch)
    else if a.trust != b.trust then Some(TrustModeMismatch)
    else if a.trust == KnownPeers && (!a.knownPeersAutoMerge || !b.knownPeersAutoMerge) then
      Some(KnownPeersAutoMergeDisabled)
    else if a.group == b.group then Some(SameGroup)
    else None
  }

  // The checks one by one: two groups pass all of them, or the decision names the first
  // that fails.
  predicate SameNamespace(a: Info, b: Info) { a.namespace == b.namespace }
  predicate BothMerge(a: Info, b: Info) { a.autoMerge && b.autoMerge }
  predicate SameToken(a: Info, b: Info) { a.discovery == TokenScoped && b.discovery == TokenScoped ==> a.token == b.token }
  predicate KnownAllowed(a: Info, b: Info) {
    a.trust == KnownPeers && b.trust == KnownPeers ==> a.knownPeersAutoMerge && b.knownPeersAutoMerge
  }

  lemma CompatibleIff(a: Info, b: Info)
    ensures Incompatibility(a, b).None? <==>
              && a.namespace == b.namespace && a.autoMerge && b.autoMerge && a.discovery == b.discovery
              && (a.discovery == TokenScoped ==> a.token == b.token) && a.trust == b.trust
              && (a.trust == KnownPeers ==> a.knownPeersAutoMerge && b.knownPeersAutoMerge) && a.group != b.group
    ensures var reason := Incompatibility(a, b);
            var open := SameNamespace(a, b) && BothMerge(a, b);
            var found := open && a.discovery == b.discovery && SameToken(a, b);
            && (reason == Some(NamespaceMismatch) <==> !SameNamespace(a, b))
            && (reason == Some(AutoMergeDisabled) <==> SameNamespace(a, b) && !BothMerge(a, b))
            && (reason == Some(DiscoveryModeMismatch) <==> open && a.discovery != b.discovery)
            && (reason == Some(JoinTokenMismatch) <==> open && a.discovery == b.discovery && !SameToken(a, b))
            && (reason == Some(TrustModeMismatch) <==> found && a.trust != b.trust)
            && (reason == Some(KnownPeersAutoMergeDisabled) <==> found && a.trust == b.trust && !KnownAllowed(a, b))
            && (reason == Some(SameGroup) <==> found && a.trust == b.trust && KnownAllowed(a, b) && a.group == b.group)
    ensures Incompatibility(a, b).Some? ==> Evaluate(a, b) == Ok(Evaluation(Incompatibility(a, b).value, None, 0, 0))
  {
  }

  function WinnerOf(a: Info, b: Info): Info {
    if |a.members| != |b.members| then (if |a.members| > |b.members| then a else b)
    else if a.group < b.group then a else b
  }

  // Two groups without any member make the source's reduction fail.
  ghost function Evaluate(a: Info, b: Info): Result<Evaluation> {
    match Incompatibility(a, b)
    case Some(decision) => Ok(Refused(decision))
    case None =>
      var records := Collect(a.members + b.members);
      if records == map[] then Err(InvalidState)
      else
        var capacity := Capacity(records);
        Ok(Evaluation(if |records| > capacity then Full else Merge, Some(WinnerOf(a, b)), capacity, |records|))
  }

  // ---------- the rank ----------

  // More members first, then the smaller GroupId.
  predicate Outranks(a: Info, b: Info) {
    |a.members| > |b.members| || (|a.members| == |b.members| && a.group < b.group)
  }

  // Both coordinators come to the same decision, winner, union size and capacity.
  lemma EvaluationIsSymmetric(a: Info, b: Info)
    ensures Evaluate(a, b) == Evaluate(b, a)
  {
    CollectSame(a.members + b.members, b.members + a.members);
    assert Incompatibility(a, b) == Incompatibility(b, a);
  }

  // What a decision means: the winner is one of the two and outranks the other, the union
  // is the set of mentioned peers, the capacity the least mentioned, and the merge is full
  // exactly when the union is larger.
  lemma EvaluationMeaning(a: Info, b: Info)
    requires Incompatibility(a, b).None? && a.members + b.members != []
    ensures Evaluate(a, b).Ok?
    ensures var e := Evaluate(a, b).value;
            var records := Collect(a.members + b.members);
            && Least(a.members + b.members, records)
            && e.unionCount == |records|
            && IsCapacity(records, e.effectiveMaxPeers)
            && (e.decision == Merge <==> e.unionCount <= e.effectiveMaxPeers)
            && (e.decision == Full <==> e.unionCount > e.effectiveMaxPeers)
            && ((e.winner == Some(a) && Outranks(a, b)) || (e.winner == Some(b) && Outranks(b, a)))
  {
    var all := a.members + b.members;
    CollectIsLeast(all);
    assert all[0] in all && all[0].peer in Collect(all);
  }

  // ---------- who rejects ----------

  datatype Reject = Reject(local: GroupId, remote: GroupId, effectiveMaxPeers: int, candidateUnionCount: nat)

  ghost function RejectFor(local: Info, remote: Info, e: Evaluation): Option<Reject> {
    if e.decision != Full || e.winner != Some(local) then None
    else Some(Reject(local.group, remote.group, e.effectiveMaxPeers, e.unionCount))
  }

  // Of two groups that evaluate each other, exactly one sends a rejection when the union
  // does not fit, and none otherwise.
  lemma ExactlyOneRejects(a: Info, b: Info)
    requires Evaluate(a, b).Ok?
    ensures var full := Evaluate(a, b).value.decision == Full;
            var mine, theirs := RejectFor(a, b, Evaluate(a, b).value), RejectFor(b, a, Evaluate(b, a).value);
            && (!full ==> mine.None? && theirs.None?)
            && (full ==> (mine.Some? <==> theirs.None?))
            && (mine.Some? <==> full && Outranks(a, b))
            && (mine.Some? ==> mine.value == Reject(a.group, b.group, Evaluate(a, b).value.effectiveMaxPeers, Evaluate(a, b).value.unionCount))
  {
    EvaluationIsSymmetric(a, b);
  }

  // ---------- converging groups ----------

  // The left fold over the list.
  ghost function Select(groups: seq<Info>): Result<Info> {
    if groups == [] then Err(InvalidArgument)
    else if |groups| == 1 then Ok(groups[0])
    else
      match Select(groups[..|groups| - 1])
      case Err(e) => Err(e)
      case Ok(winner) =>
        match Evaluate(winner, groups[|groups| - 1])
        case Err(e) => Err(e)
        case Ok(evaluation) =>
          if evaluation.decision != Merge || evaluation.winner.None? then Err(GroupMergeRejected)
          else Ok(evaluation.winner.value)
  }

  ghost predicate Mergeable(a: Info, b: Info) {
    Evaluate(a, b).Ok? && Evaluate(a, b).value.decision == Merge
  }

  // One step of the fold.
  lemma SelectStep(groups: seq<Info>)
    requires |groups| > 1
    ensures var before, last := Select(groups[..|groups| - 1]), groups[|groups| - 1];
            && (Select(groups).Ok? <==> before.Ok? && Mergeable(before.value, last))
            && (Select(groups).Ok? ==> Select(groups).value == WinnerOf(before.value, last) && before.value.group != last.group)
            && (before.Ok? && Evaluate(before.value, last).Ok? && !Mergeable(before.value, last) ==> Select(groups) == Err(GroupMergeRejected))
  {
  }

  ghost predicate Top(groups: seq<Info>, w: nat) {
    w < |groups| && forall i :: 0 <= i < |groups| && i != w ==> Outranks(groups[w], groups[i])
  }

  lemma TopExtends(groups: seq<Info>, k: nat, last: Info) returns (w: nat)
    requires Top(groups, k) && groups[k].group != last.group
    ensures Top(groups + [last], w) && (groups + [last])[w] == WinnerOf(groups[k], last)
  {
    w := if Outranks(groups[k], last) then k else |groups|;
    forall i | 0 <= i < |groups| + 1 && i != w ensures Outranks((groups + [last])[w], (groups + [last])[i]) {
      if i < |groups| && i != k { assert Outranks(groups[k], groups[i]); }
    }
  }

  // On success the winner outranks every other group of the list.
  lemma {:induction false} SelectedIsTop(groups: seq<Info>) returns (w: nat)
    requires Select(groups).Ok?
    ensures Top(groups, w) && Select(groups).value == groups[w]
  {
    if |groups| == 1 {
      w := 0;
    } else {
      SelectStep(groups);
      var k := SelectedIsTop(groups[..|groups| - 1]);
      w := SelectionExtends(groups, k);
    }
  }

  lemma SelectionExtends(groups: seq<Info>, k: nat) returns (w: nat)
    requires |groups| > 1 && Select(groups).Ok? && Top(groups[..|groups| - 1], k)
    requires Select(groups[..|groups| - 1]) == Ok(groups[..|groups| - 1][k])
    ensures Top(groups, w) && Select(groups).value == groups[w]
  {
    var before, last := groups[..|groups| - 1], groups[|groups| - 1];
    SelectStep(groups);
    w := TopExtends(before, k, last);
    assert before + [last] == groups;
  }

  // The winner does not depend on the order of the list: two orders that both succeed
  // select the same group.
  lemma WinnerIsOrderIndependent(groups: seq<Info>, other: seq<Info>)
    requires multiset(groups) == multiset(other)
    requires Select(groups).Ok? && Select(other).Ok?
    ensures Select(groups).value == Select(other).value
  {
    var w := SelectedIsTop(groups);
    var v := SelectedIsTop(other);
    assert groups[w] in multiset(groups) && other[v] in multiset(other);
    assert groups[w] in other && other[v] in groups;
    var i :| 0 <= i < |other| && other[i] == groups[w];
    var j :| 0 <= j < |groups| && groups[j] == other[v];
    assert i != v ==> Outranks(other[v], other[i]);
    assert j != w ==> Outranks(groups[w], groups[j]);
  }

  // ---------- success depends on the order ----------

  // Group n can merge with the highest-ranked of the groups before it.
  ghost predicate Joins(groups: seq<Info>, n: nat)
    requires n < |groups|
  {
    exists w: nat :: w < n && Top(groups[..n], w) && Mergeable(groups[w], groups[n])
  }

  lemma OneTop(groups: seq<Info>, w: nat, v: nat)
    requires Top(groups, w) && Top(groups, v)
    ensures w == v
  {
    var first, second := groups[w], groups[v];
    assert !(Outranks(first, second) && Outranks(second, first));
  }

  ghost predicate AllJoin(groups: seq<Info>) {
    groups != [] && forall n: nat :: 1 <= n < |groups| ==> Joins(groups, n)
  }

  // A list succeeds exactly when each group can merge with the highest-ranked before it.
  lemma {:induction false} SelectSucceedsIff(groups: seq<Info>)
    ensures Select(groups).Ok? <==> AllJoin(groups)
  {
    if |groups| > 1 {
      SelectSucceedsIff(groups[..|groups| - 1]);
      AllJoinStep(groups);
      LastJoins(groups);
    }
  }

  lemma AllJoinStep(groups: seq<Info>)
    requires |groups| > 1
    ensures AllJoin(groups) <==> AllJoin(groups[..|groups| - 1]) && Joins(groups, |groups| - 1)
  {
    PrefixJoins(groups, |groups| - 1);
  }

  lemma LastJoins(groups: seq<Info>)
    requires |groups| > 1
    ensures Select(groups).Ok? <==> Select(groups[..|groups| - 1]).Ok? && Joins(groups, |groups| - 1)
  {
    SelectStep(groups);
    if Select(groups[..|groups| - 1]).Ok? { LastJoinsIff(groups); }
  }

  lemma LastJoinsIff(groups: seq<Info>)
    requires |groups| > 1 && Select(groups[..|groups| - 1]).Ok?
    ensures Select(groups).Ok? <==> Joins(groups, |groups| - 1)
  {
    var last := |groups| - 1;
    SelectStep(groups);
    var w := SelectedIsTop(groups[..last]);
    if Joins(groups, last) {
      var v: nat :| v < last && Top(groups[..last], v) && Mergeable(groups[v], groups[last]);
      OneTop(groups[..last], w, v);
    }
  }

  lemma PrefixJoins(groups: seq<Info>, last: nat)
    requires last < |groups|
    ensures forall n: nat :: n < last ==> Joins(groups[..last], n) == Joins(groups, n)
  {
    forall n: nat | n < last ensures Joins(groups[..last], n) == Joins(groups, n) { JoinsPrefix(groups, last, n); }
  }

  lemma JoinsPrefix(groups: seq<Info>, last: nat, n: nat)
    requires n < last <= |groups|
    ensures Joins(groups[..last], n) == Joins(groups, n)
  {
    assert groups[..last][..n] == groups[..n];
    forall w: nat | w < n ensures groups[..last][w] == groups[w] {}
  }

  ghost predicate PairwiseMergeable(groups: seq<Info>) {
    forall i, j :: 0 <= i < |groups| && 0 <= j < |groups| && i != j ==> Mergeable(groups[i], groups[j])
  }

  // When every two groups can merge, every order succeeds.
  lemma {:induction false} PairwiseSucceeds(groups: seq<Info>)
    requires groups != [] && PairwiseMergeable(groups)
    ensures Select(groups).Ok?
  {
    if |groups| > 1 {
      var before := groups[..|groups| - 1];
      assert PairwiseMergeable(before) by {
        forall i, j | 0 <= i < |before| && 0 <= j < |before| && i != j ensures Mergeable(before[i], before[j]) {
          assert Mergeable(groups[i], groups[j]);
        }
      }
      PairwiseSucceeds(before);
      var w := SelectedIsTop(before);
      assert Mergeable(groups[w], groups[|groups| - 1]);
    }
  }

  // ---------- when the order does not matter ----------

  ghost predicate EveryOrderSucceeds(groups: seq<Info>) {
    forall other: seq<Info> :: multiset(other) == multiset(groups) ==> Select(other).Ok?
  }

  // A failed prefix fails the list.
  lemma {:induction false} FailurePropagates(groups: seq<Info>, n: nat)
    requires 1 <= n <= |groups| && Select(groups[..n]).Err?
    ensures Select(groups).Err?
  {
    if n == |groups| {
      assert groups[..n] == groups;
    } else {
      var before := groups[..|groups| - 1];
      assert before[..n] == groups[..n];
      FailurePropagates(before, n);
    }
  }

  // Two positions of a list, moved to its front.
  function Fronted(groups: seq<Info>, i: nat, j: nat): seq<Info>
    requires i < j < |groups|
  {
    [groups[i], groups[j]] + (groups[..i] + groups[i + 1..j] + groups[j + 1..])
  }

  lemma FrontedSame(groups: seq<Info>, i: nat, j: nat)
    requires i < j < |groups|
    ensures multiset(Fronted(groups, i, j)) == multiset(groups)
  {
    assert groups == groups[..i] + [groups[i]] + groups[i + 1..j] + [groups[j]] + groups[j + 1..];
  }

  // Two groups that cannot merge fail the order in which they come first.
  lemma BadPairFails(groups: seq<Info>, i: nat, j: nat)
    requires i < j < |groups| && !Mergeable(groups[i], groups[j])
    ensures !EveryOrderSucceeds(groups)
  {
    var other := Fronted(groups, i, j);
    FrontedSame(groups, i, j);
    assert other[..2] == [groups[i], groups[j]] && other[..2][..1] == [groups[i]];
    SelectStep(other[..2]);
    FailurePropagates(other, 2);
  }

  // A list is one of its elements and the rest.
  lemma OneRemoved<T>(list: seq<T>, a: nat)
    requires a < |list|
    ensures multiset(list) == multiset(list[..a] + list[a + 1..]) + multiset{list[a]}
  {
    assert list == list[..a] + [list[a]] + list[a + 1..];
  }

  // Two elements of a multiset stand at two positions of every list of it.
  lemma PairStands<T>(list: seq<T>, x: T, y: T) returns (a: nat, b: nat)
    requires multiset{x, y} <= multiset(list)
    ensures a < |list| && b < |list| && a != b && list[a] == x && list[b] == y
  {
    assert multiset{x, y}[x] > 0;
    assert x in list;
    a :| a < |list| && list[a] == x;
    var rest := list[..a] + list[a + 1..];
    OneRemoved(list, a);
    assert multiset{x, y}[y] <= multiset(list)[y];
    assert multiset(rest)[y] > 0;
    assert y in rest;
    var k :| 0 <= k < |rest| && rest[k] == y;
    b := if k < a then k else k + 1;
  }

  lemma PairOfList(groups: seq<Info>, i: nat, j: nat)
    requires i < j < |groups|
    ensures multiset{groups[i], groups[j]} <= multiset(groups)
  {
    FrontedSame(groups, i, j);
    var rest := groups[..i] + groups[i + 1..j] + groups[j + 1..];
    assert multiset(Fronted(groups, i, j)) == multiset([groups[i], groups[j]]) + multiset(rest);
    assert multiset([groups[i], groups[j]]) == multiset{groups[i], groups[j]};
  }

  lemma PairwiseInEveryOrder(groups: seq<Info>, other: seq<Info>)
    requires multiset(other) == multiset(groups) && PairwiseMergeable(groups)
    ensures PairwiseMergeable(other)
  {
    forall i, j | 0 <= i < |other| && 0 <= j < |other| && i != j ensures Mergeable(other[i], other[j]) {
      PairOfList(other, if i < j then i else j, if i < j then j else i);
      assert multiset{other[i], other[j]} == multiset{other[j], other[i]};
      var a, b := PairStands(groups, other[i], other[j]);
    }
  }

  // Whether converging groups merge depends on the order in which they are taken, unless
  // every two of them can merge: exactly then every order succeeds.
  lemma EveryOrderSucceedsIff(groups: seq<Info>)
    requires groups != []
    ensures EveryOrderSucceeds(groups) <==> PairwiseMergeable(groups)
  {
    if PairwiseMergeable(groups) {
      forall other: seq<Info> | multiset(other) == multiset(groups) ensures Select(other).Ok? {
        PairwiseInEveryOrder(groups, other);
        assert other != [] by { assert groups[0] in multiset(groups); }
        PairwiseSucceeds(other);
      }
    } else {
      var i, j :| 0 <= i < |groups| && 0 <= j < |groups| && i != j && !Mergeable(groups[i], groups[j]);
      EvaluationIsSymmetric(groups[i], groups[j]);
      if i < j { BadPairFails(groups, i, j); } else { BadPairFails(groups, j, i); }
    }
  }

  // Three groups, two of them with one GroupId.
  const LARGE := Info(0, OpenProximity, true, OpenTofu, false, 0, 1, [Member(1, 8), Member(2, 8)])
  const SMALL := Info(0, OpenProximity, true, OpenTofu, false, 0, 2, [Member(3, 8)])
  const TWIN := Info(0, OpenProximity, true, OpenTofu, false, 0, 2, [Member(4, 8)])

  lemma LargeMergesWith(small: Info)
    requires small == SMALL || small == TWIN
    ensures Evaluate(LARGE, small).Ok? && Evaluate(LARGE, small).value.decision == Merge
    ensures Evaluate(LARGE, small).value.winner == Some(LARGE)
  {
    var p := small.members[0].peer;
    var all := LARGE.members + small.members;
    assert all[..2][..1][..0] == [];
    assert all[..2][..1] == [Member(1, 8)] && all[..2] == [Member(1, 8), Member(2, 8)];
    assert Collect(all[..2][..1]) == map[1 := 8];
    assert Collect(all[..2]) == map[1 := 8, 2 := 8];
    assert Collect(all) == map[1 := 8, 2 := 8, p := 8];
    EvaluationMeaning(LARGE, small);
    assert |Collect(all)| == 3;
  }

  // The same three groups converge in one order and are rejected in another.
  lemma SuccessDependsOnOrder()
    ensures Select([LARGE, SMALL, TWIN]) == Ok(LARGE)
    ensures Select([SMALL, TWIN, LARGE]) == Err(GroupMergeRejected)
    ensures multiset([LARGE, SMALL, TWIN]) == multiset([SMALL, TWIN, LARGE])
  {
    var good, bad := [LARGE, SMALL, TWIN], [SMALL, TWIN, LARGE];
    assert good[..2][..1] == [LARGE] && good[..2] == [LARGE, SMALL];
    assert bad[..2][..1] == [SMALL] && bad[..2] == [SMALL, TWIN];
    LargeMergesWith(SMALL);
    LargeMergesWith(TWIN);
    assert Select(good[..2][..1]) == Ok(LARGE);
    assert Select(good[..2]) == Ok(LARGE);
    assert Evaluate(SMALL, TWIN) == Ok(Refused(SameGroup));
    assert Select(bad[..2][..1]) == Ok(SMALL);
    assert Select(bad[..2]) == Err(GroupMergeRejected);
  }
}
