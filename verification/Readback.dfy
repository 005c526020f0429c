/** The controller's set-and-length check on export receipts is exactly "a verified permutation of the manifest". */
module Readback {
  import opened StagingTypes
  import opened ControllerProtocol

  function OutputIds(outputs: seq<Output>): seq<Identity> {
    seq(|outputs|, i requires 0 <= i < |outputs| => Identity(outputs[i].key, outputs[i].size, outputs[i].sha))
  }

  function ReceiptIds(receipts: seq<OutputReceipt>): seq<Identity> {
    seq(|receipts|, i requires 0 <= i < |receipts| => Identity(receipts[i].key, receipts[i].bytes, receipts[i].sha))
  }

  function VerifiedIds(receipts: seq<OutputReceipt>): seq<Identity> {
    if receipts == [] then []
    else
      var n := |receipts| - 1;
      VerifiedIds(receipts[..n])
      + if receipts[n].verified then [Identity(receipts[n].key, receipts[n].bytes, receipts[n].sha)] else []
  }

  predicate AllVerified(receipts: seq<OutputReceipt>) {
    forall i :: 0 <= i < |receipts| ==> receipts[i].verified
  }

  predicate Distinct(ids: seq<Identity>) {
    forall i, k :: 0 <= i < k < |ids| ==> ids[i] != ids[k]
  }

  function Elements(ids: seq<Identity>): set<Identity> { set x | x in ids }

  lemma {:induction false} ElementsBound(ids: seq<Identity>)
    ensures |Elements(ids)| <= |ids|
    ensures |Elements(ids)| == |ids| <==> Distinct(ids)
  {
    if ids == [] {
      assert Elements(ids) == {};
    } else {
      var n := |ids| - 1;
      var front := ids[..n];
      ElementsBound(front);
      assert ids == front + [ids[n]];
      assert Elements(ids) == Elements(front) + {ids[n]};
      OneMoreDistinct(front, ids[n]);
      hide Distinct;
      if ids[n] in front {
        assert Elements(ids) == Elements(front);
      }
    }
  }

  lemma OneMoreDistinct(front: seq<Identity>, x: Identity)
    ensures Distinct(front + [x]) <==> Distinct(front) && x !in front
  {
    var ids := front + [x];
    if Distinct(ids) {
      forall i, k | 0 <= i < k < |front| ensures front[i] != front[k] { assert ids[i] != ids[k]; }
      forall i | 0 <= i < |front| ensures front[i] != x { assert ids[i] != ids[|front|]; }
    }
  }

  lemma {:induction false} DistinctCounts(ids: seq<Identity>, x: Identity)
    requires Distinct(ids)
    ensures multiset(ids)[x] == if x in ids then 1 else 0
  {
    if ids != [] {
      var n := |ids| - 1;
      DistinctCounts(ids[..n], x);
      assert ids == ids[..n] + [ids[n]];
    }
  }

  lemma SameElementsSameCounts(a: seq<Identity>, b: seq<Identity>)
    requires Distinct(a) && Distinct(b) && Elements(a) == Elements(b)
    ensures multiset(a) == multiset(b)
  {
    forall x ensures multiset(a)[x] == multiset(b)[x] {
      DistinctCounts(a, x);
      DistinctCounts(b, x);
      assert x in a <==> x in Elements(a);
      assert x in b <==> x in Elements(b);
    }
  }

  lemma {:induction false} VerifiedIdsProperties(receipts: seq<OutputReceipt>)
    ensures Elements(VerifiedIds(receipts)) == VerifiedIdentities(receipts)
    ensures |VerifiedIds(receipts)| <= |receipts|
    ensures |VerifiedIds(receipts)| == |receipts| <==> AllVerified(receipts)
    ensures AllVerified(receipts) ==> VerifiedIds(receipts) == ReceiptIds(receipts)
  {
    if receipts != [] {
      var n := |receipts| - 1;
      var front := receipts[..n];
      VerifiedIdsProperties(front);
      var last := if receipts[n].verified then {Identity(receipts[n].key, receipts[n].bytes, receipts[n].sha)} else {};
      assert VerifiedIdentities(receipts) == VerifiedIdentities(front) + last by {
        forall x | x in VerifiedIdentities(receipts) ensures x in VerifiedIdentities(front) + last {
          var i :| 0 <= i < |receipts| && receipts[i].verified && x == Identity(receipts[i].key, receipts[i].bytes, receipts[i].sha);
          if i < n { assert front[i] == receipts[i]; }
        }
        forall x | x in VerifiedIdentities(front) ensures x in VerifiedIdentities(receipts) {
          var i :| 0 <= i < |front| && front[i].verified && x == Identity(front[i].key, front[i].bytes, front[i].sha);
          assert receipts[i] == front[i];
        }
      }
      assert Elements(VerifiedIds(receipts)) == Elements(VerifiedIds(front)) + last;
      assert AllVerified(receipts) <==> AllVerified(front) && receipts[n].verified;
    }
  }

  lemma OutputElements(outputs: seq<Output>)
    ensures Elements(OutputIds(outputs)) == OutputIdentities(outputs)
    ensures UniqueKeys(outputs) ==> Distinct(OutputIds(outputs))
  {
    forall x | x in OutputIdentities(outputs) ensures x in OutputIds(outputs) {
      var i :| 0 <= i < |outputs| && x == Identity(outputs[i].key, outputs[i].size, outputs[i].sha);
      assert OutputIds(outputs)[i] == x;
    }
  }

  /** Both directions: the check passes exactly for the verified permutations of the manifest. */
  lemma AccountedIsPermutation(outputs: seq<Output>, receipts: seq<OutputReceipt>)
    requires UniqueKeys(outputs)
    ensures ReadbackAccounted(outputs, receipts)
            <==> AllVerified(receipts) && multiset(ReceiptIds(receipts)) == multiset(OutputIds(outputs))
  {
    OutputElements(outputs);
    VerifiedIdsProperties(receipts);
    ElementsBound(OutputIds(outputs));
    ElementsBound(VerifiedIds(receipts));
    ElementsBound(ReceiptIds(receipts));
    if ReadbackAccounted(outputs, receipts) {
      SameElementsSameCounts(ReceiptIds(receipts), OutputIds(outputs));
    }
    if AllVerified(receipts) && multiset(ReceiptIds(receipts)) == multiset(OutputIds(outputs)) {
      forall x ensures x in ReceiptIds(receipts) <==> x in OutputIds(outputs) {
        assert x in ReceiptIds(receipts) <==> x in multiset(ReceiptIds(receipts));
        assert x in OutputIds(outputs) <==> x in multiset(OutputIds(outputs));
      }
      assert Elements(ReceiptIds(receipts)) == Elements(OutputIds(outputs));
      assert |multiset(ReceiptIds(receipts))| == |receipts| && |multiset(OutputIds(outputs))| == |outputs|;
    }
  }

  function Total(ids: seq<Identity>): nat {
    if ids == [] then 0 else Total(ids[..|ids| - 1]) + ids[|ids| - 1].size
  }

  lemma {:induction false} TotalWithout(ids: seq<Identity>, i: nat)
    requires i < |ids|
    ensures Total(ids) == Total(ids[..i] + ids[i + 1..]) + ids[i].size
    decreases |ids|
  {
    var n := |ids| - 1;
    if i == n {
      assert ids[..i] + ids[i + 1..] == ids[..n];
    } else {
      var front := ids[..n];
      TotalWithout(front, i);
      var less := ids[..i] + ids[i + 1..];
      assert less[..|less| - 1] == front[..i] + front[i + 1..];
    }
  }

  lemma CountsWithout(ids: seq<Identity>, i: nat)
    requires i < |ids|
    ensures multiset(ids) == multiset(ids[..i] + ids[i + 1..]) + multiset{ids[i]}
  {
    assert ids == ids[..i] + [ids[i]] + ids[i + 1..];
  }

  lemma {:induction false} PermutationTotal(a: seq<Identity>, b: seq<Identity>)
    requires multiset(a) == multiset(b)
    ensures Total(a) == Total(b)
    decreases |a|
  {
    hide Total;
    if a == [] {
      assert |b| == |multiset(b)| == 0;
    } else {
      var n := |a| - 1;
      CountsWithout(a, n);
      assert a[..n] + a[n + 1..] == a[..n];
      assert a[n] in multiset(b);
      var i :| 0 <= i < |b| && b[i] == a[n];
      CountsWithout(b, i);
      SameRest(multiset(a[..n]), multiset(b[..i] + b[i + 1..]), a[n]);
      PermutationTotal(a[..n], b[..i] + b[i + 1..]);
      TotalWithout(a, n);
      TotalWithout(b, i);
    }
  }

  lemma SameRest(a: multiset<Identity>, b: multiset<Identity>, x: Identity)
    requires a + multiset{x} == b + multiset{x}
    ensures a == b
  {
    forall y ensures a[y] == b[y] {
      assert (a + multiset{x})[y] == (b + multiset{x})[y];
    }
  }

  lemma {:induction false} TotalsAreBytes(outputs: seq<Output>, receipts: seq<OutputReceipt>)
    ensures Total(OutputIds(outputs)) == Bytes(outputs)
    ensures Total(ReceiptIds(receipts)) == ReceiptBytes(receipts)
    decreases |outputs| + |receipts|
  {
    if outputs != [] {
      TotalsAreBytes(outputs[..|outputs| - 1], receipts);
      assert OutputIds(outputs)[..|outputs| - 1] == OutputIds(outputs[..|outputs| - 1]);
    } else if receipts != [] {
      TotalsAreBytes(outputs, receipts[..|receipts| - 1]);
      assert ReceiptIds(receipts)[..|receipts| - 1] == ReceiptIds(receipts[..|receipts| - 1]);
    }
  }

  /** Conservation: accepted receipts carry exactly the manifest's bytes. */
  lemma {:induction false} AccountedBytes(outputs: seq<Output>, receipts: seq<OutputReceipt>)
    requires UniqueKeys(outputs) && ReadbackAccounted(outputs, receipts)
    ensures ReceiptBytes(receipts) == Bytes(outputs) && |receipts| == |outputs|
  {
    AccountedIsPermutation(outputs, receipts);
    PermutationTotal(ReceiptIds(receipts), OutputIds(outputs));
    TotalsAreBytes(outputs, receipts);
    assert |multiset(ReceiptIds(receipts))| == |receipts| && |multiset(OutputIds(outputs))| == |outputs|;
  }
}
