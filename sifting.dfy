/**
 Key sifting and error estimation of the BB84 simulation (`bb84` in main.py,
 steps 5 and 6): keep Alice's bits and Bob's measurement results at the
 positions where Alice's and Bob's bases agree, count the positions where the
 two sifted keys differ, and take their fraction as the quantum bit error
 rate (QBER).

 The random draws and the simulator's measurement results are inputs; all
 four sequences have `numBits` entries.
 */
module Sifting {
  import opened Wrappers

  /** The indices below |aliceBases| where the two bases agree, in increasing order. */
  function AgreeingIndices(aliceBases: seq<int>, bobBases: seq<int>): (idx: seq<nat>)
    requires |aliceBases| == |bobBases|
    ensures |idx| <= |aliceBases|
    ensures forall k :: 0 <= k < |idx| ==> idx[k] < |aliceBases| && aliceBases[idx[k]] == bobBases[idx[k]]
    ensures forall k, l :: 0 <= k < l < |idx| ==> idx[k] < idx[l]
    ensures forall i :: 0 <= i < |aliceBases| && aliceBases[i] == bobBases[i] ==> i in idx
    decreases |aliceBases|
  {
    if aliceBases == [] then []
    else
      var n := |aliceBases| - 1;
      AgreeingIndices(aliceBases[..n], bobBases[..n]) + (if aliceBases[n] == bobBases[n] then [n] else [])
  }

  /** `xs` restricted to the positions where the bases agree (what the sifting loop appends). */
  function Sifted(xs: seq<int>, aliceBases: seq<int>, bobBases: seq<int>): seq<int>
    requires |xs| == |aliceBases| == |bobBases|
    decreases |xs|
  {
    if xs == [] then []
    else
      var n := |xs| - 1;
      Sifted(xs[..n], aliceBases[..n], bobBases[..n]) + (if aliceBases[n] == bobBases[n] then [xs[n]] else [])
  }

  /**
   The sifted key is the input read at the agreeing indices, in increasing
   index order: its k-th bit is the bit at the k-th agreeing index.
   */
  lemma {:induction false} SiftedIsRestriction(xs: seq<int>, aliceBases: seq<int>, bobBases: seq<int>)
    requires |xs| == |aliceBases| == |bobBases|
    ensures |Sifted(xs, aliceBases, bobBases)| == |AgreeingIndices(aliceBases, bobBases)|
    ensures forall k :: 0 <= k < |AgreeingIndices(aliceBases, bobBases)| ==>
              Sifted(xs, aliceBases, bobBases)[k] == xs[AgreeingIndices(aliceBases, bobBases)[k]]
  {
    if xs != [] {
      var n := |xs| - 1;
      var a, b := aliceBases[..n], bobBases[..n];
      SiftedIsRestriction(xs[..n], a, b);
      var s, idx := Sifted(xs[..n], a, b), AgreeingIndices(a, b);
      if aliceBases[n] == bobBases[n] {
        assert Sifted(xs, aliceBases, bobBases) == s + [xs[n]];
        assert AgreeingIndices(aliceBases, bobBases) == idx + [n];
      } else {
        assert Sifted(xs, aliceBases, bobBases) == s + [];
        assert AgreeingIndices(aliceBases, bobBases) == idx + [];
        assert s + [] == s && idx + [] == idx;
      }
    }
  }

  /** The sum over `zip(a, b)` of `a != b`: the number of positions where the keys differ. */
  function Mismatches(a: seq<int>, b: seq<int>): (e: nat)
    ensures e <= |a| && e <= |b|
    decreases |a|
  {
    if a == [] || b == [] then 0
    else (if a[0] != b[0] then 1 else 0) + Mismatches(a[1..], b[1..])
  }

  /** Two keys of equal length have no mismatch exactly when they are equal. */
  lemma {:induction false} NoMismatchesIffEqual(a: seq<int>, b: seq<int>)
    requires |a| == |b|
    ensures Mismatches(a, b) == 0 <==> a == b
  {
    if a != [] {
      NoMismatchesIffEqual(a[1..], b[1..]);
      if a[0] == b[0] && a[1..] == b[1..] {
        assert a == [a[0]] + a[1..] && b == [b[0]] + b[1..];
      }
    }
  }

  /** `errors / len(sifted)` when something was sifted, else 0. */
  function Qber(errors: nat, siftedLength: nat): (q: real)
    requires errors <= siftedLength
    ensures 0.0 <= q <= 1.0
    ensures siftedLength == 0 ==> q == 0.0
    ensures siftedLength > 0 ==> q * siftedLength as real == errors as real
    ensures q == 0.0 <==> errors == 0
  {
    if siftedLength == 0 then 0.0 else errors as real / siftedLength as real
  }

  /**
   Steps 5 and 6 of `bb84`: the sifting loop, the error count and the QBER.
   */
  method SiftAndEstimate(numBits: nat, aliceBits: seq<int>, aliceBases: seq<int>, bobBases: seq<int>, results: seq<int>)
    returns (siftedKeyAlice: seq<int>, siftedKeyBob: seq<int>, errors: nat, qber: real)
    requires |aliceBits| == numBits && |aliceBases| == numBits && |bobBases| == numBits && |results| == numBits
    ensures siftedKeyAlice == Sifted(aliceBits, aliceBases, bobBases)
    ensures siftedKeyBob == Sifted(results, aliceBases, bobBases)
    ensures |siftedKeyAlice| == |siftedKeyBob| == |AgreeingIndices(aliceBases, bobBases)| <= numBits
    ensures errors == Mismatches(siftedKeyAlice, siftedKeyBob) <= |siftedKeyAlice|
    ensures siftedKeyAlice == [] ==> qber == 0.0
    ensures siftedKeyAlice != [] ==> qber == errors as real / |siftedKeyAlice| as real
    ensures 0.0 <= qber <= 1.0
  {
    siftedKeyAlice := [];
    siftedKeyBob := [];
    for i := 0 to numBits
      invariant siftedKeyAlice == Sifted(aliceBits[..i], aliceBases[..i], bobBases[..i])
      invariant siftedKeyBob == Sifted(results[..i], aliceBases[..i], bobBases[..i])
    {
      assert aliceBits[..i + 1][..i] == aliceBits[..i];
      assert results[..i + 1][..i] == results[..i];
      assert aliceBases[..i + 1][..i] == aliceBases[..i];
      assert bobBases[..i + 1][..i] == bobBases[..i];
      if aliceBases[i] == bobBases[i] {
        siftedKeyAlice := siftedKeyAlice + [aliceBits[i]];
        siftedKeyBob := siftedKeyBob + [results[i]];
      }
    }
    assert aliceBits[..numBits] == aliceBits && results[..numBits] == results;
    assert aliceBases[..numBits] == aliceBases && bobBases[..numBits] == bobBases;
    SiftedIsRestriction(aliceBits, aliceBases, bobBases);
    SiftedIsRestriction(results, aliceBases, bobBases);
    errors := Mismatches(siftedKeyAlice, siftedKeyBob);
    qber := Qber(errors, |siftedKeyAlice|);
  }

  /**
   Without disturbance on the channel (Bob's result equals Alice's bit at every
   position where the bases agree) the sifted keys agree, so no error is counted
   and the QBER is 0.
   */
  lemma NoDisturbanceNoErrors(aliceBits: seq<int>, aliceBases: seq<int>, bobBases: seq<int>, results: seq<int>)
    requires |aliceBits| == |aliceBases| == |bobBases| == |results|
    requires forall i :: 0 <= i < |aliceBits| && aliceBases[i] == bobBases[i] ==> results[i] == aliceBits[i]
    ensures Sifted(aliceBits, aliceBases, bobBases) == Sifted(results, aliceBases, bobBases)
    ensures Mismatches(Sifted(aliceBits, aliceBases, bobBases), Sifted(results, aliceBases, bobBases)) == 0
  {
    SiftedIsRestriction(aliceBits, aliceBases, bobBases);
    SiftedIsRestriction(results, aliceBases, bobBases);
    var a := Sifted(aliceBits, aliceBases, bobBases);
    var b := Sifted(results, aliceBases, bobBases);
    assert forall k :: 0 <= k < |a| ==> a[k] == b[k];
    NoMismatchesIffEqual(a, b);
  }

  /**
   Conversely, an error is counted as soon as Bob's result differs from Alice's
   bit at some position where the bases agree.
   */
  lemma DisturbanceIsCounted(aliceBits: seq<int>, aliceBases: seq<int>, bobBases: seq<int>, results: seq<int>, i: nat)
    requires |aliceBits| == |aliceBases| == |bobBases| == |results|
    requires i < |aliceBits| && aliceBases[i] == bobBases[i] && results[i] != aliceBits[i]
    ensures Mismatches(Sifted(aliceBits, aliceBases, bobBases), Sifted(results, aliceBases, bobBases)) > 0
  {
    SiftedIsRestriction(aliceBits, aliceBases, bobBases);
    SiftedIsRestriction(results, aliceBases, bobBases);
    var idx := AgreeingIndices(aliceBases, bobBases);
    var k :| 0 <= k < |idx| && idx[k] == i;
    var a := Sifted(aliceBits, aliceBases, bobBases);
    var b := Sifted(results, aliceBases, bobBases);
    assert a[k] != b[k];
    NoMismatchesIffEqual(a, b);
  }

  /**
   Bob's sifted key as main.py computes it when `results` may be shorter than
   the bases: `None` stands for the `IndexError` raised by `results[i]` at the
   first agreeing position past the end of `results`.
   */
  function SiftedBobAsWritten(aliceBases: seq<int>, bobBases: seq<int>, results: seq<int>): Option<seq<int>>
    requires |aliceBases| == |bobBases|
    decreases |aliceBases|
  {
    if aliceBases == [] then Some([])
    else
      var n := |aliceBases| - 1;
      var before := SiftedBobAsWritten(aliceBases[..n], bobBases[..n], results);
      if before.None? then None
      else if aliceBases[n] != bobBases[n] then before
      else if n < |results| then Some(before.value + [results[n]])
      else None
  }

  /**
   The measurement loop of main.py never fills `qubits`, so `results` stays
   empty; the sifting loop then fails as soon as one pair of bases agrees.
   */
  lemma {:induction false} EmptyResultsFailSifting(aliceBases: seq<int>, bobBases: seq<int>, i: nat)
    requires |aliceBases| == |bobBases|
    requires i < |aliceBases| && aliceBases[i] == bobBases[i]
    ensures SiftedBobAsWritten(aliceBases, bobBases, []) == None
    decreases |aliceBases|
  {
    var n := |aliceBases| - 1;
    if i < n {
      EmptyResultsFailSifting(aliceBases[..n], bobBases[..n], i);
    }
  }

  /**
   With a measurement result for every qubit, as the protocol intends, the
   loop never fails and computes the sifted key `Sifted` describes (of the
   first |aliceBases| results).
   */
  lemma {:induction false} FullResultsSiftCorrectly(aliceBases: seq<int>, bobBases: seq<int>, results: seq<int>)
    requires |aliceBases| == |bobBases| <= |results|
    ensures SiftedBobAsWritten(aliceBases, bobBases, results)
         == Some(Sifted(results[..|aliceBases|], aliceBases, bobBases))
    decreases |aliceBases|
  {
    if aliceBases != [] {
      var n := |aliceBases| - 1;
      var r := results[..|aliceBases|];
      FullResultsSiftCorrectly(aliceBases[..n], bobBases[..n], results);
      assert r[..n] == results[..n];
      var kept := Sifted(r[..n], aliceBases[..n], bobBases[..n]);
      assert kept + [] == kept;
    }
  }
}
