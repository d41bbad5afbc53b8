/**
 The majority decision of DataProtector::getData (daemon/SecretsImpl/dataprotector.cpp:147-184): the in-place
 reordering, the counting loops and the maximum loop, proved against the definition of a strict majority.
 */
module MajorityVote {
  import opened Bytes

  datatype Verdict = Winner(data: ByteArray) | NoMajority

  /** More than half of the copies are `v`. */
  ghost predicate Majority(copies: seq<ByteArray>, v: ByteArray) {
    2 * multiset(copies)[v] > |copies|
  }

  /** The verdict a vote over these copies must reach. */
  ghost predicate Decides(copies: seq<ByteArray>, verdict: Verdict) {
    match verdict
    case Winner(v) => Majority(copies, v)
    case NoMajority => forall v :: !Majority(copies, v)
  }

  lemma {:induction false} TwoValuesFit(copies: seq<ByteArray>, v: ByteArray, w: ByteArray)
    requires v != w
    ensures multiset(copies)[v] + multiset(copies)[w] <= |copies|
  {
    if copies != [] {
      assert copies == [copies[0]] + copies[1..];
      TwoValuesFit(copies[1..], v, w);
    }
  }

  /** There is one right verdict, and it does not depend on the order of the copies. */
  lemma VerdictIsUnique(copies: seq<ByteArray>, permuted: seq<ByteArray>, a: Verdict, b: Verdict)
    requires multiset(copies) == multiset(permuted)
    requires Decides(copies, a) && Decides(permuted, b)
    ensures a == b
  {
    assert |copies| == |multiset(copies)| == |multiset(permuted)| == |permuted|;
    if a.Winner? && b.Winner? && a.data != b.data { TwoValuesFit(copies, a.data, b.data); }
    if a.Winner? && b.NoMajority? { assert Majority(permuted, a.data); }
    if b.Winner? && a.NoMajority? { assert Majority(copies, b.data); }
  }

  // ---- the loops ------------------------------------------------------------------------------------

  /** std::remove_if with its result thrown away: the empty copies move back but are not dropped. */
  method MoveEmptyBack(a: array<ByteArray>)
    modifies a
    ensures multiset(a[..]) == old(multiset(a[..]))
    ensures forall i, j :: 0 <= i < j < a.Length && a[i] == [] ==> a[j] == []
  {
    var first := 0;
    while first < a.Length && a[first] != []
      invariant 0 <= first <= a.Length && forall j :: 0 <= j < first ==> a[j] != []
    {
      first := first + 1;
    }
    if first == a.Length { return; }
    for i := first + 1 to a.Length
      invariant 0 <= first < i
      invariant forall j :: 0 <= j < first ==> a[j] != []
      invariant forall j :: first <= j < i ==> a[j] == []
      invariant multiset(a[..]) == old(multiset(a[..]))
    {
      if a[i] != [] {
        a[first], a[i] := a[i], a[first];
        first := first + 1;
      }
    }
  }

  /** No earlier copy holds the same bytes. */
  ghost predicate IsFirst(copies: seq<ByteArray>, i: nat)
    requires i < |copies|
  {
    forall j :: 0 <= j < i ==> copies[j] != copies[i]
  }

  lemma FindFirst(copies: seq<ByteArray>, v: ByteArray) returns (k: nat)
    requires v in copies
    ensures k < |copies| && copies[k] == v && IsFirst(copies, k)
  {
    k := 0;
    while copies[k] != v
      invariant k < |copies| && forall j :: 0 <= j < k ==> copies[j] != v
      invariant v in copies[k..]
      decreases |copies| - k
    {
      k := k + 1;
    }
  }

  /** How often `v` stands among the first `n` copies. */
  ghost function Times(copies: seq<ByteArray>, n: nat, v: ByteArray): nat
    requires n <= |copies|
  {
    multiset(copies[..n])[v]
  }

  lemma TimesNext(copies: seq<ByteArray>, n: nat)
    requires n < |copies|
    ensures forall v :: Times(copies, n + 1, v) == Times(copies, n, v) + if v == copies[n] then 1 else 0
  {
    assert copies[..n + 1] == copies[..n] + [copies[n]];
  }

  /** Each copy is counted at the first position that holds the same bytes. */
  ghost predicate Counted(copies: seq<ByteArray>, n: nat, tally: seq<int>)
    requires n <= |copies|
  {
    && |tally| == |copies|
    && forall i :: 0 <= i < |copies| ==> tally[i] == if IsFirst(copies, i) then Times(copies, n, copies[i]) else 0
  }

  lemma CountOneMore(copies: seq<ByteArray>, n: nat, i: nat, before: seq<int>, after: seq<int>)
    requires n < |copies| && Counted(copies, n, before)
    requires i < |copies| && copies[i] == copies[n] && IsFirst(copies, i)
    requires after == before[i := before[i] + 1]
    ensures Counted(copies, n + 1, after)
  {
    TimesNext(copies, n);
    hide Times;
    forall j | 0 <= j < |copies|
      ensures after[j] == if IsFirst(copies, j) then Times(copies, n + 1, copies[j]) else 0
    {
      if j != i && copies[j] == copies[n] { assert !IsFirst(copies, j); }
    }
  }

  /** The inner loop: where the copy at `n` is counted. */
  method SlotOf(copies: seq<ByteArray>, n: nat) returns (i: nat)
    requires n < |copies|
    ensures i <= n && copies[i] == copies[n] && IsFirst(copies, i)
  {
    i := 0;
    while copies[n] != copies[i]
      invariant 0 <= i <= n
      invariant forall j :: 0 <= j < i ==> copies[j] != copies[n]
      decreases n - i
    {
      i := i + 1;
    }
  }

  method CountOccurrences(copies: seq<ByteArray>) returns (tally: seq<int>)
    ensures Counted(copies, |copies|, tally)
  {
    tally := seq(|copies|, _ => 0);
    NoneCounted(copies, tally);
    hide IsFirst, Times;
    for n := 0 to |copies|
      invariant Counted(copies, n, tally)
    {
      var i := SlotOf(copies, n);
      CountOneMore(copies, n, i, tally, tally[i := tally[i] + 1]);
      tally := tally[i := tally[i] + 1];
    }
  }

  lemma NoneCounted(copies: seq<ByteArray>, tally: seq<int>)
    requires |tally| == |copies| && forall i :: 0 <= i < |tally| ==> tally[i] == 0
    ensures Counted(copies, 0, tally)
  {
  }

  method MaximumIndex(tally: seq<int>) returns (m: nat)
    requires |tally| > 0
    ensures m < |tally| && forall i :: 0 <= i < |tally| ==> tally[i] <= tally[m]
  {
    m := 0;
    for i := 0 to |tally|
      invariant m < |tally|
      invariant forall j :: 0 <= j < i ==> tally[j] <= tally[m]
    {
      if tally[i] > tally[m] {
        m := i;
      }
    }
  }

  /** The vote: sound and complete for any number of copies. */
  method Vote(copies: seq<ByteArray>) returns (verdict: Verdict)
    ensures Decides(copies, verdict)
  {
    if |copies| == 0 {
      return NoMajority;
    }
    var tally := CountOccurrences(copies);
    var m := MaximumIndex(tally);
    var minimumValid := |copies| / 2 + 1;
    assert copies[..|copies|] == copies;
    if tally[m] < minimumValid {
      forall v ensures !Majority(copies, v) {
        if v in copies {
          var f := FindFirst(copies, v);
          assert tally[f] == Times(copies, |copies|, v);
        }
      }
      return NoMajority;
    }
    assert tally[m] == Times(copies, |copies|, copies[m]);
    return Winner(copies[m]);
  }
}
