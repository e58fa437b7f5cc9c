/**
 * The ranking of physical devices in `InitDevice`: every enumerated device
 * with a positive score is inserted into a `std::multimap` keyed by score under
 * `std::greater<int>`, and the map is then read front to back.
 */
module Ranking {
  import opened Vulkan
  import opened QueueFamilies
  import opened Suitability

  /**
   * One entry of `rankedDevices`: the key (score), the value (the device and
   * its queue-family indices, held here by value), and the device's position in
   * the enumeration, which the proofs use to speak about ties.
   */
  datatype Candidate = Candidate(score: int, position: nat, device: PhysicalDevice, indices: QueueFamilyIndices)

  /**
   * What the loop body of `InitDevice` computes for the `k`-th enumerated
   * device. Since `isComplete()` always holds, the score of every device is its
   * `RateDeviceSuitability`, never the fallback 0 for incomplete indices.
   */
  function CandidateOf(devices: seq<PhysicalDevice>, k: nat): (c: Candidate)
    requires k < |devices|
    ensures c.score == RateDeviceSuitability(devices[k])
    ensures c.indices == ScannedIndices(devices[k].queueFamilies)
    ensures c.position == k && c.device == devices[k]
  {
    var indices := ScannedIndices(devices[k].queueFamilies);
    var score := if indices.IsComplete() then RateDeviceSuitability(devices[k]) else 0;
    Candidate(score, k, devices[k], indices)
  }

  /** A device is inserted into the ranking exactly when its score is positive. */
  predicate Qualifies(devices: seq<PhysicalDevice>, k: nat)
    requires k < |devices|
  {
    CandidateOf(devices, k).score > 0
  }

  /** At least one enumerated device qualifies. */
  predicate HasSuitableDevice(devices: seq<PhysicalDevice>)
  {
    exists k :: 0 <= k < |devices| && Qualifies(devices, k)
  }

  /**
   * Where `multimap::insert` puts a new entry with key `key`: at the upper
   * bound of the keys equal to it under `std::greater<int>`, that is, after
   * every entry whose key is at least `key` and before the first one whose key
   * is smaller.
   */
  function InsertionPoint(ranked: seq<Candidate>, key: int): (p: nat)
    ensures p <= |ranked|
    ensures forall k :: 0 <= k < p ==> ranked[k].score >= key
    ensures p < |ranked| ==> ranked[p].score < key
  {
    if ranked == [] || ranked[0].score < key then 0 else 1 + InsertionPoint(ranked[1..], key)
  }

  /** `rankedDevices.insert(...)`. */
  function Insert(ranked: seq<Candidate>, c: Candidate): (r: seq<Candidate>)
    ensures |r| == |ranked| + 1
    ensures multiset(r) == multiset(ranked) + multiset{c}
  {
    var p := InsertionPoint(ranked, c.score);
    assert ranked == ranked[..p] + ranked[p..];
    ranked[..p] + [c] + ranked[p..]
  }

  /** The candidates of all enumerated devices, in enumeration order. */
  function Enumerated(devices: seq<PhysicalDevice>): seq<Candidate>
  {
    seq(|devices|, k requires 0 <= k < |devices| => CandidateOf(devices, k))
  }

  /** Each candidate records its own position in the enumeration. */
  predicate Positioned(cs: seq<Candidate>)
  {
    forall k :: 0 <= k < |cs| ==> cs[k].position == k
  }

  /** The contents of `rankedDevices` after the candidates `cs` have been processed in order. */
  function RankingOf(cs: seq<Candidate>): (ranked: seq<Candidate>)
    ensures |ranked| <= |cs|
    ensures forall e :: e in ranked ==> e in cs && e.score > 0
  {
    if cs == [] then []
    else
      var ranked := RankingOf(cs[..|cs| - 1]);
      var c := cs[|cs| - 1];
      if c.score > 0 then Insert(ranked, c) else ranked
  }

  /** Processing one more candidate: it is inserted when its score is positive and skipped otherwise. */
  lemma RankingOfStep(cs: seq<Candidate>, k: nat)
    requires k < |cs|
    ensures RankingOf(cs[..k + 1]) ==
      if cs[k].score > 0 then Insert(RankingOf(cs[..k]), cs[k]) else RankingOf(cs[..k])
  {
    assert cs[..k + 1][..k] == cs[..k];
  }

  /** The final ranking, in the order the renderer copies it into `_gpu`. */
  function Ranked(devices: seq<PhysicalDevice>): seq<Candidate>
  {
    RankingOf(Enumerated(devices))
  }

  /** Reference definition: the candidates with a positive score, in enumeration order. */
  function Qualified(cs: seq<Candidate>): seq<Candidate>
  {
    if cs == [] then []
    else Qualified(cs[..|cs| - 1]) + (if cs[|cs| - 1].score > 0 then [cs[|cs| - 1]] else [])
  }

  /** Strict ranking order: higher score first, and among equal scores earlier enumeration first. */
  predicate Before(a: Candidate, b: Candidate)
  {
    a.score > b.score || (a.score == b.score && a.position < b.position)
  }

  /** Every entry precedes every later entry. */
  predicate Ordered(ranked: seq<Candidate>)
  {
    forall i, j :: 0 <= i < j < |ranked| ==> Before(ranked[i], ranked[j])
  }

  /** The qualifying candidates are exactly the candidates with a positive score. */
  lemma {:induction false} QualifiedMembers(cs: seq<Candidate>, c: Candidate)
    ensures c in Qualified(cs) <==> c in cs && c.score > 0
  {
    if cs != [] {
      QualifiedMembers(cs[..|cs| - 1], c);
      assert cs == cs[..|cs| - 1] + [cs[|cs| - 1]];
    }
  }

  /** The entries of `Insert(ranked, c)`, position by position. */
  lemma InsertAt(ranked: seq<Candidate>, c: Candidate, k: nat)
    requires k <= |ranked|
    ensures Insert(ranked, c)[k] ==
      var p := InsertionPoint(ranked, c.score);
      if k < p then ranked[k] else if k == p then c else ranked[k - 1]
  {
  }

  /**
   * Inserting an entry enumerated after all present ones keeps the order:
   * the new entry goes after every entry with a score at least its own (equal
   * scores were enumerated earlier) and before every entry with a lower score.
   */
  lemma {:induction false} InsertOrdered(ranked: seq<Candidate>, c: Candidate)
    requires Ordered(ranked)
    requires forall e :: e in ranked ==> e.position < c.position
    ensures Ordered(Insert(ranked, c))
  {
    var p := InsertionPoint(ranked, c.score);
    var r := Insert(ranked, c);
    forall i, j | 0 <= i < j < |r|
      ensures Before(r[i], r[j])
    {
      InsertAt(ranked, c, i);
      InsertAt(ranked, c, j);
      if j < p {
        assert Before(ranked[i], ranked[j]);
      } else if j == p {
        assert ranked[i] in ranked;
        assert ranked[i].score >= c.score;
      } else if i == p {
        assert ranked[p].score < c.score;
        if j - 1 > p {
          assert Before(ranked[p], ranked[j - 1]);
        }
      } else if i < p {
        assert Before(ranked[i], ranked[j - 1]);
      } else {
        assert Before(ranked[i - 1], ranked[j - 1]);
      }
    }
  }

  /** The ranking holds exactly the qualifying candidates, each as often as it qualifies. */
  lemma {:induction false} RankingOfContents(cs: seq<Candidate>)
    ensures multiset(RankingOf(cs)) == multiset(Qualified(cs))
  {
    if cs != [] {
      RankingOfContents(cs[..|cs| - 1]);
    }
  }

  /** A ranking of positioned candidates is ordered by the ranking order. */
  lemma {:induction false} RankingOfOrdered(cs: seq<Candidate>)
    requires Positioned(cs)
    ensures Ordered(RankingOf(cs))
  {
    if cs != [] {
      var init := cs[..|cs| - 1];
      var c := cs[|cs| - 1];
      assert Positioned(init);
      RankingOfOrdered(init);
      if c.score > 0 {
        RankingOfContents(init);
        forall e | e in RankingOf(init)
          ensures e.position < c.position
        {
          assert e in multiset(Qualified(init));
          QualifiedMembers(init, e);
          var k :| 0 <= k < |init| && init[k] == e;
        }
        InsertOrdered(RankingOf(init), c);
      }
    }
  }

  /** The enumerated candidates are positioned. */
  lemma EnumeratedPositioned(devices: seq<PhysicalDevice>)
    ensures Positioned(Enumerated(devices))
  {
  }

  /** A candidate is in the final ranking exactly when it belongs to an enumerated device with a positive score. */
  lemma RankedMember(devices: seq<PhysicalDevice>, c: Candidate)
    ensures c in Ranked(devices) <==>
      c.position < |devices| && c == CandidateOf(devices, c.position) && c.score > 0
  {
    var cs := Enumerated(devices);
    RankingOfContents(cs);
    assert c in Ranked(devices) <==> c in multiset(Qualified(cs));
    QualifiedMembers(cs, c);
    EnumeratedPositioned(devices);
    if c in cs {
      var k :| 0 <= k < |cs| && cs[k] == c;
    }
    if c.position < |devices| && c == CandidateOf(devices, c.position) {
      assert cs[c.position] == c;
    }
  }

  /** The final ranking is ordered: higher scores first, equal scores in enumeration order. */
  lemma RankedOrdered(devices: seq<PhysicalDevice>)
    ensures Ordered(Ranked(devices))
  {
    EnumeratedPositioned(devices);
    RankingOfOrdered(Enumerated(devices));
  }

  /**
   * The final ranking: non-increasing in score, equal scores in enumeration
   * order, a permutation of the qualifying candidates, and a candidate appears
   * in it exactly when it belongs to an enumerated device with a positive score.
   */
  lemma RankedIsStableSort(devices: seq<PhysicalDevice>)
    ensures Ordered(Ranked(devices))
    ensures forall i, j :: 0 <= i < j < |Ranked(devices)| ==> Ranked(devices)[i].score >= Ranked(devices)[j].score
    ensures forall i, j :: 0 <= i < j < |Ranked(devices)| && Ranked(devices)[i].score == Ranked(devices)[j].score ==>
      Ranked(devices)[i].position < Ranked(devices)[j].position
    ensures multiset(Ranked(devices)) == multiset(Qualified(Enumerated(devices)))
    ensures forall c :: c in Ranked(devices) <==>
      c.position < |devices| && c == CandidateOf(devices, c.position) && c.score > 0
  {
    RankedOrdered(devices);
    RankingOfContents(Enumerated(devices));
    forall c
      ensures c in Ranked(devices) <==>
        c.position < |devices| && c == CandidateOf(devices, c.position) && c.score > 0
    {
      RankedMember(devices, c);
    }
  }

  /** The ranking is empty exactly when no device qualifies. */
  lemma RankedEmptyIffNoneQualifies(devices: seq<PhysicalDevice>)
    ensures Ranked(devices) != [] <==> HasSuitableDevice(devices)
  {
    if HasSuitableDevice(devices) {
      var k :| 0 <= k < |devices| && Qualifies(devices, k);
      RankedMember(devices, CandidateOf(devices, k));
    } else if Ranked(devices) != [] {
      RankedMember(devices, Ranked(devices)[0]);
      assert Qualifies(devices, Ranked(devices)[0].position);
    }
  }

  /**
   * The front of the ranking, `_gpu.front()`: a qualifying device whose score
   * is the maximum over all enumerated devices and which, among the devices
   * with that score, was enumerated first.
   */
  function Selected(devices: seq<PhysicalDevice>): (c: Candidate)
    requires HasSuitableDevice(devices)
    ensures c.position < |devices| && c == CandidateOf(devices, c.position) && c.score > 0
    ensures forall k :: 0 <= k < |devices| && Qualifies(devices, k) ==>
      c.score > CandidateOf(devices, k).score ||
      (c.score == CandidateOf(devices, k).score && c.position <= k)
  {
    RankedEmptyIffNoneQualifies(devices);
    RankedOrdered(devices);
    var front := Ranked(devices)[0];
    RankedMember(devices, front);
    assert forall k :: 0 <= k < |devices| && Qualifies(devices, k) ==>
      front == CandidateOf(devices, k) || Before(front, CandidateOf(devices, k)) by {
      forall k | 0 <= k < |devices| && Qualifies(devices, k)
        ensures front == CandidateOf(devices, k) || Before(front, CandidateOf(devices, k))
      {
        var x := CandidateOf(devices, k);
        RankedMember(devices, x);
        var j :| 0 <= j < |Ranked(devices)| && Ranked(devices)[j] == x;
      }
    }
    front
  }

  /** The selected device is the front of the ranking. */
  lemma SelectedIsFront(devices: seq<PhysicalDevice>)
    requires HasSuitableDevice(devices)
    ensures Ranked(devices) != [] && Ranked(devices)[0] == Selected(devices)
  {
    RankedEmptyIffNoneQualifies(devices);
  }
}
