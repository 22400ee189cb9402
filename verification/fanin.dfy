/**
 * The fan-in of several producers into one channel. Each producer sends its
 * items in its own order; the consumer sees some interleaving of them. The
 * interleaving is chosen by a `schedule` of producer indices: each entry
 * delivers the next item of that producer (an entry naming a finished or
 * unknown producer delivers nothing), and once the schedule runs out the
 * remaining items arrive producer by producer. Every item is tagged with the
 * index of the producer that sent it.
 */
module FanIn {
  import opened Wrappers

  /** Every item of every stream, with multiplicity. */
  function SumMultiset<T(==)>(streams: seq<seq<T>>): multiset<T>
  {
    if streams == [] then multiset{} else multiset(streams[0]) + SumMultiset(streams[1..])
  }

  function TotalLength<T(==)>(streams: seq<seq<T>>): nat
  {
    |SumMultiset(streams)|
  }

  /** Taking the head of one stream removes exactly that item from the total. */
  lemma {:induction false} SumMultisetTake<T>(streams: seq<seq<T>>, i: nat)
    requires i < |streams| && streams[i] != []
    ensures SumMultiset(streams) == multiset{streams[i][0]} + SumMultiset(streams[i := streams[i][1..]])
  {
    var s := streams[i];
    assert s == [s[0]] + s[1..];
    if i == 0 {
      assert streams[i := s[1..]][1..] == streams[1..];
    } else {
      assert streams[i := s[1..]][1..] == streams[1..][i - 1 := s[1..]];
      SumMultisetTake(streams[1..], i - 1);
    }
  }

  function FirstNonEmpty<T(==)>(streams: seq<seq<T>>): (r: Option<nat>)
    ensures r.Some? ==> r.value < |streams| && streams[r.value] != []
    ensures r.None? ==> forall i | 0 <= i < |streams| :: streams[i] == []
  {
    if streams == [] then None
    else if streams[0] != [] then Some(0)
    else match FirstNonEmpty(streams[1..])
      case None => None
      case Some(i) => Some(i + 1)
  }

  lemma {:induction false} AllEmptySum<T>(streams: seq<seq<T>>)
    requires forall i | 0 <= i < |streams| :: streams[i] == []
    ensures SumMultiset(streams) == multiset{}
  {
    if streams != [] {
      AllEmptySum(streams[1..]);
    }
  }

  /** The items the consumer receives, each tagged with its producer, in arrival order. */
  function Merge<T(==)>(streams: seq<seq<T>>, schedule: seq<nat>): seq<(nat, T)>
    decreases TotalLength(streams), |schedule|
  {
    var pick := if schedule != [] then Some(schedule[0]) else FirstNonEmpty(streams);
    var rest := if schedule != [] then schedule[1..] else [];
    if pick.Some? && pick.value < |streams| && streams[pick.value] != [] then
      var i := pick.value;
      SumMultisetTake(streams, i);
      [(i, streams[i][0])] + Merge(streams[i := streams[i][1..]], rest)
    else if schedule != [] then Merge(streams, rest)
    else []
  }

  function Items<T(==)>(tagged: seq<(nat, T)>): (r: seq<T>)
    ensures |r| == |tagged|
    ensures forall k | 0 <= k < |r| :: r[k] == tagged[k].1
  {
    if tagged == [] then [] else [tagged[0].1] + Items(tagged[1..])
  }

  function Sources<T(==)>(tagged: seq<(nat, T)>): (r: seq<nat>)
    ensures |r| == |tagged|
    ensures forall k | 0 <= k < |r| :: r[k] == tagged[k].0
  {
    if tagged == [] then [] else [tagged[0].0] + Sources(tagged[1..])
  }

  /** The items producer `i` contributed, in arrival order. */
  function FromSource<T(==)>(tagged: seq<(nat, T)>, i: nat): seq<T>
  {
    if tagged == [] then []
    else (if tagged[0].0 == i then [tagged[0].1] else []) + FromSource(tagged[1..], i)
  }

  /** `tagged` is an interleaving of `streams` that keeps each stream's own order. */
  predicate IsInterleaving<T(==)>(tagged: seq<(nat, T)>, streams: seq<seq<T>>)
  {
    && (forall k | 0 <= k < |tagged| :: tagged[k].0 < |streams|)
    && (forall i | 0 <= i < |streams| :: FromSource(tagged, i) == streams[i])
  }

  /** Prepending the head of stream `i` to an interleaving of the remaining items gives an interleaving. */
  lemma ConsInterleaving<T>(streams: seq<seq<T>>, i: nat, z: seq<(nat, T)>)
    requires i < |streams| && streams[i] != []
    requires IsInterleaving(z, streams[i := streams[i][1..]])
    ensures IsInterleaving([(i, streams[i][0])] + z, streams)
  {
    var z0 := [(i, streams[i][0])] + z;
    assert z0[1..] == z;
    forall j | 0 <= j < |streams| ensures FromSource(z0, j) == streams[j] {
      if j == i {
        assert streams[i] == [streams[i][0]] + streams[i][1..];
      }
    }
    forall k | 0 <= k < |z0| ensures z0[k].0 < |streams| {
      if k > 0 { assert z0[k] == z[k - 1]; }
    }
  }

  /** Whatever the schedule, the consumer receives every item exactly once, each producer's in its order. */
  lemma {:induction false} MergeIsInterleaving<T>(streams: seq<seq<T>>, schedule: seq<nat>)
    ensures IsInterleaving(Merge(streams, schedule), streams)
    decreases TotalLength(streams), |schedule|
  {
    var pick := if schedule != [] then Some(schedule[0]) else FirstNonEmpty(streams);
    var rest := if schedule != [] then schedule[1..] else [];
    if pick.Some? && pick.value < |streams| && streams[pick.value] != [] {
      var i := pick.value;
      var s' := streams[i := streams[i][1..]];
      SumMultisetTake(streams, i);
      assert Merge(streams, schedule) == [(i, streams[i][0])] + Merge(s', rest);
      MergeIsInterleaving(s', rest);
      ConsInterleaving(streams, i, Merge(s', rest));
    } else if schedule != [] {
      assert Merge(streams, schedule) == Merge(streams, rest);
      MergeIsInterleaving(streams, rest);
    } else {
      assert Merge(streams, schedule) == [];
    }
  }

  /** Every interleaving is produced by the schedule that lists its own producers in order. */
  lemma {:induction false} EveryInterleavingIsAMerge<T>(tagged: seq<(nat, T)>, streams: seq<seq<T>>)
    requires IsInterleaving(tagged, streams)
    ensures Merge(streams, Sources(tagged)) == tagged
  {
    if tagged == [] {
      var pick := FirstNonEmpty(streams);
      if pick.Some? {
        assert FromSource(tagged, pick.value) == [];
      }
    } else {
      var (i, x) := tagged[0];
      var s' := streams[i := streams[i][1..]];
      assert FromSource(tagged, i) == [x] + FromSource(tagged[1..], i);
      assert streams[i] != [] && streams[i][0] == x;
      assert IsInterleaving(tagged[1..], s') by {
        forall k | 0 <= k < |tagged[1..]| ensures tagged[1..][k].0 < |s'| {
          assert tagged[1..][k] == tagged[k + 1];
        }
        forall j | 0 <= j < |s'| ensures FromSource(tagged[1..], j) == s'[j] {
          assert FromSource(tagged, j) == (if i == j then [x] else []) + FromSource(tagged[1..], j);
        }
      }
      EveryInterleavingIsAMerge(tagged[1..], s');
      assert Sources(tagged)[1..] == Sources(tagged[1..]);
    }
  }

  /** The consumer receives exactly the multiset of all items, whatever the schedule. */
  lemma {:induction false} MergeMultiset<T>(streams: seq<seq<T>>, schedule: seq<nat>)
    ensures multiset(Items(Merge(streams, schedule))) == SumMultiset(streams)
    decreases TotalLength(streams), |schedule|
  {
    var pick := if schedule != [] then Some(schedule[0]) else FirstNonEmpty(streams);
    var rest := if schedule != [] then schedule[1..] else [];
    if pick.Some? && pick.value < |streams| && streams[pick.value] != [] {
      var i := pick.value;
      var s' := streams[i := streams[i][1..]];
      SumMultisetTake(streams, i);
      var z := Merge(streams, schedule);
      assert z == [(i, streams[i][0])] + Merge(s', rest);
      MergeMultiset(s', rest);
      assert Items(z) == [streams[i][0]] + Items(Merge(s', rest));
    } else if schedule != [] {
      assert Merge(streams, schedule) == Merge(streams, rest);
      MergeMultiset(streams, rest);
    } else {
      assert Merge(streams, schedule) == [];
      AllEmptySum(streams);
    }
  }

  /** The consumer receives as many items as all producers sent together. */
  lemma MergeLength<T>(streams: seq<seq<T>>, schedule: seq<nat>)
    ensures |Merge(streams, schedule)| == TotalLength(streams)
  {
    MergeMultiset(streams, schedule);
    assert |multiset(Items(Merge(streams, schedule)))| == |Items(Merge(streams, schedule))|;
  }

  /** An item the consumer receives was sent by some producer. */
  lemma MergeItemsFromStreams<T>(streams: seq<seq<T>>, schedule: seq<nat>, x: T)
    requires x in Items(Merge(streams, schedule))
    ensures exists i | 0 <= i < |streams| :: x in streams[i]
  {
    MergeMultiset(streams, schedule);
    assert x in multiset(Items(Merge(streams, schedule)));
    InSumMultiset(streams, x);
  }

  lemma {:induction false} InSumMultiset<T>(streams: seq<seq<T>>, x: T)
    requires x in SumMultiset(streams)
    ensures exists i | 0 <= i < |streams| :: x in streams[i]
  {
    if x in multiset(streams[0]) {
      assert x in streams[0];
    } else {
      InSumMultiset(streams[1..], x);
      var i :| 0 <= i < |streams[1..]| && x in streams[1..][i];
      assert x in streams[i + 1];
    }
  }
}
