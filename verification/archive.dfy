/** The local archive of processed bookings kept by chalet_bookings_v2.py
    (`Booking.dump_to_json`): a JSON object from a numeric id to a booking,
    to which every processed booking is added under the next free id.

    The file is a Python dict loaded and written back whole; keys keep their
    insertion order, so the archive is a sequence of (id, booking) entries.
    Reading and writing the file is I/O and is not modelled; a missing file
    is the empty archive. */
module BookingsArchive {
  import opened Bookings

  type Archive = seq<(int, Booking)>

  /** The ids in use. */
  function Ids(a: Archive): set<int> {
    set i | 0 <= i < |a| :: a[i].0
  }

  /** No id is used twice (a JSON object has unique keys). */
  predicate DistinctIds(a: Archive) {
    forall i, j :: 0 <= i < j < |a| ==> a[i].0 != a[j].0
  }

  /** Ids grow along the file. */
  predicate IncreasingIds(a: Archive) {
    forall i, j :: 0 <= i < j < |a| ==> a[i].0 < a[j].0
  }

  /** `max(map(int, bookings.keys()))` on a non-empty archive. */
  function MaxId(a: Archive): (m: int)
    requires a != []
    ensures forall i :: 0 <= i < |a| ==> a[i].0 <= m
    ensures m in Ids(a)
  {
    if |a| == 1 then a[0].0
    else
      var rest := MaxId(a[1..]);
      assert forall i :: 1 <= i < |a| ==> a[1..][i - 1] == a[i];
      if a[0].0 >= rest then a[0].0 else rest
  }

  /** `max(..., default=0) + 1`: the id the next booking is stored under. */
  function NextId(a: Archive): (id: int)
    ensures forall i :: 0 <= i < |a| ==> a[i].0 < id
    ensures a == [] ==> id == 1
    ensures a != [] ==> id - 1 in Ids(a)
  {
    if a == [] then 1 else MaxId(a) + 1
  }

  /** `dump_to_json`: the booking is added at the end under `NextId`. */
  function Append(a: Archive, b: Booking): (r: Archive)
    ensures |r| == |a| + 1 && r[..|a|] == a
    ensures r[|a|] == (NextId(a), b)
  {
    var r := a + [(NextId(a), b)];
    assert forall i :: 0 <= i < |a| ==> r[i] == a[i];
    r
  }

  /** Appending adds exactly one id. */
  lemma AppendIds(a: Archive, b: Booking)
    ensures Ids(Append(a, b)) == Ids(a) + {NextId(a)}
  {
    var r := Append(a, b);
    assert r[|a|].0 == NextId(a);
    forall id | id in Ids(r)
      ensures id in Ids(a) + {NextId(a)}
    {
      var i :| 0 <= i < |r| && r[i].0 == id;
      if i < |a| {
        assert r[i] == a[i];
      }
    }
    forall id | id in Ids(a)
      ensures id in Ids(r)
    {
      var i :| 0 <= i < |a| && a[i].0 == id;
      assert r[i] == a[i];
    }
  }

  /** Appending keeps ids unique, whatever the file held. */
  lemma AppendKeepsDistinct(a: Archive, b: Booking)
    requires DistinctIds(a)
    ensures DistinctIds(Append(a, b))
  {
    var r := Append(a, b);
    forall i, j | 0 <= i < j < |r|
      ensures r[i].0 != r[j].0
    {
      if j == |a| {
        assert r[i] == a[i];
      } else {
        assert r[i] == a[i] && r[j] == a[j];
      }
    }
  }

  /** Appending keeps ids increasing along the file. */
  lemma AppendKeepsIncreasing(a: Archive, b: Booking)
    requires IncreasingIds(a)
    ensures IncreasingIds(Append(a, b))
  {
    var r := Append(a, b);
    forall i, j | 0 <= i < j < |r|
      ensures r[i].0 < r[j].0
    {
      assert r[i] == a[i];
      if j < |a| {
        assert r[j] == a[j];
      }
    }
  }

  /** The bookings `bs` dumped one after another. */
  function AppendAll(a: Archive, bs: seq<Booking>): (r: Archive)
    ensures |r| == |a| + |bs|
    ensures r[..|a|] == a
    decreases |bs|
  {
    if bs == [] then a
    else
      var r := AppendAll(Append(a, bs[0]), bs[1..]);
      assert r[..|a|] == r[..|a| + 1][..|a|];
      r
  }

  /** Dumping bookings one after another keeps ids increasing. */
  lemma {:induction false} AppendAllKeepsIncreasing(a: Archive, bs: seq<Booking>)
    requires IncreasingIds(a)
    ensures IncreasingIds(AppendAll(a, bs))
    decreases |bs|
  {
    if bs != [] {
      AppendKeepsIncreasing(a, bs[0]);
      AppendAllKeepsIncreasing(Append(a, bs[0]), bs[1..]);
    }
  }

  /** Each dumped booking lands at the end, in order. */
  lemma {:induction false} AppendAllInOrder(a: Archive, bs: seq<Booking>, i: nat)
    requires i < |bs|
    ensures AppendAll(a, bs)[|a| + i].1 == bs[i]
    decreases |bs|
  {
    var a' := Append(a, bs[0]);
    var r := AppendAll(a', bs[1..]);
    assert AppendAll(a, bs) == r;
    if i == 0 {
      assert r[..|a'|] == a';
      assert r[|a|] == r[..|a'|][|a|];
    } else {
      AppendAllInOrder(a', bs[1..], i - 1);
      assert |a'| + (i - 1) == |a| + i;
    }
  }

  /** A fresh file numbers its bookings 1, 2, 3, ... */
  lemma {:induction false} FreshArchiveNumbersFromOne(a: Archive, bs: seq<Booking>)
    requires forall i :: 0 <= i < |a| ==> a[i].0 == i + 1
    ensures var r := AppendAll(a, bs);
      forall i :: 0 <= i < |r| ==> r[i].0 == i + 1
    decreases |bs|
  {
    if bs != [] {
      var a' := Append(a, bs[0]);
      if a != [] {
        assert a[|a| - 1].0 == |a|;
      }
      assert NextId(a) == |a| + 1;
      assert a' == a + [(|a| + 1, bs[0])];
      forall i | 0 <= i < |a'|
        ensures a'[i].0 == i + 1
      {
        if i < |a| {
          assert a'[i] == a[i];
        }
      }
      FreshArchiveNumbersFromOne(a', bs[1..]);
      assert AppendAll(a, bs) == AppendAll(a', bs[1..]);
    }
  }
}
