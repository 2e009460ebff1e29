/** The id batching of `getIds` (lib/eventSearch.js:35-62): the entries with a
    truthy id, split in order into groups of at most `IdLimit` ids. */
module Batching {
  import opened Wrappers
  import opened Graph

  /** The Graph API accepts at most 50 ids per `/?ids=` call (lib/eventSearch.js:31). */
  const IdLimit: nat := 50

  /** The truthy ids of `data`, in input order. */
  function TruthyIds(data: seq<PlaceRef>): (r: seq<string>)
    ensures |r| <= |data|
    ensures forall id | id in r :: id != ""
  {
    if data == [] then []
    else
      var last := IdOf(data[|data| - 1]);
      TruthyIds(data[..|data| - 1]) + (if Truthy(last) then [last.value] else [])
  }

  /** The ids of a list of batches, batch after batch. */
  function Flatten(bs: seq<seq<string>>): seq<string>
  {
    if bs == [] then [] else Flatten(bs[..|bs| - 1]) + bs[|bs| - 1]
  }

  /** `ids` cut, from the front, into groups of `n`; the last group may be shorter. */
  function Batches(ids: seq<string>, n: nat): seq<seq<string>>
    requires n > 0
    decreases |ids|
  {
    if ids == [] then []
    else if |ids| <= n then [ids]
    else [ids[..n]] + Batches(ids[n..], n)
  }

  /** Every batch holds between 1 and `n` ids, and every batch but the last holds exactly `n`. */
  ghost predicate WellBatched(bs: seq<seq<string>>, n: nat)
  {
    && (forall i | 0 <= i < |bs| :: 0 < |bs[i]| <= n)
    && (forall i | 0 <= i < |bs| - 1 :: |bs[i]| == n)
  }

  lemma FlattenSnoc(bs: seq<seq<string>>, b: seq<string>)
    ensures Flatten(bs + [b]) == Flatten(bs) + b
  {
    assert (bs + [b])[..|bs|] == bs;
  }

  lemma {:induction false} FlattenFront(bs: seq<seq<string>>)
    requires bs != []
    ensures Flatten(bs) == bs[0] + Flatten(bs[1..])
    decreases |bs|
  {
    if |bs| == 1 {
      assert bs[..0] == [];
    } else {
      var init := bs[..|bs| - 1];
      FlattenFront(init);
      assert init[1..] == bs[1..][..|bs[1..]| - 1];
    }
  }

  /** Batching keeps every id, in order, in well-formed batches. */
  lemma {:induction false} BatchesShape(ids: seq<string>, n: nat)
    requires n > 0
    ensures WellBatched(Batches(ids, n), n)
    ensures Flatten(Batches(ids, n)) == ids
    decreases |ids|
  {
    var bs := Batches(ids, n);
    if ids == [] {
    } else if |ids| <= n {
      assert bs[..0] == [];
    } else {
      BatchesShape(ids[n..], n);
      FlattenFront(bs);
      assert bs[1..] == Batches(ids[n..], n);
      assert ids[..n] + ids[n..] == ids;
    }
  }

  /** There are exactly ceil(|ids| / n) batches. */
  lemma {:induction false} BatchesCount(ids: seq<string>, n: nat)
    requires n > 0
    ensures |Batches(ids, n)| == (|ids| + n - 1) / n
    decreases |ids|
  {
    if ids == [] {
    } else if |ids| <= n {
      assert n <= |ids| + n - 1 < 2 * n;
    } else {
      BatchesCount(ids[n..], n);
      var m := |ids| - n;
      assert (m + n - 1) + n == |ids| + n - 1;
      DivShift(m + n - 1, n);
    }
  }

  lemma DivShift(x: nat, n: nat)
    requires n > 0
    ensures (x + n) / n == x / n + 1
  {
    var q, r := x / n, x % n;
    assert x == q * n + r && 0 <= r < n;
    assert x + n == (q + 1) * n + r;
    DivUnique(x + n, n, q + 1, r);
  }

  lemma DivUnique(a: int, n: int, q: int, r: int)
    requires n > 0 && 0 <= r < n && a == q * n + r
    ensures a / n == q
  {
    var q', r' := a / n, a % n;
    assert a == q' * n + r' && 0 <= r' < n;
    assert (q - q') * n == r' - r by {
      assert q * n - q' * n == (q - q') * n;
    }
    if q > q' {
      MulAtLeast(q - q', n);
    } else if q < q' {
      assert (q' - q) * n == -((q - q') * n);
      MulAtLeast(q' - q, n);
    }
  }

  lemma MulAtLeast(d: int, n: int)
    requires d >= 1 && n > 0
    ensures d * n >= n
  {
  }

  /** Well-formed batches of `ids` are the batches of `ids`: the shape alone
      determines the result. */
  lemma {:induction false} BatchesUnique(bs: seq<seq<string>>, ids: seq<string>, n: nat)
    requires n > 0
    requires WellBatched(bs, n)
    requires Flatten(bs) == ids
    ensures bs == Batches(ids, n)
    decreases |bs|
  {
    if bs == [] {
    } else {
      FlattenFront(bs);
      if |bs| == 1 {
        assert bs[1..] == [];
        assert ids == bs[0];
        assert bs == [ids];
      } else {
        var rest := bs[1..];
        assert WellBatched(rest, n) by {
          forall i | 0 <= i < |rest| ensures 0 < |rest[i]| <= n { assert rest[i] == bs[i + 1]; }
          forall i | 0 <= i < |rest| - 1 ensures |rest[i]| == n { assert rest[i] == bs[i + 1]; }
        }
        assert |bs[0]| == n;
        FlattenNonEmpty(rest);
        assert ids[..n] == bs[0];
        assert ids[n..] == Flatten(rest);
        BatchesUnique(rest, ids[n..], n);
      }
    }
  }

  lemma {:induction false} FlattenNonEmpty(bs: seq<seq<string>>)
    requires bs != [] && |bs[0]| > 0
    ensures |Flatten(bs)| > 0
  {
    FlattenFront(bs);
  }
}
