/** The list-distribution helpers the venue and volume contexts call:
    `numerate`, `add_numbers`, `split_div` and `split_mod`. Their Python
    bodies are not part of this model; the definitions below follow the
    documented behaviour (numbering from a counter, consecutive groups of a
    fixed size without padding, buckets by position modulo a count). */
module Lists {
  import opened Common

  /** A dictionary that may carry an `index` key; `entry` holds its other
      keys. */
  datatype Indexed<T> = Indexed(index: Option<int>, entry: T)

  /** An item paired with the `number` drawn from a counter by `add_numbers`. */
  datatype Numbered<T> = Numbered(id: T, number: int)

  /** `numerate`: a new list whose i-th item gains, or has overwritten, the
      `index` key start + i; the other keys are left as they are. */
  function Numerate<T>(items: seq<Indexed<T>>, start: int): (r: seq<Indexed<T>>)
  {
    seq(|items|, i requires 0 <= i < |items| => items[i].(index := Some(start + i)))
  }

  /** `numerate` keeps every item, in order, with its other keys, and the
      i-th index is start + i whatever index the item had before. */
  lemma NumerateKeepsItems<T>(items: seq<Indexed<T>>, start: int)
    ensures |Numerate(items, start)| == |items|
    ensures forall i :: 0 <= i < |items| ==>
              Numerate(items, start)[i].entry == items[i].entry
              && Numerate(items, start)[i].index == Some(start + i)
  {
  }

  /** Numbering again overwrites the earlier numbering: only the last start
      counts, and re-applying the same start changes nothing. */
  lemma NumerateOverwrites<T>(items: seq<Indexed<T>>, first: int, second: int)
    ensures Numerate(Numerate(items, first), second) == Numerate(items, second)
    ensures Numerate(Numerate(items, second), second) == Numerate(items, second)
  {
  }

  function AddNumbers<T>(items: seq<T>, start: int): (r: seq<Numbered<T>>)
  {
    seq(|items|, i requires 0 <= i < |items| => Numbered(items[i], start + i))
  }

  /** `add_numbers` with a counter starting at `start` numbers the items
      start, start + 1, ... in input order, so numbers are distinct. */
  lemma AddNumbersDistinct<T>(items: seq<T>, start: int)
    ensures |AddNumbers(items, start)| == |items|
    ensures forall i :: 0 <= i < |items| ==> AddNumbers(items, start)[i].id == items[i]
    ensures forall i, j :: 0 <= i < j < |items| ==>
              AddNumbers(items, start)[i].number < AddNumbers(items, start)[j].number
  {
  }

  // -------------------------------------------------------------------
  // split_div: consecutive groups of `size`; the last one may be short.

  function SplitDiv<T>(items: seq<T>, size: nat): (groups: seq<seq<T>>)
    requires size > 0
    decreases |items|
  {
    if items == [] then []
    else if |items| <= size then [items]
    else [items[..size]] + SplitDiv(items[size..], size)
  }

  /** Flattening the groups gives back the input, and every group but the
      last is full. */
  lemma {:induction false} SplitDivConcat<T>(items: seq<T>, size: nat)
    requires size > 0
    ensures Concat(SplitDiv(items, size)) == items
    ensures forall i :: 0 <= i < |SplitDiv(items, size)| ==> 0 < |SplitDiv(items, size)[i]| <= size
    ensures forall i :: 0 <= i < |SplitDiv(items, size)| - 1 ==> |SplitDiv(items, size)[i]| == size
    decreases |items|
  {
    if |items| > size {
      SplitDivConcat(items[size..], size);
      assert items[..size] + items[size..] == items;
    }
  }

  /** When the length is a multiple of the group size, there are exactly
      length / size groups and every one of them is full. */
  lemma {:induction false} SplitDivExact<T>(items: seq<T>, size: nat)
    requires size > 0 && |items| % size == 0
    ensures |SplitDiv(items, size)| == |items| / size
    ensures forall i :: 0 <= i < |SplitDiv(items, size)| ==> |SplitDiv(items, size)[i]| == size
  {
    var q := |items| / size;
    assert |items| == size * q;
    SplitDivMultiple(items, size, q);
  }

  lemma {:induction false} SplitDivMultiple<T>(items: seq<T>, size: nat, q: nat)
    requires size > 0 && |items| == size * q
    ensures |SplitDiv(items, size)| == q
    ensures forall i :: 0 <= i < q ==> |SplitDiv(items, size)[i]| == size
  {
    if q > 1 {
      assert |items[size..]| == size * (q - 1);
      SplitDivMultiple(items[size..], size, q - 1);
    } else if q == 1 {
      assert |items| == size;
    }
  }

  // -------------------------------------------------------------------
  // split_mod: the item at position p goes to bucket (p + first) % buckets.

  /** Positions p < n, in increasing order, with (p + first) % m == b. */
  function Positions(n: nat, m: nat, first: int, b: int): (ps: seq<nat>)
    requires m > 0
  {
    if n == 0 then []
    else Positions(n - 1, m, first, b) + (if (n - 1 + first) % m == b then [n - 1] else [])
  }

  function Bucket<T>(items: seq<T>, m: nat, first: int, b: int): seq<T>
    requires m > 0
  {
    var ps := Positions(|items|, m, first, b);
    seq(|ps|, j requires 0 <= j < |ps| =>
      PositionsBelow(|items|, m, first, b, j); items[ps[j]])
  }

  function SplitMod<T>(items: seq<T>, m: nat, first: int): (buckets: seq<seq<T>>)
    requires m > 0
  {
    seq(m, b requires 0 <= b < m => Bucket(items, m, first, b))
  }

  lemma {:induction false} PositionsBelow(n: nat, m: nat, first: int, b: int, j: nat)
    requires m > 0 && j < |Positions(n, m, first, b)|
    ensures Positions(n, m, first, b)[j] < n
  {
    var prev := Positions(n - 1, m, first, b);
    if j < |prev| {
      PositionsBelow(n - 1, m, first, b, j);
    }
  }

  /** A position is listed for bucket b exactly when it is in range and
      b is its bucket; the list is strictly increasing, so within a bucket
      the items keep their input order. */
  lemma {:induction false} PositionsSpec(n: nat, m: nat, first: int, b: int)
    requires m > 0
    ensures forall p :: p in Positions(n, m, first, b) <==> 0 <= p < n && (p + first) % m == b
    ensures forall i, j :: 0 <= i < j < |Positions(n, m, first, b)| ==>
              Positions(n, m, first, b)[i] < Positions(n, m, first, b)[j]
  {
    if n > 0 {
      PositionsSpec(n - 1, m, first, b);
      var prev := Positions(n - 1, m, first, b);
      forall i | 0 <= i < |prev| ensures prev[i] < n - 1 {
        assert prev[i] in prev;
      }
    }
  }

  /** Sum of the bucket sizes over buckets 0 .. count - 1. */
  function SizesBelow(n: nat, m: nat, first: int, count: nat): nat
    requires m > 0
  {
    if count == 0 then 0 else SizesBelow(n, m, first, count - 1) + |Positions(n, m, first, count - 1)|
  }

  lemma {:induction false} SizesBelowStep(n: nat, m: nat, first: int, count: nat)
    requires m > 0
    ensures SizesBelow(n + 1, m, first, count)
         == SizesBelow(n, m, first, count) + (if (n + first) % m < count then 1 else 0)
  {
    if count > 0 {
      SizesBelowStep(n, m, first, count - 1);
    }
  }

  /** Every item lands in exactly one of the m buckets: the sizes add up to n. */
  lemma {:induction false} SplitModSizes(n: nat, m: nat, first: int)
    requires m > 0
    ensures SizesBelow(n, m, first, m) == n
  {
    if n > 0 {
      SplitModSizes(n - 1, m, first);
      SizesBelowStep(n - 1, m, first, m);
    } else {
      SizesZero(m, first, m);
    }
  }

  lemma {:induction false} SizesZero(m: nat, first: int, count: nat)
    requires m > 0
    ensures SizesBelow(0, m, first, count) == 0
  {
    if count > 0 {
      SizesZero(m, first, count - 1);
    }
  }

  /** The bucket of each input item: item p sits in bucket (p + first) % m,
      at the place given by how many earlier items share that bucket. */
  lemma SplitModPlacement<T>(items: seq<T>, m: nat, first: int, p: nat)
    requires m > 0 && p < |items|
    ensures var b := (p + first) % m;
            var ps := Positions(|items|, m, first, b);
            exists j :: 0 <= j < |ps| && ps[j] == p && SplitMod(items, m, first)[b][j] == items[p]
  {
    var b := (p + first) % m;
    PositionsSpec(|items|, m, first, b);
    var ps := Positions(|items|, m, first, b);
    assert p in ps;
    var j :| 0 <= j < |ps| && ps[j] == p;
    assert SplitMod(items, m, first)[b] == Bucket(items, m, first, b);
    assert Bucket(items, m, first, b)[j] == items[p];
  }

  // -------------------------------------------------------------------
  // Balance: every bucket gets floor(n / m) or ceil(n / m) items.

  lemma DivModUnique(x: int, m: int, q: int, s: int)
    requires m > 0 && 0 <= s < m && x == m * q + s
    ensures x / m == q && x % m == s
  {
    var d := x / m - q;
    assert m * d == s - x % m;
    MulAwayFromZero(m, d);
  }

  lemma MulAwayFromZero(m: int, d: int)
    requires m > 0
    ensures d >= 1 ==> m * d >= m
    ensures d <= -1 ==> m * d <= -m
  {
  }

  lemma DivStep(t: nat, m: nat)
    requires m > 0
    ensures (t + 1) / m == t / m + (if (t + 1) % m == 0 then 1 else 0)
  {
    var q, s := t / m, t % m;
    if s == m - 1 {
      DivModUnique(t + 1, m, q + 1, 0);
    } else {
      DivModUnique(t + 1, m, q, s + 1);
    }
  }

  /** (n + first) % m lands on b exactly when n is congruent to b - first. */
  lemma ModShift(n: int, first: int, m: nat, b: int)
    requires m > 0 && 0 <= b < m
    ensures (n + first) % m == b <==> (n + m - (b - first) % m) % m == 0
  {
    var r := (b - first) % m;
    var k := (b - first) / m;
    assert b - first == m * k + r;
    var x := n + first;
    var q, s := x / m, x % m;
    assert n + m - r == m * (q + k + 1) + (s - b);
    if s == b {
      DivModUnique(n + m - r, m, q + k + 1, 0);
    } else if s > b {
      DivModUnique(n + m - r, m, q + k + 1, s - b);
    } else {
      DivModUnique(n + m - r, m, q + k, s - b + m);
    }
  }

  /** Closed form of a bucket's size: with r = (b - first) % m, bucket b
      receives the positions r, r + m, r + 2m, ... below n. */
  lemma {:induction false} PositionsCount(n: nat, m: nat, first: int, b: int)
    requires m > 0 && 0 <= b < m
    ensures |Positions(n, m, first, b)| == (n + m - 1 - (b - first) % m) / m
  {
    var r := (b - first) % m;
    if n == 0 {
      DivModUnique(m - 1 - r, m, 0, m - 1 - r);
    } else {
      PositionsCount(n - 1, m, first, b);
      DivStep(n - 1 + m - 1 - r, m);
      ModShift(n - 1, first, m, b);
    }
  }

  /** `split_mod` never leaves an uneven remainder group: each of the m
      buckets holds floor(n / m) or floor(n / m) + 1 of the n items. */
  lemma SplitModBalanced<T>(items: seq<T>, m: nat, first: int, b: int)
    requires m > 0 && 0 <= b < m
    ensures |items| / m <= |SplitMod(items, m, first)[b]| <= |items| / m + 1
  {
    var n, r := |items|, (b - first) % m;
    PositionsCount(n, m, first, b);
    assert |SplitMod(items, m, first)[b]| == |Positions(n, m, first, b)|;
    BalancedCount(n, m, r);
  }

  /** Arithmetic core of the balance: for 0 <= r < m, the count
      (n + m - 1 - r) / m is floor(n / m) or one more. */
  lemma BalancedCount(n: nat, m: nat, r: int)
    requires m > 0 && 0 <= r < m
    ensures n / m <= (n + m - 1 - r) / m <= n / m + 1
  {
    var q, s := n / m, n % m;
    assert n == m * q + s;
    if s + m - 1 - r < m {
      assert n + m - 1 - r == m * q + (s + m - 1 - r);
      DivModUnique(n + m - 1 - r, m, q, s + m - 1 - r);
    } else {
      assert n + m - 1 - r == m * (q + 1) + (s - 1 - r);
      DivModUnique(n + m - 1 - r, m, q + 1, s - 1 - r);
    }
  }
}
