/** `MultiUserChannelMatrix` of ia/ia.py: the channel of all K users kept as
    one matrix, cut into a K x K grid of blocks of non-uniform size, where
    block (k, l) is the channel from transmitter l to receiver k. */
module Channel {

  import opened Wrappers
  import opened Matrices

  /** The three `ValueError`s of `init_from_channel_matrix`. */
  datatype ConfigError =
    | ShapeMismatch      // the matrix is not sum(Nr) x sum(Nt)
    | SizeMismatch       // Nr and Nt have different lengths
    | UserCountMismatch  // Nt does not have K entries

  /** The checks `init_from_channel_matrix` makes, in its order; None when
      the arguments describe a consistent channel. */
  function CheckChannel<E>(h: Mat<E>, nr: seq<nat>, nt: seq<nat>, k: nat): (e: Option<ConfigError>)
    ensures e.None? <==> h.rows == Sum(nr) && h.cols == Sum(nt) && |nr| == |nt| == k
    ensures e == Some(ShapeMismatch) <==> !(h.rows == Sum(nr) && h.cols == Sum(nt))
  {
    if !(h.rows == Sum(nr) && h.cols == Sum(nt)) then Some(ShapeMismatch)
    else if |nr| != |nt| then Some(SizeMismatch)
    else if |nt| != k then Some(UserCountMismatch)
    else None
  }

  /** Block (k, l) of `h`: the rows from the k-th to the (k+1)-th running sum
      of the receive antennas and the columns from the l-th to the (l+1)-th
      running sum of the transmit antennas, an Nr[k] x Nt[l] matrix. */
  function Block<E>(h: Mat<E>, nr: seq<nat>, nt: seq<nat>, k: nat, l: nat): (b: Mat<E>)
    requires Shaped(h, Sum(nr), Sum(nt)) && k < |nr| && l < |nt|
    ensures Shaped(b, nr[k], nt[l])
    ensures forall i, j :: 0 <= i < nr[k] && 0 <= j < nt[l] ==>
              b.data[i][j] == h.data[Prefix(nr)[k] + i][Prefix(nt)[l] + j]
  {
    var cumNr, cumNt := Prefix(nr), Prefix(nt);
    PrefixMonotone(nr, k + 1, |nr|);
    PrefixMonotone(nt, l + 1, |nt|);
    assert cumNr[k + 1] == cumNr[k] + nr[k] && cumNt[l + 1] == cumNt[l] + nt[l];
    SubMatrix(h, cumNr[k], cumNr[k + 1], cumNt[l], cumNt[l + 1])
  }

  /** Entry (i, j) of the channel matrix, when it lies in the rows of
      receiver k and the columns of transmitter l, sits in block (k, l) at its
      offset from the block's corner. */
  lemma BlockEntry<E>(h: Mat<E>, nr: seq<nat>, nt: seq<nat>, k: nat, l: nat, i: nat, j: nat)
    requires Shaped(h, Sum(nr), Sum(nt)) && InSlot(nr, k, i) && InSlot(nt, l, j)
    ensures Block(h, nr, nt, k, l).data[i - Prefix(nr)[k]][j - Prefix(nt)[l]] == h.data[i][j]
  {
    var b := Block(h, nr, nt, k, l);
    var di, dj := i - Prefix(nr)[k], j - Prefix(nt)[l];
    assert b.data[di][dj] == h.data[Prefix(nr)[k] + di][Prefix(nt)[l] + dj];
  }

  /** The blocks tile the channel matrix: each entry (i, j) lies in the rows
      of exactly one receiver k and the columns of exactly one transmitter l,
      and block (k, l) holds it at its offset from the block's corner. */
  lemma BlocksTile<E>(h: Mat<E>, nr: seq<nat>, nt: seq<nat>, i: nat, j: nat)
    requires Shaped(h, Sum(nr), Sum(nt)) && i < h.rows && j < h.cols
    ensures forall k :: InSlot(nr, k, i) <==> k == PrefixSlot(nr, i)
    ensures forall l :: InSlot(nt, l, j) <==> l == PrefixSlot(nt, j)
    ensures var k, l := PrefixSlot(nr, i), PrefixSlot(nt, j);
            InSlot(nr, k, i) && InSlot(nt, l, j) &&
            Block(h, nr, nt, k, l).data[i - Prefix(nr)[k]][j - Prefix(nt)[l]] == h.data[i][j]
  {
    PrefixSlotOnly(nr, i);
    PrefixSlotOnly(nt, j);
    BlockEntry(h, nr, nt, PrefixSlot(nr, i), PrefixSlot(nt, j), i, j);
  }

  /** The example of the class documentation: with receive antennas [2, 4, 6]
      and transmit antennas [2, 3, 5], block (1, 0) is 4 x 2 and holds rows
      2 to 5 and columns 0 to 1 of the 12 x 10 channel matrix. */
  lemma BlockExample<E>(h: Mat<E>)
    requires Shaped(h, 12, 10)
    ensures Sum([2, 4, 6]) == 12 && Sum([2, 3, 5]) == 10
    ensures Prefix([2, 4, 6]) == [0, 2, 6, 12] && Prefix([2, 3, 5]) == [0, 2, 5, 10]
    ensures var b := Block(h, [2, 4, 6], [2, 3, 5], 1, 0);
            Shaped(b, 4, 2) && forall i, j :: 0 <= i < 4 && 0 <= j < 2 ==> b.data[i][j] == h.data[2 + i][j]
  {
    assert [2, 4, 6][..2] == [2, 4] && [2, 4][..1] == [2];
    assert [2, 3, 5][..2] == [2, 3] && [2, 3][..1] == [2];
    assert Sum([2]) == 2 by { assert [2][..0] == []; }
  }

  /** Constructing with two receivers but three transmitters fails whatever
      the matrix, so nothing is stored. */
  lemma MismatchedLengthsRejected<E>(h: Mat<E>)
    ensures CheckChannel(h, [2, 2], [2, 2, 2], 2).Some?
  {
  }

  class MultiUserChannelMatrix<E(!new)> {
    var H: Mat<E>
    var Nr: seq<nat>
    var Nt: seq<nat>
    var K: nat

    /** The channel matrix always has sum(Nr) rows and sum(Nt) columns; the
        lengths of Nr and Nt are checked against K only by
        `InitFromChannelMatrix`. */
    ghost predicate Valid()
      reads this
    {
      Shaped(H, Sum(Nr), Sum(Nt))
    }

    /** A channel of no users (ia/ia.py:56-60). */
    constructor ()
      ensures Valid()
      ensures H == Mat(0, 0, []) && Nr == [] && Nt == [] && K == 0
    {
      H := Mat(0, 0, []);
      Nr := [];
      Nt := [];
      K := 0;
    }

    /** Stores the given channel after checking it; a failed check leaves the
        object as it was. */
    method InitFromChannelMatrix(channelMatrix: Mat<E>, nr: seq<nat>, nt: seq<nat>, k: nat)
      returns (err: Option<ConfigError>)
      requires Valid() && WellFormed(channelMatrix)
      modifies this
      ensures Valid()
      ensures err == CheckChannel(channelMatrix, nr, nt, k)
      ensures err.None? ==> H == channelMatrix && Nr == nr && Nt == nt && K == k
      ensures err.Some? ==> H == old(H) && Nr == old(Nr) && Nt == old(Nt) && K == old(K)
    {
      if !(channelMatrix.rows == Sum(nr) && channelMatrix.cols == Sum(nt)) {
        return Some(ShapeMismatch);
      }
      if |nr| != |nt| {
        return Some(SizeMismatch);
      }
      if |nt| != k {
        return Some(UserCountMismatch);
      }
      K := k;
      Nr := nr;
      Nt := nt;
      H := channelMatrix;
      err := None;
    }

    /** Broadcasts single antenna counts to all `k` users and draws a channel
        of the matching size. The lengths are not checked. `draw` is the
        number of the generator's next draw, and `next` the one after it. */
    method Randomize(nr: Counts, nt: Counts, k: nat, kernel: Kernel<E>, draw: nat) returns (next: nat)
      requires kernel.Sound()
      modifies this
      ensures Valid()
      ensures Nr == Broadcast(nr, k) && Nt == Broadcast(nt, k) && K == k
      ensures H == kernel.randn(draw, Sum(Nr), Sum(Nt)) && Shaped(H, Sum(Nr), Sum(Nt))
      ensures next == draw + 1
    {
      var nr' := Broadcast(nr, k);
      var nt' := Broadcast(nt, k);
      Nr := nr';
      Nt := nt';
      K := k;
      H := kernel.randn(draw, Sum(nr'), Sum(nt'));
      next := draw + 1;
    }

    /** The channel from transmitter `l` to receiver `k`; out-of-range users
        are an `IndexError`. */
    function GetChannel(k: nat, l: nat): (r: Option<Mat<E>>)
      reads this
      requires Valid()
      ensures r.Some? <==> k < |Nr| && l < |Nt|
      ensures r.Some? ==> r.value == Block(H, Nr, Nt, k, l) && Shaped(r.value, Nr[k], Nt[l])
    {
      if k < |Nr| && l < |Nt| then Some(Block(H, Nr, Nt, k, l)) else None
    }
  }
}
