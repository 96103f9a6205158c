/** The track: a fixed finish-line distance and the dogs racing on it (track.h, track.cpp). */
module Tracks {
  import opened Wrappers
  import opened Dogs

  /** Some racer is at or past the finish line. */
  predicate AnyFinished(ps: seq<int>, length: int) {
    exists i :: 0 <= i < |ps| && ps[i] >= length
  }

  /**
   * The index of the first racer, in insertion order, at or past the finish
   * line. Order decides, not distance: a later racer that is further ahead
   * does not win.
   */
  function FirstFinisher(ps: seq<int>, length: int): (r: Option<nat>)
    ensures r.None? <==> !AnyFinished(ps, length)
    ensures r.Some? ==> r.value < |ps| && ps[r.value] >= length
    ensures r.Some? ==> forall j :: 0 <= j < r.value ==> ps[j] < length
  {
    if ps == [] then None
    else if ps[0] >= length then Some(0)
    else match FirstFinisher(ps[1..], length)
      case None =>
        assert forall i :: 1 <= i < |ps| ==> ps[i] == ps[1..][i - 1];
        None
      case Some(k) =>
        assert forall j :: 1 <= j < k + 1 ==> ps[j] == ps[1..][j - 1];
        Some(k + 1)
  }

  /** Any racer at or past the line with every earlier racer short of it is the one chosen. */
  lemma FirstFinisherIsFirst(ps: seq<int>, length: int, i: nat)
    requires i < |ps| && ps[i] >= length
    requires forall j :: 0 <= j < i ==> ps[j] < length
    ensures FirstFinisher(ps, length) == Some(i)
  {
  }

  /** A racer is ranked no lower than those after it. */
  ghost predicate RankedByPosition(s: seq<Dog>)
    reads set d | d in s
  {
    forall i, j :: 0 <= i < j < |s| ==> s[i].position >= s[j].position
  }

  class Track {
    // The finish-line distance; fixed by the constructor.
    const length: int
    // The racers in the order they were added. The track refers to them; it
    // does not own them.
    var dogs: seq<Dog>

    constructor (length: int)
      ensures this.length == length && dogs == []
    {
      this.length := length;
      dogs := [];
    }

    /** The racers' positions, in insertion order. */
    ghost function Positions(): seq<int>
      reads this, set d | d in dogs
    {
      seq(|dogs|, i requires 0 <= i < |dogs| reads this, set d | d in dogs => dogs[i].position)
    }

    /** Appends a racer; the earlier racers keep their places. */
    method AddDog(d: Dog)
      modifies this
      ensures dogs == old(dogs) + [d]
    {
      dogs := dogs + [d];
    }

    /** Whether some racer has reached the finish line. */
    method IsRaceFinished() returns (finished: bool)
      ensures finished == AnyFinished(Positions(), length)
    {
      for i := 0 to |dogs|
        invariant forall j :: 0 <= j < i ==> dogs[j].position < length
      {
        if dogs[i].position >= length {
          assert Positions()[i] == dogs[i].position;
          return true;
        }
      }
      return false;
    }

    /** The first racer in insertion order at or past the finish line, or null when none is. */
    method GetWinner() returns (winner: Dog?)
      ensures winner == null <==> !AnyFinished(Positions(), length)
      ensures winner != null ==>
        var i := FirstFinisher(Positions(), length).value;
        i < |dogs| && winner == dogs[i]
    {
      for i := 0 to |dogs|
        invariant forall j :: 0 <= j < i ==> dogs[j].position < length
      {
        if dogs[i].position >= length {
          FirstFinisherIsFirst(Positions(), length, i);
          return dogs[i];
        }
      }
      return null;
    }

    /**
     * The racers ordered by non-increasing position, as a fresh sequence;
     * the track and the racers are left as they are. Nothing is promised
     * about the order of racers at the same position.
     */
    method GetRanking() returns (ranking: seq<Dog>)
      ensures multiset(ranking) == multiset(dogs)
      ensures RankedByPosition(ranking)
    {
      var ds := dogs;
      var a := new Dog[|ds|](i requires 0 <= i < |ds| => ds[i]);
      assert a[..] == ds;
      for i := 0 to a.Length
        invariant multiset(a[..]) == multiset(ds)
        invariant RankedByPosition(a[..i])
      {
        InsertIntoRanked(a, i);
      }
      assert a[..] == a[..a.Length];
      ranking := a[..];
    }

    /**
     * One row of the drawn track for dog `d`: `length` cells, a dot in every
     * fourth cell and blanks elsewhere, with the dog's symbol over the cell
     * at its position when that position lies on the track.
     */
    method RenderRow(d: Dog) returns (row: string)
      requires length >= 0
      ensures |row| == length
      ensures forall i :: 0 <= i < length && i != d.position ==>
        row[i] == if i % 4 == 0 then '.' else ' '
      ensures 0 <= d.position < length ==> row[d.position] == d.symbol
    {
      var body := new char[length](_ => ' ');
      var i := 0;
      while i < length
        invariant 0 <= i && i % 4 == 0
        invariant forall k :: 0 <= k < length ==>
          body[k] == if k % 4 == 0 && k < i then '.' else ' '
      {
        body[i] := '.';
        i := i + 4;
      }
      var pos := d.position;
      if pos >= 0 && pos < length {
        body[pos] := d.symbol;
      }
      row := body[..];
    }
  }

  /**
   * One step of the ranking sort: moves `a[i]` left past every racer
   * behind it, so that the first `i + 1` cells end up ranked.
   */
  method InsertIntoRanked(a: array<Dog>, i: nat)
    requires i < a.Length && RankedByPosition(a[..i])
    modifies a
    ensures multiset(a[..]) == multiset(old(a[..]))
    ensures RankedByPosition(a[..i + 1])
  {
    var j := i;
    while j > 0 && a[j - 1].position < a[j].position
      invariant 0 <= j <= i
      invariant multiset(a[..]) == multiset(old(a[..]))
      invariant forall p, q :: 0 <= p < q <= i && q != j ==> a[p].position >= a[q].position
      invariant 0 < j < i ==> a[j - 1].position >= a[j + 1].position
    {
      SwapAdjacent(a, j);
      j := j - 1;
    }
  }

  /** Exchanges the racers in cells `j - 1` and `j`. */
  method SwapAdjacent(a: array<Dog>, j: nat)
    requires 0 < j < a.Length
    modifies a
    ensures a[..] == old(a[..])[j - 1 := old(a[j])][j := old(a[j - 1])]
    ensures multiset(a[..]) == multiset(old(a[..]))
  {
    a[j - 1], a[j] := a[j], a[j - 1];
  }
}
