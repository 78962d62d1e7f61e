/** The random-draw source every renderer and the noise pass consume. The
    process-wide Python generator is replaced by an explicit sequence of raw
    draws and a cursor; each `randint`, `choice` or `random` call reads one raw
    draw and maps it into the range the call asks for. */
module Draws {

  /** `random.random()` returns `k / 2^53` for an integer `k` in `[0, 2^53)`. */
  const RandomUnit: int := 0x20_0000_0000_0000

  /** A position in a sequence of raw draws. A draw past the end of the
      sequence reads as 0. */
  datatype Stream = Stream(draws: seq<int>, pos: nat) {
    function Raw(): int {
      if pos < |draws| then draws[pos] else 0
    }

    function Skip(n: nat): Stream {
      Stream(draws, pos + n)
    }

    /** `random.randint(lo, hi)`: a value in `[lo, hi]`, both ends included. */
    function RandInt(lo: int, hi: int): (v: int)
      requires lo <= hi
      ensures lo <= v <= hi
    {
      lo + Raw() % (hi - lo + 1)
    }

    /** `random.choice(bucket)`: the entry at an index drawn in `[0, |bucket|)`. */
    function Choice<T>(bucket: seq<T>): (c: T)
      requires |bucket| > 0
      ensures c in bucket
    {
      bucket[Raw() % |bucket|]
    }

    /** `random.random()` scaled by `2^53`: an integer in `[0, 2^53)`. */
    function Random(): (u: int)
      ensures 0 <= u < RandomUnit
    {
      Raw() % RandomUnit
    }
  }

  /** Every value of `[lo, hi]` is the result of some draw. */
  lemma RandIntReachesAll(lo: int, hi: int, v: int)
    requires lo <= v <= hi
    ensures exists s: Stream :: s.RandInt(lo, hi) == v
  {
    assert Stream([v - lo], 0).RandInt(lo, hi) == v;
  }

  /** Every entry of a bucket is the result of some draw. */
  lemma ChoiceReachesAll<T>(bucket: seq<T>, i: nat)
    requires i < |bucket|
    ensures exists s: Stream :: s.Choice(bucket) == bucket[i]
  {
    assert Stream([i], 0).Choice(bucket) == bucket[i];
  }

  /** The generator object: a fixed draw sequence and a cursor that every
      call advances by one. */
  class DrawSource {
    const draws: seq<int>
    var cursor: nat

    function State(): Stream
      reads this
    {
      Stream(draws, cursor)
    }

    /** Seeding: a fresh source positioned at the first draw. */
    constructor (draws: seq<int>)
      ensures State() == Stream(draws, 0)
    {
      this.draws := draws;
      cursor := 0;
    }

    method RandInt(lo: int, hi: int) returns (v: int)
      requires lo <= hi
      modifies this
      ensures v == old(State()).RandInt(lo, hi)
      ensures State() == old(State()).Skip(1)
    {
      v := State().RandInt(lo, hi);
      cursor := cursor + 1;
    }

    method Choice<T>(bucket: seq<T>) returns (c: T)
      requires |bucket| > 0
      modifies this
      ensures c == old(State()).Choice(bucket)
      ensures State() == old(State()).Skip(1)
    {
      c := State().Choice(bucket);
      cursor := cursor + 1;
    }

    method Random() returns (u: int)
      modifies this
      ensures u == old(State()).Random()
      ensures State() == old(State()).Skip(1)
    {
      u := State().Random();
      cursor := cursor + 1;
    }
  }
}
