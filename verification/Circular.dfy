/** The circular array of the producer-consumer examples (Examples/ex2.c and ex5.c). */
module Circular {

  const BUFFER_SIZE := 16

  /** The slots between reading and writing hold what was stored. */
  ghost predicate Holds(buffer: seq<int>, put: seq<int>, from: nat) {
    |buffer| == BUFFER_SIZE && forall i | from <= i < |put| :: buffer[i % BUFFER_SIZE] == put[i]
  }

  lemma StoreHolds(buffer: seq<int>, put: seq<int>, from: nat, d: int)
    requires Holds(buffer, put, from) && |put| - from < BUFFER_SIZE
    ensures Holds(buffer[|put| % BUFFER_SIZE := d], put + [d], from)
  {
    var b := buffer[|put| % BUFFER_SIZE := d];
    forall i | from <= i < |put| + 1 ensures b[i % BUFFER_SIZE] == (put + [d])[i] {
      if i < |put| { assert i % BUFFER_SIZE != |put| % BUFFER_SIZE; }
    }
  }

  lemma WrapsAround(n: nat)
    requires n > 0
    ensures n % BUFFER_SIZE == if (n - 1) % BUFFER_SIZE + 1 >= BUFFER_SIZE then 0 else (n - 1) % BUFFER_SIZE + 1
  {
  }
}
