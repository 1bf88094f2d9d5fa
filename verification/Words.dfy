/** Thread addresses and status words as the semaphore code sees them. */
module Words {
  /** A thread is named by the address of its descriptor, which is even. */
  type Tid = a: int | a >= 2 && a % 2 == 0 witness 2
  /** The contents of a status word: 2N+1 or the address of a thread. */
  type Word = w: int | w >= 1 witness 1

  /** The contents of p_nextwaiting on a chain: nothing, the end mark, or a thread. */
  type Link = v: int | v == 0 || v == 1 || (v >= 2 && v % 2 == 0)

  const NULL := 0
  const END := 1

  /** The count a status word encodes; a chain of waiters encodes zero. */
  function Decode(status: Word): nat
  {
    if status % 2 == 1 then status / 2 else 0
  }
}
