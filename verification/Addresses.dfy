/** Where threads live: stack segments of one power-of-two size below an aligned
    base, each with its descriptor on top, and the bit masks that get from a stack
    pointer to the descriptor (internals.h, manager.c, pthread.c). */
module Addresses {

  function Pow2(n: nat): nat
    ensures Pow2(n) > 0
  { if n == 0 then 1 else 2 * Pow2(n - 1) }

  /** Bit i of an integer in two's complement, and the C operators on such integers. */
  predicate Bit(a: int, i: nat)
    decreases i
  { if i == 0 then a % 2 == 1 else Bit(a / 2, i - 1) }

  function Or(a: int, b: nat): int
    decreases b
  { if b == 0 then a else 2 * Or(a / 2, b / 2) + (if b % 2 == 1 then 1 else a % 2) }

  function AndNot(a: int, b: nat): int
    decreases b
  { if b == 0 then a else 2 * AndNot(a / 2, b / 2) + (if b % 2 == 1 then 0 else a % 2) }

  lemma {:induction false} ZeroBits(i: nat)
    ensures !Bit(0, i)
  {
    if i > 0 { ZeroBits(i - 1); }
  }

  lemma {:induction false} OrBits(a: int, b: nat, i: nat)
    ensures Bit(Or(a, b), i) <==> Bit(a, i) || Bit(b, i)
    decreases b
  {
    if b == 0 { ZeroBits(i); }
    else if i > 0 { OrBits(a / 2, b / 2, i - 1); assert Or(a, b) / 2 == Or(a / 2, b / 2); }
  }

  lemma {:induction false} AndNotBits(a: int, b: nat, i: nat)
    ensures Bit(AndNot(a, b), i) <==> Bit(a, i) && !Bit(b, i)
    decreases b
  {
    if b == 0 { ZeroBits(i); }
    else if i > 0 { AndNotBits(a / 2, b / 2, i - 1); assert AndNot(a, b) / 2 == AndNot(a / 2, b / 2); }
  }

  lemma Times(i: int, j: int, d: int)
    requires i <= j && 0 <= d
    ensures i * d <= j * d
  {
  }

  lemma DivMod(a: int, d: int, q: int, r: int)
    requires 0 <= r < d && a == q * d + r
    ensures a / d == q && a % d == r
  {
    var q', r' := a / d, a % d;
    assert (q - q') * d == r' - r;
    if q > q' { Times(1, q - q', d); }
    if q < q' { Times(q - q', -1, d); }
  }

  lemma RoundsDown(a: int, m: int)
    requires m > 0
    ensures (a - a % m) % m == 0
  {
    DivMod(a - a % m, m, a / m, 0);
  }

  lemma ModHalf(a: int, m: int)
    requires m > 0
    ensures a % (2 * m) == 2 * ((a / 2) % m) + a % 2
  {
    var q, r := (a / 2) / m, (a / 2) % m;
    assert a == q * (2 * m) + (2 * r + a % 2);
    DivMod(a, 2 * m, q, 2 * r + a % 2);
  }

  lemma OrStep(a: int, m: nat)
    requires m > 0
    ensures Or(a, 2 * m - 1) == 2 * Or(a / 2, m - 1) + 1
  {
    assert (2 * m - 1) / 2 == m - 1 && (2 * m - 1) % 2 == 1;
  }

  lemma AndNotStep(a: int, m: nat)
    requires m > 0
    ensures AndNot(a, 2 * m - 1) == 2 * AndNot(a / 2, m - 1)
  {
    assert (2 * m - 1) / 2 == m - 1 && (2 * m - 1) % 2 == 1;
  }

  /** The low n bits. */
  function Low(a: int, n: nat): int
    decreases n
  { if n == 0 then 0 else 2 * Low(a / 2, n - 1) + a % 2 }

  lemma {:induction false} LowIsRemainder(a: int, n: nat)
    ensures Low(a, n) == a % Pow2(n)
    decreases n
  {
    if n > 0 { LowIsRemainder(a / 2, n - 1); ModHalf(a, Pow2(n - 1)); }
  }

  lemma {:induction false} OrLow(a: int, n: nat)
    ensures Or(a, Pow2(n) - 1) == a - Low(a, n) + Pow2(n) - 1
    decreases n
  {
    if n > 0 { OrLow(a / 2, n - 1); OrStep(a, Pow2(n - 1)); }
  }

  lemma {:induction false} AndNotLow(a: int, n: nat)
    ensures AndNot(a, Pow2(n) - 1) == a - Low(a, n)
    decreases n
  {
    if n > 0 { AndNotLow(a / 2, n - 1); AndNotStep(a, Pow2(n - 1)); }
  }

  /** How memory is laid out: stacks of 2^n bytes below start, descriptors of size
      bytes, the manager's own stack. */
  datatype Layout = Layout(n: nat, start: int, size: nat, managerBos: int, managerTos: int) {
    function StackSize(): nat { Pow2(n) }
    predicate Aligned() { start % StackSize() == 0 }
    /** The addresses of segment k. */
    predicate InSegment(k: nat, a: int) { start - (k + 1) * StackSize() <= a < start - k * StackSize() }
    predicate OnManagerStack(a: int) { managerBos <= a < managerTos }

    /** THREAD_SEG and SEG_THREAD */
    function ThreadSeg(k: nat): int { start - k * StackSize() - size }
    function SegThread(th: int): int { (start - (th + size)) / StackSize() }

    function ThreadSelf(sp: int): Self {
      if sp >= start then InitialThread
      else if OnManagerStack(sp) then ManagerThread
      else Descriptor(Or(sp, StackSize() - 1) + 1 - size)
    }
  }

  datatype Self = InitialThread | ManagerThread | Descriptor(address: int)

  lemma SegThreadInverts(l: Layout, k: nat)
    ensures l.SegThread(l.ThreadSeg(k)) == k
  {
    DivMod(k * l.StackSize(), l.StackSize(), k, 0);
  }

  /** An address is in segment k exactly if rounding it up gives the end of segment k. */
  lemma RoundsToSegment(l: Layout, k: nat, a: int)
    requires l.Aligned()
    ensures l.InSegment(k, a) <==> a - a % l.StackSize() + l.StackSize() == l.start - k * l.StackSize()
  {
    var s := l.StackSize();
    var b := l.start / s;
    assert l.start == b * s;
    if l.InSegment(k, a) {
      assert a == (b - (k + 1)) * s + (a - (l.start - (k + 1) * s));
      DivMod(a, s, b - (k + 1), a - (l.start - (k + 1) * s));
    }
  }

  /** thread_self finds the descriptor of segment k exactly for the stack pointers in
      segment k, but for the manager's own stack. */
  lemma SelfRecovers(l: Layout, k: nat, sp: int)
    requires l.Aligned()
    ensures l.ThreadSelf(sp) == Descriptor(l.ThreadSeg(k)) <==> l.InSegment(k, sp) && !l.OnManagerStack(sp)
  {
    OrLow(sp, l.n);
    LowIsRemainder(sp, l.n);
    RoundsToSegment(l, k, sp);
    assert k * l.StackSize() >= 0;
  }

  /** What pthread_free unmaps is segment k and nothing else; what create mapped, and
      the descriptor itself, lie inside it. */
  lemma FreesTheSegment(l: Layout, k: nat, initial: nat, a: int)
    requires l.size <= initial <= l.StackSize()
    ensures var top := l.ThreadSeg(k) + l.size;
      && (top - l.StackSize() <= a < top <==> l.InSegment(k, a))
      && (top - initial <= a < top ==> l.InSegment(k, a))
      && (l.ThreadSeg(k) <= a < l.ThreadSeg(k) + l.size ==> l.InSegment(k, a))
  {
    assert (k + 1) * l.StackSize() == k * l.StackSize() + l.StackSize();
  }

  /** No address is in two segments. */
  lemma SegmentsDisjoint(l: Layout, j: nat, k: nat, a: int)
    requires l.InSegment(j, a) && l.InSegment(k, a)
    ensures j == k
  {
    if j < k { Times(j + 1, k, l.StackSize()); }
    if k < j { Times(k + 1, j, l.StackSize()); }
  }

  /** __pthread_initialize: the base is aligned and lies between two and three stack
      sizes below the current frame, so at least one stack size below it. */
  function InitialBos(frame: int, n: nat): (bos: int)
    ensures bos % Pow2(n) == 0
    ensures frame - 3 * Pow2(n) < bos <= frame - 2 * Pow2(n)
  {
    AndNotLow(frame - 2 * Pow2(n), n);
    LowIsRemainder(frame - 2 * Pow2(n), n);
    RoundsDown(frame - 2 * Pow2(n), Pow2(n));
    AndNot(frame - 2 * Pow2(n), Pow2(n) - 1)
  }
}
