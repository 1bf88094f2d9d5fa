/** The allocator of stack segments: one mark per segment, searched from below,
    grown on demand (manager.c). */
module StackSegments {

  import opened Options

  /** The segments below n that are not in use. */
  function FreeBelow(used: set<nat>, n: nat): set<nat> { set i: nat | 0 <= i < n && i !in used }

  class Allocator {
    var marks: array<bool>
    ghost var owned: set<nat>       // segments of threads that have not been freed
    ghost var reserved: set<nat>    // segments that could not be mapped

    ghost predicate Valid()
      reads this, marks
    {
      && owned !! reserved
      && (forall k: nat :: k in owned + reserved <==> k < marks.Length && marks[k])
    }

    constructor ()
      ensures Valid() && fresh(marks) && marks.Length == 0 && owned == {} && reserved == {}
    {
      marks := new bool[0];
      owned, reserved := {}, {};
    }

    /** pthread_grow_stack_segments: 128 marks at first, then twice as many. The old
        marks stay, the new ones are clear. */
    method Grow(granted: bool) returns (ok: bool)
      modifies this`marks
      ensures ok == granted
      ensures !ok ==> marks == old(marks)
      ensures ok ==> fresh(marks) && marks.Length == if old(marks.Length) == 0 then 128 else 2 * old(marks.Length)
      ensures ok ==> marks[..] == old(marks[..]) + seq(marks.Length - old(marks.Length), _ => false)
    {
      if !granted { return false; }
      var was := marks;
      var n := if was.Length == 0 then 128 else 2 * was.Length;
      var grown := new bool[n];
      var i := 0;
      while i < was.Length
        invariant i <= was.Length && grown[..i] == was[..i]
      {
        grown[i] := was[i];
        i := i + 1;
      }
      while i < n
        invariant was.Length <= i <= n && grown[..i] == was[..] + seq(i - was.Length, _ => false)
      {
        grown[i] := false;
        i := i + 1;
      }
      marks := grown;
      return true;
    }

    /** The inner search of pthread_handle_create: the next clear mark, growing the
        marks as long as memory is granted. */
    method NextFree(from: nat, grants: nat) returns (r: Option<nat>, left: nat)
      requires Valid() && from <= marks.Length && forall i: nat | i < from :: marks[i]
      modifies this`marks
      ensures Valid() && (marks == old(marks) || fresh(marks)) && marks.Length >= old(marks.Length)
      ensures left <= grants && (left == grants ==> marks.Length == old(marks.Length))
      ensures r.Some? ==> from <= r.value < marks.Length && !marks[r.value] && forall i: nat | i < r.value :: marks[i]
      ensures r.None? ==> left == 0 && forall i: nat | i < marks.Length :: marks[i]
    {
      left := grants;
      var sseg := from;
      while true
        invariant Valid() && (marks == old(marks) || fresh(marks)) && marks.Length >= old(marks.Length)
        invariant left <= grants && (left == grants ==> marks.Length == old(marks.Length))
        invariant from <= sseg <= marks.Length && forall i: nat | i < sseg :: marks[i]
        decreases left, marks.Length - sseg
      {
        if sseg >= marks.Length {
          ghost var was := marks[..];
          var ok := Grow(left > 0);
          if !ok { return None, left; }
          assert marks[..|was|] == was;
          assert forall i | 0 <= i < |was| :: marks[i] == was[i];
          assert forall i | |was| <= i < marks.Length :: !marks[i];
          left := left - 1;
        }
        if !marks[sseg] { return Some(sseg), left; }
        sseg := sseg + 1;
      }
    }

    /** pthread_handle_create, as far as segments go: mappable are the segments that
        mmap accepts, cloned tells whether clone succeeds. The search stops at the
        lowest free segment that can be mapped, reserving those below that cannot. */
    method Create(grants: nat, mappable: set<nat>, cloned: bool) returns (r: Option<nat>, ghost stop: nat)
      requires Valid()
      modifies this, marks
      ensures Valid() && (marks == old(marks) || fresh(marks))
      ensures reserved == old(reserved) + FreeBelow(old(owned + reserved), stop)
      ensures FreeBelow(old(owned + reserved), stop) !! mappable
      ensures r.Some? ==> cloned && r.value == stop && owned == old(owned) + {stop}
      ensures r.None? ==> owned == old(owned)
      ensures r.Some? || stop < marks.Length ==> stop in mappable && stop !in old(owned + reserved)
      ensures r.None? && cloned ==> stop == marks.Length
    {
      var left: nat, sseg: nat := grants, 0;
      while true
        invariant Valid() && (marks == old(marks) || fresh(marks)) && owned == old(owned)
        invariant sseg <= marks.Length && forall i: nat | i < sseg :: marks[i]
        invariant reserved == old(reserved) + FreeBelow(old(owned + reserved), sseg)
        invariant FreeBelow(old(owned + reserved), sseg) !! mappable
        decreases left, marks.Length - sseg
      {
        var k: Option<nat>;
        k, left := NextFree(sseg, left);
        if k.None? {
          forall i | i in FreeBelow(old(owned + reserved), marks.Length)
            ensures i in FreeBelow(old(owned + reserved), sseg)
          {
            assert i in owned + reserved;
          }
          assert FreeBelow(old(owned + reserved), marks.Length) == FreeBelow(old(owned + reserved), sseg);
          return None, marks.Length;
        }
        marks[k.value] := true;
        if k.value in mappable {
          owned := owned + {k.value};
          if cloned { return k, k.value; }
          marks[k.value] := false;
          owned := owned - {k.value};
          return None, k.value;
        }
        reserved := reserved + {k.value};
        sseg := k.value + 1;
      }
    }

    /** pthread_free gives the segment of a thread back. */
    method Free(k: nat)
      requires Valid() && k in owned
      modifies this`owned, marks
      ensures Valid() && owned == old(owned) - {k}
    {
      assert k in owned + reserved;
      marks[k] := false;
      owned := owned - {k};
    }
  }
}
