/** The search for a socket address that is free on one server connection
    (libnymea-remoteproxy/tunnelproxy/tunnelproxyserverconnection.cpp, getFreeAddress). */
module AddressAllocator {
  import opened Bytes

  const CONNECTION_LIMIT: nat := 100
  const JSON_ADDRESS: u16 := 0x0000
  const NO_ADDRESS: u16 := 0xFFFF

  function Wrap(n: nat): u16 {
    n % 0x1_0000
  }

  predicate Blocked(used: set<u16>, address: u16) {
    address in used || address == JSON_ADDRESS || address == NO_ADDRESS
  }

  /** The scan from one address on: at most `steps` blocked addresses are skipped, and the
      address reached after that many is taken unchecked. */
  function Scan(used: set<u16>, address: u16, steps: nat): u16
    decreases steps, address
  {
    if steps == 0 || !Blocked(used, address) then address
    else Scan(used, Wrap(address as nat + 1), steps - 1)
  }

  function NextAddress(used: set<u16>, counter: u16): u16 {
    Scan(used, Wrap(counter as nat + 1), CONNECTION_LIMIT)
  }

  /** Position k in the window of addresses the scan can reach. */
  function Candidate(counter: u16, k: nat): u16 {
    Wrap(counter as nat + 1 + k)
  }

  /** Some address in the window is free. */
  ghost predicate HasRoom(used: set<u16>, counter: u16) {
    exists k: nat :: k <= CONNECTION_LIMIT && !Blocked(used, Candidate(counter, k))
  }

  lemma {:induction false} ScanReaches(used: set<u16>, counter: u16, k: nat, steps: nat) returns (n: nat)
    ensures k <= n <= k + steps
    ensures Scan(used, Candidate(counter, k), steps) == Candidate(counter, n)
    ensures forall j: nat :: k <= j < n ==> Blocked(used, Candidate(counter, j))
    ensures n < k + steps ==> !Blocked(used, Candidate(counter, n))
    decreases steps
  {
    if steps == 0 || !Blocked(used, Candidate(counter, k)) {
      n := k;
    } else {
      assert Wrap(Candidate(counter, k) as nat + 1) == Candidate(counter, k + 1);
      n := ScanReaches(used, counter, k + 1, steps - 1);
    }
  }

  /** The address is usable exactly when the window holds a free one, and then it is the
      first free one after the counter in cyclic order. */
  lemma NextAddressExactly(used: set<u16>, counter: u16)
    ensures !Blocked(used, NextAddress(used, counter)) <==> HasRoom(used, counter)
    ensures HasRoom(used, counter) ==>
              exists n: nat :: n <= CONNECTION_LIMIT && NextAddress(used, counter) == Candidate(counter, n)
                && forall j: nat :: j < n ==> Blocked(used, Candidate(counter, j))
  {
    var n := ScanReaches(used, counter, 0, CONNECTION_LIMIT);
    if HasRoom(used, counter) {
      var k: nat :| k <= CONNECTION_LIMIT && !Blocked(used, Candidate(counter, k));
      assert k >= n;
    }
  }

  /** Pigeonhole: 98 addresses in use and the two reserved ones cannot fill the window of
      101. */
  lemma RoomForNinetyEight(used: set<u16>, counter: u16)
    requires |used| <= 98
    ensures HasRoom(used, counter)
  {
    var window := WindowSet(counter, CONNECTION_LIMIT + 1);
    var blocked := used + {JSON_ADDRESS} + {NO_ADDRESS};
    if window <= blocked {
      SubsetSize(window, blocked);
      assert false;
    }
    var a :| a in window && a !in blocked;
    assert !Blocked(used, a);
  }

  lemma CandidatesDistinct(counter: u16, j: nat, k: nat)
    requires j < k < 0x1_0000
    ensures Candidate(counter, j) != Candidate(counter, k)
  {
  }

  lemma {:induction false} SubsetSize<T>(a: set<T>, b: set<T>)
    requires a <= b
    ensures |a| <= |b|
  {
    if a != {} {
      var x :| x in a;
      SubsetSize(a - {x}, b - {x});
    }
  }

  lemma FullWindow(used: set<u16>, counter: u16)
    requires forall k: nat :: k < CONNECTION_LIMIT ==> Blocked(used, Candidate(counter, k))
    ensures NextAddress(used, counter) == Candidate(counter, CONNECTION_LIMIT)
  {
    var n := ScanReaches(used, counter, 0, CONNECTION_LIMIT);
  }

  /** The bound is tight: with the 99 addresses from 0xFF9C to 0xFFFE in use the scan from
      there passes 0xFFFF and ends on the reserved address 0x0000. */
  lemma NinetyNineIsTooMany()
    ensures exists used: set<u16> :: |used| == 99 && NextAddress(used, 0xFF9B) == JSON_ADDRESS
  {
    var used := WindowSet(0xFF9B, 99);
    forall k: nat | k < CONNECTION_LIMIT ensures Blocked(used, Candidate(0xFF9B, k)) {
      if k == 99 {
        assert Candidate(0xFF9B, 99) == NO_ADDRESS;
      }
    }
    FullWindow(used, 0xFF9B);
  }

  lemma {:induction false} WindowSet(counter: u16, size: nat) returns (s: set<u16>)
    requires size <= 0x1_0000
    ensures |s| == size
    ensures forall k: nat :: k < size ==> Candidate(counter, k) in s
    ensures forall a :: a in s ==> exists k: nat :: k < size && a == Candidate(counter, k)
  {
    if size == 0 {
      s := {};
    } else {
      var t := WindowSet(counter, size - 1);
      var last := Candidate(counter, size - 1);
      if last in t {
        var k: nat :| k < size - 1 && last == Candidate(counter, k);
        CandidatesDistinct(counter, k, size - 1);
        assert false;
      }
      s := t + {last};
    }
  }
}
