/** The allocation history of the squared-norm buffers: every `new float64_t[]`
    and every `delete[]` the kernel performs, in order. The history is ghost
    state; it lets the kernel's contracts say that no buffer is released twice,
    that nothing leaks, and in which order buffers are released and allocated. */
module Ledger {

  /** One allocation or release of a buffer. */
  datatype Event = Allocated(buf: array<real>) | Released(buf: array<real>)

  /** The buffers ever allocated in history h. */
  ghost function Ever(h: seq<Event>): set<array<real>>
    decreases |h|
  {
    if h == [] then {}
    else Ever(h[..|h| - 1]) + (if h[|h| - 1].Allocated? then {h[|h| - 1].buf} else {})
  }

  /** The buffers allocated and not yet released at the end of history h. */
  ghost function Live(h: seq<Event>): set<array<real>>
    decreases |h|
  {
    if h == [] then {}
    else if h[|h| - 1].Allocated? then Live(h[..|h| - 1]) + {h[|h| - 1].buf}
    else Live(h[..|h| - 1]) - {h[|h| - 1].buf}
  }

  /** A history in which every allocation yields a buffer never seen before and
      every release names a buffer that is live at that point. */
  ghost predicate WellFormed(h: seq<Event>)
    decreases |h|
  {
    h == [] ||
    (WellFormed(h[..|h| - 1]) &&
     (h[|h| - 1].Allocated? ==> h[|h| - 1].buf !in Ever(h[..|h| - 1])) &&
     (h[|h| - 1].Released? ==> h[|h| - 1].buf in Live(h[..|h| - 1])))
  }

  /** The non-null ones among two buffer pointers. */
  ghost function Owned(l: array?<real>, r: array?<real>): set<array<real>>
  {
    (if l == null then {} else {l}) + (if r == null then {} else {r})
  }

  /** The releases done by cleanup on the pointer pair (l, r): r first, and only
      when it is not the same array as l, then l; a null pointer is not released. */
  ghost function Frees(l: array?<real>, r: array?<real>): seq<Event>
  {
    (if r != null && r != l then [Released(r)] else []) + (if l != null then [Released(l)] else [])
  }

  /** The allocations done by precompute on the pointer pair (l, r): l first,
      then r unless it is the same array as l. */
  ghost function Allocs(l: array?<real>, r: array?<real>): seq<Event>
  {
    (if l != null then [Allocated(l)] else []) + (if r != null && r != l then [Allocated(r)] else [])
  }

  /** The buffers named by a sequence of events. */
  ghost function Named(ev: seq<Event>): set<array<real>>
  {
    set k | 0 <= k < |ev| :: ev[k].buf
  }

  /** Appending an allocation of a buffer never seen before keeps the history
      well formed and makes that buffer live. */
  lemma AllocateKeepsWellFormed(h: seq<Event>, b: array<real>)
    requires WellFormed(h) && b !in Ever(h)
    ensures WellFormed(h + [Allocated(b)])
    ensures Live(h + [Allocated(b)]) == Live(h) + {b}
    ensures Ever(h + [Allocated(b)]) == Ever(h) + {b}
  {
  }

  /** Appending a release of a live buffer keeps the history well formed and
      removes exactly that buffer from the live ones. */
  lemma ReleaseKeepsWellFormed(h: seq<Event>, b: array<real>)
    requires WellFormed(h) && b in Live(h)
    ensures WellFormed(h + [Released(b)])
    ensures Live(h + [Released(b)]) == Live(h) - {b}
    ensures Ever(h + [Released(b)]) == Ever(h)
  {
  }

  /** Every buffer ever allocated is named by an allocation event of the history. */
  lemma {:induction false} EverRecorded(h: seq<Event>, b: array<real>)
    requires b in Ever(h)
    ensures exists k :: 0 <= k < |h| && h[k] == Allocated(b)
  {
    var p := h[..|h| - 1];
    if b in Ever(p) {
      EverRecorded(p, b);
      var k :| 0 <= k < |p| && p[k] == Allocated(b);
      assert h[k] == p[k];
    } else {
      assert h[|h| - 1] == Allocated(b);
    }
  }

  /** Only allocated buffers are live. */
  lemma {:induction false} LiveWereAllocated(h: seq<Event>)
    requires WellFormed(h)
    ensures Live(h) <= Ever(h)
  {
    if h != [] {
      LiveWereAllocated(h[..|h| - 1]);
    }
  }

  /** A buffer released at some point of a well-formed history was allocated and
      is never live again afterwards. */
  lemma {:induction false} ReleasedStaysDead(h: seq<Event>, i: nat)
    requires WellFormed(h) && i < |h| && h[i].Released?
    ensures h[i].buf in Ever(h) && h[i].buf !in Live(h)
  {
    var p := h[..|h| - 1];
    if i == |h| - 1 {
      LiveWereAllocated(p);
    } else {
      assert p[i] == h[i];
      ReleasedStaysDead(p, i);
    }
  }

  /** In a well-formed history no buffer is released twice. */
  lemma {:induction false} NoDoubleRelease(h: seq<Event>)
    requires WellFormed(h)
    ensures forall i, j :: 0 <= i < j < |h| && h[i].Released? && h[j].Released? ==> h[i].buf != h[j].buf
  {
    if h != [] {
      var p := h[..|h| - 1];
      NoDoubleRelease(p);
      forall i, j | 0 <= i < j < |h| && h[i].Released? && h[j].Released?
        ensures h[i].buf != h[j].buf
      {
        assert p[i] == h[i];
        if j == |h| - 1 {
          ReleasedStaysDead(p, i);
        } else {
          assert p[j] == h[j];
        }
      }
    }
  }

  /** Cleanup releases each distinct non-null buffer of the pair exactly once:
      the releases name exactly the owned buffers, one event per buffer. */
  lemma FreesReleaseEachOnce(l: array?<real>, r: array?<real>)
    ensures forall k :: 0 <= k < |Frees(l, r)| ==> Frees(l, r)[k].Released?
    ensures Named(Frees(l, r)) == Owned(l, r)
    ensures |Frees(l, r)| == |Owned(l, r)|
  {
    var ev := Frees(l, r);
    if l != null && r != null && l != r {
      assert ev == [Released(r), Released(l)];
      assert ev[0].buf == r && ev[1].buf == l;
      assert Owned(l, r) == {l, r};
    } else if l != null {
      assert ev == [Released(l)];
      assert ev[0].buf == l;
      assert Owned(l, r) == {l};
    } else if r != null {
      assert ev == [Released(r)];
      assert ev[0].buf == r;
      assert Owned(l, r) == {r};
    }
  }
}
