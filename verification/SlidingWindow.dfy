/** A spending window of fixed length that is reset lazily, by the first use after
    it has run out. Within one window the use is limited; over an arbitrary interval
    of the same length the guarantee is twice the limit, and no better. */
module SlidingWindows {
  import opened Types
  import opened Sequences

  datatype Window = Window(start: Height, used: nat)

  datatype Use = Use(height: Height, amount: nat)

  /** The reset that precedes every check. */
  function Refresh(w: Window, length: nat, height: Height): Window {
    if height >= w.start + length then Window(height, 0) else w
  }

  /** The part of a use that falls into the interval from `lo` up to, not including, `hi`. */
  function UsedIn(lo: Height, hi: Height): Use -> nat {
    (u: Use) => if lo <= u.height < hi then u.amount else 0
  }

  function UsedBetween(uses: seq<Use>, lo: Height, hi: Height): nat {
    SumBy(uses, UsedIn(lo, hi))
  }

  /** The amount used during `length` consecutive blocks. */
  function UsedFor(uses: seq<Use>, lo: Height, length: nat): nat {
    UsedBetween(uses, lo, lo + length)
  }

  lemma UsePush(uses: seq<Use>, u: Use, lo: Height, hi: Height)
    ensures UsedBetween(uses + [u], lo, hi) == UsedBetween(uses, lo, hi) + UsedIn(lo, hi)(u)
  {
    SumByPush(uses, u, UsedIn(lo, hi));
  }

  lemma {:induction false} UsedSplit(uses: seq<Use>, lo: Height, mid: Height, hi: Height)
    requires lo <= mid <= hi
    ensures UsedBetween(uses, lo, hi) == UsedBetween(uses, lo, mid) + UsedBetween(uses, mid, hi)
  {
    if uses != [] {
      UsedSplit(uses[..|uses| - 1], lo, mid, hi);
    }
  }

  lemma {:induction false} NothingAfter(uses: seq<Use>, lo: Height, hi: Height)
    requires forall u :: u in uses ==> u.height < lo
    ensures UsedBetween(uses, lo, hi) == 0
  {
    if uses != [] {
      assert uses[|uses| - 1] in uses;
      NothingAfter(uses[..|uses| - 1], lo, hi);
    }
  }

  // ---------------------------------------------------------------------
  // The invariant
  // ---------------------------------------------------------------------

  /** What the window's state says about the uses so far, the last of them at `last`
      or before. `base` is where the uses counted in the window begin: no interval
      from it on holds more than the window has counted, none of the given length that
      reaches back from it holds more than the limit, and none at all more than twice. */
  ghost predicate GuardedFrom(base: Height, uses: seq<Use>, last: Height, w: Window, length: nat, limit: nat) {
    && base <= w.start && base <= last
    && (forall u :: u in uses ==> u.height <= last && u.height < w.start + length)
    && w.used <= limit
    && (forall hi: Height :: UsedBetween(uses, base, hi) <= w.used)
    && (forall lo: Height :: lo <= base < lo + length ==> UsedBetween(uses, lo, base) <= limit)
    && (forall lo: Height :: UsedFor(uses, lo, length) <= 2 * limit)
  }

  ghost predicate Guarded(uses: seq<Use>, last: Height, w: Window, length: nat, limit: nat) {
    length == 0 || exists base: Height :: GuardedFrom(base, uses, last, w, length, limit)
  }

  lemma NewWindowGuarded(start: Height, length: nat, limit: nat)
    ensures Guarded([], 0, Window(start, 0), length, limit)
  {
    assert GuardedFrom(0, [], 0, Window(start, 0), length, limit);
  }

  lemma LaterGuarded(uses: seq<Use>, last: Height, height: Height, w: Window, length: nat, limit: nat)
    requires Guarded(uses, last, w, length, limit) && last <= height
    ensures Guarded(uses, height, w, length, limit)
  {
    if length > 0 {
      var base: Height :| GuardedFrom(base, uses, last, w, length, limit);
      assert GuardedFrom(base, uses, height, w, length, limit);
    }
  }

  /** Resetting an expired window keeps the guarantee, whether or not a use follows. */
  lemma RefreshGuarded(uses: seq<Use>, last: Height, height: Height, w: Window, length: nat, limit: nat)
    requires Guarded(uses, last, w, length, limit) && last <= height
    ensures Guarded(uses, height, Refresh(w, length, height), length, limit)
  {
    LaterGuarded(uses, last, height, w, length, limit);
    if length > 0 && height >= w.start + length {
      var base: Height :| GuardedFrom(base, uses, height, w, length, limit);
      forall hi: Height
        ensures UsedBetween(uses, height, hi) == 0
      {
        NothingAfter(uses, height, hi);
      }
      forall lo: Height | lo <= height < lo + length
        ensures UsedBetween(uses, lo, height) <= limit
      {
        UsedSplit(uses, base, lo, height);
      }
      assert GuardedFrom(height, uses, height, Window(height, 0), length, limit);
    }
  }

  /** A use that the refreshed window still has room for keeps it too. */
  lemma UseGuarded(uses: seq<Use>, u: Use, w: Window, length: nat, limit: nat)
    requires Guarded(uses, u.height, w, length, limit)
    requires length == 0 || u.height < w.start + length
    requires w.used + u.amount <= limit
    ensures Guarded(uses + [u], u.height, Window(w.start, w.used + u.amount), length, limit)
  {
    hide UsedBetween;
    if length > 0 {
      var base: Height :| GuardedFrom(base, uses, u.height, w, length, limit);
      var uses', w' := uses + [u], Window(w.start, w.used + u.amount);
      forall lo: Height, hi: Height
        ensures UsedBetween(uses', lo, hi) == UsedBetween(uses, lo, hi) + UsedIn(lo, hi)(u)
      {
        UsePush(uses, u, lo, hi);
      }
      forall lo: Height
        ensures UsedFor(uses', lo, length) <= 2 * limit
      {
        if base <= lo {
          UsedSplit(uses', base, lo, lo + length);
        } else if base < lo + length {
          UsedSplit(uses', lo, base, lo + length);
        } else {
          assert UsedFor(uses, lo, length) <= 2 * limit;
        }
      }
      assert GuardedFrom(base, uses', u.height, w', length, limit);
    }
  }

  lemma {:induction false} EmptyInterval(uses: seq<Use>, lo: Height)
    ensures UsedBetween(uses, lo, lo) == 0
  {
    if uses != [] {
      EmptyInterval(uses[..|uses| - 1], lo);
    }
  }

  /** The guarantee: no interval of the window's length holds more than twice the limit. */
  lemma GuardedBound(uses: seq<Use>, last: Height, w: Window, length: nat, limit: nat, lo: Height)
    requires Guarded(uses, last, w, length, limit)
    ensures UsedFor(uses, lo, length) <= 2 * limit
  {
    if length == 0 {
      EmptyInterval(uses, lo);
    }
  }

  // ---------------------------------------------------------------------
  // One window
  // ---------------------------------------------------------------------

  /** What a window opened at `start` can still take: nothing once it has been reset. */
  ghost predicate Settled(start: Height, uses: seq<Use>, last: Height, w: Window, length: nat, limit: nat) {
    w.start == start || (start + length <= last && UsedFor(uses, start, length) <= limit)
  }

  lemma CurrentWindow(uses: seq<Use>, last: Height, w: Window, length: nat, limit: nat)
    requires Guarded(uses, last, w, length, limit)
    ensures UsedFor(uses, w.start, length) <= limit
  {
    if length == 0 {
      EmptyInterval(uses, w.start);
    } else {
      var base: Height :| GuardedFrom(base, uses, last, w, length, limit);
      UsedSplit(uses, base, w.start, w.start + length);
    }
  }

  lemma RefreshSettled(start: Height, uses: seq<Use>, last: Height, height: Height, w: Window, length: nat, limit: nat)
    requires Guarded(uses, last, w, length, limit) && Settled(start, uses, last, w, length, limit) && last <= height
    ensures Settled(start, uses, height, Refresh(w, length, height), length, limit)
  {
    CurrentWindow(uses, last, w, length, limit);
  }

  lemma UseSettled(start: Height, uses: seq<Use>, u: Use, w: Window, length: nat, limit: nat)
    requires Settled(start, uses, u.height, w, length, limit)
    ensures Settled(start, uses + [u], u.height, Window(w.start, w.used + u.amount), length, limit)
  {
    UsePush(uses, u, start, start + length);
  }

  /** Each single window holds no more than the limit, the last one as well as any before. */
  lemma SettledBound(start: Height, uses: seq<Use>, last: Height, w: Window, length: nat, limit: nat)
    requires Guarded(uses, last, w, length, limit) && Settled(start, uses, last, w, length, limit)
    ensures UsedFor(uses, start, length) <= limit
  {
    CurrentWindow(uses, last, w, length, limit);
  }
}
