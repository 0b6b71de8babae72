/** The ingestion loop: block by block from the cursor to the tip, keeping a window of
    seen blocks and reporting parent hashes that do not match
    (depositwatcher/internal/chain/ingestion.go). Heights are uint64 values. */
module Ingestion {
  import opened Wrappers

  const TwoTo64 := 0x1_0000_0000_0000_0000

  // ---------- data ----------

  datatype Header = Header(hash: string, parent: string)

  /** uint64 arithmetic, which wraps. */
  function Minus(a: nat, b: nat): nat {
    (a - b) % TwoTo64
  }

  function Plus(a: nat, b: nat): nat {
    (a + b) % TwoTo64
  }

  // ---------- the window ----------

  /** The heights in (start, height] that are among the last `window`. */
  ghost function Window(start: nat, height: nat, window: nat): set<nat> {
    set h: nat | h <= height && InWindow(h, start, height, window)
  }

  predicate InWindow(h: nat, start: nat, height: nat, window: nat) {
    start < h <= height && h + window > height
  }

  /** What the DELETE leaves: nothing is pruned while the height is below the window,
      where its threshold would wrap around. */
  function Pruned(rows: map<nat, Header>, height: nat, window: nat): map<nat, Header> {
    if height < window then rows
    else
      var threshold := Plus(Minus(height, window), 1);
      map h | h in rows && h >= threshold :: rows[h]
  }

  /** Storing one more block and pruning moves the window along by exactly one. */
  lemma WindowMoves(rows: map<nat, Header>, start: nat, height: nat, window: nat, header: Header)
    requires 1 <= window < TwoTo64 && start < height < TwoTo64
    requires rows.Keys == Window(start, height - 1, window)
    ensures height !in rows
    ensures Pruned(rows[height := header], height, window).Keys == Window(start, height, window)
    ensures forall h :: h in Pruned(rows[height := header], height, window) ==>
              Pruned(rows[height := header], height, window)[h] == if h == height then header else rows[h]
  {
    if height >= window {
      assert Plus(Minus(height, window), 1) == height - window + 1 by {
        assert 0 <= height - window < TwoTo64 - 1;
      }
    }
    forall h
      ensures h in Pruned(rows[height := header], height, window) <==> h in Window(start, height, window)
    {
    }
  }

  /** Without its guard the pruning would, until the chain is `window` blocks high,
      delete everything. */
  lemma GuardIsNeeded(rows: map<nat, Header>, height: nat, window: nat)
    requires height + 1 < window < TwoTo64 && forall h :: h in rows ==> h <= height
    ensures var threshold := Plus(Minus(height, window), 1); forall h :: h in rows ==> h < threshold
  {
    assert Minus(height, window) == height - window + TwoTo64 by {
      assert (height - window + TwoTo64) % TwoTo64 == height - window + TwoTo64;
    }
  }

  /** `h`'s stored parent hash is not the hash stored below it. */
  predicate Mismatch(rows: map<nat, Header>, h: nat) {
    h > 0 && h in rows && h - 1 in rows && rows[h].parent != rows[h - 1].hash
  }

  /** The stored blocks are one unbroken chain. */
  ghost predicate Unbroken(rows: map<nat, Header>) {
    forall h :: h in rows && h + 1 in rows ==> rows[h + 1].parent == rows[h].hash
  }

  /** Reports being exact, the stored window is a chain exactly if none was made of it. */
  lemma UnbrokenUnlessReported(rows: map<nat, Header>, reported: set<nat>)
    requires forall h :: h in rows && h - 1 in rows ==> (h in reported <==> Mismatch(rows, h))
    ensures Unbroken(rows) <==> forall h :: h in rows && h - 1 in rows ==> h !in reported
  {
    if Unbroken(rows) {
      forall h | h in rows && h - 1 in rows
        ensures h !in reported
      {
        assert (h - 1) + 1 in rows;
      }
    } else {
      var h :| h in rows && h + 1 in rows && rows[h + 1].parent != rows[h].hash;
      assert Mismatch(rows, h + 1);
    }
  }

  class SeenBlocks {
    const window: nat
    const start: nat
    var rows: map<nat, Header>
    var cursor: nat
    /** The heights at which a committed block was reported as a reorg. */
    ghost var reported: set<nat>

    /** The window is exact, and what was reported of it is exactly what does not match. */
    ghost predicate Valid()
      reads this
    {
      && 1 <= window < TwoTo64 && start <= cursor
      && rows.Keys == Window(start, cursor, window)
      && forall h :: h in rows && h - 1 in rows ==> (h in reported <==> Mismatch(rows, h))
    }

    constructor (start: nat, window: nat)
      requires 1 <= window < TwoTo64
      ensures Valid() && cursor == start && rows == map[] && reported == {}
    {
      this.start, this.window := start, window;
      rows, cursor, reported := map[], start, {};
    }

    /** `detectParentMismatch`: with nothing stored below, nothing mismatches. */
    method DetectParentMismatch(height: nat, parent: string) returns (mismatch: bool)
      requires height > 0
      ensures mismatch <==> height - 1 in rows && rows[height - 1].hash != parent
    {
      return height - 1 in rows && rows[height - 1].hash != parent;
    }

    /** `processOneBlock`: stored, checked, counted and pruned, or none of these. */
    method ProcessOneBlock(height: nat, header: Option<Header>, commits: bool) returns (ok: bool)
      requires Valid() && height == cursor + 1 < TwoTo64
      modifies this
      ensures Valid() && (ok <==> header.Some? && commits)
      ensures if ok then cursor == height && height in rows && rows[height] == header.value
                         && (height - 1 in old(rows) && old(rows)[height - 1].hash != header.value.parent <==> height in reported)
              else rows == old(rows) && cursor == old(cursor)
      ensures reported - {height} == old(reported) - {height} && (!ok ==> reported == old(reported))
      ensures forall h :: h in rows && h != height ==> h in old(rows) && rows[h] == old(rows)[h]
    {
      if header.None? || !commits {
        return false;
      }
      var mismatch := DetectParentMismatch(height, header.value.parent);
      WindowMoves(rows, start, height, window, header.value);
      ghost var before := rows;
      reported := if mismatch then reported + {height} else reported - {height};
      rows := Pruned(rows[height := header.value], height, window);
      cursor := height;
      forall h | h in rows && h - 1 in rows
        ensures h in reported <==> Mismatch(rows, h)
      {
        if h == height {
          assert rows[h - 1] == before[h - 1];
        } else {
          assert h in before && h - 1 in before;
        }
      }
      return true;
    }

    /** `runIngestionTick`: every block up to the tip, or up to the first that fails. */
    method RunIngestionTick(tip: Option<nat>, headers: nat -> Option<Header>, commits: nat -> bool) returns (ok: bool)
      requires Valid() && (tip.Some? ==> tip.value < TwoTo64)
      modifies this
      ensures Valid() && cursor >= old(cursor)
      ensures ok ==> tip.Some? && cursor == (if tip.value <= old(cursor) then old(cursor) else tip.value)
      ensures !ok ==> tip.None? || (cursor < tip.value && (headers(cursor + 1).None? || !commits(cursor + 1)))
      ensures forall h :: old(cursor) < h <= cursor && h in rows ==> headers(h) == Some(rows[h])
    {
      if tip.None? {
        return false;
      }
      if tip.value <= cursor {
        return true;
      }
      for height := cursor + 1 to tip.value + 1
        invariant Valid() && cursor == height - 1 >= old(cursor)
        invariant forall h :: old(cursor) < h <= cursor && h in rows ==> headers(h) == Some(rows[h])
      {
        ghost var before := rows;
        ok := ProcessOneBlock(height, headers(height), commits(height));
        if !ok {
          return false;
        }
      }
      return true;
    }
  }
}
