/**
 * The block navigator's cursor arithmetic (`next_block`, `prev_block`):
 * an optional index into a list of `count` blocks, moved with wraparound.
 */
module Navigation {
  import opened Wrappers

  /** The cursor after "Next Difference": unchanged with no blocks, the
      first block from no selection, otherwise one further, wrapping from
      the last block to the first. */
  function NextIndex(cursor: Option<nat>, count: nat): (r: Option<nat>)
    ensures count == 0 ==> r == cursor
    ensures count > 0 ==> r.Some? && r.value < count
    ensures count > 0 && cursor.None? ==> r == Some(0)
  {
    if count == 0 then cursor
    else if cursor.None? then Some(0)
    else Some((cursor.value + 1) % count)
  }

  /** The cursor after "Previous Difference": unchanged with no blocks, the
      first block from no selection, otherwise one back, wrapping from the
      first block to the last.  The remainder is never negative, as with
      Python's `%`. */
  function PrevIndex(cursor: Option<nat>, count: nat): (r: Option<nat>)
    ensures count == 0 ==> r == cursor
    ensures count > 0 ==> r.Some? && r.value < count
    ensures count > 0 && cursor.None? ==> r == Some(0)
  {
    if count == 0 then cursor
    else if cursor.None? then Some(0)
    else Some((cursor.value - 1) % count)
  }

  /** Next wraps from the last block to the first, and previous from the
      first to the last. */
  lemma Wraparound(count: nat)
    requires count > 0
    ensures NextIndex(Some(count - 1), count) == Some(0)
    ensures PrevIndex(Some(0), count) == Some(count - 1)
  {
  }

  /** The remainder is the unique `r` in `[0, count)` with `a == q * count + r`. */
  lemma ModUnique(a: int, count: nat, q: int, r: int)
    requires count > 0 && 0 <= r < count && a == q * count + r
    ensures a % count == r
  {
    var q0, r0 := a / count, a % count;
    var d := q - q0;
    assert d * count == r0 - r by {
      assert a == q0 * count + r0;
      assert q * count - q0 * count == (q - q0) * count;
    }
    if d >= 1 {
      MulAtLeast(d, count);
    } else if d <= -1 {
      MulAtLeast(-d, count);
    }
  }

  lemma MulAtLeast(x: int, c: nat)
    requires x >= 1
    ensures x * c >= c
  {
    assert x * c == c + (x - 1) * c;
  }

  /** From a selected block, previous undoes next and next undoes previous. */
  lemma NextPrevInverse(i: nat, count: nat)
    requires i < count
    ensures PrevIndex(NextIndex(Some(i), count), count) == Some(i)
    ensures NextIndex(PrevIndex(Some(i), count), count) == Some(i)
  {
    if i + 1 < count {
      ModUnique(i + 1, count, 0, i + 1);
      ModUnique(i, count, 0, i);
    } else {
      ModUnique(i + 1, count, 1, 0);
      ModUnique(-1, count, -1, count - 1);
    }
    if i > 0 {
      ModUnique(i - 1, count, 0, i - 1);
      ModUnique(i, count, 0, i);
    } else {
      ModUnique(-1, count, -1, count - 1);
      ModUnique(count, count, 1, 0);
    }
  }

  /** The cursor after pressing "Next Difference" `steps` times. */
  function Advance(cursor: Option<nat>, count: nat, steps: nat): Option<nat>
  {
    if steps == 0 then cursor else NextIndex(Advance(cursor, count, steps - 1), count)
  }

  lemma AddOneMod(a: nat, count: nat)
    requires count > 0
    ensures (a % count + 1) % count == (a + 1) % count
  {
    var q, r := a / count, a % count;
    assert a == q * count + r;
    if r + 1 < count {
      ModUnique(r + 1, count, 0, r + 1);
      ModUnique(a + 1, count, q, r + 1);
    } else {
      ModUnique(r + 1, count, 1, 0);
      assert a + 1 == (q + 1) * count + 0;
      ModUnique(a + 1, count, q + 1, 0);
    }
  }

  /** `steps` presses of next from block `i` land on block
      `(i + steps) mod count`; in particular `count` presses come back to the
      block one started from. */
  lemma {:induction false} AdvanceFrom(i: nat, count: nat, steps: nat)
    requires i < count
    ensures Advance(Some(i), count, steps) == Some((i + steps) % count)
  {
    if steps > 0 {
      AdvanceFrom(i, count, steps - 1);
      AddOneMod(i + steps - 1, count);
    } else {
      ModUnique(i, count, 0, i);
    }
  }
}
