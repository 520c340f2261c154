/**
 * Opcodes produced by the sequence aligner, and the alignment padding they
 * determine.  The aligner itself is not modelled: an opcode list is an input
 * that satisfies `WellFormed` and covers both line sequences.
 */
module Opcodes {
  import opened Lines

  datatype OpKind = Equal | Replace | Delete | Insert

  datatype Side = Left | Right

  /** `(tag, i1, i2, j1, j2)`: left lines `[i1, i2)` become right lines `[j1, j2)`. */
  datatype Opcode = Opcode(tag: OpKind, i1: nat, i2: nat, j1: nat, j2: nat)

  function Other(side: Side): Side
  {
    if side == Left then Right else Left
  }

  function Lo(op: Opcode, side: Side): nat
  {
    if side == Left then op.i1 else op.j1
  }

  function Hi(op: Opcode, side: Side): nat
  {
    if side == Left then op.i2 else op.j2
  }

  function Len(op: Opcode, side: Side): int
  {
    Hi(op, side) - Lo(op, side)
  }

  /** Where the first `k` opcodes stop on one side. */
  function Start(ops: seq<Opcode>, k: nat, side: Side): nat
    requires k <= |ops|
  {
    if k == 0 then 0 else Hi(ops[k - 1], side)
  }

  /** Where the opcodes stop: they cover `[0, End(ops, side))`. */
  function End(ops: seq<Opcode>, side: Side): nat
  {
    Start(ops, |ops|, side)
  }

  /** Opcode `k` starts where the first `k` opcodes stop, its ranges are
      not reversed, and an `equal` opcode spans as many lines on each side. */
  predicate WellFormedAt(ops: seq<Opcode>, k: nat)
    requires k < |ops|
  {
    ops[k].i1 == Start(ops, k, Left) && ops[k].j1 == Start(ops, k, Right) &&
    ops[k].i1 <= ops[k].i2 && ops[k].j1 <= ops[k].j2 &&
    (ops[k].tag == Equal ==> ops[k].i2 - ops[k].i1 == ops[k].j2 - ops[k].j1)
  }

  /** The opcodes are contiguous half-open ranges starting at line 0 on both
      sides, each one starting where the one before it ends. */
  predicate WellFormed(ops: seq<Opcode>)
  {
    forall k {:trigger WellFormedAt(ops, k)} :: 0 <= k < |ops| ==> WellFormedAt(ops, k)
  }

  /** The opcodes cover `[0, m)` on the left and `[0, n)` on the right. */
  predicate Covers(ops: seq<Opcode>, m: nat, n: nat)
  {
    WellFormed(ops) && End(ops, Left) == m && End(ops, Right) == n
  }

  /** The ranges only move forward. */
  lemma {:induction false} StartMonotone(ops: seq<Opcode>, k: nat, n: nat, side: Side)
    requires WellFormed(ops) && k <= n <= |ops|
    ensures Start(ops, k, side) <= Start(ops, n, side)
    decreases n
  {
    if k < n {
      StartMonotone(ops, k, n - 1, side);
      assert WellFormedAt(ops, n - 1);
    }
  }

  /** How many spacer lines the padder inserts into `side` for `op`: the
      difference in length when the other side's range is longer, and none
      for an `equal` opcode or ranges of equal length. */
  function SpacerCount(op: Opcode, side: Side): nat
  {
    if op.tag == Equal then 0
    else if Len(op, Other(side)) > Len(op, side) then Len(op, Other(side)) - Len(op, side)
    else 0
  }

  /** The running offset: spacers inserted into `side` for the first `n` opcodes. */
  function TotalSpacers(ops: seq<Opcode>, n: nat, side: Side): nat
    requires n <= |ops|
  {
    if n == 0 then 0 else TotalSpacers(ops, n - 1, side) + SpacerCount(ops[n - 1], side)
  }

  /** The padded lines of `side` for the first `n` opcodes: each opcode's
      lines, immediately followed by that opcode's spacer lines. */
  function Padded(ops: seq<Opcode>, n: nat, w: seq<Line>, side: Side): seq<Line>
    requires WellFormed(ops) && n <= |ops| && Start(ops, n, side) <= |w|
  {
    if n == 0 then []
    else
      var op := ops[n - 1];
      assert WellFormedAt(ops, n - 1);
      Padded(ops, n - 1, w, side) + w[Lo(op, side)..Hi(op, side)] + Spacers(SpacerCount(op, side))
  }

  lemma {:induction false} PaddedLength(ops: seq<Opcode>, n: nat, w: seq<Line>, side: Side)
    requires WellFormed(ops) && n <= |ops| && Start(ops, n, side) <= |w|
    ensures |Padded(ops, n, w, side)| == Start(ops, n, side) + TotalSpacers(ops, n, side)
  {
    if n > 0 {
      assert WellFormedAt(ops, n - 1);
      PaddedLength(ops, n - 1, w, side);
    }
  }

  /** Both sides occupy the same number of visual lines once the first `n`
      opcodes are padded. */
  lemma {:induction false} HeightsAgree(ops: seq<Opcode>, n: nat)
    requires WellFormed(ops) && n <= |ops|
    ensures Start(ops, n, Left) + TotalSpacers(ops, n, Left) == Start(ops, n, Right) + TotalSpacers(ops, n, Right)
  {
    if n > 0 {
      HeightsAgree(ops, n - 1);
      assert WellFormedAt(ops, n - 1);
    }
  }

  /** Padding lines the two sides up: after the first `k` opcodes both
      padded sides have the same length, so every opcode (and so every block)
      starts on the same visual line on both sides; with `k == |ops|` the
      padded sides are equally long. */
  lemma PaddedSidesAligned(ops: seq<Opcode>, l: seq<Line>, r: seq<Line>, k: nat)
    requires Covers(ops, |l|, |r|) && k <= |ops|
    ensures Start(ops, k, Left) <= |l| && Start(ops, k, Right) <= |r|
    ensures |Padded(ops, k, l, Left)| == |Padded(ops, k, r, Right)|
  {
    StartMonotone(ops, k, |ops|, Left);
    StartMonotone(ops, k, |ops|, Right);
    HeightsAgree(ops, k);
    PaddedLength(ops, k, l, Left);
    PaddedLength(ops, k, r, Right);
  }

  /** One unfolding of `Padded`, for callers that name the last opcode. */
  lemma PaddedLast(ops: seq<Opcode>, n: nat, w: seq<Line>, side: Side)
    requires WellFormed(ops) && 0 < n <= |ops| && Start(ops, n, side) <= |w|
    ensures Start(ops, n - 1, side) == Lo(ops[n - 1], side) <= Hi(ops[n - 1], side) <= |w|
    ensures Padded(ops, n, w, side) == Padded(ops, n - 1, w, side) +
      w[Lo(ops[n - 1], side)..Hi(ops[n - 1], side)] + Spacers(SpacerCount(ops[n - 1], side))
  {
    assert WellFormedAt(ops, n - 1);
  }

  /** One step of the padder: with the first `k` opcodes padded and the
      rest of the lines still to come, inserting opcode `k`'s spacer lines
      right after its lines (at index `Hi + offset`) pads the first `k + 1`. */
  lemma {:induction false} PadStep(ops: seq<Opcode>, k: nat, w: seq<Line>, side: Side)
    requires WellFormed(ops) && k < |ops| && End(ops, side) <= |w|
    ensures Start(ops, k, side) <= Start(ops, k + 1, side) <= |w|
    ensures var cur := Padded(ops, k, w, side) + w[Start(ops, k, side)..];
      var at := Hi(ops[k], side) + TotalSpacers(ops, k, side);
      at <= |cur| &&
      cur[..at] + Spacers(SpacerCount(ops[k], side)) + cur[at..] ==
        Padded(ops, k + 1, w, side) + w[Start(ops, k + 1, side)..]
  {
    StartMonotone(ops, k + 1, |ops|, side);
    PaddedLast(ops, k + 1, w, side);
    PaddedLength(ops, k, w, side);
    var lo, hi := Lo(ops[k], side), Hi(ops[k], side);
    var p := Padded(ops, k, w, side);
    var cur := p + w[lo..];
    var at := hi + TotalSpacers(ops, k, side);
    assert at == |p| + (hi - lo);
    assert cur[..at] == p + w[lo..hi];
    assert cur[at..] == w[hi..];
  }

  /** `lines` is `w` with the first `k` opcodes padded and the rest of its
      lines still to come: the state of one side after `k` passes of the
      padding loop. */
  predicate PaddedUpTo(lines: seq<Line>, ops: seq<Opcode>, k: nat, w: seq<Line>, side: Side)
    requires WellFormed(ops) && k <= |ops|
  {
    Start(ops, k, side) <= |w| && lines == Padded(ops, k, w, side) + w[Start(ops, k, side)..]
  }

  /** A pass that inserts the opcode's spacer lines into `side` right
      after its range, shifted by the spacers inserted before, pads the
      lines up to one more opcode. */
  lemma {:induction false} PadStepWithSpacers(lines: seq<Line>, ops: seq<Opcode>, k: nat, w: seq<Line>, side: Side)
    requires WellFormed(ops) && k < |ops| && End(ops, side) <= |w|
    requires PaddedUpTo(lines, ops, k, w, side)
    ensures var at := Hi(ops[k], side) + TotalSpacers(ops, k, side);
      at <= |lines| &&
      PaddedUpTo(lines[..at] + Spacers(SpacerCount(ops[k], side)) + lines[at..], ops, k + 1, w, side)
  {
    PadStep(ops, k, w, side);
  }

  /** A pass that inserts no spacer lines into `side` leaves its lines as
      they are, and they are then padded up to one more opcode. */
  lemma {:induction false} PadStepWithoutSpacers(lines: seq<Line>, ops: seq<Opcode>, k: nat, w: seq<Line>, side: Side)
    requires WellFormed(ops) && k < |ops| && End(ops, side) <= |w|
    requires PaddedUpTo(lines, ops, k, w, side)
    requires SpacerCount(ops[k], side) == 0
    ensures PaddedUpTo(lines, ops, k + 1, w, side)
  {
    PadStep(ops, k, w, side);
    var at := Hi(ops[k], side) + TotalSpacers(ops, k, side);
    assert Spacers(0) == [];
    assert lines[..at] + [] + lines[at..] == lines;
  }

  /** Dropping the spacer lines from a padded side gives back the covered
      lines unchanged. */
  lemma {:induction false} PaddedRealLines(ops: seq<Opcode>, n: nat, w: seq<Line>, side: Side)
    requires NoSpacers(w)
    requires WellFormed(ops) && n <= |ops| && Start(ops, n, side) <= |w|
    ensures RealLines(Padded(ops, n, w, side)) == w[..Start(ops, n, side)]
  {
    if n > 0 {
      var op := ops[n - 1];
      PaddedLast(ops, n, w, side);
      PaddedRealLines(ops, n - 1, w, side);
      var chunk := w[Lo(op, side)..Hi(op, side)];
      NoSpacersSlice(w, Lo(op, side), Hi(op, side));
      RealLinesThenSpacers(Padded(ops, n - 1, w, side), chunk, SpacerCount(op, side));
      assert w[..Lo(op, side)] + chunk == w[..Hi(op, side)];
    }
  }

  /** `t` occurs in `s` starting at index `at`. */
  predicate OccursAt(s: seq<Line>, at: nat, t: seq<Line>)
  {
    at + |t| <= |s| && s[at..at + |t|] == t
  }

  lemma OccursInMiddle(a: seq<Line>, b: seq<Line>, c: seq<Line>)
    ensures OccursAt(a + b + c, |a|, b)
  {
    assert (a + b + c)[|a|..|a| + |b|] == b;
  }

  lemma OccursInLonger(s: seq<Line>, at: nat, t: seq<Line>, u: seq<Line>)
    requires OccursAt(s, at, t)
    ensures OccursAt(s + u, at, t)
  {
    assert (s + u)[at..at + |t|] == s[at..at + |t|];
  }

  /** In the padded side, opcode `k`'s lines start right after the padded
      lines of the opcodes before it. */
  lemma {:induction false} PaddedBlockAt(ops: seq<Opcode>, k: nat, n: nat, w: seq<Line>, side: Side)
    requires WellFormed(ops) && k < n <= |ops| && Start(ops, n, side) <= |w|
    ensures Start(ops, k, side) <= |w| && Lo(ops[k], side) <= Hi(ops[k], side) <= |w|
    ensures OccursAt(Padded(ops, n, w, side), |Padded(ops, k, w, side)|, w[Lo(ops[k], side)..Hi(ops[k], side)])
    decreases n
  {
    PaddedLast(ops, n, w, side);
    var last := w[Lo(ops[n - 1], side)..Hi(ops[n - 1], side)] + Spacers(SpacerCount(ops[n - 1], side));
    assert Padded(ops, n, w, side) == Padded(ops, n - 1, w, side) + last;
    if k == n - 1 {
      OccursInMiddle(Padded(ops, k, w, side), w[Lo(ops[k], side)..Hi(ops[k], side)], Spacers(SpacerCount(ops[k], side)));
    } else {
      PaddedBlockAt(ops, k, n - 1, w, side);
      OccursInLonger(Padded(ops, n - 1, w, side), |Padded(ops, k, w, side)|, w[Lo(ops[k], side)..Hi(ops[k], side)], last);
    }
  }
}
