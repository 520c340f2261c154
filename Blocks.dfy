/**
 * Difference blocks: one per non-`equal` opcode, in opcode order, with the
 * highlight each side gets.
 */
module Blocks {
  import opened Wrappers
  import opened Opcodes

  /** A side's highlight: the opcode index its tag is named after
      (`left_block_<index>` / `right_block_<index>`) and the style tag whose
      background it takes (`replace`, `delete` or `insert`). */
  datatype Highlight = Highlight(index: nat, style: OpKind)

  /** `DiffBlock`: the opcode's kind, both half-open line ranges, and each
      side's highlight, absent when that side's range is empty. */
  datatype DiffBlock = DiffBlock(
    tag: OpKind,
    leftRange: (nat, nat),
    rightRange: (nat, nat),
    leftTag: Option<Highlight>,
    rightTag: Option<Highlight>)

  /** The block `compare_texts` builds for opcode number `index`. */
  function BlockFor(op: Opcode, index: nat): DiffBlock
  {
    DiffBlock(op.tag, (op.i1, op.i2), (op.j1, op.j2),
      if op.i2 > op.i1 then Some(Highlight(index, if op.tag == Replace then Replace else Delete)) else None,
      if op.j2 > op.j1 then Some(Highlight(index, if op.tag == Replace then Replace else Insert)) else None)
  }

  /** The blocks built from the first `n` opcodes: `equal` opcodes are
      skipped, every other one is appended. */
  function BlocksOf(ops: seq<Opcode>, n: nat): seq<DiffBlock>
    requires n <= |ops|
  {
    if n == 0 then []
    else BlocksOf(ops, n - 1) + (if ops[n - 1].tag == Equal then [] else [BlockFor(ops[n - 1], n - 1)])
  }

  /** The indices of the non-`equal` opcodes among the first `n`, ascending:
      each one is below `n`, names a non-`equal` opcode, and every
      non-`equal` opcode below `n` is listed. */
  function ChangedIndices(ops: seq<Opcode>, n: nat): (r: seq<nat>)
    requires n <= |ops|
    ensures forall t :: 0 <= t < |r| ==> r[t] < n && ops[r[t]].tag != Equal
    ensures forall t, u :: 0 <= t < u < |r| ==> r[t] < r[u]
    ensures forall k :: 0 <= k < n && ops[k].tag != Equal ==> k in r
  {
    if n == 0 then []
    else ChangedIndices(ops, n - 1) + (if ops[n - 1].tag == Equal then [] else [n - 1])
  }

  /** `compare_texts` builds exactly one block per non-`equal` opcode, in
      opcode order, and that block carries the opcode's kind and ranges. */
  lemma {:induction false} OneBlockPerChange(ops: seq<Opcode>, n: nat)
    requires n <= |ops|
    ensures var blocks, idx := BlocksOf(ops, n), ChangedIndices(ops, n);
      |blocks| == |idx| &&
      forall t :: 0 <= t < |idx| ==> blocks[t] == BlockFor(ops[idx[t]], idx[t])
  {
    if n > 0 {
      OneBlockPerChange(ops, n - 1);
      var prev, before := BlocksOf(ops, n - 1), ChangedIndices(ops, n - 1);
      var blocks, idx := BlocksOf(ops, n), ChangedIndices(ops, n);
      if ops[n - 1].tag == Equal {
        assert blocks == prev + [] && idx == before + [];
      } else {
        assert blocks == prev + [BlockFor(ops[n - 1], n - 1)];
        assert idx == before + [n - 1];
        forall t | 0 <= t < |idx|
          ensures blocks[t] == BlockFor(ops[idx[t]], idx[t])
        {
          if t < |before| {
            assert blocks[t] == prev[t] && idx[t] == before[t];
          }
        }
      }
    }
  }

  /** Every block is a change, and has a left highlight exactly when its
      left range is non-empty and a right highlight exactly when its right
      range is non-empty; the left style is `replace` for a replace block and
      `delete` otherwise, the right style `replace` or `insert`. */
  lemma {:induction false} BlockHighlights(ops: seq<Opcode>, n: nat)
    requires n <= |ops|
    ensures forall b :: b in BlocksOf(ops, n) ==>
      b.tag != Equal &&
      (b.leftTag.Some? <==> b.leftRange.0 < b.leftRange.1) &&
      (b.rightTag.Some? <==> b.rightRange.0 < b.rightRange.1) &&
      (b.leftTag.Some? ==> b.leftTag.value.style == (if b.tag == Replace then Replace else Delete)) &&
      (b.rightTag.Some? ==> b.rightTag.value.style == (if b.tag == Replace then Replace else Insert))
  {
    if n > 0 {
      BlockHighlights(ops, n - 1);
    }
  }

  /** There are no blocks exactly when every opcode is `equal` (the
      documents are reported identical). */
  lemma {:induction false} NoBlocksIffAllEqual(ops: seq<Opcode>, n: nat)
    requires n <= |ops|
    ensures BlocksOf(ops, n) == [] <==> forall k :: 0 <= k < n ==> ops[k].tag == Equal
  {
    if n > 0 {
      NoBlocksIffAllEqual(ops, n - 1);
    }
  }
}
