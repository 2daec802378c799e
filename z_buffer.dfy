/** `src/z_buffer.rs`: one depth byte per pixel, and the test-and-update that decides
    whether a new fragment is visible. */
module DepthBuffer {
  import opened Base

  datatype PixelVisibility = Visible | Hidden

  datatype UpdateResult = UpdateResult(pixelVisibility: PixelVisibility)

  /** `UpdateResult::unwrap`. */
  function Unwrap(r: UpdateResult): PixelVisibility {
    r.pixelVisibility
  }

  /** `if_pixel_visible`: the callback, given as the state change it makes, runs
      exactly when the result is `Visible`. */
  function IfPixelVisible<S>(r: UpdateResult, state: S, callback: S -> S): (after: S)
    ensures Unwrap(r) == Visible ==> after == callback(state)
    ensures Unwrap(r) == Hidden ==> after == state
  {
    if r.pixelVisibility == Visible then callback(state) else state
  }

  /** `z as u8` keeps the low byte of the depth. */
  function AsU8(z: U32): U8 {
    z % 0x100
  }

  /** The comparison of `update_buffer`: a tie is visible. */
  function DepthTest(stored: U8, z: U32): (v: PixelVisibility)
    ensures v == Visible <==> stored <= AsU8(z)
  {
    if stored <= AsU8(z) then Visible else Hidden
  }

  /** The stored byte after one update. */
  function Step(stored: U8, z: U32): (after: U8)
    ensures DepthTest(stored, z) == Visible ==> after == AsU8(z)
    ensures DepthTest(stored, z) == Hidden ==> after == stored
  {
    if DepthTest(stored, z) == Visible then AsU8(z) else stored
  }

  /** The byte of one pixel after a run of updates at that pixel. */
  function Replay(stored: U8, zs: seq<U32>): U8
    decreases |zs|
  {
    if |zs| == 0 then stored else Step(Replay(stored, zs[..|zs| - 1]), zs[|zs| - 1])
  }

  /** What each update of the run reports. */
  function Visibilities(stored: U8, zs: seq<U32>): (vs: seq<PixelVisibility>)
    ensures |vs| == |zs|
    decreases |zs|
  {
    if |zs| == 0 then []
    else Visibilities(stored, zs[..|zs| - 1]) + [DepthTest(Replay(stored, zs[..|zs| - 1]), zs[|zs| - 1])]
  }

  /** Depths below 256 arriving in non-decreasing order, none below the stored byte,
      are all visible, and the last one is what remains stored. */
  lemma {:induction false} NonDecreasingAllVisible(stored: U8, zs: seq<U32>)
    requires forall i :: 0 <= i < |zs| ==> zs[i] < 0x100
    requires forall i, j :: 0 <= i <= j < |zs| ==> zs[i] <= zs[j]
    requires |zs| > 0 ==> stored <= zs[0]
    ensures forall i :: 0 <= i < |zs| ==> Visibilities(stored, zs)[i] == Visible
    ensures |zs| > 0 ==> Replay(stored, zs) == zs[|zs| - 1]
    decreases |zs|
  {
    if |zs| > 0 {
      var front := zs[..|zs| - 1];
      var last := zs[|zs| - 1];
      NonDecreasingAllVisible(stored, front);
      var before := Replay(stored, front);
      assert before <= last by {
        if |front| > 0 {
          assert before == zs[|zs| - 2];
        }
      }
      assert AsU8(last) == last;
      assert Visibilities(stored, zs) == Visibilities(stored, front) + [DepthTest(before, last)];
    }
  }

  /** A depth whose low byte is below the stored one is hidden and changes nothing. */
  lemma NearerStoredHides(stored: U8, z: U32)
    requires AsU8(z) < stored
    ensures DepthTest(stored, z) == Hidden && Step(stored, z) == stored
  {
  }

  class ZBuffer {
    /** The `GrayImage`, indexed `[x, y]`. */
    const cells: array2<U8>

    /** `ZBuffer::new`: a `width` × `height` buffer of zeros. */
    constructor (width: U32, height: U32)
      ensures fresh(cells)
      ensures cells.Length0 == width && cells.Length1 == height
      ensures forall i, j :: 0 <= i < width && 0 <= j < height ==> cells[i, j] == 0
    {
      cells := new U8[width, height]((i, j) => 0);
    }

    /** `update_buffer`: compares with the stored byte, overwrites it when visible,
        and touches no other cell. Indexing off the buffer panics. */
    method UpdateBuffer(x: U32, y: U32, z: U32) returns (r: UpdateResult)
      requires x < cells.Length0 && y < cells.Length1
      modifies cells
      ensures Unwrap(r) == DepthTest(old(cells[x, y]), z)
      ensures cells[x, y] == Step(old(cells[x, y]), z)
      ensures forall i, j :: 0 <= i < cells.Length0 && 0 <= j < cells.Length1 && (i != x || j != y) ==>
                cells[i, j] == old(cells[i, j])
    {
      if cells[x, y] <= AsU8(z) {
        cells[x, y] := AsU8(z);
        r := UpdateResult(Visible);
      } else {
        r := UpdateResult(Hidden);
      }
    }

    /** A run of updates at one pixel, in order: each reports what `Visibilities`
        says and the pixel ends as `Replay` says. */
    method UpdateRun(x: U32, y: U32, zs: seq<U32>) returns (vs: seq<PixelVisibility>)
      requires x < cells.Length0 && y < cells.Length1
      modifies cells
      ensures vs == Visibilities(old(cells[x, y]), zs)
      ensures cells[x, y] == Replay(old(cells[x, y]), zs)
      ensures forall i, j :: 0 <= i < cells.Length0 && 0 <= j < cells.Length1 && (i != x || j != y) ==>
                cells[i, j] == old(cells[i, j])
    {
      ghost var start := cells[x, y];
      vs := [];
      var k := 0;
      while k < |zs|
        invariant 0 <= k <= |zs|
        invariant vs == Visibilities(start, zs[..k])
        invariant cells[x, y] == Replay(start, zs[..k])
        invariant forall i, j :: 0 <= i < cells.Length0 && 0 <= j < cells.Length1 && (i != x || j != y) ==>
                    cells[i, j] == old(cells[i, j])
      {
        assert zs[..k + 1][..k] == zs[..k];
        var r := UpdateBuffer(x, y, zs[k]);
        vs := vs + [Unwrap(r)];
        k := k + 1;
      }
      assert zs[..k] == zs;
    }

    /** `unpack`: the depth image itself. */
    method Unpack() returns (image: array2<U8>)
      ensures image == cells
    {
      image := cells;
    }
  }

  /** The unit test: a fresh 2 × 2 buffer accepts depth 1 at (1, 1) and stores it. */
  method TestUpdate() {
    var zb := new ZBuffer(2, 2);
    var r := zb.UpdateBuffer(1, 1, 1);
    assert Unwrap(r) == Visible;
    assert zb.cells[1, 1] == 1;
  }
}
