/** The observation encoder as values: the per-pixel threshold, the stack of
    the last four frames, the input tensor laid out from the stack, and the
    arg-max over the policy's scores.  Class `Dqn.DQNModel` and the methods
    beside it perform these in place and are proved against them. */
module Observation {

  /** A Kotlin `Int`, here an ARGB pixel as returned by `Bitmap.getPixels`. */
  newtype int32 = x: int | -0x8000_0000 <= x < 0x8000_0000

  /** Side of the square frame the policy sees. */
  const Side := 84
  /** Number of values in one frame: 84 * 84. */
  const FrameSize := 7056
  /** Number of frames stacked into one input tensor. */
  const Channels := 4
  /** Value of a pixel whose red byte passes the threshold. */
  const On := 255
  const Off := 0

  /** One processed frame; its values are the floats 0.0 and 255.0, which
      integers represent exactly. */
  type Frame = seq<int>

  // ----- threshold -------------------------------------------------------

  /** `(p shr 16) and 0xff`: bits 16..23 of the 32-bit pixel.  An arithmetic
      shift right is division rounding down, and masking with 0xff is the
      non-negative remainder by 256. */
  function Red(p: int32): (r: int)
    ensures 0 <= r < 256
  {
    ((p as int) / 0x1_0000) % 0x100
  }

  /** The pixel with the given alpha, red, green and blue bytes, read as a
      two's-complement 32-bit `Int`. */
  function Argb(a: int, r: int, g: int, b: int): int32
    requires 0 <= a < 256 && 0 <= r < 256 && 0 <= g < 256 && 0 <= b < 256
  {
    var u := a * 0x100_0000 + r * 0x1_0000 + g * 0x100 + b;
    (if u < 0x8000_0000 then u else u - 0x1_0000_0000) as int32
  }

  function ThresholdPixel(p: int32): int
  {
    if Red(p) > 1 then On else Off
  }

  /** The threshold applied to every pixel of a frame. */
  function ThresholdFrame(pixels: seq<int32>): (f: Frame)
    ensures |f| == |pixels|
    ensures forall i :: 0 <= i < |pixels| ==> f[i] == ThresholdPixel(pixels[i])
  {
    seq(|pixels|, i requires 0 <= i < |pixels| => ThresholdPixel(pixels[i]))
  }

  /** The shift-and-mask recovers the red byte of any ARGB pixel, whatever
      its alpha (and so whatever the sign of the `Int`). */
  lemma RedOfArgb(a: int, r: int, g: int, b: int)
    requires 0 <= a < 256 && 0 <= r < 256 && 0 <= g < 256 && 0 <= b < 256
    ensures Red(Argb(a, r, g, b)) == r
  {
    var low := g * 0x100 + b;
    assert 0 <= low < 0x1_0000;
    var u := a * 0x100_0000 + r * 0x1_0000 + low;
    var q := if u < 0x8000_0000 then a * 0x100 + r else a * 0x100 + r - 0x1_0000;
    var v := Argb(a, r, g, b) as int;
    assert v == q * 0x1_0000 + low;
    assert v / 0x1_0000 == q;
    assert q % 0x100 == r;
  }

  /** A pixel turns on exactly when its red byte is at least 2: red values 0
      and 1 both give `Off`. */
  lemma ThresholdOfArgb(a: int, r: int, g: int, b: int)
    requires 0 <= a < 256 && 0 <= r < 256 && 0 <= g < 256 && 0 <= b < 256
    ensures ThresholdPixel(Argb(a, r, g, b)) == (if r >= 2 then On else Off)
  {
    RedOfArgb(a, r, g, b);
  }

  // ----- frame stack -----------------------------------------------------

  /** `appendFrame`: when the stack is full the oldest frame is dropped; the
      new frame becomes the newest. */
  function Appended(stack: seq<Frame>, f: Frame): (r: seq<Frame>)
    requires |stack| <= Channels
    ensures |r| == if |stack| < Channels then |stack| + 1 else Channels
    ensures r == (stack + [f])[|stack| + 1 - |r|..]
  {
    (if |stack| == Channels then stack[1..] else stack) + [f]
  }

  /** The stack handling of `predictAction`: an empty stack is filled with
      four copies of the frame, otherwise the frame is appended. */
  function Pushed(stack: seq<Frame>, f: Frame): seq<Frame>
    requires |stack| <= Channels
  {
    if |stack| == 0 then [f, f, f, f] else Appended(stack, f)
  }

  /** The stack after `predictAction` has been called with the frames `fs`,
      in order, on a fresh model. */
  function Fed(fs: seq<Frame>): (r: seq<Frame>)
    ensures |r| <= Channels
    ensures fs != [] ==> |r| == Channels
  {
    if fs == [] then [] else Pushed(Fed(fs[..|fs| - 1]), fs[|fs| - 1])
  }

  /** The last four of the frames fed, counting the first frame four times. */
  function Window(fs: seq<Frame>): seq<Frame>
    requires fs != []
  {
    ([fs[0], fs[0], fs[0]] + fs)[|fs| - 1..]
  }

  /** After any number of frames the stack holds exactly the last four,
      oldest first, with the first frame standing in for the missing ones. */
  lemma {:induction false} FedIsWindow(fs: seq<Frame>)
    requires fs != []
    ensures Fed(fs) == Window(fs)
  {
    if |fs| > 1 {
      var init := fs[..|fs| - 1];
      FedIsWindow(init);
      var last := fs[|fs| - 1];
      var padded := [fs[0], fs[0], fs[0]] + init;
      assert init[0] == fs[0];
      assert Window(init) == padded[|fs| - 2..];
      assert [fs[0], fs[0], fs[0]] + fs == padded + [last];
      assert Window(fs) == padded[|fs| - 1..] + [last];
      assert padded[|fs| - 1..] == Window(init)[1..];
      // The stack was full, so the push evicts its oldest frame.
      assert |Fed(init)| == Channels;
      assert Fed(fs) == (Window(init) + [last])[1..];
      assert (Window(init) + [last])[1..] == Window(init)[1..] + [last];
    }
  }

  /** One frame into a fresh model: the stack is four copies of it. */
  lemma FedOne(f: Frame)
    ensures Fed([f]) == [f, f, f, f]
  {
    FedIsWindow([f]);
  }

  /** Five frames into a fresh model: the first has been evicted. */
  lemma FedFive(f1: Frame, f2: Frame, f3: Frame, f4: Frame, f5: Frame)
    ensures Fed([f1, f2, f3, f4, f5]) == [f2, f3, f4, f5]
  {
    FedIsWindow([f1, f2, f3, f4, f5]);
    assert ([f1, f1, f1] + [f1, f2, f3, f4, f5])[4..] == [f2, f3, f4, f5];
  }

  // ----- input tensor ----------------------------------------------------

  /** The frame copied into channel `c`: the c-th oldest, or the newest when
      the stack holds fewer than `c + 1` frames. */
  function Channel(stack: seq<Frame>, c: nat): Frame
    requires stack != []
  {
    if c < |stack| then stack[c] else stack[|stack| - 1]
  }

  /** The four channels laid out one after the other. */
  function Tensor(stack: seq<Frame>): seq<int>
    requires stack != []
  {
    Channel(stack, 0) + Channel(stack, 1) + Channel(stack, 2) + Channel(stack, 3)
  }

  /** In the tensor of a stack of 84x84 frames, the block of channel `c`
      holds `Channel(stack, c)`. */
  lemma TensorBlock(stack: seq<Frame>, c: nat, k: nat)
    requires stack != [] && forall f :: f in stack ==> |f| == FrameSize
    requires c < Channels && k < FrameSize
    ensures |Tensor(stack)| == Channels * FrameSize
    ensures Tensor(stack)[c * FrameSize + k] == Channel(stack, c)[k]
  {
    assert forall c' :: 0 <= c' < Channels ==> Channel(stack, c') in stack;
  }

  /** A stack of one frame gives a tensor of four copies of that frame: the
      missing channels repeat the newest frame rather than being zero. */
  lemma ColdStartTensor(f: Frame)
    ensures Tensor([f]) == f + f + f + f
    ensures Tensor(Fed([f])) == f + f + f + f
  {
    FedOne(f);
  }

  // ----- action choice ---------------------------------------------------

  /** `best` is the first index holding a maximal score. */
  predicate IsFirstMax(scores: seq<real>, best: int)
  {
    && 0 <= best < |scores|
    && (forall j :: 0 <= j < |scores| ==> scores[j] <= scores[best])
    && (forall j :: 0 <= j < best ==> scores[j] < scores[best])
  }

  /** At most one index is the first maximum. */
  lemma FirstMaxUnique(scores: seq<real>, i: int, j: int)
    requires IsFirstMax(scores, i) && IsFirstMax(scores, j)
    ensures i == j
  {
    assert scores[i] == scores[j];
  }
}
