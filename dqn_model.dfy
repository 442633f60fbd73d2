/** The policy wrapper: it thresholds a resized frame, keeps the last four
    frames in `frameStack`, lays them out as the network's input, and picks
    the action with the first maximal score.  Loading the network and running
    it are not modelled: the network is the parameter `policy`. */
module Dqn {
  import opened Observation

  class DQNModel {
    /** The `ArrayDeque` of frames, oldest first. */
    var frameStack: seq<Frame>

    /** The deque never holds more than four frames. */
    ghost predicate Valid()
      reads this
    {
      |frameStack| <= Channels
    }

    /** Every frame held is a full 84x84 frame, as `preprocess` makes them. */
    ghost predicate FullFrames()
      reads this
    {
      forall f :: f in frameStack ==> |f| == FrameSize
    }

    constructor ()
      ensures Valid() && FullFrames() && frameStack == []
    {
      frameStack := [];
    }

    /** The threshold loop of `preprocess`, on the 84x84 pixels read back
        from the resized greyscale bitmap. */
    method Preprocess(pixels: seq<int32>) returns (arr: array<int>)
      requires |pixels| == FrameSize
      ensures fresh(arr)
      ensures arr.Length == FrameSize
      ensures forall i :: 0 <= i < FrameSize ==> arr[i] == (if Red(pixels[i]) > 1 then On else Off)
      ensures arr[..] == ThresholdFrame(pixels)
    {
      arr := new int[Side * Side];
      for i := 0 to |pixels|
        invariant forall j :: 0 <= j < i ==> arr[j] == ThresholdPixel(pixels[j])
      {
        var r := Red(pixels[i]);
        arr[i] := if r > 1 then On else Off;
      }
    }

    /** `appendFrame`: evict the oldest frame when four are held, then add the
        new one as the newest. */
    method AppendFrame(fr: Frame)
      requires Valid()
      modifies this
      ensures Valid()
      ensures old(FullFrames()) && |fr| == FrameSize ==> FullFrames()
      ensures frameStack == Appended(old(frameStack), fr)
    {
      if |frameStack| == Channels {
        frameStack := frameStack[1..];
      }
      frameStack := frameStack + [fr];
    }

    /** `getInputTensor`: channel `c` of the result is the c-th oldest frame,
        or the newest frame when fewer than `c + 1` frames are held. */
    method GetInputTensor() returns (data: array<int>)
      requires Valid() && FullFrames() && frameStack != []
      ensures fresh(data)
      ensures data.Length == Channels * FrameSize
      ensures forall c, k :: 0 <= c < Channels && 0 <= k < FrameSize ==>
                data[c * FrameSize + k] == Channel(frameStack, c)[k]
      ensures data[..] == Tensor(frameStack)
    {
      data := new int[Channels * Side * Side];
      var list := frameStack;
      for c := 0 to Channels
        invariant forall c', k :: 0 <= c' < c && 0 <= k < FrameSize ==>
                    data[c' * FrameSize + k] == Channel(list, c')[k]
      {
        var frame := if c < |list| then list[c] else list[|list| - 1];
        assert frame in list;
        // copy the frame into block c
        forall k | 0 <= k < |frame| {
          data[c * FrameSize + k] := frame[k];
        }
      }
      forall c | 0 <= c < Channels
        ensures data[c * FrameSize..(c + 1) * FrameSize] == Channel(list, c)
      {
        assert Channel(list, c) in list;
        var block := data[c * FrameSize..(c + 1) * FrameSize];
        assert forall k :: 0 <= k < FrameSize ==> block[k] == data[c * FrameSize + k];
      }
      assert data[..] == data[0..FrameSize] + data[FrameSize..2 * FrameSize]
                         + data[2 * FrameSize..3 * FrameSize] + data[3 * FrameSize..4 * FrameSize];
    }

    /** The arg-max loop of `predictAction`: the first index with a maximal
        score; a later equal score does not replace it. */
    method ArgMax(scores: seq<real>) returns (best: int)
      requires |scores| > 0
      ensures IsFirstMax(scores, best)
    {
      best := 0;
      var bestVal := scores[0];
      for i := 1 to |scores|
        invariant 0 <= best < i && bestVal == scores[best]
        invariant forall j :: 0 <= j < i ==> scores[j] <= bestVal
        invariant forall j :: 0 <= j < best ==> scores[j] < bestVal
      {
        if scores[i] > bestVal {
          bestVal := scores[i];
          best := i;
        }
      }
    }

    /** `predictAction`: threshold the frame, push it (four copies into an
        empty stack), lay out the tensor, score it with `policy`, and return
        the first best action. */
    method PredictAction(pixels: seq<int32>, policy: seq<int> -> seq<real>) returns (action: int)
      requires Valid() && FullFrames() && |pixels| == FrameSize
      requires |policy(Tensor(Pushed(frameStack, ThresholdFrame(pixels))))| > 0
      modifies this
      ensures Valid() && FullFrames()
      ensures frameStack == Pushed(old(frameStack), ThresholdFrame(pixels))
      ensures IsFirstMax(policy(Tensor(frameStack)), action)
    {
      var processed := Preprocess(pixels);
      var frame := processed[..];
      if |frameStack| == 0 {
        for n := 0 to Channels
          invariant |frameStack| == n && forall m :: 0 <= m < n ==> frameStack[m] == frame
        {
          frameStack := frameStack + [frame];
        }
        assert frameStack == [frame, frame, frame, frame];
      } else {
        AppendFrame(frame);
      }
      var input := GetInputTensor();
      var scores := policy(input[..]);
      action := ArgMax(scores);
    }
  }
}
