/** The frame queue of `AsyncMicrophone`: the capture loop puts frames in,
    the engine's feeder drains them. Frames are opaque values of type `F`. */
module Microphone {

  class AsyncMicrophone<F> {
    /** `_audio_queue`, front first. */
    var audioQueue: seq<F>

    constructor ()
      ensures audioQueue == []
    {
      audioQueue := [];
    }

    /** `_audio_queue.put`: a captured frame joins the back of the queue. */
    method Put(frame: F)
      modifies this
      ensures audioQueue == old(audioQueue) + [frame]
    {
      audioQueue := audioQueue + [frame];
    }

    /** `_audio_queue.get` on a non-empty queue: the front frame leaves it. */
    method Get() returns (frame: F)
      requires audioQueue != []
      modifies this
      ensures frame == old(audioQueue)[0] && audioQueue == old(audioQueue)[1..]
    {
      frame := audioQueue[0];
      audioQueue := audioQueue[1..];
    }

    /** `get_audio_data`: takes frames until the queue is empty and returns
        them in the order they were put. */
    method GetAudioData() returns (result: seq<F>)
      modifies this
      ensures result == old(audioQueue) && audioQueue == []
    {
      result := [];
      while audioQueue != []
        invariant result + audioQueue == old(audioQueue)
        decreases |audioQueue|
      {
        var frame := Get();
        result := result + [frame];
      }
    }

    /** `clear_audio_data`: takes frames until the queue is empty and drops them. */
    method ClearAudioData()
      modifies this
      ensures audioQueue == []
    {
      while audioQueue != []
        decreases |audioQueue|
      {
        var _ := Get();
      }
    }
  }
}
