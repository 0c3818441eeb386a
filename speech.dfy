/**
 * The platform speech engine (the browser's `speechSynthesis` global), seen
 * only through what the viewer uses: the `speaking` and `paused` flags and
 * `cancel`, `pause`, `resume` and `speak`.  The engine keeps a queue of
 * utterances; it is speaking exactly when that queue is non-empty (an
 * utterance that is paused still counts as speaking).
 */
module Speech {

  /** One request to speak a text, with the rate and volume it was built
      with, both in tenths (rate 10 is normal speed, volume 10 is full). */
  datatype Utterance = Utterance(text: string, rate: int, volume: int)

  /** The engine's observable state as a value. */
  datatype EngineState = EngineState(queue: seq<Utterance>, paused: bool)
  {
    predicate Speaking() { queue != [] }
  }

  /** The engine after `cancel`: nothing queued and not paused. The viewer
      relies on this platform behaviour; it is an assumption of the model. */
  const Cancelled := EngineState([], false)

  class Synthesizer {
    var queue: seq<Utterance>
    var paused: bool

    function Value(): EngineState
      reads this
    {
      EngineState(queue, paused)
    }

    /** `speechSynthesis.speaking` */
    function Speaking(): (b: bool)
      reads this
      ensures b <==> Value().Speaking()
    {
      queue != []
    }

    constructor ()
      ensures Value() == Cancelled
    {
      queue, paused := [], false;
    }

    /** `speechSynthesis.cancel()`: drops every queued utterance. */
    method Cancel()
      modifies this
      ensures Value() == Cancelled
    {
      queue, paused := [], false;
    }

    /** `speechSynthesis.pause()` */
    method Pause()
      modifies this
      ensures Value() == old(Value()).(paused := true)
    {
      paused := true;
    }

    /** `speechSynthesis.resume()` */
    method Resume()
      modifies this
      ensures Value() == old(Value()).(paused := false)
    {
      paused := false;
    }

    /** `speechSynthesis.speak(u)`: queues `u` behind whatever is queued. */
    method Speak(u: Utterance)
      modifies this
      ensures Value() == old(Value()).(queue := old(queue) + [u])
    {
      queue := queue + [u];
    }

    /** The engine finishes the utterance at the head of its queue; this is
        the moment its `onend` callback fires. Only an utterance that is being
        spoken, and not paused, can finish. */
    method Finish() returns (u: Utterance)
      requires queue != [] && !paused
      modifies this
      ensures u == old(queue)[0]
      ensures Value() == old(Value()).(queue := old(queue)[1..])
    {
      u := queue[0];
      queue := queue[1..];
    }
  }
}
