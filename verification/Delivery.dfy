/**
 From the kernel to a worker: the events of a run of tracepoints, made into samples, are the
 events that a worker given these samples processes.
 */
module Delivery {
  import opened Options
  import opened Wire
  import opened Tracepoints
  import opened Dispatch

  /** The sample of each event, in order, with whatever padding follows its struct. */
  function SamplesOf(events: seq<Event>, paddings: seq<seq<Byte>>, little: bool): (samples: seq<seq<Byte>>)
    requires |paddings| == |events|
    ensures |samples| == |events|
  {
    seq(|events|, k requires 0 <= k < |events| => Encode(events[k], little) + paddings[k])
  }

  lemma {:induction false} SamplesMean(events: seq<Event>, paddings: seq<seq<Byte>>, little: bool)
    requires |paddings| == |events| && forall e :: e in events ==> Fits(e)
    ensures Meanings(SamplesOf(events, paddings, little), little) == events
  {
    hide Encode, Meaning, Fits;
    if events != [] {
      var n := |events| - 1;
      var samples := SamplesOf(events, paddings, little);
      SamplesMean(events[..n], paddings[..n], little);
      assert samples[..n] == SamplesOf(events[..n], paddings[..n], little);
      RoundTrip(events[n], little, paddings[n]);
      assert events == events[..n] + [events[n]];
    }
  }

  /** A worker that is given the samples of a run processes exactly the events of the run, in order,
      whatever the maps held, the padding is, and the byte order. */
  method Deliver(steps: seq<Step>, paddings: seq<seq<Byte>>, little: bool) returns (processed: seq<Event>)
    requires Possible(steps) && |paddings| == |Run(steps).events|
    ensures processed == Run(steps).events
  {
    var kernel := new Kernel();
    hide After, Enabled, Fits, SamplesOf, Meanings;
    for k := 0 to |steps|
      invariant fresh(kernel) && kernel.Value() == Run(steps[..k])
    {
      assert steps[..k + 1] == steps[..k] + [steps[k]] && steps[..k + 1][..k] == steps[..k];
      kernel.Handle(steps[k]);
    }
    assert steps[..|steps|] == steps;
    EventsFit(steps);
    SamplesMean(kernel.bpEvents, paddings, little);
    processed := HandleAll(SamplesOf(kernel.bpEvents, paddings, little), little);
  }
}
