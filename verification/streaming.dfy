/**
  The resident set of streamed level instances (`loadedLevels`): a FIFO
  that admits the handle of every successful stream request and evicts
  its oldest entry once more than `MaxResident` are held.
 */
module Streaming {
  import opened Wrappers
  import opened Sequences

  /** An opaque handle to one streamed level instance. */
  datatype Handle = Handle(id: nat)

  /** What the streaming capability reports for one load request. */
  datatype StreamOutcome = Streamed(handle: Handle) | StreamFailed

  /** At most this many streamed levels stay resident. */
  const MaxResident: nat := 2

  /** The handles an outcome contributes: one on success, none on failure. */
  function Arrivals(outcome: StreamOutcome): (hs: seq<Handle>)
    ensures |hs| <= 1
    ensures outcome.Streamed? ==> hs == [outcome.handle]
    ensures outcome.StreamFailed? ==> hs == []
  {
    match outcome
    case Streamed(h) => [h]
    case StreamFailed => []
  }

  /** The handles a run of outcomes contributes, in request order. */
  function ArrivalsOf(outcomes: seq<StreamOutcome>): (hs: seq<Handle>)
    ensures |hs| <= |outcomes|
    // every arrival is the handle of a request that streamed, and no request that failed adds one
    ensures forall h :: h in hs ==> Streamed(h) in outcomes
    ensures (forall k :: 0 <= k < |outcomes| ==> outcomes[k].StreamFailed?) ==> hs == []
    decreases |outcomes|
  {
    if outcomes == [] then [] else Arrivals(outcomes[0]) + ArrivalsOf(outcomes[1..])
  }

  /** The resident handles after one request, and the handle asked to unload, if any. */
  datatype Admission = Admission(resident: seq<Handle>, evicted: Option<Handle>)

  /** Adds the handle of a successful request and evicts the oldest entry when over the cap. */
  function Admit(resident: seq<Handle>, outcome: StreamOutcome): (a: Admission)
    // nothing is lost and nothing reordered: evicted handle, then survivors, is exactly the grown sequence
    ensures a.evicted.ToSeq() + a.resident == resident + Arrivals(outcome)
    ensures a.evicted.Some? <==> |resident + Arrivals(outcome)| > MaxResident
    ensures |resident| <= MaxResident ==> a.resident == Newest(resident + Arrivals(outcome), MaxResident)
    ensures |resident| <= MaxResident ==> |a.resident| <= MaxResident
    ensures outcome.Streamed? ==> |a.resident| > 0 && a.resident[|a.resident| - 1] == outcome.handle
  {
    var grown := if outcome.Streamed? then resident + [outcome.handle] else resident;
    if |grown| > MaxResident then Admission(grown[1..], Some(grown[0]))
    else Admission(grown, None)
  }

  /** The resident handles after a run of requests. */
  function AdmitAll(resident: seq<Handle>, outcomes: seq<StreamOutcome>): seq<Handle>
    decreases |outcomes|
  {
    if outcomes == [] then resident
    else AdmitAll(Admit(resident, outcomes[0]).resident, outcomes[1..])
  }

  /**
    Starting within the cap, the resident handles after any run are exactly
    the `MaxResident` most recently streamed ones, in the order they arrived.
   */
  lemma {:induction false} ResidentAreNewest(resident: seq<Handle>, outcomes: seq<StreamOutcome>)
    requires |resident| <= MaxResident
    ensures AdmitAll(resident, outcomes) == Newest(resident + ArrivalsOf(outcomes), MaxResident)
    decreases |outcomes|
  {
    if outcomes != [] {
      var rest := outcomes[1..];
      var grown := resident + Arrivals(outcomes[0]);
      var next := Admit(resident, outcomes[0]).resident;
      assert AdmitAll(resident, outcomes) == AdmitAll(next, rest);
      assert next == Newest(grown, MaxResident);
      ResidentAreNewest(next, rest);
      NewestAbsorbs(grown, ArrivalsOf(rest), MaxResident);
      assert grown + ArrivalsOf(rest) == resident + ArrivalsOf(outcomes) by {
        ConcatAssoc(resident, Arrivals(outcomes[0]), ArrivalsOf(rest));
      }
    }
  }
}
