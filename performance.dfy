/** The performance state of src/components/providers/PerformanceProvider.tsx:
    the published metrics, their partial update, and the once-a-second frame
    rate sampler that publishes them. `performance.now()` and the heap size
    reading are inputs of each sampling step. */
module Performance {
  import opened Js
  import ThreeUtils

  datatype PerformanceState = PerformanceState(
    fps: int,
    memory: real,
    isLowPerformance: bool,
    reducedAnimations: bool)

  /** A `Partial<PerformanceState>`: each field either supplied or absent. */
  datatype PerformanceUpdate = PerformanceUpdate(
    fps: Option<int>,
    memory: Option<real>,
    isLowPerformance: Option<bool>,
    reducedAnimations: Option<bool>)

  const InitialState := PerformanceState(60, 0.0, false, false)

  /** The sampling period in milliseconds. */
  const SamplePeriod: real := 1000.0

  function Pick<T>(o: Option<T>, otherwise: T): T {
    match o
    case Some(v) => v
    case None => otherwise
  }

  /** `{ ...prev, ...data }`: the supplied fields win. */
  function Merge(prev: PerformanceState, data: PerformanceUpdate): (r: PerformanceState)
    ensures data.fps.Some? ==> r.fps == data.fps.value
    ensures data.fps.None? ==> r.fps == prev.fps
    ensures data.memory.Some? ==> r.memory == data.memory.value
    ensures data.memory.None? ==> r.memory == prev.memory
    ensures data.isLowPerformance.Some? ==> r.isLowPerformance == data.isLowPerformance.value
    ensures data.isLowPerformance.None? ==> r.isLowPerformance == prev.isLowPerformance
    ensures data.reducedAnimations.Some? ==> r.reducedAnimations == data.reducedAnimations.value
    ensures data.reducedAnimations.None? ==> r.reducedAnimations == prev.reducedAnimations
  {
    PerformanceState(
      Pick(data.fps, prev.fps),
      Pick(data.memory, prev.memory),
      Pick(data.isLowPerformance, prev.isLowPerformance),
      Pick(data.reducedAnimations, prev.reducedAnimations))
  }

  /** Merging an update that supplies nothing changes nothing, and merging the
      same update twice is merging it once. */
  lemma MergeLaws(prev: PerformanceState, data: PerformanceUpdate)
    ensures Merge(prev, PerformanceUpdate(None, None, None, None)) == prev
    ensures Merge(Merge(prev, data), data) == Merge(prev, data)
  {
  }

  /** The published flags agree with the published frame rate, as every
      sampled update makes them. */
  predicate Consistent(s: PerformanceState) {
    (s.isLowPerformance <==> s.fps < 30) && (s.reducedAnimations <==> s.fps < 45)
  }

  /** `performance.memory?.usedJSHeapSize / 1024 / 1024 || 0`: the heap size in
      MiB, or 0 when the browser does not report it. */
  function MemoryMiB(heapBytes: Option<real>): (m: real)
    ensures heapBytes.None? ==> m == 0.0
    ensures heapBytes.Some? ==> m * 1048576.0 == heapBytes.value
  {
    match heapBytes
    case None => 0.0
    case Some(b) => b / 1024.0 / 1024.0
  }

  /** The update one sample publishes: frames seen over the elapsed time, by
      the same rounding formula as `getFrameRate`. The rate is between 0 and the
      number of frames counted, and both flags follow from it. */
  function Sample(frameCount: nat, elapsed: real, heapBytes: Option<real>): (u: PerformanceUpdate)
    requires elapsed >= SamplePeriod
    ensures u.fps.Some? && u.memory.Some? && u.isLowPerformance.Some? && u.reducedAnimations.Some?
    ensures 0 <= u.fps.value <= frameCount
    ensures u.memory.value == MemoryMiB(heapBytes)
    ensures u.isLowPerformance.value <==> u.fps.value < 30
    ensures u.reducedAnimations.value <==> u.fps.value < 45
  {
    var fps := ThreeUtils.FramesPerSecond(frameCount, elapsed);
    var isLow := fps < 30;
    PerformanceUpdate(Some(fps), Some(MemoryMiB(heapBytes)), Some(isLow), Some(isLow || fps < 45))
  }

  /** The sampler's state between two animation frames. */
  datatype Sampler = Sampler(frameCount: nat, lastTime: real, state: PerformanceState)

  /** One `measurePerformance` frame at time `now`: count the frame; once a
      whole period has passed since `lastTime`, publish a sample and start a
      new period. */
  function Measure(s: Sampler, now: real, heapBytes: Option<real>): Sampler {
    var count := s.frameCount + 1;
    if now - s.lastTime >= SamplePeriod then
      Sampler(0, now, Merge(s.state, Sample(count, now - s.lastTime, heapBytes)))
    else
      Sampler(count, s.lastTime, s.state)
  }

  /** Metrics are published exactly when a period has passed; the counter and
      start time restart then and only then. */
  lemma MeasurePublishes(s: Sampler, now: real, heapBytes: Option<real>)
    ensures var r := Measure(s, now, heapBytes);
      if now - s.lastTime >= SamplePeriod then
        r.frameCount == 0 && r.lastTime == now && Consistent(r.state)
        && r.state.memory == MemoryMiB(heapBytes)
        && r.state.fps == ThreeUtils.FramesPerSecond(s.frameCount + 1, now - s.lastTime)
      else
        r.frameCount == s.frameCount + 1 && r.lastTime == s.lastTime && r.state == s.state
  {
  }

  /** Starting from the initial state, the published flags always agree with
      the published rate; in particular low performance implies reduced
      animations, and reduced animations hold iff the rate is below 45. */
  lemma {:induction false} MeasureKeepsConsistent(s: Sampler, nows: seq<real>, heaps: seq<Option<real>>)
    requires |nows| == |heaps|
    requires Consistent(s.state)
    ensures Consistent(MeasureAll(s, nows, heaps).state)
    ensures var t := MeasureAll(s, nows, heaps).state;
      (t.isLowPerformance ==> t.reducedAnimations) && (t.reducedAnimations <==> t.fps < 45)
    decreases |nows|
  {
    if nows != [] {
      MeasurePublishes(s, nows[0], heaps[0]);
      MeasureKeepsConsistent(Measure(s, nows[0], heaps[0]), nows[1..], heaps[1..]);
    }
  }

  /** The sampler run over a sequence of frames. */
  function MeasureAll(s: Sampler, nows: seq<real>, heaps: seq<Option<real>>): Sampler
    requires |nows| == |heaps|
    decreases |nows|
  {
    if nows == [] then s else MeasureAll(Measure(s, nows[0], heaps[0]), nows[1..], heaps[1..])
  }

  lemma InitialConsistent()
    ensures Consistent(InitialState)
    ensures InitialState.fps == 60 && InitialState.memory == 0.0
    ensures !InitialState.isLowPerformance && !InitialState.reducedAnimations
  {
  }

  /** The provider: its published state and the closure variables of the
      measuring effect. */
  class PerformanceProvider {
    var state: PerformanceState
    var frameCount: nat
    var lastTime: real

    /** Mounting at time `now` (the effect's first `performance.now()`). */
    constructor (now: real)
      ensures state == InitialState && frameCount == 0 && lastTime == now
    {
      state := InitialState;
      frameCount := 0;
      lastTime := now;
    }

    /** `updatePerformance(data)`. */
    method UpdatePerformance(data: PerformanceUpdate)
      modifies this
      ensures state == Merge(old(state), data)
      ensures frameCount == old(frameCount) && lastTime == old(lastTime)
    {
      state := Merge(state, data);
    }

    /** `measurePerformance()` when `performance.now()` reads `now`. */
    method MeasurePerformance(now: real, heapBytes: Option<real>)
      modifies this
      ensures Sampler(frameCount, lastTime, state)
        == Measure(old(Sampler(frameCount, lastTime, state)), now, heapBytes)
    {
      frameCount := frameCount + 1;
      if now - lastTime >= SamplePeriod {
        var u := Sample(frameCount, now - lastTime, heapBytes);
        UpdatePerformance(u);
        frameCount := 0;
        lastTime := now;
      }
    }
  }
}
