/**
 * The stateless map operator: it applies its function to each data event's value
 * and passes watermarks through, pushing everything to its output emitter.
 */
module MapOperator {

  /**
   * The operator types of the stream API. The enum is declared outside this model;
   * MAP is the one this operator reports, the others are values the API's tests name.
   */
  datatype OperatorType = MAP | REDUCE_BY_KEY | APPLY_STATEFUL | UNION

  /** A snapshot of an event as it reaches the emitter. */
  datatype Event<V> = DataEvent(value: V, timestamp: int) | WatermarkEvent(timestamp: int)

  /** A data event object, whose value the operator overwrites in place. */
  class MistDataEvent<V> {
    var value: V
    var timestamp: int

    constructor (value: V, timestamp: int)
      ensures this.value == value && this.timestamp == timestamp
    {
      this.value := value;
      this.timestamp := timestamp;
    }

    function Snapshot(): (e: Event<V>)
      reads this
      ensures e.DataEvent? && e.value == value && e.timestamp == timestamp
    {
      DataEvent(value, timestamp)
    }
  }

  datatype MistWatermarkEvent = MistWatermarkEvent(timestamp: int)

  /** The downstream side of an operator, recorded as the log of what was emitted, in order. */
  class OutputEmitter<V> {
    var log: seq<Event<V>>

    constructor ()
      ensures log == []
    {
      log := [];
    }

    method EmitData(data: MistDataEvent<V>)
      modifies this
      ensures log == old(log) + [data.Snapshot()]
    {
      log := log + [data.Snapshot()];
    }

    method EmitWatermark(watermark: MistWatermarkEvent)
      modifies this
      ensures log == old(log) + [WatermarkEvent(watermark.timestamp)]
    {
      log := log + [WatermarkEvent(watermark.timestamp)];
    }
  }

  /** What the operator emits for one input: the data with its value mapped, or the watermark itself. */
  function Output<V>(mapFunc: V -> V, e: Event<V>): Event<V> {
    match e
    case DataEvent(v, ts) => DataEvent(mapFunc(v), ts)
    case WatermarkEvent(ts) => e
  }

  /** What the operator emits for a sequence of inputs. */
  function Outputs<V>(mapFunc: V -> V, es: seq<Event<V>>): seq<Event<V>> {
    if es == [] then [] else Outputs(mapFunc, es[..|es| - 1]) + [Output(mapFunc, es[|es| - 1])]
  }

  /** The watermark timestamps of a stream, in order. */
  function Watermarks<V>(es: seq<Event<V>>): seq<int> {
    if es == [] then []
    else Watermarks(es[..|es| - 1]) + (if es[|es| - 1].WatermarkEvent? then [es[|es| - 1].timestamp] else [])
  }

  predicate NonDecreasing(ts: seq<int>) {
    forall i, j :: 0 <= i < j < |ts| ==> ts[i] <= ts[j]
  }

  /**
   * The output stream is the input stream event by event: same length, data for
   * data with the value mapped and the timestamp kept, the same watermark for a watermark.
   */
  lemma {:induction false} OutputsPointwise<V>(mapFunc: V -> V, es: seq<Event<V>>)
    ensures |Outputs(mapFunc, es)| == |es|
    ensures forall i :: 0 <= i < |es| ==>
              var o := Outputs(mapFunc, es)[i];
              && o.DataEvent? == es[i].DataEvent?
              && o.timestamp == es[i].timestamp
              && (es[i].DataEvent? ==> o.value == mapFunc(es[i].value))
              && (es[i].WatermarkEvent? ==> o == es[i])
  {
    if es != [] {
      OutputsPointwise(mapFunc, es[..|es| - 1]);
    }
  }

  /**
   * The operator emits exactly the watermarks it receives, in the same order, so a
   * non-decreasing input watermark sequence stays non-decreasing downstream.
   */
  lemma {:induction false} OutputsKeepWatermarks<V>(mapFunc: V -> V, es: seq<Event<V>>)
    ensures Watermarks(Outputs(mapFunc, es)) == Watermarks(es)
    ensures NonDecreasing(Watermarks(es)) ==> NonDecreasing(Watermarks(Outputs(mapFunc, es)))
  {
    if es != [] {
      var init := es[..|es| - 1];
      OutputsKeepWatermarks(mapFunc, init);
      var out := Outputs(mapFunc, es);
      assert out[..|out| - 1] == Outputs(mapFunc, init);
    }
  }

  class MapOperator<V> {
    const mapFunc: V -> V
    const outputEmitter: OutputEmitter<V>

    /**
     * Keeps the map function. In the source the output emitter is a field of the
     * base operator class, set outside the constructor; here it is given up front.
     */
    constructor (mapFunc: V -> V, outputEmitter: OutputEmitter<V>)
      ensures this.mapFunc == mapFunc && this.outputEmitter == outputEmitter
    {
      this.mapFunc := mapFunc;
      this.outputEmitter := outputEmitter;
    }

    /** Overwrites the event's value with the mapped one and emits the event, once. */
    method ProcessLeftData(data: MistDataEvent<V>)
      modifies data, outputEmitter
      ensures data.value == mapFunc(old(data.value)) && data.timestamp == old(data.timestamp)
      ensures outputEmitter.log == old(outputEmitter.log) + [Output(mapFunc, old(data.Snapshot()))]
    {
      var output := mapFunc(data.value);
      data.value := output;
      outputEmitter.EmitData(data);
    }

    /** Emits the watermark unchanged, once. */
    method ProcessLeftWatermark(watermark: MistWatermarkEvent)
      modifies outputEmitter
      ensures outputEmitter.log == old(outputEmitter.log) + [Output(mapFunc, WatermarkEvent(watermark.timestamp))]
    {
      outputEmitter.EmitWatermark(watermark);
    }

    /** The operator reports itself as a map operator. */
    function GetOperatorType(): (t: OperatorType)
      ensures t == MAP
    {
      MAP
    }
  }

  /**
   * A client that feeds an input stream to the operator one event at a time, as
   * the operator chain does; the emitted log grows by the mapped stream.
   */
  method ProcessStream<V>(op: MapOperator<V>, inputs: seq<Event<V>>)
    modifies op.outputEmitter
    ensures op.outputEmitter.log == old(op.outputEmitter.log) + Outputs(op.mapFunc, inputs)
  {
    for i := 0 to |inputs|
      invariant op.outputEmitter.log == old(op.outputEmitter.log) + Outputs(op.mapFunc, inputs[..i])
    {
      assert inputs[..i + 1][..i] == inputs[..i];
      match inputs[i]
      case DataEvent(v, ts) =>
        var data := new MistDataEvent(v, ts);
        op.ProcessLeftData(data);
      case WatermarkEvent(ts) =>
        op.ProcessLeftWatermark(MistWatermarkEvent(ts));
    }
    assert inputs[..|inputs|] == inputs;
  }
}
