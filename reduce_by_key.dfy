/**
 * The stateful reduce-by-key operator: a keyed state map in which each input
 * tuple either starts its key's entry or is combined into it by the reduce function.
 */
module ReduceByKey {
  import opened Wrappers

  /** A two-field tuple; the key and the value are both taken from it. */
  datatype Tuple2<T> = Tuple2(field0: T, field1: T) {
    function Get(i: nat): T
      requires i < 2
    {
      if i == 0 then field0 else field1
    }
  }

  /** The operator's state: a mutable hash map from keys to reduced values. */
  class StateMap<T(==)> {
    var contents: map<T, T>

    constructor ()
      ensures contents == map[]
    {
      contents := map[];
    }
  }

  /** The reduced value of a key after one more value: the value itself, or the combination with the old one. */
  function Combine<T>(reduceFunc: (T, T) -> T, prev: Option<T>, val: T): T {
    match prev
    case None => val
    case Some(o) => reduceFunc(o, val)
  }

  /** The state map after one input, as a value. */
  function Step<T(==)>(reduceFunc: (T, T) -> T, keyIndex: nat, state: map<T, T>, input: Tuple2<T>): map<T, T>
    requires keyIndex < 2
  {
    var key := input.Get(keyIndex);
    state[key := Combine(reduceFunc, Get(state, key), input.Get(1 - keyIndex))]
  }

  /** The state map after a sequence of inputs, in order. */
  function StepAll<T(==)>(reduceFunc: (T, T) -> T, keyIndex: nat, state: map<T, T>, inputs: seq<Tuple2<T>>): map<T, T>
    requires keyIndex < 2
    decreases |inputs|
  {
    if inputs == [] then state
    else StepAll(reduceFunc, keyIndex, Step(reduceFunc, keyIndex, state, inputs[0]), inputs[1..])
  }

  /** The values of the inputs whose key is k, in input order. */
  function ValuesFor<T(==)>(keyIndex: nat, inputs: seq<Tuple2<T>>, k: T): seq<T>
    requires keyIndex < 2
  {
    if inputs == [] then []
    else (if inputs[0].Get(keyIndex) == k then [inputs[0].Get(1 - keyIndex)] else [])
         + ValuesFor(keyIndex, inputs[1..], k)
  }

  /** Left fold of the reduce rule over a sequence of values, starting from an optional entry. */
  function FoldValues<T>(reduceFunc: (T, T) -> T, acc: Option<T>, vals: seq<T>): Option<T>
    decreases |vals|
  {
    if vals == [] then acc else FoldValues(reduceFunc, Some(Combine(reduceFunc, acc, vals[0])), vals[1..])
  }

  /**
   * After any sequence of inputs, a key's entry is the left fold of the reduce
   * function over that key's values in arrival order, seeded by the entry it had:
   * the first value when it had none. A key that no input carries keeps its entry.
   */
  lemma {:induction false} StepAllPerKey<T>(reduceFunc: (T, T) -> T, keyIndex: nat, state: map<T, T>,
                                                inputs: seq<Tuple2<T>>, k: T)
    requires keyIndex < 2
    decreases |inputs|
    ensures Get(StepAll(reduceFunc, keyIndex, state, inputs), k)
         == FoldValues(reduceFunc, Get(state, k), ValuesFor(keyIndex, inputs, k))
  {
    if inputs != [] {
      var t := inputs[0];
      var next := Step(reduceFunc, keyIndex, state, t);
      StepAllPerKey(reduceFunc, keyIndex, next, inputs[1..], k);
      if t.Get(keyIndex) == k {
        assert Get(next, k) == Some(Combine(reduceFunc, Get(state, k), t.Get(1 - keyIndex)));
        assert ValuesFor(keyIndex, inputs, k) == [t.Get(1 - keyIndex)] + ValuesFor(keyIndex, inputs[1..], k);
      } else {
        assert Get(next, k) == Get(state, k);
        assert ValuesFor(keyIndex, inputs, k) == ValuesFor(keyIndex, inputs[1..], k);
      }
    }
  }

  /** The keys after a sequence of inputs: the old keys and every input's key, nothing else. */
  lemma {:induction false} StepAllKeys<T>(reduceFunc: (T, T) -> T, keyIndex: nat, state: map<T, T>,
                                             inputs: seq<Tuple2<T>>, k: T)
    requires keyIndex < 2
    decreases |inputs|
    ensures k in StepAll(reduceFunc, keyIndex, state, inputs)
        <==> k in state || exists i :: 0 <= i < |inputs| && inputs[i].Get(keyIndex) == k
  {
    if inputs != [] {
      StepAllKeys(reduceFunc, keyIndex, Step(reduceFunc, keyIndex, state, inputs[0]), inputs[1..], k);
      if exists i :: 0 <= i < |inputs[1..]| && inputs[1..][i].Get(keyIndex) == k {
        var i :| 0 <= i < |inputs[1..]| && inputs[1..][i].Get(keyIndex) == k;
        assert inputs[i + 1].Get(keyIndex) == k;
      }
      if exists i :: 0 <= i < |inputs| && inputs[i].Get(keyIndex) == k {
        var i :| 0 <= i < |inputs| && inputs[i].Get(keyIndex) == k;
        if i > 0 {
          assert inputs[1..][i - 1].Get(keyIndex) == k;
        }
      }
    }
  }

  class ReduceByKeyOperator<T(==)> {
    const reduceFunc: (T, T) -> T
    const keyIndex: nat

    constructor (reduceFunc: (T, T) -> T, keyIndex: nat)
      requires keyIndex < 2
      ensures this.reduceFunc == reduceFunc && this.keyIndex == keyIndex
    {
      this.reduceFunc := reduceFunc;
      this.keyIndex := keyIndex;
    }

    /** A fresh, empty state map. */
    method GetInitialState() returns (state: StateMap<T>)
      ensures fresh(state) && state.contents == map[]
    {
      state := new StateMap();
    }

    /**
     * Reduces one input into the given map in place and returns that same map:
     * the input's key (field keyIndex) gets the input's value (the other field)
     * if it had no entry, otherwise reduceFunc of the old entry and the value;
     * every other key keeps its entry.
     */
    method UpdateState(input: Tuple2<T>, state: StateMap<T>) returns (result: StateMap<T>)
      requires keyIndex < 2
      modifies state
      ensures result == state
      ensures state.contents == Step(reduceFunc, keyIndex, old(state.contents), input)
      ensures var key := input.Get(keyIndex);
              var val := input.Get(1 - keyIndex);
              && (key !in old(state.contents) ==> state.contents[key] == val)
              && (key in old(state.contents) ==> state.contents[key] == reduceFunc(old(state.contents)[key], val))
              && (forall k :: k != key ==> Get(state.contents, k) == Get(old(state.contents), k))
    {
      var key := input.Get(keyIndex);
      var val := input.Get(1 - keyIndex);
      var oldVal := Get(state.contents, key);
      if oldVal.None? {
        state.contents := state.contents[key := val];
      } else {
        state.contents := state.contents[key := reduceFunc(oldVal.value, val)];
      }
      result := state;
    }

    /** The state is the output: the very map is handed on. */
    function GenerateOutput(finalState: StateMap<T>): (output: StateMap<T>)
      ensures output == finalState
    {
      finalState
    }
  }

  /**
   * A client that feeds a sequence of inputs to the operator, starting from its
   * initial state, as the operator chain does one event at a time.
   */
  method ReduceAll<T(==)>(op: ReduceByKeyOperator<T>, inputs: seq<Tuple2<T>>) returns (state: StateMap<T>)
    requires op.keyIndex < 2
    ensures fresh(state)
    ensures state.contents == StepAll(op.reduceFunc, op.keyIndex, map[], inputs)
  {
    state := op.GetInitialState();
    for i := 0 to |inputs|
      invariant StepAll(op.reduceFunc, op.keyIndex, state.contents, inputs[i..])
             == StepAll(op.reduceFunc, op.keyIndex, map[], inputs)
    {
      assert inputs[i..][1..] == inputs[i + 1..];
      var _ := op.UpdateState(inputs[i], state);
    }
  }
}
