/** The store slice that holds the three knob values (volume, pitch, pan)
    and its three reducers, each of which overwrites one value with the
    action's payload. Payloads are JavaScript numbers, here `real`; no range
    check is made on them. */
module KnobSlice {

  /** The three knobs of the slice. */
  datatype KnobId = Volume | Pitch | Pan

  datatype KnobState = KnobState(volumeKnob: real, pitchKnob: real, panKnob: real)

  /** The actions `adjustVolume`, `adjustPitch` and `adjustPan`. */
  datatype Action = AdjustVolume(payload: real) | AdjustPitch(payload: real) | AdjustPan(payload: real)

  /** Every knob starts at 50. */
  const InitialState := KnobState(50.0, 50.0, 50.0)

  function Get(s: KnobState, k: KnobId): real
  {
    match k
    case Volume => s.volumeKnob
    case Pitch => s.pitchKnob
    case Pan => s.panKnob
  }

  /** The knob an action adjusts. */
  function Target(a: Action): KnobId
  {
    match a
    case AdjustVolume(_) => Volume
    case AdjustPitch(_) => Pitch
    case AdjustPan(_) => Pan
  }

  lemma InitialStateAllFifty()
    ensures forall k :: Get(InitialState, k) == 50.0
  {
  }

  /** The slice reducer: the action's knob takes the payload, whatever its
      value, and the other two knobs keep theirs. */
  function Reducer(s: KnobState, a: Action): (r: KnobState)
    ensures Get(r, Target(a)) == a.payload
    ensures forall k :: k != Target(a) ==> Get(r, k) == Get(s, k)
  {
    match a
    case AdjustVolume(p) => s.(volumeKnob := p)
    case AdjustPitch(p) => s.(pitchKnob := p)
    case AdjustPan(p) => s.(panKnob := p)
  }

  /** Dispatching the same action twice has the effect of dispatching it once. */
  lemma ReducerIdempotent(s: KnobState, a: Action)
    ensures Reducer(Reducer(s, a), a) == Reducer(s, a)
  {
  }

  /** Actions on different knobs commute. */
  lemma ReducerCommutes(s: KnobState, a: Action, b: Action)
    requires Target(a) != Target(b)
    ensures Reducer(Reducer(s, a), b) == Reducer(Reducer(s, b), a)
  {
  }

  /** Of two actions on the same knob the later one wins. */
  lemma ReducerLastWriteWins(s: KnobState, a: Action, b: Action)
    requires Target(a) == Target(b)
    ensures Reducer(Reducer(s, a), b) == Reducer(s, b)
  {
  }

  /** The state after dispatching `acts` in order. */
  function ApplyAll(s: KnobState, acts: seq<Action>): KnobState
    decreases |acts|
  {
    if acts == [] then s else ApplyAll(Reducer(s, acts[0]), acts[1..])
  }

  /** The payload of the last action in `acts` on knob `k`, or `d` when
      there is none: read from the end of the history. */
  function LastPayload(acts: seq<Action>, k: KnobId, d: real): real
    decreases |acts|
  {
    if acts == [] then d
    else if Target(acts[|acts| - 1]) == k then acts[|acts| - 1].payload
    else LastPayload(acts[..|acts| - 1], k, d)
  }

  /** Dispatching one more action is one more reducer step. */
  lemma {:induction false} ApplyAllSnoc(s: KnobState, acts: seq<Action>, a: Action)
    ensures ApplyAll(s, acts + [a]) == Reducer(ApplyAll(s, acts), a)
    decreases |acts|
  {
    if acts == [] {
      assert acts + [a] == [a];
    } else {
      assert (acts + [a])[1..] == acts[1..] + [a];
      ApplyAllSnoc(Reducer(s, acts[0]), acts[1..], a);
    }
  }

  /** Dispatching a concatenation is dispatching its two parts in turn. */
  lemma {:induction false} ApplyAllAppend(s: KnobState, p: seq<Action>, q: seq<Action>)
    ensures ApplyAll(s, p + q) == ApplyAll(ApplyAll(s, p), q)
    decreases |p|
  {
    if p == [] {
      assert p + q == q;
    } else {
      assert (p + q)[1..] == p[1..] + q;
      ApplyAllAppend(Reducer(s, p[0]), p[1..], q);
    }
  }

  /** After any history of actions every knob holds the payload of the
      last action on it, or its earlier value if there was none. */
  lemma {:induction false} ApplyAllLastWriteWins(s: KnobState, acts: seq<Action>, k: KnobId)
    ensures Get(ApplyAll(s, acts), k) == LastPayload(acts, k, Get(s, k))
    decreases |acts|
  {
    if acts != [] {
      var init := acts[..|acts| - 1];
      var last := acts[|acts| - 1];
      assert acts == init + [last];
      ApplyAllSnoc(s, init, last);
      ApplyAllLastWriteWins(s, init, k);
    }
  }

  /** Swapping two adjacent actions on different knobs anywhere in a
      history does not change the resulting state. */
  lemma ApplyAllSwap(s: KnobState, p: seq<Action>, a: Action, b: Action, q: seq<Action>)
    requires Target(a) != Target(b)
    ensures ApplyAll(s, p + [a, b] + q) == ApplyAll(s, p + [b, a] + q)
  {
    ApplyAllAppend(s, p + [a, b], q);
    ApplyAllAppend(s, p + [b, a], q);
    ApplyAllAppend(s, p, [a, b]);
    ApplyAllAppend(s, p, [b, a]);
    var m := ApplyAll(s, p);
    ApplyAllSnoc(m, [a], b);
    ApplyAllSnoc(m, [b], a);
    ApplyAllSnoc(m, [], a);
    ApplyAllSnoc(m, [], b);
    assert [a] + [b] == [a, b] && [] + [a] == [a];
    assert [b] + [a] == [b, a] && [] + [b] == [b];
    ReducerCommutes(m, a, b);
  }

  /** The slice as the store holds it: the case reducers assign one field
      of the state in place. */
  class KnobStore {
    var volumeKnob: real
    var pitchKnob: real
    var panKnob: real

    function State(): KnobState
      reads this
    {
      KnobState(volumeKnob, pitchKnob, panKnob)
    }

    constructor ()
      ensures State() == InitialState
    {
      volumeKnob, pitchKnob, panKnob := 50.0, 50.0, 50.0;
    }

    method AdjustVolume(payload: real)
      modifies this
      ensures volumeKnob == payload
      ensures pitchKnob == old(pitchKnob) && panKnob == old(panKnob)
      ensures State() == Reducer(old(State()), Action.AdjustVolume(payload))
    {
      volumeKnob := payload;
    }

    method AdjustPitch(payload: real)
      modifies this
      ensures pitchKnob == payload
      ensures volumeKnob == old(volumeKnob) && panKnob == old(panKnob)
      ensures State() == Reducer(old(State()), Action.AdjustPitch(payload))
    {
      pitchKnob := payload;
    }

    method AdjustPan(payload: real)
      modifies this
      ensures panKnob == payload
      ensures volumeKnob == old(volumeKnob) && pitchKnob == old(pitchKnob)
      ensures State() == Reducer(old(State()), Action.AdjustPan(payload))
    {
      panKnob := payload;
    }

    /** Dispatch an action to its case reducer. */
    method Dispatch(a: Action)
      modifies this
      ensures State() == Reducer(old(State()), a)
    {
      match a
      case AdjustVolume(p) => AdjustVolume(p);
      case AdjustPitch(p) => AdjustPitch(p);
      case AdjustPan(p) => AdjustPan(p);
    }
  }
}
