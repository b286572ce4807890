/**
 * The front-end's global store (stitch/js/stitch-state.js, `StitchState`):
 * a key/value object, single and batch updates, and listeners called after
 * every key assignment.  Listeners are opaque identifiers; each call is
 * recorded in `log` with the listener, the store as it is at that call,
 * the key and the value.
 */
module Stitch {
  import opened Wrappers
  import opened JsValue

  type ListenerId = nat
  type Store = map<string, Value>

  /** A batch update's argument: the object's own keys in `Object.keys` order, with their values. */
  type Batch = seq<(string, Value)>

  datatype Notification = Notification(listener: ListenerId, data: Store, key: string, value: Value)

  function Zeros(keys: seq<string>): (o: map<string, Value>)
    ensures o.Keys == set k | k in keys
    ensures forall k :: k in o ==> o[k] == Num(0.0)
  {
    if keys == [] then map[] else Zeros(keys[..|keys| - 1])[keys[|keys| - 1] := Num(0.0)]
  }

  /** The store's initial contents. */
  function InitialData(): (d: Store)
    ensures d.Keys == {"currentUser", "deviceStatus", "signalQuality", "batteryLevel", "brainStates",
                       "eegBands", "isDemoMode", "isRealHardware", "deviceInfo"}
    ensures d["deviceStatus"] == Str("disconnected") && d["isRealHardware"] == Bool(false)
    ensures d["isDemoMode"] == Bool(true) && d["currentUser"] == Null && d["deviceInfo"] == Null
  {
    map[
      "currentUser" := Null,
      "deviceStatus" := Str("disconnected"),
      "signalQuality" := Num(0.0),
      "batteryLevel" := Num(0.0),
      "brainStates" := Obj(Zeros(["focus", "stress", "fatigue", "engagement"])),
      "eegBands" := Obj(Zeros(["delta", "theta", "alpha", "beta", "gamma"])),
      "isDemoMode" := Bool(true),
      "isRealHardware" := Bool(false),
      "deviceInfo" := Null
    ]
  }

  /** `data[key]` as JavaScript reads it: undefined for a missing key. */
  function Lookup(d: Store, key: string): Value
  {
    if key in d then d[key] else Undefined
  }

  /** One listener call per subscriber, in subscription order, each seeing `data`. */
  function Notices(listeners: seq<ListenerId>, data: Store, key: string, value: Value): (r: seq<Notification>)
    ensures |r| == |listeners|
    ensures forall i :: 0 <= i < |r| ==> r[i] == Notification(listeners[i], data, key, value)
  {
    if listeners == [] then []
    else Notices(listeners[..|listeners| - 1], data, key, value)
         + [Notification(listeners[|listeners| - 1], data, key, value)]
  }

  /** The store after assigning the batch's entries one at a time. */
  function Apply(d: Store, batch: Batch): Store
  {
    if batch == [] then d
    else
      var last := batch[|batch| - 1];
      Apply(d, batch[..|batch| - 1])[last.0 := last.1]
  }

  /** Every listener call a batch update makes: after each assignment, all listeners in order. */
  function BatchNotices(d: Store, batch: Batch, listeners: seq<ListenerId>): seq<Notification>
  {
    if batch == [] then []
    else
      var last := batch[|batch| - 1];
      BatchNotices(d, batch[..|batch| - 1], listeners) + Notices(listeners, Apply(d, batch), last.0, last.1)
  }

  class StitchState {
    var data: Store
    var listeners: seq<ListenerId>
    /** Every listener call made so far, oldest first. */
    var log: seq<Notification>

    constructor ()
      ensures data == InitialData() && listeners == [] && log == []
    {
      data := InitialData();
      listeners := [];
      log := [];
    }

    /** `get(key)`: a missing or empty key returns the whole store. */
    function Get(key: Option<string>): (v: Value)
      reads this
      ensures key == None || key == Some("") ==> v == Obj(data)
      ensures key.Some? && key.value != "" ==> v == Lookup(data, key.value)
    {
      if key == None || key == Some("") then Obj(data) else Lookup(data, key.value)
    }

    /** `subscribe(callback)`. */
    method Subscribe(callback: ListenerId)
      modifies this`listeners
      ensures listeners == old(listeners) + [callback]
    {
      listeners := listeners + [callback];
    }

    /** `notifyListeners(key, value)`: each listener once, in subscription order, with the live store. */
    method NotifyListeners(key: string, value: Value)
      modifies this`log
      ensures log == old(log) + Notices(listeners, data, key, value)
    {
      for i := 0 to |listeners|
        invariant log == old(log) + Notices(listeners[..i], data, key, value)
      {
        assert listeners[..i + 1][..i] == listeners[..i];
        log := log + [Notification(listeners[i], data, key, value)];
      }
      assert listeners[..|listeners|] == listeners;
    }

    /** `update(key, value)` with a non-object key. */
    method Update(key: string, value: Value)
      modifies this`data, this`log
      ensures data == old(data)[key := value]
      ensures log == old(log) + Notices(listeners, data, key, value)
    {
      data := data[key := value];
      NotifyListeners(key, value);
    }

    /** `update(object)`: assign and notify key by key, in `Object.keys` order. */
    method UpdateBatch(batch: Batch)
      modifies this`data, this`log
      ensures data == Apply(old(data), batch)
      ensures log == old(log) + BatchNotices(old(data), batch, listeners)
    {
      for i := 0 to |batch|
        invariant data == Apply(old(data), batch[..i])
        invariant log == old(log) + BatchNotices(old(data), batch[..i], listeners)
      {
        ghost var prefix := batch[..i + 1];
        assert prefix[..i] == batch[..i] && prefix[i] == batch[i];
        var (k, v) := batch[i];
        data := data[k := v];
        assert data == Apply(old(data), prefix);
        NotifyListeners(k, v);
      }
      assert batch[..|batch|] == batch;
    }
  }

  /** Keys a batch does not name keep their values; named keys are present afterwards. */
  lemma {:induction false} ApplyFrame(d: Store, batch: Batch, k: string)
    ensures k in Apply(d, batch) <==> k in d || exists i :: 0 <= i < |batch| && batch[i].0 == k
    ensures k in d && (forall i :: 0 <= i < |batch| ==> batch[i].0 != k) ==> Apply(d, batch)[k] == d[k]
  {
    if batch != [] {
      var init := batch[..|batch| - 1];
      ApplyFrame(d, init, k);
      if exists i :: 0 <= i < |init| && init[i].0 == k {
        var i :| 0 <= i < |init| && init[i].0 == k;
        assert batch[i].0 == k;
      }
      if exists i :: 0 <= i < |batch| && batch[i].0 == k {
        var i :| 0 <= i < |batch| && batch[i].0 == k;
        if i < |init| {
          assert init[i].0 == k;
        }
      }
    }
  }

  /**
   * A key a batch assigns ends with the value of its last entry; with unique
   * keys (as an object's keys are), the value of its only entry.
   */
  lemma {:induction false} ApplyLastWins(d: Store, batch: Batch, i: nat)
    requires i < |batch|
    requires forall j :: i < j < |batch| ==> batch[j].0 != batch[i].0
    ensures batch[i].0 in Apply(d, batch) && Apply(d, batch)[batch[i].0] == batch[i].1
  {
    if i < |batch| - 1 {
      ApplyLastWins(d, batch[..|batch| - 1], i);
    }
  }

  /**
   * The j-th listener call made for the i-th entry of a batch comes from the
   * j-th listener and sees the store with entries 0..i already assigned: a
   * listener observes earlier keys of the same batch as applied.
   */
  lemma {:induction false} BatchNoticeAt(d: Store, batch: Batch, listeners: seq<ListenerId>, i: nat, j: nat)
    requires i < |batch| && j < |listeners|
    ensures |BatchNotices(d, batch, listeners)| == |batch| * |listeners|
    ensures i * |listeners| + j < |batch| * |listeners|
    ensures BatchNotices(d, batch, listeners)[i * |listeners| + j]
         == Notification(listeners[j], Apply(d, batch[..i + 1]), batch[i].0, batch[i].1)
  {
    var n, m := |batch|, |listeners|;
    var init := batch[..n - 1];
    var front := BatchNotices(d, init, listeners);
    var back := Notices(listeners, Apply(d, batch), batch[n - 1].0, batch[n - 1].1);
    assert BatchNotices(d, batch, listeners) == front + back;
    BatchNoticesLength(d, batch, listeners);
    BatchNoticesLength(d, init, listeners);
    LastRow(n, m);
    ProductNonNegative(i, m);
    var idx := i * m + j;
    if i < n - 1 {
      BatchNoticeAt(d, init, listeners, i, j);
      assert init[..i + 1] == batch[..i + 1];
      ConcatFront(front, back, idx);
    } else {
      assert idx == |front| + j;
      assert batch[..i + 1] == batch;
      ConcatBack(front, back, j);
    }
  }

  lemma ConcatFront<T>(a: seq<T>, b: seq<T>, k: nat)
    requires k < |a|
    ensures (a + b)[k] == a[k]
  {
  }

  lemma ConcatBack<T>(a: seq<T>, b: seq<T>, k: nat)
    requires k < |b|
    ensures (a + b)[|a| + k] == b[k]
  {
  }

  lemma ProductNonNegative(i: nat, m: nat)
    ensures i * m >= 0
  {
  }

  lemma LastRow(n: nat, m: nat)
    requires n > 0
    ensures (n - 1) * m + m == n * m
  {
  }

  lemma {:induction false} BatchNoticesLength(d: Store, batch: Batch, listeners: seq<ListenerId>)
    ensures |BatchNotices(d, batch, listeners)| == |batch| * |listeners|
  {
    if batch != [] {
      BatchNoticesLength(d, batch[..|batch| - 1], listeners);
      LastRow(|batch|, |listeners|);
    }
  }
}
