/**
 * The browser's headband driver (js/hardware-interface.js,
 * `HardwareInterface`): connection flags, the real-data flag, the fake-data
 * timer guard, the bounded buffer of received samples, and the store
 * updates these make.  Device discovery and I/O are outside the model; a
 * device that opened, a decoded serial chunk, the serial parser's result,
 * the clock and timer handles arrive as parameters.
 */
module HardwareInterface {
  import opened Wrappers
  import opened JsValue
  import Fifo
  import Stitch
  import SerialFraming

  /** Most samples `dataBuffer` keeps. */
  const MaxBuffered: nat := 1000

  /** A `setInterval` handle; browsers hand out positive (truthy) ones. */
  type TimerId = x: int | x > 0 witness 1

  /** What `processEEGData` did with one input. */
  datatype Intake =
    | Ignored              // no data (`eegData` falsy)
    | Threw                // a primitive value: stamping it throws in strict mode
    | Buffered(entry: Value)

  /** Input that counts as real data: truthy, with `source` other than "fake". */
  predicate IsReal(raw: Value)
  {
    Truthy(raw) && Prop(raw, "source") != Str("fake")
  }

  /** `eegData`: a string goes through the serial parser, an object-typed value is used as is. */
  function EegData(raw: Value, parsed: Value): (e: Value)
    ensures raw.Str? ==> e == parsed
    ensures raw.Null? || raw.Arr? || raw.Obj? ==> e == raw
    ensures raw.Undefined? || raw.Bool? || raw.Num? || raw.NaN? ==> e == Undefined
  {
    match raw
    case Str(_) => parsed
    case Null => raw
    case Arr(_) => raw
    case Obj(_) => raw
    case _ => Undefined
  }

  /** `if (!eegData.timestamp) eegData.timestamp = now` on an object. */
  function Stamp(e: Value, now: real): (r: Value)
    requires e.Obj? || e.Arr?
    ensures r.Obj? <==> e.Obj?
    ensures e.Obj? && Truthy(Prop(e, "timestamp")) ==> r == e
    ensures e.Obj? && !Truthy(Prop(e, "timestamp")) ==> "timestamp" in r.fields && r.fields["timestamp"] == Num(now)
    ensures e.Arr? ==> r == e
  {
    if e.Obj? && !Truthy(Prop(e, "timestamp")) then Obj(e.fields["timestamp" := Num(now)]) else e
  }

  /** Stamping adds at most the `timestamp` field and leaves every other field as it was. */
  lemma StampKeepsFields(e: Value, now: real, k: string)
    requires e.Obj?
    ensures Stamp(e, now).fields.Keys == e.fields.Keys + {"timestamp"}
    ensures k in e.fields && k != "timestamp" ==> Stamp(e, now).fields[k] == e.fields[k]
  {
  }

  /** What one `processEEGData` call does with its `eegData`. */
  function Process(e: Value, now: real): Intake
  {
    if !Truthy(e) then Ignored
    else if e.Obj? || e.Arr? then Buffered(Stamp(e, now))
    else Threw
  }

  /**
   * Falsy data is ignored, an object or array is stamped and buffered, and
   * any other truthy value (a number, string or boolean the parser produced)
   * throws; with a non-zero clock a buffered object always has a truthy
   * timestamp.
   */
  lemma ProcessCases(e: Value, now: real)
    ensures Process(e, now) == Ignored <==> !Truthy(e)
    ensures Process(e, now).Buffered? <==> e.Obj? || e.Arr?
    ensures Process(e, now) == Threw <==> Truthy(e) && !e.Obj? && !e.Arr?
    ensures Process(e, now).Buffered? ==> Process(e, now).entry == Stamp(e, now)
    ensures Process(e, now).Buffered? && now != 0.0 && e.Obj? ==> Truthy(Prop(Process(e, now).entry, "timestamp"))
  {
  }

  /** The store update after a buffered sample. */
  function SampleBatch(e: Value, isRealHardware: bool): (b: Stitch.Batch)
    requires !Nullish(e)
    ensures |b| == 5
    ensures b[4] == ("deviceStatus", Str("connected")) && b[3] == ("isRealHardware", Bool(isRealHardware))
    ensures !Truthy(Prop(e, "channels")) ==> b[0] == ("rawSignal", Arr([]))
  {
    [
      ("rawSignal", Or(Prop(e, "channels"), Arr([]))),
      ("eegBands", Or(Prop(e, "bands"), Obj(map[]))),
      ("brainStates", Or(Prop(e, "states"), Obj(map[]))),
      ("isRealHardware", Bool(isRealHardware)),
      ("deviceStatus", Str("connected"))
    ]
  }

  /** The store update after a disconnect. */
  const DisconnectBatch: Stitch.Batch :=
    [("deviceStatus", Str("disconnected")), ("isRealHardware", Bool(false)), ("deviceInfo", Null)]

  /** The store update after a device opened (common to the four `connect*` methods). */
  function OpenedBatch(info: Value): Stitch.Batch
  {
    [("deviceStatus", Str("connected")), ("isRealHardware", Bool(true)), ("deviceInfo", info)]
  }

  /** What the serial parser makes of each line, in order. */
  function ParseAll(lines: seq<string>, parse: string -> Value): (es: seq<Value>)
    ensures |es| == |lines|
    ensures forall k :: 0 <= k < |lines| ==> es[k] == parse(lines[k])
  {
    if lines == [] then [] else ParseAll(lines[..|lines| - 1], parse) + [parse(lines[|lines| - 1])]
  }

  /** The entries `processEEGData` buffers when handed each of `es` in turn. */
  function Kept(es: seq<Value>, now: real): seq<Value>
  {
    if es == [] then []
    else
      var p := Process(es[|es| - 1], now);
      Kept(es[..|es| - 1], now) + (if p.Buffered? then [p.entry] else [])
  }

  /** The store after `processEEGData` handled each of `es` in turn. */
  function StoreAfter(d: Stitch.Store, es: seq<Value>, now: real, isRealHardware: bool): Stitch.Store
  {
    if es == [] then d
    else
      var before := StoreAfter(d, es[..|es| - 1], now, isRealHardware);
      var p := Process(es[|es| - 1], now);
      if p.Buffered? then Stitch.Apply(before, SampleBatch(p.entry, isRealHardware)) else before
  }

  /** The listener calls the store updates of `StoreAfter` make, in order. */
  function NoticesAfter(d: Stitch.Store, es: seq<Value>, now: real, isRealHardware: bool,
                        listeners: seq<Stitch.ListenerId>): seq<Stitch.Notification>
  {
    if es == [] then []
    else
      var before := StoreAfter(d, es[..|es| - 1], now, isRealHardware);
      var p := Process(es[|es| - 1], now);
      NoticesAfter(d, es[..|es| - 1], now, isRealHardware, listeners)
        + (if p.Buffered? then Stitch.BatchNotices(before, SampleBatch(p.entry, isRealHardware), listeners) else [])
  }

  /** The folds over a single value `processEEGData` buffers are that entry's own store update. */
  lemma FoldOne(d: Stitch.Store, e: Value, now: real, isRealHardware: bool, listeners: seq<Stitch.ListenerId>)
    requires Process(e, now).Buffered?
    ensures var x := Process(e, now).entry;
      && Kept([e], now) == [x]
      && StoreAfter(d, [e], now, isRealHardware) == Stitch.Apply(d, SampleBatch(x, isRealHardware))
      && NoticesAfter(d, [e], now, isRealHardware, listeners) == Stitch.BatchNotices(d, SampleBatch(x, isRealHardware), listeners)
  {
    KeptOne(e, now);
    StoreAfterOne(d, e, now, isRealHardware);
    NoticesAfterOne(d, e, now, isRealHardware, listeners);
  }

  lemma KeptOne(e: Value, now: real)
    requires Process(e, now).Buffered?
    ensures Kept([e], now) == [Process(e, now).entry]
  {
    assert [e][..0] == [];
  }

  lemma StoreAfterOne(d: Stitch.Store, e: Value, now: real, isRealHardware: bool)
    requires Process(e, now).Buffered?
    ensures StoreAfter(d, [e], now, isRealHardware) == Stitch.Apply(d, SampleBatch(Process(e, now).entry, isRealHardware))
  {
    assert [e][..0] == [];
  }

  lemma NoticesAfterOne(d: Stitch.Store, e: Value, now: real, isRealHardware: bool, listeners: seq<Stitch.ListenerId>)
    requires Process(e, now).Buffered?
    ensures NoticesAfter(d, [e], now, isRealHardware, listeners)
            == Stitch.BatchNotices(d, SampleBatch(Process(e, now).entry, isRealHardware), listeners)
  {
    assert [e][..0] == [];
    assert StoreAfter(d, [], now, isRealHardware) == d;
    var b := SampleBatch(Process(e, now).entry, isRealHardware);
    assert NoticesAfter(d, [e], now, isRealHardware, listeners) == [] + Stitch.BatchNotices(d, b, listeners);
  }

  /** The folds over a single value `processEEGData` does not buffer are empty. */
  lemma FoldNone(d: Stitch.Store, e: Value, now: real, isRealHardware: bool, listeners: seq<Stitch.ListenerId>)
    requires !Process(e, now).Buffered?
    ensures Kept([e], now) == [] && StoreAfter(d, [e], now, isRealHardware) == d
    ensures NoticesAfter(d, [e], now, isRealHardware, listeners) == []
  {
    assert [e][..0] == [];
  }

  /** Handing on `a` and then `b` buffers what `a` buffers, then what `b` buffers. */
  lemma {:induction false} KeptAppend(a: seq<Value>, b: seq<Value>, now: real)
    ensures Kept(a + b, now) == Kept(a, now) + Kept(b, now)
  {
    if b == [] {
      assert a + b == a;
    } else {
      var init := b[..|b| - 1];
      KeptAppend(a, init, now);
      assert (a + b)[..|a + b| - 1] == a + init;
      var p := Process(b[|b| - 1], now);
      AppendAssoc(Kept(a, now), Kept(init, now), if p.Buffered? then [p.entry] else []);
    }
  }

  /** Handing on `a` and then `b` leaves the store as handing on `b` to the store `a` left. */
  lemma {:induction false} StoreAfterAppend(d: Stitch.Store, a: seq<Value>, b: seq<Value>, now: real, isRealHardware: bool)
    ensures StoreAfter(d, a + b, now, isRealHardware) == StoreAfter(StoreAfter(d, a, now, isRealHardware), b, now, isRealHardware)
  {
    if b == [] {
      assert a + b == a;
    } else {
      var init := b[..|b| - 1];
      StoreAfterAppend(d, a, init, now, isRealHardware);
      assert (a + b)[..|a + b| - 1] == a + init;
    }
  }

  /** The listener calls of `a` then `b` are those of `a`, then those of `b` on the store `a` left. */
  lemma {:induction false} NoticesAfterAppend(d: Stitch.Store, a: seq<Value>, b: seq<Value>, now: real, isRealHardware: bool,
                                              listeners: seq<Stitch.ListenerId>)
    ensures NoticesAfter(d, a + b, now, isRealHardware, listeners)
            == NoticesAfter(d, a, now, isRealHardware, listeners)
               + NoticesAfter(StoreAfter(d, a, now, isRealHardware), b, now, isRealHardware, listeners)
  {
    if b == [] {
      assert a + b == a;
    } else {
      var init := b[..|b| - 1];
      NoticesAfterAppend(d, a, init, now, isRealHardware, listeners);
      StoreAfterAppend(d, a, init, now, isRealHardware);
      assert (a + b)[..|a + b| - 1] == a + init;
      var p := Process(b[|b| - 1], now);
      var d' := StoreAfter(d, a, now, isRealHardware);
      AppendAssoc(NoticesAfter(d, a, now, isRealHardware, listeners), NoticesAfter(d', init, now, isRealHardware, listeners),
                  if p.Buffered? then Stitch.BatchNotices(StoreAfter(d', init, now, isRealHardware), SampleBatch(p.entry, isRealHardware), listeners) else []);
    }
  }

  /** History, store and log that handing `es` on from `r`, `d` and `l` leaves. */
  ghost predicate Follows(r: seq<Value>, d: Stitch.Store, l: seq<Stitch.Notification>, es: seq<Value>, now: real,
                          isRealHardware: bool, listeners: seq<Stitch.ListenerId>,
                          r': seq<Value>, d': Stitch.Store, l': seq<Stitch.Notification>)
  {
    && r' == r + Kept(es, now)
    && d' == StoreAfter(d, es, now, isRealHardware)
    && l' == l + NoticesAfter(d, es, now, isRealHardware, listeners)
  }

  /** Handing on `es` and then `step` is handing on `es + step`. */
  lemma Advance(r: seq<Value>, d: Stitch.Store, l: seq<Stitch.Notification>, es: seq<Value>, step: seq<Value>,
                now: real, isRealHardware: bool, listeners: seq<Stitch.ListenerId>,
                r0: seq<Value>, d0: Stitch.Store, l0: seq<Stitch.Notification>,
                r1: seq<Value>, d1: Stitch.Store, l1: seq<Stitch.Notification>)
    requires Follows(r, d, l, es, now, isRealHardware, listeners, r0, d0, l0)
    requires Follows(r0, d0, l0, step, now, isRealHardware, listeners, r1, d1, l1)
    ensures Follows(r, d, l, es + step, now, isRealHardware, listeners, r1, d1, l1)
  {
    KeptAppend(es, step, now);
    StoreAfterAppend(d, es, step, now, isRealHardware);
    NoticesAfterAppend(d, es, step, now, isRealHardware, listeners);
    AppendAssoc(r, Kept(es, now), Kept(step, now));
    AppendAssoc(l, NoticesAfter(d, es, now, isRealHardware, listeners), NoticesAfter(d0, step, now, isRealHardware, listeners));
  }

  lemma AppendAssoc<T>(a: seq<T>, b: seq<T>, c: seq<T>)
    ensures a + b + c == a + (b + c)
  {
  }

  /** What one serial line hands on: nothing when it is blank, else the parser's value for it. */
  function LineValue(line: string, parsed: Value): (r: seq<Value>)
    ensures SerialFraming.IsBlank(line) <==> r == []
  {
    if SerialFraming.IsBlank(line) then [] else [parsed]
  }

  /** What the read loop hands on from `lines`, whose parser values are `parsed`: the non-blank lines' values, in order. */
  function Forwarded(lines: seq<string>, parsed: seq<Value>): seq<Value>
    requires |parsed| == |lines|
  {
    if lines == [] then []
    else Forwarded(lines[..|lines| - 1], parsed[..|lines| - 1]) + LineValue(lines[|lines| - 1], parsed[|lines| - 1])
  }

  lemma ForwardedStep(lines: seq<string>, parsed: seq<Value>, i: nat)
    requires |parsed| == |lines| && i < |lines|
    ensures Forwarded(lines[..i + 1], parsed[..i + 1]) == Forwarded(lines[..i], parsed[..i]) + LineValue(lines[i], parsed[i])
  {
    assert lines[..i + 1][..i] == lines[..i] && parsed[..i + 1][..i] == parsed[..i];
  }

  /**
   * With a parser applied to every line, the loop hands on exactly the
   * parser's values of the non-blank lines, in order.
   */
  lemma {:induction false} ForwardedParse(lines: seq<string>, parse: string -> Value)
    ensures Forwarded(lines, ParseAll(lines, parse)) == ParseAll(SerialFraming.NonBlank(lines), parse)
  {
    if lines != [] {
      var init, last := lines[..|lines| - 1], lines[|lines| - 1];
      ForwardedParse(init, parse);
      assert ParseAll(lines, parse)[..|lines| - 1] == ParseAll(init, parse);
      var a := SerialFraming.NonBlank(init);
      if SerialFraming.IsBlank(last) {
        assert ParseAll(a, parse) + [] == ParseAll(a, parse);
      } else {
        assert (a + [last])[..|a|] == a;
      }
    }
  }

  /**
   * When every value handed on is an object (as the serial parser's JSON
   * results are), every one is buffered, stamped, in the order handed on.
   */
  lemma {:induction false} KeptObjects(es: seq<Value>, now: real)
    requires forall k :: 0 <= k < |es| ==> es[k].Obj?
    ensures |Kept(es, now)| == |es|
    ensures forall k :: 0 <= k < |es| ==> Kept(es, now)[k] == Stamp(es[k], now)
  {
    if es != [] {
      KeptObjects(es[..|es| - 1], now);
    }
  }

  class HardwareDriver {
    var isConnected: bool
    var isRealHardware: bool
    var hasRealData: bool
    var deviceInfo: Value
    var dataBuffer: seq<Value>
    var fakeDataInterval: Option<TimerId>
    /** Every sample ever buffered, oldest first. */
    ghost var received: seq<Value>
    /** How many fake-data timers are started and not yet cleared. */
    ghost var runningTimers: nat

    ghost predicate Valid()
      reads this
    {
      && |dataBuffer| <= MaxBuffered
      && dataBuffer == Fifo.Recent(received, MaxBuffered)
      && runningTimers == (if fakeDataInterval.Some? then 1 else 0)
    }

    /** The constructor's field defaults (hardware detection is not modelled). */
    constructor ()
      ensures Valid()
      ensures !isConnected && !isRealHardware && !hasRealData && deviceInfo == Null
      ensures dataBuffer == [] && fakeDataInterval == None && received == []
    {
      isConnected, isRealHardware, hasRealData := false, false, false;
      deviceInfo := Null;
      dataBuffer := [];
      fakeDataInterval := None;
      received, runningTimers := [], 0;
      new;
      assert dataBuffer == Fifo.Recent(received, MaxBuffered);
    }

    /** `isRealHardwareConnected()`. */
    function IsRealHardwareConnected(): bool
      reads this
    {
      isConnected && isRealHardware && hasRealData
    }

    /** `startFakeDataGeneration()`, with the handle `setInterval` would return: a no-op while one runs. */
    method StartFakeDataGeneration(handle: TimerId)
      requires Valid()
      modifies this`fakeDataInterval, this`runningTimers
      ensures Valid() && runningTimers == 1
      ensures old(fakeDataInterval).Some? ==> fakeDataInterval == old(fakeDataInterval)
      ensures old(fakeDataInterval) == None ==> fakeDataInterval == Some(handle)
    {
      if fakeDataInterval.Some? {
        return;
      }
      fakeDataInterval := Some(handle);
      runningTimers := runningTimers + 1;
    }

    /** `stopFakeDataGeneration()`: clears the running timer, if any, and forgets its handle. */
    method StopFakeDataGeneration()
      requires Valid()
      modifies this`fakeDataInterval, this`runningTimers
      ensures Valid() && fakeDataInterval == None && runningTimers == 0
    {
      if fakeDataInterval.Some? {
        runningTimers := runningTimers - 1;
        fakeDataInterval := None;
      }
    }

    /**
     * `processEEGData(raw)`; `parsed` is what the serial parser returns for
     * a string input and `now` the clock in seconds.
     */
    method ProcessEegData(raw: Value, parsed: Value, now: real, store: Stitch.StitchState) returns (p: Intake)
      requires Valid()
      modifies this`hasRealData, this`fakeDataInterval, this`runningTimers
      modifies this`dataBuffer, this`received, store`data, store`log
      ensures Valid()
      ensures IsReal(raw) ==> hasRealData && fakeDataInterval == None
      ensures !IsReal(raw) ==> hasRealData == old(hasRealData) && fakeDataInterval == old(fakeDataInterval)
      ensures isConnected == old(isConnected) && isRealHardware == old(isRealHardware)
      ensures deviceInfo == old(deviceInfo)
      ensures p == Process(EegData(raw, parsed), now)
      ensures p.Buffered? ==> && received == old(received) + [p.entry]
                              && dataBuffer == Fifo.Push(old(dataBuffer), p.entry, MaxBuffered)
                              && store.data == Stitch.Apply(old(store.data), SampleBatch(p.entry, isRealHardware))
                              && store.log == old(store.log)
                                 + Stitch.BatchNotices(old(store.data), SampleBatch(p.entry, isRealHardware), store.listeners)
      ensures !p.Buffered? ==> && received == old(received) && dataBuffer == old(dataBuffer)
                               && store.data == old(store.data) && store.log == old(store.log)
    {
      NoteSource(raw);
      p := Accept(EegData(raw, parsed), now, store);
    }

    /** The rest of `processEEGData` once `eegData` is known: stamp, buffer and publish an object or array. */
    method Accept(e: Value, now: real, store: Stitch.StitchState) returns (p: Intake)
      requires Valid()
      modifies this`dataBuffer, this`received, store`data, store`log
      ensures Valid()
      ensures p == Process(e, now)
      ensures p.Buffered? ==> && received == old(received) + [p.entry]
                              && dataBuffer == Fifo.Push(old(dataBuffer), p.entry, MaxBuffered)
                              && store.data == Stitch.Apply(old(store.data), SampleBatch(p.entry, isRealHardware))
                              && store.log == old(store.log)
                                 + Stitch.BatchNotices(old(store.data), SampleBatch(p.entry, isRealHardware), store.listeners)
      ensures !p.Buffered? ==> && received == old(received) && dataBuffer == old(dataBuffer)
                               && store.data == old(store.data) && store.log == old(store.log)
    {
      p := Process(e, now);
      if p.Buffered? {
        BufferSample(p.entry);
        Publish(store, SampleBatch(p.entry, isRealHardware));
      }
    }

    /** `window.StitchState.update(batch)`: the keys assigned in order, every listener called after each. */
    static method Publish(store: Stitch.StitchState, batch: Stitch.Batch)
      modifies store`data, store`log
      ensures store.data == Stitch.Apply(old(store.data), batch)
      ensures store.log == old(store.log) + Stitch.BatchNotices(old(store.data), batch, store.listeners)
    {
      store.UpdateBatch(batch);
    }

    /** The real-data check at the top of `processEEGData`. */
    method NoteSource(raw: Value)
      requires Valid()
      modifies this`hasRealData, this`fakeDataInterval, this`runningTimers
      ensures Valid()
      ensures IsReal(raw) ==> hasRealData && fakeDataInterval == None
      ensures !IsReal(raw) ==> hasRealData == old(hasRealData) && fakeDataInterval == old(fakeDataInterval)
    {
      if IsReal(raw) {
        hasRealData := true;
        StopFakeDataGeneration();
      }
    }

    /** `dataBuffer.push(e)`, then `shift()` once it holds more than `MaxBuffered`. */
    method BufferSample(e: Value)
      requires Valid()
      modifies this`dataBuffer, this`received
      ensures Valid()
      ensures received == old(received) + [e]
      ensures dataBuffer == Fifo.Push(old(dataBuffer), e, MaxBuffered)
    {
      Fifo.PushKeepsRecent(received, e, MaxBuffered);
      received := received + [e];
      dataBuffer := dataBuffer + [e];
      if |dataBuffer| > MaxBuffered {
        dataBuffer := dataBuffer[1..];
      }
    }

    /**
     * One pass of the serial read loop: frame the decoded chunk, then hand
     * each non-blank complete line, in order, to `processEEGData`.
     */
    method SerialRead(reader: SerialFraming.SerialReader, decoded: string, parse: string -> Value,
                      now: real, store: Stitch.StitchState) returns (lines: seq<string>)
      requires Valid()
      modifies this`hasRealData, this`fakeDataInterval, this`runningTimers
      modifies this`dataBuffer, this`received, reader, store`data, store`log
      ensures Valid() && reader.Valid()
      ensures forall k :: 0 <= k < |lines| ==> SerialFraming.NoNewline(lines[k])
      ensures SerialFraming.Join(lines + [reader.buffer]) == old(reader.buffer) + decoded
      ensures isConnected == old(isConnected) && isRealHardware == old(isRealHardware) && deviceInfo == old(deviceInfo)
      ensures var es := ParseAll(SerialFraming.NonBlank(lines), parse);
        && received == old(received) + Kept(es, now)
        && store.data == StoreAfter(old(store.data), es, now, isRealHardware)
        && store.log == old(store.log) + NoticesAfter(old(store.data), es, now, isRealHardware, store.listeners)
      ensures SerialFraming.NonBlank(lines) != [] ==> hasRealData && fakeDataInterval == None
      ensures SerialFraming.NonBlank(lines) == [] ==> hasRealData == old(hasRealData) && fakeDataInterval == old(fakeDataInterval)
    {
      lines := reader.Frame(decoded);
      var parsed := ParseAll(lines, parse);
      ForwardedParse(lines, parse);
      ghost var es := ParseAll(SerialFraming.NonBlank(lines), parse);
      assert Forwarded(lines, parsed) == es;
      ForwardLines(lines, parsed, now, store);
    }

    /**
     * The read loop's `for (const line of lines)`, with `parsed` the serial
     * parser's value for each line: exactly the non-blank lines reach
     * `processEEGData`, in order, so the sample history, the store and the
     * listener log take their values' effects one after the other.
     */
    method ForwardLines(lines: seq<string>, parsed: seq<Value>, now: real, store: Stitch.StitchState)
      requires Valid() && |parsed| == |lines|
      modifies this`hasRealData, this`fakeDataInterval, this`runningTimers
      modifies this`dataBuffer, this`received, store`data, store`log
      ensures Valid()
      ensures var es := Forwarded(lines, parsed);
        && received == old(received) + Kept(es, now)
        && store.data == StoreAfter(old(store.data), es, now, isRealHardware)
        && store.log == old(store.log) + NoticesAfter(old(store.data), es, now, isRealHardware, store.listeners)
      ensures Forwarded(lines, parsed) != [] ==> hasRealData && fakeDataInterval == None
      ensures Forwarded(lines, parsed) == [] ==> hasRealData == old(hasRealData) && fakeDataInterval == old(fakeDataInterval)
    {
      for i := 0 to |lines|
        invariant Valid()
        invariant Follows(old(received), old(store.data), old(store.log), Forwarded(lines[..i], parsed[..i]), now,
                          isRealHardware, store.listeners, received, store.data, store.log)
        invariant Forwarded(lines[..i], parsed[..i]) != [] ==> hasRealData && fakeDataInterval == None
        invariant Forwarded(lines[..i], parsed[..i]) == [] ==>
          hasRealData == old(hasRealData) && fakeDataInterval == old(fakeDataInterval)
      {
        ghost var es := Forwarded(lines[..i], parsed[..i]);
        ghost var step := LineValue(lines[i], parsed[i]);
        ForwardedStep(lines, parsed, i);
        ghost var r0, d0, l0 := received, store.data, store.log;
        ForwardLine(lines[i], parsed[i], now, store);
        Advance(old(received), old(store.data), old(store.log), es, step, now, isRealHardware, store.listeners,
                r0, d0, l0, received, store.data, store.log);
      }
      assert lines[..|lines|] == lines && parsed[..|parsed|] == parsed;
    }

    /**
     * One iteration of the read loop, with the parser's value for the line:
     * a line whose `trim()` is non-empty goes to `processEEGData` as real
     * data; a blank one changes nothing.
     */
    method ForwardLine(line: string, parsed: Value, now: real, store: Stitch.StitchState)
      requires Valid()
      modifies this`hasRealData, this`fakeDataInterval, this`runningTimers
      modifies this`dataBuffer, this`received, store`data, store`log
      ensures Valid()
      ensures !SerialFraming.IsBlank(line) ==> hasRealData && fakeDataInterval == None
      ensures SerialFraming.IsBlank(line) ==> hasRealData == old(hasRealData) && fakeDataInterval == old(fakeDataInterval)
      ensures Follows(old(received), old(store.data), old(store.log), LineValue(line, parsed), now, isRealHardware,
                      store.listeners, received, store.data, store.log)
    {
      if !SerialFraming.IsBlank(line) {
        assert line != "";
        assert EegData(Str(line), parsed) == parsed;
        if Process(parsed, now).Buffered? {
          FoldOne(store.data, parsed, now, isRealHardware, store.listeners);
        } else {
          FoldNone(store.data, parsed, now, isRealHardware, store.listeners);
        }
        var p := ProcessEegData(Str(line), parsed, now, store);
        assert p == Process(parsed, now);
      } else {
        assert received + [] == received && store.log + [] == store.log;
      }
    }

    /**
     * One tick of the fake-data timer with the generator's sample: stamped,
     * buffered and published exactly while real hardware is attached and no
     * real data has arrived, and otherwise nothing happens.
     */
    method FakeTick(sample: Value, now: real, store: Stitch.StitchState)
      requires Valid() && !Nullish(sample) && Prop(sample, "source") == Str("fake")
      modifies this`hasRealData, this`fakeDataInterval, this`runningTimers
      modifies this`dataBuffer, this`received, store`data, store`log
      ensures Valid()
      ensures hasRealData == old(hasRealData) && fakeDataInterval == old(fakeDataInterval)
      ensures isConnected == old(isConnected) && isRealHardware == old(isRealHardware) && deviceInfo == old(deviceInfo)
      ensures IsRealHardwareConnected() == old(IsRealHardwareConnected())
      ensures sample.Obj?
      ensures isRealHardware && !hasRealData ==>
        && received == old(received) + [Stamp(sample, now)]
        && store.data == Stitch.Apply(old(store.data), SampleBatch(Stamp(sample, now), true))
        && store.log == old(store.log) + Stitch.BatchNotices(old(store.data), SampleBatch(Stamp(sample, now), true), store.listeners)
      ensures !(isRealHardware && !hasRealData) ==>
        received == old(received) && store.data == old(store.data) && store.log == old(store.log)
    {
      if isRealHardware && !hasRealData {
        var _ := ProcessEegData(sample, Undefined, now, store);
      }
    }

    /** `disconnect()`: clears the three flags and the device info, stops fake data, updates the store. */
    method Disconnect(store: Stitch.StitchState)
      requires Valid()
      modifies this, store`data, store`log
      ensures Valid()
      ensures !isConnected && !isRealHardware && !hasRealData && deviceInfo == Null
      ensures fakeDataInterval == None && runningTimers == 0
      ensures !IsRealHardwareConnected()
      ensures dataBuffer == old(dataBuffer) && received == old(received)
      ensures store.data == Stitch.Apply(old(store.data), DisconnectBatch)
      ensures store.log == old(store.log) + Stitch.BatchNotices(old(store.data), DisconnectBatch, store.listeners)
    {
      isConnected := false;
      isRealHardware := false;
      hasRealData := false;
      deviceInfo := Null;
      StopFakeDataGeneration();
      Publish(store, DisconnectBatch);
    }

    /**
     * What every `connect*` method does once its device opened: set the
     * flags, record the device info, update the store and start fake data
     * until real data arrives.
     */
    method OnDeviceOpened(info: Value, handle: TimerId, store: Stitch.StitchState)
      requires Valid()
      modifies this, store`data, store`log
      ensures Valid()
      ensures isConnected && isRealHardware && !hasRealData && deviceInfo == info
      ensures !IsRealHardwareConnected() && fakeDataInterval.Some?
      ensures old(fakeDataInterval).Some? ==> fakeDataInterval == old(fakeDataInterval)
      ensures dataBuffer == old(dataBuffer) && received == old(received)
      ensures store.data == Stitch.Apply(old(store.data), OpenedBatch(info))
      ensures store.log == old(store.log) + Stitch.BatchNotices(old(store.data), OpenedBatch(info), store.listeners)
    {
      isConnected := true;
      isRealHardware := true;
      hasRealData := false;
      deviceInfo := info;
      Publish(store, OpenedBatch(info));
      StartFakeDataGeneration(handle);
    }
  }

  /** The buffer never holds more than `MaxBuffered` samples, and they are the newest ones. */
  lemma BufferBound(received: seq<Value>)
    ensures |Fifo.Recent(received, MaxBuffered)| <= MaxBuffered
    ensures |received| >= MaxBuffered ==> Fifo.Recent(received, MaxBuffered) == received[|received| - MaxBuffered..]
  {
  }

  /** Every non-blank serial line counts as real data, whatever the parser makes of it. */
  lemma NonBlankLineIsReal(line: string)
    requires !SerialFraming.IsBlank(line)
    ensures IsReal(Str(line))
  {
  }

  /** A fake sample never counts as real data; a sample with another source always does. */
  lemma FakeSourceNotReal(raw: Value)
    requires !Nullish(raw)
    ensures Prop(raw, "source") == Str("fake") ==> !IsReal(raw)
    ensures Truthy(raw) && Prop(raw, "source") != Str("fake") ==> IsReal(raw)
  {
  }
}
