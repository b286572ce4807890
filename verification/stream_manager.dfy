/**
 * The back-end stream's message handler (js/stream-manager.js,
 * `StreamManager.handleData`): it maps one parsed payload onto a single
 * batch update of the global store, unless real hardware is connected.
 */
module StreamManager {
  import opened Wrappers
  import opened JsValue
  import opened Numeric
  import Stitch

  /** What one payload does: the handler throws (the socket's handler catches it), skips, or updates the store. */
  datatype Outcome = Threw | Skipped | Updated(batch: Stitch.Batch)

  /** `analysis.state === state ? Math.round(analysis.confidence * 100) : fallback`. */
  function Percent(analysis: Value, state: string, fallback: real): (r: Value)
    requires !Nullish(analysis)
    ensures Prop(analysis, "state") != Str(state) ==> r == Num(fallback)
    ensures Prop(analysis, "state") == Str(state) && ToNumber(Prop(analysis, "confidence")) == None ==> r == NaN
    ensures Prop(analysis, "state") == Str(state) && ToNumber(Prop(analysis, "confidence")).Some? ==>
              var c := ToNumber(Prop(analysis, "confidence")).value;
              r.Num? && c * 100.0 - 0.5 < r.n <= c * 100.0 + 0.5 && r.n == r.n.Floor as real
  {
    if Prop(analysis, "state") == Str(state) then
      match ToNumber(Prop(analysis, "confidence"))
      case Some(c) => Num(JsRound(c * 100.0) as real)
      case None => NaN
    else Num(fallback)
  }

  /** `bands.<name> || 0` for each of the five bands. */
  function BandsObject(bands: Value): (r: Value)
    requires !Nullish(bands)
    ensures r.Obj? && r.fields.Keys == {"delta", "theta", "alpha", "beta", "gamma"}
    ensures forall k :: k in r.fields ==> r.fields[k] == Or(Prop(bands, k), Num(0.0))
  {
    Obj(map[
      "delta" := Or(Prop(bands, "delta"), Num(0.0)),
      "theta" := Or(Prop(bands, "theta"), Num(0.0)),
      "alpha" := Or(Prop(bands, "alpha"), Num(0.0)),
      "beta" := Or(Prop(bands, "beta"), Num(0.0)),
      "gamma" := Or(Prop(bands, "gamma"), Num(0.0))
    ])
  }

  /** The object handed to the store's batch update, in its key order. */
  function PayloadBatch(data: Value): (b: Stitch.Batch)
    requires !Nullish(data)
  {
    var bands := Or(Prop(data, "bands"), Obj(map[]));
    var analysis := Or(Prop(data, "analysis"), Obj(map[]));
    var status := Prop(data, "status");
    [
      ("brainStates", Obj(map[
        "focus" := Percent(analysis, "focus", 30.0),
        "stress" := Percent(analysis, "stress", 20.0),
        "fatigue" := Percent(analysis, "fatigue", 10.0)
      ])),
      ("eegBands", BandsObject(bands)),
      ("hardware", Or(Prop(data, "hardware"), Obj(map[]))),
      ("rawSignal", Or(Prop(data, "signal"), Arr([]))),
      ("channelCount", Or(OptProp(status, "channel_count"), Num(0.0))),
      ("deviceStatus", if Truthy(OptProp(status, "connected")) then Str("connected") else Str("disconnected")),
      ("isRealHardware", Bool(false))
    ]
  }

  /**
   * `handleData(data)` with the store present.  Reading `data.bands` comes
   * before the hardware check, so a null or undefined payload throws even
   * when real hardware is connected.
   */
  function HandleData(data: Value, hasRealHardware: bool): (o: Outcome)
    ensures o == Threw <==> Nullish(data)
    ensures o == Skipped <==> !Nullish(data) && hasRealHardware
    ensures o.Updated? ==> !hasRealHardware && o.batch == PayloadBatch(data)
  {
    if Nullish(data) then Threw
    else if hasRealHardware then Skipped
    else Updated(PayloadBatch(data))
  }

  /** The socket's message handler: run `handleData`, then apply its update (if any) to the store. */
  method OnMessage(store: Stitch.StitchState, data: Value, hasRealHardware: bool) returns (o: Outcome)
    modifies store`data, store`log
    ensures o == HandleData(data, hasRealHardware)
    ensures o.Updated? ==> store.data == Stitch.Apply(old(store.data), o.batch)
    ensures o.Updated? ==> store.log == old(store.log) + Stitch.BatchNotices(old(store.data), o.batch, store.listeners)
    ensures !o.Updated? ==> store.data == old(store.data) && store.log == old(store.log)
  {
    o := HandleData(data, hasRealHardware);
    if o.Updated? {
      store.UpdateBatch(o.batch);
    }
  }

  /** The batch's seven keys are distinct. */
  lemma PayloadKeysDistinct(data: Value)
    requires !Nullish(data)
    ensures var b := PayloadBatch(data);
      forall i, j :: 0 <= i < j < |b| ==> b[i].0 != b[j].0
  {
  }

  /**
   * The store after a payload update: each of the seven keys holds its
   * mapped value (device status "connected" exactly when `status.connected`
   * is truthy, `isRealHardware` false, missing signal and hardware as `[]`
   * and `{}`, channel count defaulting to 0).
   */
  lemma {:induction false} UpdateEffect(d: Stitch.Store, data: Value)
    requires !Nullish(data)
    ensures var r := Stitch.Apply(d, PayloadBatch(data));
      && "isRealHardware" in r && r["isRealHardware"] == Bool(false)
      && "deviceStatus" in r
      && (r["deviceStatus"] == Str("connected") <==> Truthy(OptProp(Prop(data, "status"), "connected")))
      && "rawSignal" in r && (!Truthy(Prop(data, "signal")) ==> r["rawSignal"] == Arr([]))
      && "hardware" in r && (!Truthy(Prop(data, "hardware")) ==> r["hardware"] == Obj(map[]))
      && "channelCount" in r
      && (!Truthy(OptProp(Prop(data, "status"), "channel_count")) ==> r["channelCount"] == Num(0.0))
      && "eegBands" in r && r["eegBands"] == BandsObject(Or(Prop(data, "bands"), Obj(map[])))
      && "brainStates" in r && r["brainStates"] == PayloadBatch(data)[0].1
  {
    var b := PayloadBatch(data);
    PayloadKeysDistinct(data);
    Stitch.ApplyLastWins(d, b, 6);
    Stitch.ApplyLastWins(d, b, 5);
    Stitch.ApplyLastWins(d, b, 4);
    Stitch.ApplyLastWins(d, b, 3);
    Stitch.ApplyLastWins(d, b, 2);
    Stitch.ApplyLastWins(d, b, 1);
    Stitch.ApplyLastWins(d, b, 0);
  }

  /** Keys the payload update does not name keep their values. */
  lemma UpdateKeepsOtherKeys(d: Stitch.Store, data: Value, k: string)
    requires !Nullish(data) && k in d
    requires k !in {"brainStates", "eegBands", "hardware", "rawSignal", "channelCount", "deviceStatus", "isRealHardware"}
    ensures var r := Stitch.Apply(d, PayloadBatch(data)); k in r && r[k] == d[k]
  {
    Stitch.ApplyFrame(d, PayloadBatch(data), k);
  }

  /** Each band the payload lacks, or carries as a falsy value, is stored as 0; a truthy one is stored as is. */
  lemma BandDefaults(data: Value, k: string)
    requires !Nullish(data) && k in {"delta", "theta", "alpha", "beta", "gamma"}
    ensures var bands := Or(Prop(data, "bands"), Obj(map[]));
      var v := BandsObject(bands).fields[k];
      (Truthy(Prop(bands, k)) ==> v == Prop(bands, k)) && (!Truthy(Prop(bands, k)) ==> v == Num(0.0))
  {
  }

  /**
   * An analysis object (whatever else it carries, such as the back end's
   * `reason`) naming state "focus" with a confidence in [0, 1] gives a
   * whole focus percentage in [0, 100]; the other two states keep their
   * defaults 20 and 10.
   */
  lemma FocusPercent(data: Value, c: real)
    requires !Nullish(data) && 0.0 <= c <= 1.0
    requires Prop(data, "analysis").Obj?
    requires Prop(Prop(data, "analysis"), "state") == Str("focus") && Prop(Prop(data, "analysis"), "confidence") == Num(c)
    ensures var states := PayloadBatch(data)[0].1.fields;
      && states["focus"].Num? && 0.0 <= states["focus"].n <= 100.0
      && states["focus"].n == states["focus"].n.Floor as real
      && states["stress"] == Num(20.0) && states["fatigue"] == Num(10.0)
  {
    var analysis := Or(Prop(data, "analysis"), Obj(map[]));
    assert Prop(analysis, "state") == Str("focus");
    assert ToNumber(Prop(analysis, "confidence")) == Some(c);
    var p := Percent(analysis, "focus", 30.0);
    assert p.n == p.n.Floor as real;
    assert -1.0 < p.n < 101.0;
  }
}
