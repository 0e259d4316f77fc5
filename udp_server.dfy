/**
 * The receive loop of `runUdpServer`: one fresh filter per session; every
 * received datagram is parsed, every accepted one is smoothed and handed to the
 * mock-location sink as one location, in arrival order. A sink that throws only
 * loses that one location. The loop ends when a receive fails (the socket was
 * closed or broke) or when the session is cancelled, that is, when the input ends.
 *
 * Clock readings and the sink's verdict on each location are inputs carried by
 * the datagram they belong to.
 */
module UdpServer {
  import opened Wrappers
  import opened XgpsParser
  import opened Kalman

  /** The size of the receive buffer: longer datagrams are cut to it. */
  const BufferSize: nat := 1024

  /**
   * One receive: the bytes the sender sent, the two wall-clock readings of the
   * loop body (`currentTime` for the filter, `time` of the location), the
   * elapsed-realtime reading, and whether `setTestProviderLocation` accepted the
   * location built from it.
   */
  datatype Datagram = Datagram(bytes: seq<byte>, clockMs: int, fixTimeMs: int, elapsedRealtimeNanos: int, sinkAccepts: bool)

  /** What `socket.receive` does: deliver a datagram or throw. */
  datatype Receive = Received(datagram: Datagram) | ReceiveFailed

  /** The `Location` built for the sink. */
  datatype MockLocation = MockLocation(
    latitude: real, longitude: real, altitude: real, bearing: real, speed: real,
    accuracy: real, verticalAccuracyMeters: real, speedAccuracyMetersPerSecond: real,
    bearingAccuracyDegrees: real, time: int, elapsedRealtimeNanos: int, satellites: int)

  /** `packet.data[0..packet.length]` after a receive into the 1024-byte buffer. */
  function Payload(d: Datagram): (p: seq<byte>)
    ensures |p| <= BufferSize && |p| <= |d.bytes|
    ensures p == d.bytes[..|p|]
    ensures |d.bytes| <= BufferSize ==> p == d.bytes
    ensures |d.bytes| > BufferSize ==> p == d.bytes[..BufferSize]
  {
    if |d.bytes| <= BufferSize then d.bytes else d.bytes[..BufferSize]
  }

  /** The location for an accepted fix: smoothed position, the raw altitude, bearing and speed, fixed accuracies. */
  function MakeLocation(fix: Fix, smooth: Point, d: Datagram): MockLocation {
    MockLocation(smooth.lat, smooth.lng, fix.alt, fix.bearing, fix.speed,
                 3.0, 1.0, 0.1, 1.0, d.fixTimeMs, d.elapsedRealtimeNanos, 15)
  }

  /** A session so far: the filter, every location handed to the sink, and those the sink accepted. */
  datatype Session = Session(filter: FilterState, emitted: seq<MockLocation>, injected: seq<MockLocation>)

  const Start: Session := Session(Fresh, [], [])

  /** The loop body for one datagram. */
  function Handle(s: Session, d: Datagram, num: string -> Option<real>): Session {
    match ParsePayload(Payload(d), num)
    case None => s
    case Some(fix) =>
      var r := Step(s.filter, fix.lat, fix.lon, d.clockMs);
      var loc := MakeLocation(fix, r.out, d);
      Session(r.next, s.emitted + [loc], if d.sinkAccepts then s.injected + [loc] else s.injected)
  }

  /** The session after the given datagrams, in arrival order. */
  function Replay(ds: seq<Datagram>, num: string -> Option<real>): Session {
    if ds == [] then Start else Handle(Replay(ds[..|ds| - 1], num), ds[|ds| - 1], num)
  }

  lemma ReplayAppend(ds: seq<Datagram>, d: Datagram, num: string -> Option<real>)
    ensures Replay(ds + [d], num) == Handle(Replay(ds, num), d, num)
  {
    assert (ds + [d])[..|ds|] == ds;
  }

  /** The datagrams the loop gets to: those before the first failed receive. */
  function Delivered(events: seq<Receive>): (ds: seq<Datagram>)
    ensures |ds| <= |events|
  {
    if events == [] then []
    else match events[0]
      case ReceiveFailed => []
      case Received(d) => [d] + Delivered(events[1..])
  }

  /** One more successful receive moves one datagram from the undelivered rest to the delivered part. */
  lemma DeliveredAdvance(events: seq<Receive>, got: seq<Datagram>, i: nat)
    requires i < |events| && events[i].Received?
    requires Delivered(events) == got + Delivered(events[i..])
    ensures Delivered(events) == (got + [events[i].datagram]) + Delivered(events[i + 1..])
  {
    assert events[i..][1..] == events[i + 1..];
    assert Delivered(events[i..]) == [events[i].datagram] + Delivered(events[i + 1..]);
  }

  /** The loop body on an accepted datagram. */
  lemma HandleAccepted(s: Session, d: Datagram, num: string -> Option<real>, fix: Fix)
    requires ParsePayload(Payload(d), num) == Some(fix)
    ensures var r := Step(s.filter, fix.lat, fix.lon, d.clockMs);
            var loc := MakeLocation(fix, r.out, d);
            Handle(s, d, num) == Session(r.next, s.emitted + [loc], if d.sinkAccepts then s.injected + [loc] else s.injected)
  {
  }

  /**
   * The loop of `runUdpServer` over a session's receives, with a fresh filter: it
   * hands to the sink exactly what replaying the delivered datagrams gives.
   */
  method RunUdpServer(events: seq<Receive>, num: string -> Option<real>)
    returns (emitted: seq<MockLocation>, injected: seq<MockLocation>)
    ensures emitted == Replay(Delivered(events), num).emitted
    ensures injected == Replay(Delivered(events), num).injected
  {
    var kalmanFilter := new KalmanLatLong();
    emitted, injected := [], [];
    ghost var got: seq<Datagram> := [];
    var i := 0;
    assert events[i..] == events;
    while i < |events|
      invariant 0 <= i <= |events|
      invariant Delivered(events) == got + Delivered(events[i..])
      invariant kalmanFilter.State() == Replay(got, num).filter
      invariant emitted == Replay(got, num).emitted
      invariant injected == Replay(got, num).injected
    {
      match events[i]
      case ReceiveFailed =>
        assert Delivered(events[i..]) == [];
        break;
      case Received(d) =>
        DeliveredAdvance(events, got, i);
        ReplayAppend(got, d, num);
        var payload := Payload(d);
        var parsed := ParsePayload(payload, num);
        if parsed.Some? {
          var fix := parsed.value;
          HandleAccepted(Replay(got, num), d, num, fix);
          var smoothLat, smoothLon := kalmanFilter.Process(fix.lat, fix.lon, d.clockMs);
          var mockLocation := MakeLocation(fix, Point(smoothLat, smoothLon), d);
          emitted := emitted + [mockLocation];
          if d.sinkAccepts {
            injected := injected + [mockLocation];
          }
        }
        got := got + [d];
        i := i + 1;
    }
    assert got == Delivered(events);
  }

  // ---------------------------------------------------------------------------
  // What a session promises

  /** An accepted datagram with its fix. */
  datatype Reading = Reading(fix: Fix, datagram: Datagram)

  /** The datagrams that parse, with their fixes, in arrival order. */
  function Accepted(ds: seq<Datagram>, num: string -> Option<real>): (rs: seq<Reading>)
    ensures |rs| <= |ds|
  {
    if ds == [] then []
    else
      var d := ds[|ds| - 1];
      match ParsePayload(Payload(d), num)
      case None => Accepted(ds[..|ds| - 1], num)
      case Some(fix) => Accepted(ds[..|ds| - 1], num) + [Reading(fix, d)]
  }

  /** What the filter is fed for each accepted datagram: raw latitude, raw longitude, clock. */
  function Measurements(rs: seq<Reading>): (ms: seq<Measurement>)
    ensures |ms| == |rs|
    ensures forall j :: 0 <= j < |rs| ==> ms[j] == Measurement(rs[j].fix.lat, rs[j].fix.lon, rs[j].datagram.clockMs)
  {
    seq(|rs|, j requires 0 <= j < |rs| => Measurement(rs[j].fix.lat, rs[j].fix.lon, rs[j].datagram.clockMs))
  }

  /** The locations of the readings whose datagram the sink accepted. */
  function Kept(locs: seq<MockLocation>, rs: seq<Reading>): seq<MockLocation>
    requires |locs| == |rs|
  {
    if rs == [] then []
    else
      var n := |rs| - 1;
      Kept(locs[..n], rs[..n]) + (if rs[n].datagram.sinkAccepts then [locs[n]] else [])
  }

  /**
   * A session is parse, then filter, then build: one location per accepted
   * datagram, in order, each the filter's result for that datagram's raw
   * latitude, longitude and clock together with its raw altitude, bearing and
   * speed; rejected datagrams leave no trace, not even in the filter; the sink
   * keeps exactly the locations it accepted.
   */
  predicate ParseThenFilter(ds: seq<Datagram>, num: string -> Option<real>) {
    var acc := Accepted(ds, num);
    Agrees(Replay(ds, num), acc, Run(Fresh, Measurements(acc)))
  }

  /** The session state built is the one the readings and the filter trace over them describe. */
  predicate Agrees(st: Session, acc: seq<Reading>, tr: Trace)
    requires |tr.outputs| == |acc|
  {
    && st.filter == tr.state
    && |st.emitted| == |acc|
    && (forall j :: 0 <= j < |acc| ==> st.emitted[j] == MakeLocation(acc[j].fix, tr.outputs[j], acc[j].datagram))
    && st.injected == Kept(st.emitted, acc)
  }

  /** Agrees is kept by one more reading, filter step and location. */
  lemma AgreesSnoc(stInit: Session, accInit: seq<Reading>, trInit: Trace, rd: Reading, r: StepResult)
    requires |trInit.outputs| == |accInit|
    requires Agrees(stInit, accInit, trInit)
    ensures var loc := MakeLocation(rd.fix, r.out, rd.datagram);
            Agrees(Session(r.next, stInit.emitted + [loc], if rd.datagram.sinkAccepts then stInit.injected + [loc] else stInit.injected),
                   accInit + [rd], Trace(r.next, trInit.outputs + [r.out]))
  {
    var loc := MakeLocation(rd.fix, r.out, rd.datagram);
    KeptSnoc(stInit.emitted, accInit, loc, rd);
  }

  /** Every session, whatever its traffic, is parse, then filter, then build. */
  lemma {:induction false} ReplayIsParseThenFilter(ds: seq<Datagram>, num: string -> Option<real>)
    ensures ParseThenFilter(ds, num)
  {
    if ds != [] {
      var init, d := ds[..|ds| - 1], ds[|ds| - 1];
      assert ds == init + [d];
      ReplayIsParseThenFilter(init, num);
      if ParsePayload(Payload(d), num).Some? {
        StepAccepted(init, d, num, ParsePayload(Payload(d), num).value);
      } else {
        StepRejected(init, d, num);
      }
    }
  }

  /** A rejected datagram at the end changes neither side. */
  lemma StepRejected(init: seq<Datagram>, d: Datagram, num: string -> Option<real>)
    requires ParsePayload(Payload(d), num).None?
    requires ParseThenFilter(init, num)
    ensures ParseThenFilter(init + [d], num)
  {
    var ds := init + [d];
    assert ds[..|ds| - 1] == init && ds[|ds| - 1] == d;
    assert Accepted(ds, num) == Accepted(init, num);
    assert Replay(ds, num) == Replay(init, num);
  }

  /** An accepted datagram at the end adds one reading, one filter step and one location. */
  lemma StepAccepted(init: seq<Datagram>, d: Datagram, num: string -> Option<real>, fix: Fix)
    requires ParsePayload(Payload(d), num) == Some(fix)
    requires ParseThenFilter(init, num)
    ensures ParseThenFilter(init + [d], num)
  {
    var accInit := Accepted(init, num);
    var trInit := Run(Fresh, Measurements(accInit));
    var stInit := Replay(init, num);
    var rd := Reading(fix, d);
    var r := Step(trInit.state, fix.lat, fix.lon, d.clockMs);
    AcceptedSnoc(init, d, num, fix);
    MeasurementsSnoc(accInit, rd);
    RunSnoc(Fresh, Measurements(accInit), Measurement(fix.lat, fix.lon, d.clockMs));
    ReplayAppend(init, d, num);
    HandleAccepted(stInit, d, num, fix);
    AgreesSnoc(stInit, accInit, trInit, rd, r);
  }

  lemma AcceptedSnoc(init: seq<Datagram>, d: Datagram, num: string -> Option<real>, fix: Fix)
    requires ParsePayload(Payload(d), num) == Some(fix)
    ensures Accepted(init + [d], num) == Accepted(init, num) + [Reading(fix, d)]
  {
    assert (init + [d])[..|init|] == init;
  }

  lemma MeasurementsSnoc(rs: seq<Reading>, rd: Reading)
    ensures Measurements(rs + [rd]) == Measurements(rs) + [Measurement(rd.fix.lat, rd.fix.lon, rd.datagram.clockMs)]
  {
  }

  lemma RunSnoc(s: FilterState, ms: seq<Measurement>, m: Measurement)
    ensures var prev := Run(s, ms);
            var r := Step(prev.state, m.lat, m.lng, m.timeStamp);
            Run(s, ms + [m]) == Trace(r.next, prev.outputs + [r.out])
  {
    assert (ms + [m])[..|ms|] == ms;
  }

  lemma KeptSnoc(locs: seq<MockLocation>, rs: seq<Reading>, loc: MockLocation, rd: Reading)
    requires |locs| == |rs|
    ensures Kept(locs + [loc], rs + [rd]) == Kept(locs, rs) + (if rd.datagram.sinkAccepts then [loc] else [])
  {
    assert (locs + [loc])[..|locs|] == locs;
    assert (rs + [rd])[..|rs|] == rs;
  }

  /** The first location of a session carries the raw latitude and longitude of the first accepted datagram. */
  lemma FirstFixIsRaw(ds: seq<Datagram>, num: string -> Option<real>)
    requires Replay(ds, num).emitted != []
    ensures var acc := Accepted(ds, num);
            && acc != []
            && Replay(ds, num).emitted[0].latitude == acc[0].fix.lat
            && Replay(ds, num).emitted[0].longitude == acc[0].fix.lon
  {
    ReplayIsParseThenFilter(ds, num);
    RunFirstIsRaw(Measurements(Accepted(ds, num)));
  }

  /**
   * Each later location lies, on each axis, between the previous location and
   * the raw position of its own datagram, and strictly between when the two differ.
   */
  lemma ConsecutiveFixesApproach(ds: seq<Datagram>, num: string -> Option<real>, j: nat)
    requires j + 1 < |Replay(ds, num).emitted|
    ensures var acc := Accepted(ds, num); var out := Replay(ds, num).emitted;
            && j + 1 < |acc|
            && Between(out[j + 1].latitude, out[j].latitude, acc[j + 1].fix.lat)
            && Between(out[j + 1].longitude, out[j].longitude, acc[j + 1].fix.lon)
            && (out[j].latitude != acc[j + 1].fix.lat ==>
                  StrictlyBetween(out[j + 1].latitude, out[j].latitude, acc[j + 1].fix.lat))
            && (out[j].longitude != acc[j + 1].fix.lon ==>
                  StrictlyBetween(out[j + 1].longitude, out[j].longitude, acc[j + 1].fix.lon))
  {
    ReplayIsParseThenFilter(ds, num);
    RunInterpolates(Measurements(Accepted(ds, num)), j);
  }

  /** Two runs of traffic that differ only in what the sink decided. */
  predicate SameTraffic(ds: seq<Datagram>, es: seq<Datagram>) {
    |ds| == |es| &&
    forall i :: 0 <= i < |ds| ==> ds[i].(sinkAccepts := true) == es[i].(sinkAccepts := true)
  }

  /** A sink that throws does not stop or change the processing of any datagram. */
  lemma {:induction false} SinkFailuresDoNotMatter(ds: seq<Datagram>, es: seq<Datagram>, num: string -> Option<real>)
    requires SameTraffic(ds, es)
    ensures Replay(ds, num).emitted == Replay(es, num).emitted
    ensures Replay(ds, num).filter == Replay(es, num).filter
  {
    if ds != [] {
      var n := |ds| - 1;
      assert SameTraffic(ds[..n], es[..n]) by {
        forall i | 0 <= i < n ensures ds[..n][i].(sinkAccepts := true) == es[..n][i].(sinkAccepts := true) {
          assert ds[..n][i] == ds[i] && es[..n][i] == es[i];
        }
      }
      SinkFailuresDoNotMatter(ds[..n], es[..n], num);
      var d, e := ds[n], es[n];
      assert d.(sinkAccepts := true) == e.(sinkAccepts := true);
      assert d.bytes == e.bytes && d.clockMs == e.clockMs && d.fixTimeMs == e.fixTimeMs;
      assert d.elapsedRealtimeNanos == e.elapsedRealtimeNanos;
    }
  }

  /** A failed receive ends the session: nothing after it is processed. */
  lemma {:induction false} FailureEndsSession(before: seq<Datagram>, after: seq<Receive>)
    ensures Delivered(seq(|before|, i requires 0 <= i < |before| => Received(before[i])) + [ReceiveFailed] + after) == before
  {
    var pre := seq(|before|, i requires 0 <= i < |before| => Received(before[i]));
    if before != [] {
      var rest := seq(|before| - 1, i requires 0 <= i < |before| - 1 => Received(before[1..][i]));
      assert (pre + [ReceiveFailed] + after)[1..] == rest + [ReceiveFailed] + after;
      FailureEndsSession(before[1..], after);
    } else {
      assert pre + [ReceiveFailed] + after == [ReceiveFailed] + after;
    }
  }
}
