/** The bridge's main view as a state machine: the broker connect toggle, the
    start/stop toggle, the session bookkeeping and the handling of each framed
    message (count it, show it, publish it when the broker is connected).
    Layout, styling and the UI thread hand-off are not modelled; each
    collaborator's outcome (port selected, port opened, broker connect,
    publish) and each clock reading is a parameter. */
module Bridge {
  import opened Serial

  datatype Option<T> = None | Some(value: T)

  /** A clock reading formatted as yyyy-MM-dd HH:mm:ss, kept opaque. */
  type Timestamp = string

  const MinInt32: int := -0x8000_0000
  const MaxInt32: int := 0x7fff_ffff

  predicate IsInt32(x: int) { MinInt32 <= x <= MaxInt32 }

  /** Java's messageCount++ on an int: one more, modulo 2^32, in range. */
  function Inc32(x: int): (r: int)
    requires IsInt32(x)
    ensures IsInt32(r)
    ensures (r - (x + 1)) % 0x1_0000_0000 == 0
    ensures x < MaxInt32 ==> r == x + 1
  {
    if x == MaxInt32 then MinInt32 else x + 1
  }

  const SelectPortError := "Please select a COM port"
  const BrokerRequiredError := "Broker URL is required"

  /** The alert shown when the serial service could not be started. */
  function StartFailure(reason: string): (r: string)
    ensures |r| > |reason| && r[|r| - |reason|..] == reason
    ensures r[..|r| - |reason|] == "Failed to start monitoring: "
  {
    "Failed to start monitoring: " + reason
  }

  /** The alert shown when the broker connect threw. */
  function ConnectFailure(reason: string): (r: string)
    ensures |r| > |reason| && r[|r| - |reason|..] == reason
    ensures r[..|r| - |reason|] == "Failed to connect to MQTT broker: "
  {
    "Failed to connect to MQTT broker: " + reason
  }

  /** The view's state: isRunning, messageCount, sessionStartTime, the stop
      time on the stop label (None while it reads N/A), whether the broker
      client reports itself connected, the enabled state of the start and
      connect buttons and of the port selector, and the error alerts shown. */
  datatype Session = Session(
    running: bool,
    count: int,
    startTime: Option<Timestamp>,
    stopTime: Option<Timestamp>,
    broker: bool,
    startEnabled: bool,
    connectEnabled: bool,
    portEnabled: bool,
    alerts: seq<string>)

  /** What the handlers keep true: the count is a Java int, the connect button
      and the port selector are enabled exactly while idle, and a running
      session has a start time, no stop time, and a start button to stop it. */
  predicate Consistent(s: Session)
  {
    IsInt32(s.count)
    && s.connectEnabled == !s.running
    && s.portEnabled == !s.running
    && (s.running ==> s.startEnabled && s.startTime.Some? && s.stopTime.None?)
  }

  /** The state the view is created in. */
  function Initial(): (r: Session)
    ensures Consistent(r) && !r.running && r.count == 0 && !r.broker && !r.startEnabled
  {
    Session(false, 0, None, None, false, false, true, true, [])
  }

  /** Only the broker flag and the start button's enablement change, unless
      the press was rejected or failed. */
  predicate SessionUntouched(s: Session, r: Session)
  {
    r.running == s.running && r.count == s.count && r.startTime == s.startTime
    && r.stopTime == s.stopTime && r.connectEnabled == s.connectEnabled
    && r.portEnabled == s.portEnabled
  }

  /** handleMqttConnect: disconnects when connected; otherwise refuses an
      empty broker URL before any attempt, and connects if the client does. */
  function MqttConnect(s: Session, brokerUrl: string, connect: Outcome): (r: Session)
    ensures SessionUntouched(s, r)
    ensures r.broker <==> !s.broker && brokerUrl != [] && connect.Done?
    ensures r.startEnabled <==> r.broker || (!s.broker && s.startEnabled)
    ensures s.broker || r.broker ==> r.alerts == s.alerts
    ensures !s.broker && brokerUrl == [] ==> r.alerts == s.alerts + [BrokerRequiredError]
    ensures !s.broker && brokerUrl != [] && connect.Failed? ==>
      r.alerts == s.alerts + [ConnectFailure(connect.reason)]
    ensures Consistent(s) && s.connectEnabled ==> Consistent(r)
  {
    if s.broker then
      s.(broker := false, startEnabled := false)
    else if brokerUrl == [] then
      s.(alerts := s.alerts + [BrokerRequiredError])
    else if connect.Done? then
      s.(broker := true, startEnabled := true)
    else
      s.(alerts := s.alerts + [ConnectFailure(connect.reason)])
  }

  /** stopMonitoring: back to idle with the stop time recorded; the count
      keeps its final value. */
  function Stop(s: Session, now: Timestamp): (r: Session)
    ensures !r.running && r.stopTime == Some(now) && r.connectEnabled && r.portEnabled
    ensures r.count == s.count && r.startTime == s.startTime
    ensures r.broker == s.broker && r.startEnabled == s.startEnabled && r.alerts == s.alerts
    ensures Consistent(s) ==> Consistent(r)
  {
    s.(running := false, stopTime := Some(now), connectEnabled := true, portEnabled := true)
  }

  /** handleStartStop: a toggle. While running a press stops. While idle it
      needs a selected port and a port that opens; a successful start resets
      the session, a rejected or failed one only reports an error. */
  function StartStop(s: Session, port: Option<string>, opens: bool, now: Timestamp): (r: Session)
    ensures s.running ==> r == Stop(s, now)
    ensures !s.running ==> (r.running <==> port.Some? && opens)
    ensures !s.running && r.running ==>
      r.count == 0 && r.startTime == Some(now) && r.stopTime == None
      && !r.connectEnabled && !r.portEnabled && r.alerts == s.alerts
    ensures !s.running && !r.running ==> SessionUntouched(s, r) && |r.alerts| == |s.alerts| + 1
    ensures !s.running && port.None? ==> r.alerts == s.alerts + [SelectPortError]
    ensures !s.running && port.Some? && !opens ==>
      r.alerts == s.alerts + [StartFailure(OpenFailure(port.value))]
    ensures r.broker == s.broker && r.startEnabled == s.startEnabled
    ensures Consistent(s) && s.startEnabled ==> Consistent(r)
  {
    if s.running then Stop(s, now)
    else match port
      case None => s.(alerts := s.alerts + [SelectPortError])
      case Some(p) =>
        if !opens then s.(alerts := s.alerts + [StartFailure(OpenFailure(p))])
        else s.(running := true, count := 0, startTime := Some(now), stopTime := None,
                portEnabled := false, connectEnabled := false)
  }

  /** The display line written to the data area for one message. */
  function DisplayLine(timestamp: Timestamp, data: string): (r: string)
    ensures |r| == |timestamp| + |data| + 11
    ensures r[0] == '[' && r[1..|timestamp| + 1] == timestamp && r[|r| - |data|..] == data
  {
    "[" + timestamp + "] WEIGHT: " + data
  }

  const PayloadHead := "{\"timestamp\":\""
  const PayloadMiddle := "\",\"weight\":\""
  const PayloadTail := "\"}"

  /** The published payload: the format string filled in verbatim, without
      any escaping of either value. */
  function Payload(timestamp: Timestamp, weight: string): (r: string)
    ensures |r| == |PayloadHead| + |timestamp| + |PayloadMiddle| + |weight| + |PayloadTail|
    ensures r[..|PayloadHead|] == PayloadHead
    ensures r[|PayloadHead|..|PayloadHead| + |timestamp|] == timestamp
    ensures r[|r| - |PayloadTail| - |weight|..|r| - |PayloadTail|] == weight
  {
    PayloadHead + timestamp + PayloadMiddle + weight + PayloadTail
  }

  datatype Publication = Publication(topic: string, payload: string)

  /** Whether a publish was attempted for a message, and how it ended. */
  datatype PublishResult =
    | NotAttempted
    | Published(sent: Publication)
    | PublishFailed(sent: Publication, reason: string)

  datatype Delivery = Delivery(next: Session, display: string, publish: PublishResult)

  /** handleSerialData: count first, show the line, then publish only when the
      broker client is connected; a failed publish is swallowed. */
  function SerialData(s: Session, data: string, now: Timestamp, topic: string, publish: Outcome): (r: Delivery)
    requires IsInt32(s.count)
    ensures r.next == s.(count := Inc32(s.count))
    ensures r.display == DisplayLine(now, data)
    ensures r.publish.NotAttempted? <==> !s.broker
    ensures !r.publish.NotAttempted? ==> r.publish.sent == Publication(topic, Payload(now, data))
    ensures r.publish.PublishFailed? <==> s.broker && publish.Failed?
    ensures Consistent(s) ==> Consistent(r.next)
  {
    var next := s.(count := Inc32(s.count));
    var line := DisplayLine(now, data);
    if !s.broker then Delivery(next, line, NotAttempted)
    else
      var sent := Publication(topic, Payload(now, data));
      match publish
      case Done => Delivery(next, line, Published(sent))
      case Failed(why) => Delivery(next, line, PublishFailed(sent, why))
  }

  /** shutdown: stops monitoring if running, then drops the broker. */
  function ShutdownSession(s: Session, now: Timestamp): (r: Session)
    ensures !r.running && !r.broker && r.count == s.count && r.alerts == s.alerts
    ensures s.running ==> r.stopTime == Some(now)
    ensures !s.running ==> r.stopTime == s.stopTime
    ensures r.startTime == s.startTime && r.startEnabled == s.startEnabled
    ensures !s.running ==> r.connectEnabled == s.connectEnabled && r.portEnabled == s.portEnabled
    ensures Consistent(s) ==> Consistent(r)
  {
    var stopped := if s.running then Stop(s, now) else s;
    if stopped.broker then stopped.(broker := false) else stopped
  }

  /** One message as it arrives from the reader, with the clock reading, the
      topic field's text and the publish outcome at that moment. */
  datatype Arrival = Arrival(data: string, time: Timestamp, topic: string, publish: Outcome)

  /** The session and publish results after handling arrivals in order. */
  function Deliver(s: Session, arrivals: seq<Arrival>): (r: (Session, seq<PublishResult>))
    requires IsInt32(s.count)
    ensures |r.1| == |arrivals| && IsInt32(r.0.count)
    ensures r.0 == s.(count := r.0.count)
    ensures forall i :: 0 <= i < |r.1| ==> (r.1[i].NotAttempted? <==> !s.broker)
    decreases |arrivals|
  {
    if arrivals == [] then (s, [])
    else
      var a := arrivals[0];
      var d := SerialData(s, a.data, a.time, a.topic, a.publish);
      var rest := Deliver(d.next, arrivals[1..]);
      (rest.0, [d.publish] + rest.1)
  }

  /** Every arrival is counted exactly once, whatever its publish outcome, and
      nothing but the count changes. */
  lemma {:induction false} DeliverCounts(s: Session, arrivals: seq<Arrival>)
    requires IsInt32(s.count) && s.count + |arrivals| <= MaxInt32
    ensures Deliver(s, arrivals).0 == s.(count := s.count + |arrivals|)
    ensures |Deliver(s, arrivals).1| == |arrivals|
    decreases |arrivals|
  {
    if arrivals != [] {
      var a := arrivals[0];
      var d := SerialData(s, a.data, a.time, a.topic, a.publish);
      DeliverCounts(d.next, arrivals[1..]);
    }
  }

  /** With the broker connected throughout, every arrival gets a publish
      attempt, in order, carrying its own payload, failed publishes included. */
  lemma {:induction false} DeliverPublishesEach(s: Session, arrivals: seq<Arrival>, i: nat)
    requires IsInt32(s.count) && s.broker && i < |arrivals|
    ensures var results := Deliver(s, arrivals).1;
      i < |results| && !results[i].NotAttempted?
      && results[i].sent == Publication(arrivals[i].topic, Payload(arrivals[i].time, arrivals[i].data))
    decreases |arrivals|
  {
    var a := arrivals[0];
    var d := SerialData(s, a.data, a.time, a.topic, a.publish);
    if i > 0 {
      DeliverPublishesEach(d.next, arrivals[1..], i - 1);
    }
  }

  /** The state after a message does not depend on how its publish ended. */
  lemma PublishFailureContained(s: Session, data: string, now: Timestamp, topic: string, why: string)
    requires IsInt32(s.count)
    ensures SerialData(s, data, now, topic, Failed(why)).next == SerialData(s, data, now, topic, Done).next
  {
  }

  /** Pressing start/stop on a fresh successful start stops again: the second
      press is not a no-op. */
  lemma SecondPressStops(s: Session, p: string, other: Option<string>, opens: bool, t1: Timestamp, t2: Timestamp)
    requires !s.running
    ensures var started := StartStop(s, Some(p), true, t1);
      var again := StartStop(started, other, opens, t2);
      started.running && !again.running && again.count == 0
      && again.startTime == Some(t1) && again.stopTime == Some(t2)
  {
  }

  /** The longest prefix of s without stop. */
  function TakeUntil(s: string, stop: char): string
  {
    if s == [] || s[0] == stop then [] else [s[0]] + TakeUntil(s[1..], stop)
  }

  lemma {:induction false} TakeUntilPrefix(t: string, stop: char, rest: string)
    requires stop !in t
    ensures TakeUntil(t + [stop] + rest, stop) == t
    decreases |t|
  {
    if t != [] {
      assert (t + [stop] + rest)[1..] == t[1..] + [stop] + rest;
      TakeUntilPrefix(t[1..], stop, rest);
    }
  }

  /** The timestamp a display line starts with: the text between "[" and "]". */
  function DisplayTimestamp(line: string): Option<string>
  {
    if |line| > 0 && line[0] == '[' then Some(TakeUntil(line[1..], ']')) else None
  }

  /** The timestamp field of a payload: the text after the head up to the
      next double quote. */
  function PayloadTimestamp(p: string): Option<string>
  {
    if |p| >= |PayloadHead| && p[..|PayloadHead|] == PayloadHead
    then Some(TakeUntil(p[|PayloadHead|..], '"'))
    else None
  }

  /** The weight field of a payload, read by position once the timestamp is
      known: the weight itself may hold quotes and backslashes. */
  function PayloadWeight(p: string, timestamp: Timestamp): Option<string>
  {
    var start := |PayloadHead| + |timestamp| + |PayloadMiddle|;
    if start + |PayloadTail| <= |p| then Some(p[start..|p| - |PayloadTail|]) else None
  }

  /** The display line and the payload of one message carry the same
      timestamp, and the payload carries the message text unaltered, as
      long as the timestamp holds no quote or bracket (a formatted date does
      not). */
  lemma SameTimestamp(s: Session, data: string, now: Timestamp, topic: string, publish: Outcome)
    requires IsInt32(s.count) && s.broker
    requires '"' !in now && ']' !in now
    ensures var r := SerialData(s, data, now, topic, publish);
      DisplayTimestamp(r.display) == Some(now)
      && PayloadTimestamp(r.publish.sent.payload) == Some(now)
      && PayloadWeight(r.publish.sent.payload, now) == Some(data)
  {
    var line := DisplayLine(now, data);
    assert "] WEIGHT: " == [']'] + " WEIGHT: ";
    assert line == "[" + (now + [']'] + (" WEIGHT: " + data));
    assert line[1..] == now + [']'] + (" WEIGHT: " + data);
    TakeUntilPrefix(now, ']', " WEIGHT: " + data);
    assert DisplayTimestamp(line) == Some(now);
    var p := Payload(now, data);
    assert p[..|PayloadHead|] == PayloadHead;
    assert p[|PayloadHead|..] == now + ['"'] + (PayloadMiddle[1..] + data + PayloadTail);
    TakeUntilPrefix(now, '"', PayloadMiddle[1..] + data + PayloadTail);
    var start := |PayloadHead| + |now| + |PayloadMiddle|;
    assert p[start..|p| - |PayloadTail|] == data;
  }

  class MainView {
    const serial: SerialService

    var isRunning: bool
    var messageCount: int
    var sessionStartTime: Option<Timestamp>
    var stopTime: Option<Timestamp>
    var brokerConnected: bool
    var startEnabled: bool
    var connectEnabled: bool
    var portEnabled: bool
    var alerts: seq<string>

    function State(): Session
      reads this
    {
      Session(isRunning, messageCount, sessionStartTime, stopTime, brokerConnected,
              startEnabled, connectEnabled, portEnabled, alerts)
    }

    /** The view is consistent and its running flag is the reader's: while it
        runs, the port is open and the callback is set. */
    ghost predicate Valid()
      reads this, serial, serial.framer
    {
      serial.Valid() && Consistent(State())
      && isRunning == serial.reading
      && (isRunning ==> serial.portOpen && serial.hasCallback)
    }

    constructor ()
      ensures Valid() && fresh(serial)
      ensures State() == Initial()
    {
      serial := new SerialService();
      isRunning, messageCount := false, 0;
      sessionStartTime, stopTime := None, None;
      brokerConnected := false;
      startEnabled, connectEnabled, portEnabled := false, true, true;
      alerts := [];
    }

    /** The connect button's handler; the button fires only while enabled. */
    method HandleMqttConnect(brokerUrl: string, connect: Outcome)
      requires Valid() && connectEnabled
      modifies this
      ensures Valid()
      ensures State() == MqttConnect(old(State()), brokerUrl, connect)
    {
      if brokerConnected {
        brokerConnected := false;
        startEnabled := false;
      } else {
        if brokerUrl == [] {
          alerts := alerts + [BrokerRequiredError];
          return;
        }
        match connect
        case Done =>
          brokerConnected := true;
          startEnabled := true;
        case Failed(why) =>
          alerts := alerts + [ConnectFailure(why)];
      }
    }

    /** The broker client losing or regaining its link on its own (automatic
        reconnect); only what isConnected() reports changes. */
    method BrokerLinkChanged(up: bool)
      requires Valid()
      modifies this
      ensures Valid()
      ensures State() == old(State()).(broker := up)
    {
      brokerConnected := up;
    }

    /** updateSessionInfo: the stop label back to N/A. */
    method UpdateSessionInfo()
      modifies this
      ensures State() == old(State()).(stopTime := None)
    {
      stopTime := None;
    }

    /** The start/stop button's handler; the button fires only while enabled. */
    method HandleStartStop(port: Option<string>, opens: bool, now: Timestamp)
      requires Valid() && startEnabled
      modifies this, serial
      ensures Valid()
      ensures State() == StartStop(old(State()), port, opens, now)
      ensures old(isRunning) ==> !serial.portOpen && serial.framer == old(serial.framer)
      ensures !old(isRunning) && isRunning ==> fresh(serial.framer) && serial.framer.buffer == []
      ensures !(!old(isRunning) && isRunning) ==> serial.hasCallback == old(serial.hasCallback)
      ensures !old(isRunning) && port.None? ==>
        serial.portOpen == old(serial.portOpen) && serial.reading == old(serial.reading)
        && serial.framer == old(serial.framer) && serial.framer.buffer == old(serial.framer.buffer)
      ensures !old(isRunning) && port.Some? && !opens ==>
        !serial.portOpen && serial.framer == old(serial.framer)
    {
      if !isRunning {
        if port.None? {
          alerts := alerts + [SelectPortError];
          return;
        }
        var outcome := serial.Connect(port.value, opens);
        if outcome.Failed? {
          alerts := alerts + [StartFailure(outcome.reason)];
          return;
        }
        serial.SetDataCallback(true);
        sessionStartTime := Some(now);
        messageCount := 0;
        UpdateSessionInfo();
        isRunning := true;
        portEnabled := false;
        connectEnabled := false;
      } else {
        StopMonitoring(now);
      }
    }

    method StopMonitoring(now: Timestamp)
      requires Valid()
      modifies this, serial
      ensures Valid()
      ensures !serial.reading && !serial.portOpen
      ensures serial.framer == old(serial.framer) && serial.hasCallback == old(serial.hasCallback)
      ensures State() == Stop(old(State()), now)
    {
      serial.Disconnect();
      isRunning := false;
      portEnabled := true;
      connectEnabled := true;
      stopTime := Some(now);
    }

    /** The data callback, run on the UI thread for each framed message. */
    method HandleSerialData(data: string, now: Timestamp, topic: string, publish: Outcome)
      returns (display: string, result: PublishResult)
      requires Valid()
      modifies this
      ensures Valid()
      ensures var d := SerialData(old(State()), data, now, topic, publish);
        State() == d.next && display == d.display && result == d.publish
    {
      display := DisplayLine(now, data);
      messageCount := Inc32(messageCount);
      result := NotAttempted;
      if brokerConnected {
        var sent := Publication(topic, Payload(now, data));
        match publish
        case Done => result := Published(sent);
        case Failed(why) => result := PublishFailed(sent, why);
      }
    }

    method Shutdown(now: Timestamp)
      requires Valid()
      modifies this, serial
      ensures Valid()
      ensures State() == ShutdownSession(old(State()), now)
      ensures old(isRunning) ==> !serial.portOpen && !serial.reading
      ensures !old(isRunning) ==> serial.portOpen == old(serial.portOpen) && serial.reading == old(serial.reading)
      ensures serial.framer == old(serial.framer) && serial.hasCallback == old(serial.hasCallback)
    {
      if isRunning {
        StopMonitoring(now);
      }
      if brokerConnected {
        brokerConnected := false;
      }
    }
  }
}
