/** `MQTTClient` (mqtt_stat/client/__init__.py): the callbacks and commands
    of the agent, with the paho client reduced to the log of what it was
    asked to do. The will is the CONNECT Will Message of section 3.1.2.5 of
    MQTT Version 3.1.1, and the retain flag that of section 3.3.1.3. */
module Client {
  import opened Wrappers
  import opened Json
  import opened NetworkCommon
  import Audio

  /** A request made of the paho client. Payloads are the JSON objects that
      `json.dumps` serialises. */
  datatype Effect =
    | WillRegistered(topic: string, payload: Object, qos: nat, retain: bool)
    | Published(topic: string, payload: Object, qos: nat, retain: bool)
    | Subscribed(topic: string)

  /** The paho client: an append-only log of requests. */
  class Paho {
    var log: seq<Effect>

    constructor ()
      ensures log == []
    {
      log := [];
    }
  }

  /** What `get_battery_info()` returned: the percentage and the plugged
      flag (which psutil may leave unknown), or the fallback string. */
  datatype Battery = Battery(percent: real, plugged: Option<bool>) | NoBattery

  /** An inbound payload: bytes `json.loads` cannot decode to text, text
      that is not JSON, or a decoded JSON value. */
  datatype Inbound = UndecodablePayload | NotJson | Decoded(value: Value)

  /** What a callback or command raised. */
  datatype ClientError =
    | TypeError
    | AttributeError
    | NameError
    | UnicodeDecodeError
    | NetworkError(raised: NameResult)

  datatype Command = GetStatusCommand | FindCommand

  /** The keyword arguments `start_alarm` is called with; the maximum is the
      default of `alarm`. */
  datatype AlarmRequest = AlarmRequest(interval: real, increment: real, start: real, max: real)

  const FindRequest: AlarmRequest := AlarmRequest(1.5, 0.05, 0.05, Audio.AlarmDefaultMax)

  const Offline: Object := map["status" := JStr("offline")]
  const Online: Object := map["status" := JStr("online")]

  /** The `commands` table of `execute_command`. */
  function LookupCommand(command: string): (r: Option<Command>)
    ensures r == Some(GetStatusCommand) <==> command == "get_status"
    ensures r == Some(FindCommand) <==> command == "find"
    ensures r == None <==> command != "get_status" && command != "find"
  {
    if command == "get_status" then Some(GetStatusCommand)
    else if command == "find" then Some(FindCommand)
    else None
  }

  /** The reply `get_status` builds. The battery is read first: indexing the
      fallback string raises `TypeError` before the network is asked. The
      network name is the SSID, `null` when the parser fell through, and an
      error the parser raised is raised here. */
  function StatusReply(battery: Battery, network: NameResult): (r: Result<Object, ClientError>)
    ensures r.Ok? <==> battery.Battery? && (network.Name? || network.NoName?)
    ensures battery.NoBattery? ==> r == Err(TypeError)
    ensures battery.Battery? && !(network.Name? || network.NoName?) ==> r == Err(NetworkError(network))
    ensures r.Ok? ==>
      && r.value.Keys == {"status", "network_ssid", "battery_level", "battery_charging"}
      && r.value["status"] == JStr("responded")
      && r.value["network_ssid"] == (if network.Name? then JStr(network.ssid) else JNull)
      && r.value["battery_level"] == JNum(battery.percent)
      && r.value["battery_charging"] == (if battery.plugged.Some? then JBool(battery.plugged.value) else JNull)
  {
    if battery.NoBattery? then Err(TypeError)
    else if !(network.Name? || network.NoName?) then Err(NetworkError(network))
    else
      Ok(map[
        "status" := JStr("responded"),
        "network_ssid" := (if network.Name? then JStr(network.ssid) else JNull),
        "battery_level" := JNum(battery.percent),
        "battery_charging" := (if battery.plugged.Some? then JBool(battery.plugged.value) else JNull)
      ])
  }

  /** The log a client keeps: the will first and only there, and the only
      retained publication the birth message on the birth topic. */
  predicate LogInvariant(log: seq<Effect>, lwtTopic: string, birthTopic: string)
  {
    && |log| >= 1
    && log[0] == WillRegistered(lwtTopic, Offline, 1, true)
    && (forall i :: 1 <= i < |log| ==> !log[i].WillRegistered?)
    && (forall i :: 1 <= i < |log| && log[i].Published? && log[i].retain ==>
          log[i].topic == birthTopic && log[i].payload == Online)
  }

  /** Appending requests that are neither wills nor other retained messages
      keeps the invariant; a will or a retained reply breaks it. */
  lemma {:induction false} AppendKeepsInvariant(log: seq<Effect>, more: seq<Effect>, lwtTopic: string, birthTopic: string)
    requires LogInvariant(log, lwtTopic, birthTopic)
    ensures LogInvariant(log + more, lwtTopic, birthTopic) <==>
      forall j :: 0 <= j < |more| ==>
        !more[j].WillRegistered? && (more[j].Published? && more[j].retain ==> more[j].topic == birthTopic && more[j].payload == Online)
  {
    var all := log + more;
    if LogInvariant(all, lwtTopic, birthTopic) {
      forall j | 0 <= j < |more|
        ensures !more[j].WillRegistered?
        ensures more[j].Published? && more[j].retain ==> more[j].topic == birthTopic && more[j].payload == Online
      {
        assert all[|log| + j] == more[j];
      }
    } else {
      assert all[0] == log[0];
      var i :| 1 <= i < |all| && (all[i].WillRegistered? || (all[i].Published? && all[i].retain && !(all[i].topic == birthTopic && all[i].payload == Online)));
      assert i >= |log|;
      assert all[i] == more[i - |log|];
    }
  }

  class MqttClient {
    const broker: string
    const port: int
    const listenTopic: string
    const replyTopic: string
    const birthTopic: string
    const lwtTopic: string
    const paho: Paho
    /** The alarms `start_alarm` was asked to run, in order. */
    var alarms: seq<AlarmRequest>

    ghost predicate Valid()
      reads this, paho
    {
      LogInvariant(paho.log, lwtTopic, birthTopic)
    }

    /** `MQTTClient(...)`: stores the settings, makes the paho client and
        registers exactly one will, `{"status": "offline"}` on the LWT topic
        with QoS 1 and retained; nothing is published or subscribed. */
    constructor (broker: string, port: int, listenTopic: string, replyTopic: string, birthTopic: string, lwtTopic: string)
      ensures this.broker == broker && this.port == port
      ensures this.listenTopic == listenTopic && this.replyTopic == replyTopic
      ensures this.birthTopic == birthTopic && this.lwtTopic == lwtTopic
      ensures fresh(paho) && paho.log == [WillRegistered(lwtTopic, Offline, 1, true)]
      ensures alarms == []
      ensures Valid()
    {
      this.broker := broker;
      this.port := port;
      this.listenTopic := listenTopic;
      this.replyTopic := replyTopic;
      this.birthTopic := birthTopic;
      this.lwtTopic := lwtTopic;
      var client := new Paho();
      client.log := client.log + [WillRegistered(lwtTopic, Offline, 1, true)];
      paho := client;
      alarms := [];
    }

    /** `publish(data)`: one message on the reply topic, QoS 1, not retained. */
    method Publish(data: Object)
      requires Valid()
      modifies paho
      ensures paho.log == old(paho.log) + [Published(replyTopic, data, 1, false)]
      ensures Valid()
    {
      AppendKeepsInvariant(paho.log, [Published(replyTopic, data, 1, false)], lwtTopic, birthTopic);
      paho.log := paho.log + [Published(replyTopic, data, 1, false)];
    }

    /** `get_status()`: publishes the status reply, or raises and publishes nothing. */
    method GetStatus(battery: Battery, network: NameResult) returns (r: Outcome<ClientError>)
      requires Valid()
      modifies paho
      ensures r.Pass? <==> StatusReply(battery, network).Ok?
      ensures r.Pass? ==> paho.log == old(paho.log) + [Published(replyTopic, StatusReply(battery, network).value, 1, false)]
      ensures r.Fail? ==> r.error == StatusReply(battery, network).error && paho.log == old(paho.log)
      ensures Valid()
    {
      var reply := StatusReply(battery, network);
      if reply.Err? {
        return Fail(reply.error);
      }
      Publish(reply.value);
      r := Pass;
    }

    /** `find_service()`: asks for an alarm at 1.5 s intervals ramping by
        0.05 from 0.05 up to the default maximum. */
    method FindService()
      modifies this`alarms
      ensures alarms == old(alarms) + [FindRequest]
    {
      alarms := alarms + [FindRequest];
    }

    /** `execute_command(command, data)`: runs the handler the table names;
        `data` becomes keyword arguments, which neither handler takes, so
        any non-empty `data` raises `TypeError`; an unknown command only
        prints. */
    method ExecuteCommand(command: string, data: Object, battery: Battery, network: NameResult)
      returns (r: Outcome<ClientError>)
      requires Valid()
      modifies paho, this`alarms
      ensures Valid()
      ensures LookupCommand(command) == None ==> r.Pass? && paho.log == old(paho.log) && alarms == old(alarms)
      ensures LookupCommand(command).Some? && data != map[] ==>
        r == Fail(TypeError) && paho.log == old(paho.log) && alarms == old(alarms)
      ensures command == "find" && data == map[] ==>
        r.Pass? && paho.log == old(paho.log) && alarms == old(alarms) + [FindRequest]
      ensures command == "get_status" && data == map[] ==>
        && alarms == old(alarms)
        && (r.Pass? <==> StatusReply(battery, network).Ok?)
        && (r.Pass? ==> paho.log == old(paho.log) + [Published(replyTopic, StatusReply(battery, network).value, 1, false)])
        && (r.Fail? ==> paho.log == old(paho.log))
    {
      var handler := LookupCommand(command);
      if handler.None? {
        return Pass;
      }
      if data != map[] {
        return Fail(TypeError);
      }
      match handler.value
      case GetStatusCommand =>
        r := GetStatus(battery, network);
      case FindCommand =>
        FindService();
        r := Pass;
    }

    /** `on_connect(..., rc)`: on success (`rc == 0`) publishes the retained
        birth message `{"status": "online"}` with QoS 1, then subscribes to
        the listen topic; on any other code it does nothing. */
    method OnConnect(rc: int)
      requires Valid()
      modifies paho
      ensures rc == 0 ==> paho.log == old(paho.log) + [Published(birthTopic, Online, 1, true), Subscribed(listenTopic)]
      ensures rc != 0 ==> paho.log == old(paho.log)
      ensures Valid()
    {
      if rc == 0 {
        var birth := [Published(birthTopic, Online, 1, true), Subscribed(listenTopic)];
        AppendKeepsInvariant(paho.log, birth, lwtTopic, birthTopic);
        paho.log := paho.log + birth;
      }
    }

    /** `on_message(...)`: a payload whose bytes `json.loads` cannot decode
        to text raises `UnicodeDecodeError`, which the handler for `JSONDecodeError` does
        not catch; a payload that is not JSON is dropped. A decoded
        value that is not an object has no `.get` and raises
        `AttributeError`; status "needed" calls a handler the class does not
        define (`AttributeError`) and status "alert" calls the unimported
        `chime` (`NameError`) before its reply. Either way nothing is
        published and no command runs, so the method touches no state. */
    method OnMessage(msg: Inbound) returns (r: Outcome<ClientError>)
      ensures msg.UndecodablePayload? ==> r == Fail(ClientError.UnicodeDecodeError)
      ensures msg.NotJson? ==> r.Pass?
      ensures msg.Decoded? && !msg.value.JObject? ==> r == Fail(AttributeError)
      ensures msg.Decoded? && msg.value.JObject? ==>
        var fields := msg.value.fields;
        && ("status" in fields && fields["status"] == JStr("needed") ==> r == Fail(AttributeError))
        && ("status" in fields && fields["status"] == JStr("alert") ==> r == Fail(NameError))
        && (r.Pass? <==> !("status" in fields && fields["status"] in {JStr("needed"), JStr("alert")}))
    {
      if msg.UndecodablePayload? {
        return Fail(ClientError.UnicodeDecodeError);
      }
      if msg.NotJson? {
        return Pass;
      }
      if !msg.value.JObject? {
        return Fail(AttributeError);
      }
      var status := if "status" in msg.value.fields then Some(msg.value.fields["status"]) else None;
      if status == Some(JStr("needed")) {
        r := Fail(AttributeError);
      } else if status == Some(JStr("alert")) {
        r := Fail(NameError);
      } else {
        r := Pass;
      }
    }
  }

  /** A session from construction: a refused connection, an accepted one,
      a status request and an unknown command leave, in order, the will,
      the birth message, the subscription and the reply. */
  method Session(listen: string, reply: string, birth: string, lwt: string, battery: Battery, ssid: string)
    returns (log: seq<Effect>)
    requires battery.Battery?
    ensures |log| == 4
    ensures log[0] == WillRegistered(lwt, Offline, 1, true)
    ensures log[1] == Published(birth, Online, 1, true) && log[2] == Subscribed(listen)
    ensures log[3] == Published(reply, StatusReply(battery, Name(ssid)).value, 1, false)
  {
    var c := new MqttClient("broker", 1883, listen, reply, birth, lwt);
    c.OnConnect(5);
    c.OnConnect(0);
    var status := c.ExecuteCommand("get_status", map[], battery, Name(ssid));
    var ignored := c.ExecuteCommand("reboot", map[], battery, Name(ssid));
    var dropped := c.OnMessage(NotJson);
    log := c.paho.log;
  }
}
