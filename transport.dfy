/**
 * The boundary to the MQTT transport client (paho-mqtt's `Client`). Its
 * internals are foreign: each operation the session uses is a method that
 * returns whatever result code and message id the client chooses
 * (nondeterministically) and records the call on a ghost trace. The session
 * also records on that trace every call it makes into a user-registered
 * handler, so the trace lists, in order, every call into the client and into
 * a user handler; the client's attributes and callback slots are fields
 * beside it.
 */
module Transport {
  import opened Values

  /** Result codes as paho-mqtt 1.x numbers them; only success is tested by the session. */
  const MQTT_ERR_AGAIN: int := -1
  const MQTT_ERR_SUCCESS: int := 0
  const MQTT_ERR_NOMEM: int := 1
  const MQTT_ERR_PROTOCOL: int := 2
  const MQTT_ERR_INVAL: int := 3
  const MQTT_ERR_NO_CONN: int := 4
  const MQTT_ERR_CONN_REFUSED: int := 5
  const MQTT_ERR_NOT_FOUND: int := 6
  const MQTT_ERR_CONN_LOST: int := 7
  const MQTT_ERR_TLS: int := 8
  const MQTT_ERR_PAYLOAD_SIZE: int := 9
  const MQTT_ERR_NOT_SUPPORTED: int := 10
  const MQTT_ERR_AUTH: int := 11
  const MQTT_ERR_ACL_DENIED: int := 12
  const MQTT_ERR_UNKNOWN: int := 13
  const MQTT_ERR_ERRNO: int := 14
  const MQTT_ERR_QUEUE_SIZE: int := 15

  /** Protocol versions as paho-mqtt numbers them. */
  const MQTTv31: int := 3
  const MQTTv311: int := 4

  /** The `(result, mid)` pair of subscribe, unsubscribe and publish; `mid` is None when not connected. */
  datatype Reply = Reply(result: int, mid: Option<int>)

  /** An opaque user callback; two handlers are the same iff their ids are. */
  datatype Handler = Handler(id: nat)

  /** What a client callback slot holds: one of the session's own bound methods or a user handler. */
  datatype Callback = SessionConnect | SessionDisconnect | User(handler: Handler)

  /** One observable step: a call into the client, or a call into a user handler. */
  datatype Event =
    | EnableLogger
    | WillSet(willTopic: Value, willMessage: Value, willQos: Value, willRetain: Value)
    | UsernamePwSet(username: Value, password: Value)
    | TlsSet(caCerts: Value, certfile: Value, keyfile: Value, certReqs: Value, tlsVersion: Value, ciphers: Value)
    | TlsInsecureSet(insecure: Value)
    | Connect(host: Value, port: Value, keepalive: Value)
    | ConnectAsync(host: Value, port: Value, keepalive: Value)
    | LoopStart
    | LoopStop
    | Disconnect
    | Subscribe(topic: string, qos: int, reply: Reply)
    | Unsubscribe(topic: string, reply: Reply)
    | Publish(topic: string, payload: Value, qos: int, retain: bool, reply: Reply)
    | MessageCallbackAdd(topic: string, handler: Handler)
    | ConnectHandlerCalled(handler: Handler, rc: int)
    | DisconnectHandlerCalled(handler: Handler)

  /** The kind of an event, forgetting its arguments. */
  datatype Kind =
    | KEnableLogger | KWillSet | KUsernamePwSet | KTlsSet | KTlsInsecureSet
    | KConnect | KConnectAsync | KLoopStart | KLoopStop | KDisconnect
    | KSubscribe | KUnsubscribe | KPublish | KMessageCallbackAdd
    | KConnectHandler | KDisconnectHandler

  function KindOf(e: Event): Kind
  {
    match e
    case EnableLogger => KEnableLogger
    case WillSet(_, _, _, _) => KWillSet
    case UsernamePwSet(_, _) => KUsernamePwSet
    case TlsSet(_, _, _, _, _, _) => KTlsSet
    case TlsInsecureSet(_) => KTlsInsecureSet
    case Connect(_, _, _) => KConnect
    case ConnectAsync(_, _, _) => KConnectAsync
    case LoopStart => KLoopStart
    case LoopStop => KLoopStop
    case Disconnect => KDisconnect
    case Subscribe(_, _, _) => KSubscribe
    case Unsubscribe(_, _) => KUnsubscribe
    case Publish(_, _, _, _, _) => KPublish
    case MessageCallbackAdd(_, _) => KMessageCallbackAdd
    case ConnectHandlerCalled(_, _) => KConnectHandler
    case DisconnectHandlerCalled(_) => KDisconnectHandler
  }

  /** How many events of kind `k` the trace holds. */
  function Count(s: seq<Event>, k: Kind): nat
  {
    if s == [] then 0 else Count(s[..|s| - 1], k) + (if KindOf(s[|s| - 1]) == k then 1 else 0)
  }

  lemma {:induction false} CountAppend(a: seq<Event>, b: seq<Event>, k: Kind)
    ensures Count(a + b, k) == Count(a, k) + Count(b, k)
  {
    if b != [] {
      assert (a + b)[..|a + b| - 1] == a + b[..|b| - 1];
      CountAppend(a, b[..|b| - 1], k);
    } else {
      assert a + b == a;
    }
  }

  /** The transport client: the attributes and callback slots the session sets, and the trace. */
  class Client {
    var clientId: Value
    var transport: Value
    var protocol: Value
    var cleanSession: Value
    var onConnect: Option<Callback>
    var onDisconnect: Option<Callback>
    var onMessage: Option<Handler>
    var onPublish: Option<Handler>
    var onSubscribe: Option<Handler>
    var onUnsubscribe: Option<Handler>
    var onLog: Option<Handler>
    var topicCallbacks: map<string, Handler>
    ghost var trace: seq<Event>

    constructor ()
      ensures trace == []
      ensures clientId == VBytes("") && cleanSession == VBool(true)
      ensures transport == VStr("tcp") && protocol == VInt(MQTTv311)
      ensures onConnect == None && onDisconnect == None && onMessage == None
      ensures onPublish == None && onSubscribe == None && onUnsubscribe == None && onLog == None
      ensures topicCallbacks == map[]
    {
      clientId := VBytes("");
      transport := VStr("tcp");
      protocol := VInt(MQTTv311);
      cleanSession := VBool(true);
      onConnect, onDisconnect := None, None;
      onMessage, onPublish, onSubscribe, onUnsubscribe, onLog := None, None, None, None, None;
      topicCallbacks := map[];
      trace := [];
    }

    method EnableLogger()
      modifies this`trace
      ensures trace == old(trace) + [Event.EnableLogger]
    {
      trace := trace + [Event.EnableLogger];
    }

    method WillSet(topic: Value, message: Value, qos: Value, retain: Value)
      modifies this`trace
      ensures trace == old(trace) + [Event.WillSet(topic, message, qos, retain)]
    {
      trace := trace + [Event.WillSet(topic, message, qos, retain)];
    }

    method UsernamePwSet(username: Value, password: Value)
      modifies this`trace
      ensures trace == old(trace) + [Event.UsernamePwSet(username, password)]
    {
      trace := trace + [Event.UsernamePwSet(username, password)];
    }

    method TlsSet(caCerts: Value, certfile: Value, keyfile: Value, certReqs: Value, tlsVersion: Value, ciphers: Value)
      modifies this`trace
      ensures trace == old(trace) + [Event.TlsSet(caCerts, certfile, keyfile, certReqs, tlsVersion, ciphers)]
    {
      trace := trace + [Event.TlsSet(caCerts, certfile, keyfile, certReqs, tlsVersion, ciphers)];
    }

    method TlsInsecureSet(insecure: Value)
      modifies this`trace
      ensures trace == old(trace) + [Event.TlsInsecureSet(insecure)]
    {
      trace := trace + [Event.TlsInsecureSet(insecure)];
    }

    /** A blocking connect; its result code is the client's choice. */
    method Connect(host: Value, port: Value, keepalive: Value) returns (rc: int)
      modifies this`trace
      ensures trace == old(trace) + [Event.Connect(host, port, keepalive)]
    {
      rc :| true;
      trace := trace + [Event.Connect(host, port, keepalive)];
    }

    method ConnectAsync(host: Value, port: Value, keepalive: Value)
      modifies this`trace
      ensures trace == old(trace) + [Event.ConnectAsync(host, port, keepalive)]
    {
      trace := trace + [Event.ConnectAsync(host, port, keepalive)];
    }

    method LoopStart()
      modifies this`trace
      ensures trace == old(trace) + [Event.LoopStart]
    {
      trace := trace + [Event.LoopStart];
    }

    method LoopStop()
      modifies this`trace
      ensures trace == old(trace) + [Event.LoopStop]
    {
      trace := trace + [Event.LoopStop];
    }

    method Disconnect() returns (rc: int)
      modifies this`trace
      ensures trace == old(trace) + [Event.Disconnect]
    {
      rc :| true;
      trace := trace + [Event.Disconnect];
    }

    method Subscribe(topic: string, qos: int) returns (r: Reply)
      modifies this`trace
      ensures trace == old(trace) + [Event.Subscribe(topic, qos, r)]
    {
      r :| true;
      trace := trace + [Event.Subscribe(topic, qos, r)];
    }

    method Unsubscribe(topic: string) returns (r: Reply)
      modifies this`trace
      ensures trace == old(trace) + [Event.Unsubscribe(topic, r)]
    {
      r :| true;
      trace := trace + [Event.Unsubscribe(topic, r)];
    }

    method Publish(topic: string, payload: Value, qos: int, retain: bool) returns (r: Reply)
      modifies this`trace
      ensures trace == old(trace) + [Event.Publish(topic, payload, qos, retain, r)]
    {
      r :| true;
      trace := trace + [Event.Publish(topic, payload, qos, retain, r)];
    }

    /** Installs a topic-specific message callback; a later one for the same topic replaces it. */
    method MessageCallbackAdd(topic: string, handler: Handler)
      modifies this`trace, this`topicCallbacks
      ensures trace == old(trace) + [Event.MessageCallbackAdd(topic, handler)]
      ensures topicCallbacks == old(topicCallbacks)[topic := handler]
    {
      topicCallbacks := topicCallbacks[topic := handler];
      trace := trace + [Event.MessageCallbackAdd(topic, handler)];
    }
  }
}
