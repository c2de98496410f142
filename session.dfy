/**
 * The session manager, class `Mqtt`: its configuration, the subscription
 * registry, the connection flag and the handler slots, with the operations
 * that change them. Callbacks the transport would deliver from its network
 * thread (`HandleConnect`, `HandleDisconnect`) are ordinary method calls
 * here.
 */
module Session {
  import opened Values
  import opened Transport
  import opened Registry
  import opened Config

  /** The credentials request of `_connect`, made only when a username is set. */
  function CredentialCalls(s: Settings): (r: seq<Event>)
    ensures |r| == (if s.username != VNone then 1 else 0)
    ensures r != [] ==> r[0] == Event.UsernamePwSet(s.username, s.password)
  {
    if s.username != VNone then [Event.UsernamePwSet(s.username, s.password)] else []
  }

  /** The TLS requests of `_connect`, made only when TLS is enabled; the insecure flag only when it is truthy. */
  function SecurityCalls(s: Settings): (r: seq<Event>)
    ensures |r| == (if Truthy(s.tlsEnabled) then (if Truthy(s.tlsInsecure) then 2 else 1) else 0)
    ensures r != [] ==> r[0] == Event.TlsSet(s.tlsCaCerts, s.tlsCertfile, s.tlsKeyfile, s.tlsCertReqs, s.tlsVersion, s.tlsCiphers)
    ensures |r| == 2 ==> r[1] == Event.TlsInsecureSet(s.tlsInsecure)
  {
    if Truthy(s.tlsEnabled) then
      [Event.TlsSet(s.tlsCaCerts, s.tlsCertfile, s.tlsKeyfile, s.tlsCertReqs, s.tlsVersion, s.tlsCiphers)]
      + (if Truthy(s.tlsInsecure) then [Event.TlsInsecureSet(s.tlsInsecure)] else [])
    else []
  }

  /** The one connect request of `_connect`. */
  function RequestCall(s: Settings, connectAsync: bool): (r: Event)
    ensures KindOf(r) == (if connectAsync then KConnectAsync else KConnect)
    ensures (r.Connect? || r.ConnectAsync?) && r.host == s.brokerUrl && r.port == s.brokerPort && r.keepalive == s.keepalive
  {
    if connectAsync then Event.ConnectAsync(s.brokerUrl, s.brokerPort, s.keepalive)
    else Event.Connect(s.brokerUrl, s.brokerPort, s.keepalive)
  }

  /** The requests `_connect` makes on the client, in order. */
  function ConnectCalls(s: Settings, connectAsync: bool): (r: seq<Event>)
    ensures |r| == |CredentialCalls(s)| + |SecurityCalls(s)| + 2
    ensures r[|r| - 2] == RequestCall(s, connectAsync) && r[|r| - 1] == Event.LoopStart
  {
    CredentialCalls(s) + SecurityCalls(s) + [RequestCall(s, connectAsync)] + [Event.LoopStart]
  }

  /**
   * `_connect` ends with exactly one network-loop start, right after exactly
   * one connect request, `connect_async` when asked for and `connect`
   * otherwise, carrying the broker address, port and keep-alive.
   */
  lemma ConnectCallsEndWithOneRequest(s: Settings, connectAsync: bool)
    ensures var r := ConnectCalls(s, connectAsync);
      && |r| >= 2 && r[|r| - 1] == Event.LoopStart && Count(r, KLoopStart) == 1
      && r[|r| - 2] == (if connectAsync then Event.ConnectAsync(s.brokerUrl, s.brokerPort, s.keepalive)
                        else Event.Connect(s.brokerUrl, s.brokerPort, s.keepalive))
      && Count(r, KConnect) == (if connectAsync then 0 else 1)
      && Count(r, KConnectAsync) == (if connectAsync then 1 else 0)
  {
    ConnectCallsCounts(s, connectAsync);
  }

  /**
   * Credentials are set iff a username is configured, and then first; the TLS
   * material is set iff TLS is enabled; the insecure flag is set iff TLS is
   * enabled and the flag is truthy.
   */
  lemma ConnectCallsConfigureOnlyWhenAsked(s: Settings, connectAsync: bool)
    ensures var r := ConnectCalls(s, connectAsync);
      && Count(r, KUsernamePwSet) == (if s.username != VNone then 1 else 0)
      && (s.username != VNone ==> r[0] == Event.UsernamePwSet(s.username, s.password))
      && Count(r, KTlsSet) == (if Truthy(s.tlsEnabled) then 1 else 0)
      && Count(r, KTlsInsecureSet) == (if Truthy(s.tlsEnabled) && Truthy(s.tlsInsecure) then 1 else 0)
  {
    ConnectCallsCounts(s, connectAsync);
  }

  /**
   * `test_mqtt_config_values` at the client: with the test's configuration
   * and a blocking connect, `_connect` calls `username_pw_set` exactly once,
   * with the configured credentials, then `tls_set` with the configured TLS
   * material, `tls_insecure_set`, `connect` and `loop_start`.
   */
  lemma ConfigValuesConnect(config: AppConfig)
    requires HoldsConfigValuesTest(config)
    ensures var r := ConnectCalls(Resolve(Defaults(), config), false);
      && r == [
        Event.UsernamePwSet(VStr("username"), VStr("password")),
        Event.TlsSet(VStr("tls_ca_certs"), VStr("tls_certfile"), VStr("tls_keyfile"),
                     VStr("tls_cert_reqs"), VStr("tls_version"), VStr("tls_ciphers")),
        Event.TlsInsecureSet(VStr("tls_insecure")),
        Event.Connect(VStr("broker_url"), VStr("broker_port"), VStr("keepalive")),
        Event.LoopStart]
      && Count(r, KUsernamePwSet) == 1 && Count(r, KTlsSet) == 1
  {
    ConfigValuesReadThrough(config);
    ConfigValuesCalls(Resolve(Defaults(), config));
  }

  /** The client requests `_connect` makes from the settings `test_mqtt_config_values` configures. */
  lemma ConfigValuesCalls(s: Settings)
    requires s.username == VStr("username") && s.password == VStr("password")
    requires s.brokerUrl == VStr("broker_url") && s.brokerPort == VStr("broker_port")
    requires s.keepalive == VStr("keepalive") && s.tlsEnabled == VStr("tls_enabled")
    requires s.tlsCaCerts == VStr("tls_ca_certs") && s.tlsCertfile == VStr("tls_certfile")
    requires s.tlsKeyfile == VStr("tls_keyfile") && s.tlsCertReqs == VStr("tls_cert_reqs")
    requires s.tlsVersion == VStr("tls_version") && s.tlsCiphers == VStr("tls_ciphers")
    requires s.tlsInsecure == VStr("tls_insecure")
    ensures var r := ConnectCalls(s, false);
      && r == [
        Event.UsernamePwSet(VStr("username"), VStr("password")),
        Event.TlsSet(VStr("tls_ca_certs"), VStr("tls_certfile"), VStr("tls_keyfile"),
                     VStr("tls_cert_reqs"), VStr("tls_version"), VStr("tls_ciphers")),
        Event.TlsInsecureSet(VStr("tls_insecure")),
        Event.Connect(VStr("broker_url"), VStr("broker_port"), VStr("keepalive")),
        Event.LoopStart]
      && Count(r, KUsernamePwSet) == 1 && Count(r, KTlsSet) == 1
  {
    ConnectCallsCounts(s, false);
  }

  /** The insecure flag is only ever set after the TLS material, and all configuration precedes the connect request. */
  lemma ConnectCallsOrder(s: Settings, connectAsync: bool)
    ensures var r := ConnectCalls(s, connectAsync);
      && (forall i, j :: 0 <= i < |r| && 0 <= j < |r| && r[i].TlsSet? && r[j].TlsInsecureSet? ==> i < j)
      && (forall i :: 0 <= i < |r| - 2 ==> KindOf(r[i]) in {KUsernamePwSet, KTlsSet, KTlsInsecureSet})
  {
  }

  /** How often each kind of request occurs in `_connect`'s requests. */
  lemma ConnectCallsCounts(s: Settings, connectAsync: bool)
    ensures var r := ConnectCalls(s, connectAsync);
      && Count(r, KLoopStart) == 1
      && Count(r, KConnect) == (if connectAsync then 0 else 1)
      && Count(r, KConnectAsync) == (if connectAsync then 1 else 0)
      && Count(r, KUsernamePwSet) == (if s.username != VNone then 1 else 0)
      && Count(r, KTlsSet) == (if Truthy(s.tlsEnabled) then 1 else 0)
      && Count(r, KTlsInsecureSet) == (if Truthy(s.tlsEnabled) && Truthy(s.tlsInsecure) then 1 else 0)
  {
    ConnectCallsCount(s, connectAsync, KLoopStart);
    ConnectCallsCount(s, connectAsync, KConnect);
    ConnectCallsCount(s, connectAsync, KConnectAsync);
    ConnectCallsCount(s, connectAsync, KUsernamePwSet);
    ConnectCallsCount(s, connectAsync, KTlsSet);
    ConnectCallsCount(s, connectAsync, KTlsInsecureSet);
  }

  /** The requests of one kind in `_connect`: the conditional credentials and TLS requests, the connect request and the loop start. */
  lemma ConnectCallsCount(s: Settings, connectAsync: bool, k: Kind)
    ensures Count(ConnectCalls(s, connectAsync), k) ==
      (if s.username != VNone && k == KUsernamePwSet then 1 else 0)
      + (if Truthy(s.tlsEnabled) && k == KTlsSet then 1 else 0)
      + (if Truthy(s.tlsEnabled) && Truthy(s.tlsInsecure) && k == KTlsInsecureSet then 1 else 0)
      + (if k == (if connectAsync then KConnectAsync else KConnect) then 1 else 0)
      + (if k == KLoopStart then 1 else 0)
  {
    ConnectCallsSplit(s, connectAsync, k);
    CredentialCount(s, k);
    SecurityCount(s, k);
  }

  /** Counting over the four parts of `_connect`'s requests. */
  lemma ConnectCallsSplit(s: Settings, connectAsync: bool, k: Kind)
    ensures Count(ConnectCalls(s, connectAsync), k) ==
      Count(CredentialCalls(s), k) + Count(SecurityCalls(s), k)
      + (if k == (if connectAsync then KConnectAsync else KConnect) then 1 else 0)
      + (if k == KLoopStart then 1 else 0)
  {
    var request := RequestCall(s, connectAsync);
    CountFour(CredentialCalls(s), SecurityCalls(s), [request], [Event.LoopStart], k);
    RequestCount(s, connectAsync, k);
    CountOne(Event.LoopStart, k);
  }

  lemma RequestCount(s: Settings, connectAsync: bool, k: Kind)
    ensures Count([RequestCall(s, connectAsync)], k) == if k == (if connectAsync then KConnectAsync else KConnect) then 1 else 0
  {
    CountOne(RequestCall(s, connectAsync), k);
  }

  lemma CountFour(a: seq<Event>, b: seq<Event>, c: seq<Event>, d: seq<Event>, k: Kind)
    ensures Count(a + b + c + d, k) == Count(a, k) + Count(b, k) + Count(c, k) + Count(d, k)
  {
    CountAppend(a, b, k);
    CountAppend(a + b, c, k);
    CountAppend(a + b + c, d, k);
  }

  lemma CredentialCount(s: Settings, k: Kind)
    ensures Count(CredentialCalls(s), k) == if s.username != VNone && k == KUsernamePwSet then 1 else 0
  {
    if s.username != VNone {
      CountOne(Event.UsernamePwSet(s.username, s.password), k);
    }
  }

  lemma SecurityCount(s: Settings, k: Kind)
    ensures Count(SecurityCalls(s), k) ==
      (if Truthy(s.tlsEnabled) && k == KTlsSet then 1 else 0)
      + (if Truthy(s.tlsEnabled) && Truthy(s.tlsInsecure) && k == KTlsInsecureSet then 1 else 0)
  {
    if Truthy(s.tlsEnabled) {
      var tlsSet := Event.TlsSet(s.tlsCaCerts, s.tlsCertfile, s.tlsKeyfile, s.tlsCertReqs, s.tlsVersion, s.tlsCiphers);
      var insecure: seq<Event> := if Truthy(s.tlsInsecure) then [Event.TlsInsecureSet(s.tlsInsecure)] else [];
      CountOne(tlsSet, k);
      if Truthy(s.tlsInsecure) {
        CountOne(Event.TlsInsecureSet(s.tlsInsecure), k);
      }
      CountAppend([tlsSet], insecure, k);
    }
  }

  lemma AppendAssoc<T>(a: seq<T>, b: seq<T>, c: seq<T>)
    ensures a + (b + c) == (a + b) + c
  {
  }

  lemma CountOne(e: Event, k: Kind)
    ensures Count([e], k) == if KindOf(e) == k then 1 else 0
  {
    assert [e][..0] == [];
  }

  /** The last-will request `init_app` makes when a last-will topic is set. */
  function WillCalls(s: Settings): (r: seq<Event>)
    ensures |r| == (if s.lastWillTopic != VNone then 1 else 0)
    ensures r != [] ==> r[0] == Event.WillSet(s.lastWillTopic, s.lastWillMessage, s.lastWillQos, s.lastWillRetain)
  {
    if s.lastWillTopic != VNone then [Event.WillSet(s.lastWillTopic, s.lastWillMessage, s.lastWillQos, s.lastWillRetain)] else []
  }

  /** The call into the user's connect handler, when one is registered. */
  function ConnectHandlerCalls(h: Option<Handler>, rc: int): (r: seq<Event>)
    ensures |r| == (if h.Some? then 1 else 0)
    ensures h.Some? ==> r[0] == Event.ConnectHandlerCalled(h.value, rc)
  {
    if h.Some? then [Event.ConnectHandlerCalled(h.value, rc)] else []
  }

  /** The call into the user's disconnect handler, when one is registered. */
  function DisconnectHandlerCalls(h: Option<Handler>): (r: seq<Event>)
    ensures |r| == (if h.Some? then 1 else 0)
    ensures h.Some? ==> r[0] == Event.DisconnectHandlerCalled(h.value)
  {
    if h.Some? then [Event.DisconnectHandlerCalled(h.value)] else []
  }

  /**
   * The initialisation-order quirk on a concrete application: `MQTT_CLIENT_ID`
   * and `MQTT_CLEAN_SESSION` reach the session's settings, but the client
   * keeps the defaults it was given before they were read.
   */
  method InitOrderQuirk() returns (m: Mqtt)
    ensures m.settings.clientId == VStr("flask") && m.settings.cleanSession == VBool(false)
    ensures m.client.clientId == VBytes("") && m.client.cleanSession == VBool(true)
  {
    var config := map["MQTT_CLIENT_ID" := VStr("flask"), "MQTT_CLEAN_SESSION" := VBool(false)];
    assert TransportKind(config) == Some(VStr("tcp"));
    ResolvePlainKeys(Defaults(), config, "MQTT_CLIENT_ID");
    ResolvePlainKeys(Defaults(), config, "MQTT_CLEAN_SESSION");
    m := new Mqtt(Some(config), false, false);
  }

  /**
   * A `bytes` transport name is lowered like a string one (`b"TCP".lower()`
   * is `b"tcp"`), so `init_app` goes on to read the settings, set the last
   * will and run `_connect`, whose requests end with `loop_start`.
   */
  method BytesTransportConnects(config: AppConfig, name: string) returns (m: Mqtt)
    requires "MQTT_TRANSPORT" in config && config["MQTT_TRANSPORT"] == VBytes(name)
    ensures m.client.transport == VBytes(Lower(name))
    ensures m.client.onConnect == Some(SessionConnect) && m.client.onDisconnect == Some(SessionDisconnect)
    ensures m.settings == Resolve(Defaults(), config)
    ensures m.client.trace == WillCalls(m.settings) + ConnectCalls(m.settings, false)
  {
    m := new Mqtt(None, false, false);
    var ok := m.InitApp(config);
    assert [] + WillCalls(m.settings) == WillCalls(m.settings);
  }

  /**
   * Registering two connect handlers and then receiving a connect event: only
   * the second handler runs, once, after any resubscribe requests.
   */
  method LastConnectHandlerWins(m: Mqtt, first: Handler, second: Handler, rc: int)
    requires m.Valid()
    modifies m`connectHandler, m`connected, m.client`trace
    ensures |m.client.trace| > |old(m.client.trace)|
    ensures m.client.trace[|m.client.trace| - 1] == Event.ConnectHandlerCalled(second, rc)
    ensures forall i :: |old(m.client.trace)| <= i < |m.client.trace| - 1 ==> m.client.trace[i].Subscribe?
  {
    var _ := m.OnConnect(first);
    var _ := m.OnConnect(second);
    m.HandleConnect(rc);
  }

  /** Likewise for disconnect handlers: only the last one registered runs. */
  method LastDisconnectHandlerWins(m: Mqtt, first: Handler, second: Handler, rc: int)
    modifies m`disconnectHandler, m`connected, m.client`trace
    ensures !m.connected
    ensures m.client.trace == old(m.client.trace) + [Event.DisconnectHandlerCalled(second)]
  {
    var _ := m.OnDisconnect(first);
    var _ := m.OnDisconnect(second);
    m.HandleDisconnect(rc);
  }

  /**
   * A disconnect keeps the registry, so the next successful connect event
   * resubscribes every topic registered before the disconnect.
   */
  method ReconnectResubscribes(m: Mqtt, rc: int)
    requires m.Valid()
    modifies m`connected, m.client`trace
    ensures m.connected && m.topics == old(m.topics)
    ensures var start := |old(m.client.trace)| + |DisconnectHandlerCalls(m.disconnectHandler)|;
      && start + |m.topics.keys| <= |m.client.trace|
      && ResubscribesOf(m.client.trace[start..start + |m.topics.keys|], old(m.topics))
  {
    m.HandleDisconnect(rc);
    m.HandleConnect(MQTT_ERR_SUCCESS);
  }

  class Mqtt {
    const client: Client
    const app: Option<AppConfig>
    const connectAsync: bool
    var connectHandler: Option<Handler>
    var disconnectHandler: Option<Handler>
    var connected: bool
    var topics: Topics
    var settings: Settings

    ghost predicate Valid()
      reads this
    {
      topics.Valid()
    }

    /** `Mqtt(app, connect_async, mqtt_logging)`: defaults, a fresh client, then `init_app` if an app is given. */
    constructor (app: Option<AppConfig>, connectAsync: bool, mqttLogging: bool)
      ensures Valid() && fresh(client)
      ensures this.app == app && this.connectAsync == connectAsync
      ensures connectHandler == None && disconnectHandler == None
      ensures !connected && topics == Empty
      ensures client.onMessage == None && client.topicCallbacks == map[]
      ensures client.onPublish == None && client.onSubscribe == None && client.onUnsubscribe == None && client.onLog == None
      ensures client.clientId == VBytes("") && client.cleanSession == VBool(true)
      ensures app.None? || TransportKind(app.value).None? ==>
        && settings == Defaults()
        && client.trace == (if mqttLogging then [Event.EnableLogger] else [])
        && client.transport == VStr("tcp") && client.protocol == VInt(MQTTv311)
        && client.onConnect == None && client.onDisconnect == None
      ensures app.Some? && TransportKind(app.value).Some? ==>
        && settings == Resolve(Defaults(), app.value)
        && client.trace == (if mqttLogging then [Event.EnableLogger] else []) + WillCalls(settings) + ConnectCalls(settings, connectAsync)
        && client.transport == TransportKind(app.value).value
        && client.protocol == Get(app.value, "MQTT_PROTOCOL_VERSION", VInt(MQTTv311))
        && client.onConnect == Some(SessionConnect) && client.onDisconnect == Some(SessionDisconnect)
    {
      this.connectAsync := connectAsync;
      connectHandler := None;
      disconnectHandler := None;
      this.app := app;
      client := new Client();
      connected := false;
      topics := Empty;
      settings := Defaults();
      new;
      Start(app, mqttLogging);
    }

    /** The part of `__init__` after the attributes are set: the optional logger, then `init_app`. */
    method Start(app: Option<AppConfig>, mqttLogging: bool)
      requires Valid() && settings == Defaults() && client.trace == []
      requires client.clientId == VBytes("") && client.cleanSession == VBool(true)
      requires client.transport == VStr("tcp") && client.protocol == VInt(MQTTv311)
      requires client.onConnect == None && client.onDisconnect == None
      modifies this`settings, client`clientId, client`transport, client`protocol, client`cleanSession
      modifies client`onConnect, client`onDisconnect, client`trace
      ensures Valid()
      ensures unchanged(
        this`connectHandler, this`disconnectHandler, this`connected, this`topics, client`onMessage,
        client`onPublish, client`onSubscribe, client`onUnsubscribe, client`onLog,
        client`topicCallbacks)
      ensures client.clientId == VBytes("") && client.cleanSession == VBool(true)
      ensures app.None? || TransportKind(app.value).None? ==>
        && settings == Defaults()
        && client.trace == (if mqttLogging then [Event.EnableLogger] else [])
        && client.transport == VStr("tcp") && client.protocol == VInt(MQTTv311)
        && client.onConnect == None && client.onDisconnect == None
      ensures app.Some? && TransportKind(app.value).Some? ==>
        && settings == Resolve(Defaults(), app.value)
        && client.trace == (if mqttLogging then [Event.EnableLogger] else []) + WillCalls(settings) + ConnectCalls(settings, connectAsync)
        && client.transport == TransportKind(app.value).value
        && client.protocol == Get(app.value, "MQTT_PROTOCOL_VERSION", VInt(MQTTv311))
        && client.onConnect == Some(SessionConnect) && client.onDisconnect == Some(SessionDisconnect)
    {
      if mqttLogging {
        client.EnableLogger();
      }
      ghost var logged := client.trace;
      assert logged == (if mqttLogging then [Event.EnableLogger] else []);
      if app.Some? {
        var ok := InitApp(app.value);
        if ok {
          assert client.trace == logged + WillCalls(settings) + ConnectCalls(settings, connectAsync);
        }
      }
    }

    /**
     * `init_app`: the client gets the client id and clean-session flag the
     * session had BEFORE the configuration is read, its transport name and
     * protocol, and the session's connect and disconnect callbacks; then
     * every setting is resolved, the last will is set and `_connect` runs.
     * An `MQTT_TRANSPORT` that is neither `str` nor `bytes` makes `.lower()` raise: `ok` is false and
     * only the client id has been copied.
     */
    method InitApp(config: AppConfig) returns (ok: bool)
      requires Valid()
      modifies this`settings, client`clientId, client`transport, client`protocol, client`cleanSession
      modifies client`onConnect, client`onDisconnect, client`trace
      ensures Valid()
      ensures unchanged(
        this`connectHandler, this`disconnectHandler, this`connected, this`topics, client`onMessage,
        client`onPublish, client`onSubscribe, client`onUnsubscribe, client`onLog,
        client`topicCallbacks)
      ensures ok <==> TransportKind(config).Some?
      ensures client.clientId == EncodeText(old(settings.clientId))
      ensures !ok ==> settings == old(settings) && client.trace == old(client.trace)
      ensures !ok ==> client.transport == old(client.transport) && client.protocol == old(client.protocol)
      ensures !ok ==> client.cleanSession == old(client.cleanSession)
      ensures !ok ==> client.onConnect == old(client.onConnect) && client.onDisconnect == old(client.onDisconnect)
      ensures ok ==> client.transport == TransportKind(config).value
      ensures ok ==> client.protocol == Get(config, "MQTT_PROTOCOL_VERSION", VInt(MQTTv311))
      ensures ok ==> client.cleanSession == old(settings.cleanSession)
      ensures ok ==> client.onConnect == Some(SessionConnect) && client.onDisconnect == Some(SessionDisconnect)
      ensures ok ==> settings == Resolve(old(settings), config)
      ensures ok ==> client.trace == old(client.trace) + WillCalls(settings) + ConnectCalls(settings, connectAsync)
    {
      ok := ConfigureClient(config);
      if ok {
        ApplyConfig(config);
      }
    }

    /** The rest of `init_app` once the client attributes are set: read the settings, set the last will, connect. */
    method ApplyConfig(config: AppConfig)
      requires Valid()
      modifies this`settings, client`trace
      ensures unchanged(
        this`connectHandler, this`disconnectHandler, this`connected, this`topics, client`clientId,
        client`transport, client`protocol, client`cleanSession, client`onConnect,
        client`onDisconnect, client`onMessage, client`onPublish, client`onSubscribe,
        client`onUnsubscribe, client`onLog, client`topicCallbacks)
      ensures settings == Resolve(old(settings), config)
      ensures client.trace == old(client.trace) + WillCalls(settings) + ConnectCalls(settings, connectAsync)
    {
      LoadSettings(config);
      SetWill();
      ghost var willed := client.trace;
      Connect();
      assert client.trace == willed + ConnectCalls(settings, connectAsync);
    }

    /** The client-attribute part of `init_app`, up to the point where `.lower()` may raise. */
    method ConfigureClient(config: AppConfig) returns (ok: bool)
      modifies client`clientId, client`transport, client`protocol, client`cleanSession
      modifies client`onConnect, client`onDisconnect
      ensures unchanged(
        this`connectHandler, this`disconnectHandler, this`connected, this`topics, this`settings,
        client`onMessage, client`onPublish, client`onSubscribe, client`onUnsubscribe, client`onLog,
        client`topicCallbacks, client`trace)
      ensures ok <==> TransportKind(config).Some?
      ensures client.clientId == EncodeText(settings.clientId)
      ensures !ok ==> client.transport == old(client.transport) && client.protocol == old(client.protocol)
      ensures !ok ==> client.cleanSession == old(client.cleanSession)
      ensures !ok ==> client.onConnect == old(client.onConnect) && client.onDisconnect == old(client.onDisconnect)
      ensures ok ==> client.transport == TransportKind(config).value
      ensures ok ==> client.protocol == Get(config, "MQTT_PROTOCOL_VERSION", VInt(MQTTv311))
      ensures ok ==> client.cleanSession == settings.cleanSession
      ensures ok ==> client.onConnect == Some(SessionConnect) && client.onDisconnect == Some(SessionDisconnect)
    {
      if settings.clientId.VStr? {
        client.clientId := VBytes(settings.clientId.s);
      } else {
        client.clientId := settings.clientId;
      }
      var kind := TransportKind(config);
      if kind.None? {
        return false;
      }
      client.transport := kind.value;
      client.protocol := Get(config, "MQTT_PROTOCOL_VERSION", VInt(MQTTv311));
      client.cleanSession := settings.cleanSession;
      client.onConnect := Some(SessionConnect);
      client.onDisconnect := Some(SessionDisconnect);
      ok := true;
    }

    /** The last-will part of `init_app`. */
    method SetWill()
      modifies client`trace
      ensures unchanged(
        this`connectHandler, this`disconnectHandler, this`connected, this`topics, this`settings,
        client`clientId, client`transport, client`protocol, client`cleanSession, client`onConnect,
        client`onDisconnect, client`onMessage, client`onPublish, client`onSubscribe,
        client`onUnsubscribe, client`onLog, client`topicCallbacks)
      ensures client.trace == old(client.trace) + WillCalls(settings)
    {
      if settings.lastWillTopic != VNone {
        client.WillSet(settings.lastWillTopic, settings.lastWillMessage, settings.lastWillQos, settings.lastWillRetain);
      }
    }

    /** The configuration-reading part of `init_app`: the plain keys, then the TLS keys if TLS is now enabled. */
    method LoadSettings(config: AppConfig)
      modifies this`settings
      ensures unchanged(
        this`connectHandler, this`disconnectHandler, this`connected, this`topics, client`clientId,
        client`transport, client`protocol, client`cleanSession, client`onConnect,
        client`onDisconnect, client`onMessage, client`onPublish, client`onSubscribe,
        client`onUnsubscribe, client`onLog, client`topicCallbacks, client`trace)
      ensures settings == Resolve(old(settings), config)
    {
      // Each `if key in app.config: self.x = app.config[key]` is `self.x = app.config.get(key, self.x)`.
      var s := settings;
      s := s.(clientId := Get(config, "MQTT_CLIENT_ID", s.clientId));
      s := s.(cleanSession := Get(config, "MQTT_CLEAN_SESSION", s.cleanSession));
      s := s.(username := Get(config, "MQTT_USERNAME", s.username));
      s := s.(password := Get(config, "MQTT_PASSWORD", s.password));
      s := s.(brokerUrl := Get(config, "MQTT_BROKER_URL", s.brokerUrl));
      s := s.(brokerPort := Get(config, "MQTT_BROKER_PORT", s.brokerPort));
      s := s.(tlsEnabled := Get(config, "MQTT_TLS_ENABLED", s.tlsEnabled));
      s := s.(keepalive := Get(config, "MQTT_KEEPALIVE", s.keepalive));
      s := s.(lastWillTopic := Get(config, "MQTT_LAST_WILL_TOPIC", s.lastWillTopic));
      s := s.(lastWillMessage := Get(config, "MQTT_LAST_WILL_MESSAGE", s.lastWillMessage));
      s := s.(lastWillQos := Get(config, "MQTT_LAST_WILL_QOS", s.lastWillQos));
      s := s.(lastWillRetain := Get(config, "MQTT_LAST_WILL_RETAIN", s.lastWillRetain));
      assert s == ResolvePlain(old(settings), config);
      if Truthy(s.tlsEnabled) {
        s := s.(tlsCaCerts := Get(config, "MQTT_TLS_CA_CERTS", s.tlsCaCerts));
        s := s.(tlsCertfile := Get(config, "MQTT_TLS_CERTFILE", s.tlsCertfile));
        s := s.(tlsKeyfile := Get(config, "MQTT_TLS_KEYFILE", s.tlsKeyfile));
        s := s.(tlsCiphers := Get(config, "MQTT_TLS_CIPHERS", s.tlsCiphers));
        s := s.(tlsInsecure := Get(config, "MQTT_TLS_INSECURE", s.tlsInsecure));
        s := s.(tlsCertReqs := Get(config, "MQTT_TLS_CERT_REQS", VInt(CERT_REQUIRED)));
        s := s.(tlsVersion := Get(config, "MQTT_TLS_VERSION", VInt(PROTOCOL_TLSv1)));
      }
      settings := s;
    }

    /** `_connect`: credentials, TLS, one connect request chosen by `connectAsync`, then the network loop. */
    method Connect()
      modifies client`trace
      ensures unchanged(
        this`connectHandler, this`disconnectHandler, this`connected, this`topics, this`settings,
        client`clientId, client`transport, client`protocol, client`cleanSession, client`onConnect,
        client`onDisconnect, client`onMessage, client`onPublish, client`onSubscribe,
        client`onUnsubscribe, client`onLog, client`topicCallbacks)
      ensures client.trace == old(client.trace) + ConnectCalls(settings, connectAsync)
    {
      var s := settings;
      ghost var t0 := client.trace;
      if s.username != VNone {
        client.UsernamePwSet(s.username, s.password);
      }
      ghost var t1 := client.trace;
      assert t1 == t0 + CredentialCalls(s);
      if Truthy(s.tlsEnabled) {
        client.TlsSet(s.tlsCaCerts, s.tlsCertfile, s.tlsKeyfile, s.tlsCertReqs, s.tlsVersion, s.tlsCiphers);
        if Truthy(s.tlsInsecure) {
          client.TlsInsecureSet(s.tlsInsecure);
        }
      }
      ghost var t2 := client.trace;
      assert t2 == t1 + SecurityCalls(s);
      if connectAsync {
        client.ConnectAsync(s.brokerUrl, s.brokerPort, s.keepalive);
      } else {
        var _ := client.Connect(s.brokerUrl, s.brokerPort, s.keepalive);
      }
      ghost var t3 := client.trace;
      assert t3 == t2 + [RequestCall(s, connectAsync)];
      client.LoopStart();
      ghost var c, t, r := CredentialCalls(s), SecurityCalls(s), [RequestCall(s, connectAsync)];
      AppendAssoc(t0, c + t + r, [Event.LoopStart]);
      AppendAssoc(t0, c + t, r);
      AppendAssoc(t0, c, t);
    }

    /** `_disconnect`: stop the network loop, then disconnect; neither flag nor registry changes. */
    method Disconnect()
      modifies client`trace
      ensures client.trace == old(client.trace) + [Event.LoopStop, Event.Disconnect]
    {
      client.LoopStop();
      var _ := client.Disconnect();
    }

    /**
     * `_handle_connect`: on a success code the session is connected and every
     * registry entry is resubscribed, in registry order with its stored QoS;
     * then the user's connect handler, if any, runs whatever the code. The
     * registry is not touched.
     */
    method HandleConnect(rc: int)
      requires Valid()
      modifies this`connected, client`trace
      ensures Valid()
      ensures connected == (rc == MQTT_ERR_SUCCESS || old(connected))
      ensures var start := |old(client.trace)|;
        var n := if rc == MQTT_ERR_SUCCESS then |topics.keys| else 0;
        && start + n <= |client.trace|
        && client.trace == old(client.trace) + client.trace[start..start + n] + ConnectHandlerCalls(connectHandler, rc)
        && (rc == MQTT_ERR_SUCCESS ==> ResubscribesOf(client.trace[start..start + n], topics))
    {
      ghost var done: seq<Event> := [];
      if rc == MQTT_ERR_SUCCESS {
        connected := true;
        var i := 0;
        while i < |topics.keys|
          invariant 0 <= i <= |topics.keys|
          invariant connected
          invariant client.trace == old(client.trace) + done
          invariant |done| == i
          invariant forall j :: 0 <= j < i ==>
            done[j].Subscribe? && done[j].topic == topics.keys[j] && done[j].qos == topics.entries[topics.keys[j]].qos
        {
          var item := topics.entries[topics.keys[i]];
          var reply := client.Subscribe(item.topic, item.qos);
          done := done + [Event.Subscribe(item.topic, item.qos, reply)];
          i := i + 1;
        }
      }
      ghost var afterResubscribe := client.trace;
      if connectHandler.Some? {
        client.trace := client.trace + [Event.ConnectHandlerCalled(connectHandler.value, rc)];
      }
      assert client.trace == old(client.trace) + done + ConnectHandlerCalls(connectHandler, rc);
      assert client.trace[|old(client.trace)|..|old(client.trace)| + |done|] == done;
    }

    /** `_handle_disconnect`: the session is disconnected, then the user's disconnect handler, if any, runs. */
    method HandleDisconnect(rc: int)
      modifies this`connected, client`trace
      ensures !connected
      ensures client.trace == old(client.trace) + DisconnectHandlerCalls(disconnectHandler)
    {
      connected := false;
      if disconnectHandler.Some? {
        client.trace := client.trace + [Event.DisconnectHandlerCalled(disconnectHandler.value)];
      }
    }

    /** `on_topic(topic)(handler)`: forwards a topic-specific message callback to the client. */
    method OnTopic(topic: string, handler: Handler) returns (r: Handler)
      modifies client`topicCallbacks, client`trace
      ensures r == handler
      ensures client.topicCallbacks == old(client.topicCallbacks)[topic := handler]
      ensures client.trace == old(client.trace) + [Event.MessageCallbackAdd(topic, handler)]
    {
      client.MessageCallbackAdd(topic, handler);
      r := handler;
    }

    /**
     * `subscribe`: one subscribe request; its reply is returned unchanged, and
     * only a success code upserts the entry (overwriting an earlier QoS).
     */
    method Subscribe(topic: string, qos: int) returns (r: Reply)
      requires Valid()
      modifies this`topics, client`trace
      ensures Valid()
      ensures client.trace == old(client.trace) + [Event.Subscribe(topic, qos, r)]
      ensures topics == Apply(old(topics), Event.Subscribe(topic, qos, r))
      ensures r.result == MQTT_ERR_SUCCESS ==> topics == old(topics).Put(topic, qos)
      ensures r.result != MQTT_ERR_SUCCESS ==> topics == old(topics)
    {
      r := client.Subscribe(topic, qos);
      if r.result == MQTT_ERR_SUCCESS {
        topics := topics.Put(topic, qos);
      }
    }

    /**
     * `unsubscribe`: an unregistered topic gives None with no request made;
     * otherwise one unsubscribe request, its reply returned, and only a
     * success code removes the entry.
     */
    method Unsubscribe(topic: string) returns (r: Option<Reply>)
      requires Valid()
      modifies this`topics, client`trace
      ensures Valid()
      ensures topic !in old(topics).entries ==> r == None && topics == old(topics) && client.trace == old(client.trace)
      ensures topic in old(topics).entries ==>
        && r.Some?
        && client.trace == old(client.trace) + [Event.Unsubscribe(topic, r.value)]
        && topics == Apply(old(topics), Event.Unsubscribe(topic, r.value))
        && topics == (if r.value.result == MQTT_ERR_SUCCESS then old(topics).Pop(topic) else old(topics))
    {
      r := None;
      if topic in topics.entries {
        var reply := client.Unsubscribe(topic);
        ghost var before := topics;
        if reply.result == MQTT_ERR_SUCCESS {
          topics := topics.Pop(topic);
        }
        r := Some(reply);
        assert topics == Apply(before, Event.Unsubscribe(topic, reply));
      }
    }

    /**
     * `unsubscribe_all`: one unsubscribe request per key of a snapshot of the
     * registry, in order, each attempted whatever the earlier replies; the
     * registry ends as those replies leave it.
     */
    method UnsubscribeAll()
      requires Valid()
      modifies this`topics, client`trace
      ensures Valid()
      ensures old(client.trace) <= client.trace
      ensures UnsubscribesAlong(client.trace[|old(client.trace)|..], old(topics).keys)
      ensures |client.trace| - |old(client.trace)| == |old(topics).keys|
      ensures topics == Replay(old(topics), client.trace[|old(client.trace)|..])
    {
      var snapshot := topics.keys;
      ghost var before := topics;
      ghost var done: seq<Event> := [];
      var i := 0;
      while i < |snapshot|
        invariant 0 <= i <= |snapshot|
        invariant client.trace == old(client.trace) + done
        invariant |done| == i && UnsubscribesAlong(done, snapshot)
        invariant topics == Replay(before, done)
      {
        NextKeyRegistered(before, done);
        var r := Unsubscribe(snapshot[i]);
        var e := Event.Unsubscribe(snapshot[i], r.value);
        assert topics == Apply(Replay(before, done), e);
        ReplaySnoc(before, done, e);
        AlongSnoc(done, e, snapshot);
        done := done + [e];
        i := i + 1;
      }
      assert client.trace[|old(client.trace)|..] == done;
    }

    /** `publish`: one publish request whose reply is returned unchanged; the registry and the flag are not consulted. */
    method Publish(topic: string, payload: Value, qos: int, retain: bool) returns (r: Reply)
      modifies client`trace
      ensures client.trace == old(client.trace) + [Event.Publish(topic, payload, qos, retain, r)]
    {
      r := client.Publish(topic, payload, qos, retain);
    }

    /** `on_connect()(handler)`: the handler replaces any earlier one. */
    method OnConnect(handler: Handler) returns (r: Handler)
      modifies this`connectHandler
      ensures r == handler && connectHandler == Some(handler)
    {
      connectHandler := Some(handler);
      r := handler;
    }

    /** `on_disconnect()(handler)`: the handler replaces any earlier one. */
    method OnDisconnect(handler: Handler) returns (r: Handler)
      modifies this`disconnectHandler
      ensures r == handler && disconnectHandler == Some(handler)
    {
      disconnectHandler := Some(handler);
      r := handler;
    }

    /** `on_message()(handler)`: installs the client's generic message callback. */
    method OnMessage(handler: Handler) returns (r: Handler)
      modifies client`onMessage
      ensures r == handler && client.onMessage == Some(handler)
    {
      client.onMessage := Some(handler);
      r := handler;
    }

    /** `on_publish()(handler)`: installs the client's publish-acknowledged callback. */
    method OnPublish(handler: Handler) returns (r: Handler)
      modifies client`onPublish
      ensures r == handler && client.onPublish == Some(handler)
    {
      client.onPublish := Some(handler);
      r := handler;
    }

    /** `on_subscribe()(handler)`: installs the client's subscribe-acknowledged callback. */
    method OnSubscribe(handler: Handler) returns (r: Handler)
      modifies client`onSubscribe
      ensures r == handler && client.onSubscribe == Some(handler)
    {
      client.onSubscribe := Some(handler);
      r := handler;
    }

    /** `on_unsubscribe()(handler)`: installs the client's unsubscribe-acknowledged callback. */
    method OnUnsubscribe(handler: Handler) returns (r: Handler)
      modifies client`onUnsubscribe
      ensures r == handler && client.onUnsubscribe == Some(handler)
    {
      client.onUnsubscribe := Some(handler);
      r := handler;
    }

    /** `on_log()(handler)`: installs the client's log callback. */
    method OnLog(handler: Handler) returns (r: Handler)
      modifies client`onLog
      ensures r == handler && client.onLog == Some(handler)
    {
      client.onLog := Some(handler);
      r := handler;
    }
  }
}
