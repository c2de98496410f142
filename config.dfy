/**
 * The connection settings of a session and how `init_app` resolves them from
 * the Flask configuration: each `MQTT_*` key that is present overrides the
 * current value, an absent key keeps it. The TLS keys are read only when TLS
 * is enabled after that step, and two of them then fall back to fixed
 * defaults instead of the current value.
 */
module Config {
  import opened Values

  /** Python's `ssl` constants the source uses as defaults. */
  const CERT_NONE: int := 0
  const CERT_REQUIRED: int := 2
  const PROTOCOL_TLSv1: int := 3

  /** The configuration attributes of `Mqtt`, one field each. */
  datatype Settings = Settings(
    clientId: Value,
    cleanSession: Value,
    username: Value,
    password: Value,
    brokerUrl: Value,
    brokerPort: Value,
    tlsEnabled: Value,
    keepalive: Value,
    lastWillTopic: Value,
    lastWillMessage: Value,
    lastWillQos: Value,
    lastWillRetain: Value,
    tlsCaCerts: Value,
    tlsCertfile: Value,
    tlsKeyfile: Value,
    tlsCertReqs: Value,
    tlsVersion: Value,
    tlsCiphers: Value,
    tlsInsecure: Value)

  /** The values `Mqtt.__init__` starts from. */
  function Defaults(): (s: Settings)
    ensures !Truthy(s.tlsEnabled) && s.username == VNone && s.lastWillTopic == VNone
    ensures s.brokerUrl == VStr("localhost") && s.brokerPort == VInt(1883) && s.keepalive == VInt(60)
  {
    Settings(
      clientId := VStr(""),
      cleanSession := VBool(true),
      username := VNone,
      password := VNone,
      brokerUrl := VStr("localhost"),
      brokerPort := VInt(1883),
      tlsEnabled := VBool(false),
      keepalive := VInt(60),
      lastWillTopic := VNone,
      lastWillMessage := VNone,
      lastWillQos := VInt(0),
      lastWillRetain := VBool(false),
      tlsCaCerts := VNone,
      tlsCertfile := VNone,
      tlsKeyfile := VNone,
      tlsCertReqs := VInt(CERT_NONE),
      tlsVersion := VInt(PROTOCOL_TLSv1),
      tlsCiphers := VNone,
      tlsInsecure := VBool(false))
  }

  /** The keys read unconditionally, each overriding one field. */
  const PlainKeys: set<string> := {
    "MQTT_CLIENT_ID", "MQTT_CLEAN_SESSION", "MQTT_USERNAME", "MQTT_PASSWORD",
    "MQTT_BROKER_URL", "MQTT_BROKER_PORT", "MQTT_TLS_ENABLED", "MQTT_KEEPALIVE",
    "MQTT_LAST_WILL_TOPIC", "MQTT_LAST_WILL_MESSAGE", "MQTT_LAST_WILL_QOS", "MQTT_LAST_WILL_RETAIN"}

  /** The keys read only when TLS is enabled, each overriding one field. */
  const TlsKeys: set<string> := {
    "MQTT_TLS_CA_CERTS", "MQTT_TLS_CERTFILE", "MQTT_TLS_KEYFILE", "MQTT_TLS_CIPHERS", "MQTT_TLS_INSECURE"}

  /** The keys read only when TLS is enabled, whose absence selects a fixed default. */
  const TlsDefaultedKeys: set<string> := {"MQTT_TLS_CERT_REQS", "MQTT_TLS_VERSION"}

  /** Which settings field a configuration key names. */
  function Field(s: Settings, key: string): Value
  {
    match key
    case "MQTT_CLIENT_ID" => s.clientId
    case "MQTT_CLEAN_SESSION" => s.cleanSession
    case "MQTT_USERNAME" => s.username
    case "MQTT_PASSWORD" => s.password
    case "MQTT_BROKER_URL" => s.brokerUrl
    case "MQTT_BROKER_PORT" => s.brokerPort
    case "MQTT_TLS_ENABLED" => s.tlsEnabled
    case "MQTT_KEEPALIVE" => s.keepalive
    case "MQTT_LAST_WILL_TOPIC" => s.lastWillTopic
    case "MQTT_LAST_WILL_MESSAGE" => s.lastWillMessage
    case "MQTT_LAST_WILL_QOS" => s.lastWillQos
    case "MQTT_LAST_WILL_RETAIN" => s.lastWillRetain
    case "MQTT_TLS_CA_CERTS" => s.tlsCaCerts
    case "MQTT_TLS_CERTFILE" => s.tlsCertfile
    case "MQTT_TLS_KEYFILE" => s.tlsKeyfile
    case "MQTT_TLS_CERT_REQS" => s.tlsCertReqs
    case "MQTT_TLS_VERSION" => s.tlsVersion
    case "MQTT_TLS_CIPHERS" => s.tlsCiphers
    case "MQTT_TLS_INSECURE" => s.tlsInsecure
    case _ => VNone
  }

  /** The two settings agree on every field a plain key names. */
  predicate SamePlain(a: Settings, b: Settings)
  {
    && a.clientId == b.clientId && a.cleanSession == b.cleanSession
    && a.username == b.username && a.password == b.password
    && a.brokerUrl == b.brokerUrl && a.brokerPort == b.brokerPort
    && a.tlsEnabled == b.tlsEnabled && a.keepalive == b.keepalive
    && a.lastWillTopic == b.lastWillTopic && a.lastWillMessage == b.lastWillMessage
    && a.lastWillQos == b.lastWillQos && a.lastWillRetain == b.lastWillRetain
  }

  /** The two settings agree on every field a TLS key names. */
  predicate SameTls(a: Settings, b: Settings)
  {
    && a.tlsCaCerts == b.tlsCaCerts && a.tlsCertfile == b.tlsCertfile && a.tlsKeyfile == b.tlsKeyfile
    && a.tlsCertReqs == b.tlsCertReqs && a.tlsVersion == b.tlsVersion
    && a.tlsCiphers == b.tlsCiphers && a.tlsInsecure == b.tlsInsecure
  }

  /** The plain keys, in the order `init_app` reads them. */
  function ResolvePlain(s: Settings, config: AppConfig): (r: Settings)
    ensures SameTls(r, s)
  {
    s.(
      clientId := Get(config, "MQTT_CLIENT_ID", s.clientId),
      cleanSession := Get(config, "MQTT_CLEAN_SESSION", s.cleanSession),
      username := Get(config, "MQTT_USERNAME", s.username),
      password := Get(config, "MQTT_PASSWORD", s.password),
      brokerUrl := Get(config, "MQTT_BROKER_URL", s.brokerUrl),
      brokerPort := Get(config, "MQTT_BROKER_PORT", s.brokerPort),
      tlsEnabled := Get(config, "MQTT_TLS_ENABLED", s.tlsEnabled),
      keepalive := Get(config, "MQTT_KEEPALIVE", s.keepalive),
      lastWillTopic := Get(config, "MQTT_LAST_WILL_TOPIC", s.lastWillTopic),
      lastWillMessage := Get(config, "MQTT_LAST_WILL_MESSAGE", s.lastWillMessage),
      lastWillQos := Get(config, "MQTT_LAST_WILL_QOS", s.lastWillQos),
      lastWillRetain := Get(config, "MQTT_LAST_WILL_RETAIN", s.lastWillRetain))
  }

  /** The TLS block of `init_app`. */
  function ResolveTls(s: Settings, config: AppConfig): (r: Settings)
    ensures SamePlain(r, s)
  {
    s.(
      tlsCaCerts := Get(config, "MQTT_TLS_CA_CERTS", s.tlsCaCerts),
      tlsCertfile := Get(config, "MQTT_TLS_CERTFILE", s.tlsCertfile),
      tlsKeyfile := Get(config, "MQTT_TLS_KEYFILE", s.tlsKeyfile),
      tlsCiphers := Get(config, "MQTT_TLS_CIPHERS", s.tlsCiphers),
      tlsInsecure := Get(config, "MQTT_TLS_INSECURE", s.tlsInsecure),
      tlsCertReqs := Get(config, "MQTT_TLS_CERT_REQS", VInt(CERT_REQUIRED)),
      tlsVersion := Get(config, "MQTT_TLS_VERSION", VInt(PROTOCOL_TLSv1)))
  }

  /** The settings `init_app` leaves behind, starting from the current ones. */
  function Resolve(s: Settings, config: AppConfig): (r: Settings)
  {
    var plain := ResolvePlain(s, config);
    if Truthy(plain.tlsEnabled) then ResolveTls(plain, config) else plain
  }

  /** Every plain key present overrides its field, every plain key absent keeps it. */
  lemma ResolvePlainKeys(s: Settings, config: AppConfig, key: string)
    requires key in PlainKeys
    ensures Field(Resolve(s, config), key) == Get(config, key, Field(s, key))
  {
  }

  /** With TLS enabled after the plain keys, the TLS keys override like the plain ones. */
  lemma ResolveTlsKeys(s: Settings, config: AppConfig, key: string)
    requires Truthy(Get(config, "MQTT_TLS_ENABLED", s.tlsEnabled))
    requires key in TlsKeys
    ensures Field(Resolve(s, config), key) == Get(config, key, Field(s, key))
  {
    var plain := ResolvePlain(s, config);
    var r := ResolveTls(plain, config);
    assert Resolve(s, config) == r;
    if key == "MQTT_TLS_CA_CERTS" {
      assert Field(r, key) == r.tlsCaCerts && Field(s, key) == s.tlsCaCerts;
    } else if key == "MQTT_TLS_CERTFILE" {
      assert Field(r, key) == r.tlsCertfile && Field(s, key) == s.tlsCertfile;
    } else if key == "MQTT_TLS_KEYFILE" {
      assert Field(r, key) == r.tlsKeyfile && Field(s, key) == s.tlsKeyfile;
    } else if key == "MQTT_TLS_CIPHERS" {
      assert Field(r, key) == r.tlsCiphers && Field(s, key) == s.tlsCiphers;
    } else {
      assert key == "MQTT_TLS_INSECURE";
      assert Field(r, key) == r.tlsInsecure && Field(s, key) == s.tlsInsecure;
    }
  }

  /** With TLS enabled, the two defaulted keys fall back to `CERT_REQUIRED` and `PROTOCOL_TLSv1`, not to the current value. */
  lemma ResolveTlsDefaults(s: Settings, config: AppConfig)
    requires Truthy(Get(config, "MQTT_TLS_ENABLED", s.tlsEnabled))
    ensures Field(Resolve(s, config), "MQTT_TLS_CERT_REQS") == Get(config, "MQTT_TLS_CERT_REQS", VInt(CERT_REQUIRED))
    ensures Field(Resolve(s, config), "MQTT_TLS_VERSION") == Get(config, "MQTT_TLS_VERSION", VInt(PROTOCOL_TLSv1))
  {
  }

  /** With TLS disabled after the plain keys, no TLS field changes, whatever TLS keys the configuration holds. */
  lemma ResolveTlsIgnoredWhenDisabled(s: Settings, config: AppConfig, key: string)
    requires !Truthy(Get(config, "MQTT_TLS_ENABLED", s.tlsEnabled))
    requires key in TlsKeys || key in TlsDefaultedKeys
    ensures Field(Resolve(s, config), key) == Field(s, key)
  {
  }

  /** Resolving a second time with the same configuration changes nothing. */
  lemma ResolveIdempotent(s: Settings, config: AppConfig)
    ensures Resolve(Resolve(s, config), config) == Resolve(s, config)
  {
  }

  /** The configuration entries `init_app` looks at. */
  ghost predicate AgreeOnReadKeys(c1: AppConfig, c2: AppConfig)
  {
    forall k :: k in PlainKeys || k in TlsKeys || k in TlsDefaultedKeys ==>
      (k in c1 <==> k in c2) && (k in c1 ==> c1[k] == c2[k])
  }

  /** Only the listed keys are read: configurations that agree on them resolve alike. */
  lemma ResolveReadsOnlyMqttKeys(s: Settings, c1: AppConfig, c2: AppConfig)
    requires AgreeOnReadKeys(c1, c2)
    ensures Resolve(s, c1) == Resolve(s, c2)
  {
    forall k, d | k in PlainKeys || k in TlsKeys || k in TlsDefaultedKeys
      ensures Get(c1, k, d) == Get(c2, k, d)
    {
    }
    assert ResolvePlain(s, c1) == ResolvePlain(s, c2);
  }

  /**
   * The transport name `init_app` puts on the client: `.lower()` of the
   * configured `str` or `bytes`, or None where `.lower()` would raise because
   * the entry has no such method. `bytes.lower()` changes only the ASCII
   * capitals, which is what `Lower` does to the text the bytes encode.
   */
  function TransportKind(config: AppConfig): (r: Option<Value>)
    ensures r.None? <==> "MQTT_TRANSPORT" in config && !config["MQTT_TRANSPORT"].VStr? && !config["MQTT_TRANSPORT"].VBytes?
    ensures "MQTT_TRANSPORT" !in config ==> r == Some(VStr("tcp"))
    ensures "MQTT_TRANSPORT" in config && config["MQTT_TRANSPORT"].VStr? ==> r == Some(VStr(Lower(config["MQTT_TRANSPORT"].s)))
    ensures "MQTT_TRANSPORT" in config && config["MQTT_TRANSPORT"].VBytes? ==> r == Some(VBytes(Lower(config["MQTT_TRANSPORT"].text)))
    ensures r.Some? && r.value.VStr? ==> forall i :: 0 <= i < |r.value.s| ==> !IsUpper(r.value.s[i])
    ensures r.Some? && r.value.VBytes? ==> forall i :: 0 <= i < |r.value.text| ==> !IsUpper(r.value.text[i])
  {
    // The default `'tcp'` is already lower case, so `.lower()` leaves it as it is.
    if "MQTT_TRANSPORT" !in config then Some(VStr("tcp"))
    else match config["MQTT_TRANSPORT"]
      case VStr(kind) => Some(VStr(Lower(kind)))
      case VBytes(kind) => Some(VBytes(Lower(kind)))
      case _ => None
  }

  /**
   * The configuration holds the seventeen entries `test_mqtt_config_values`
   * sets, whatever else Flask keeps in it.
   */
  predicate HoldsConfigValuesTest(config: AppConfig)
  {
    && Get(config, "MQTT_USERNAME", VNone) == VStr("username")
    && Get(config, "MQTT_PASSWORD", VNone) == VStr("password")
    && Get(config, "MQTT_BROKER_URL", VNone) == VStr("broker_url")
    && Get(config, "MQTT_BROKER_PORT", VNone) == VStr("broker_port")
    && Get(config, "MQTT_TLS_ENABLED", VNone) == VStr("tls_enabled")
    && Get(config, "MQTT_KEEPALIVE", VNone) == VStr("keepalive")
    && Get(config, "MQTT_LAST_WILL_TOPIC", VNone) == VStr("home/lastwill")
    && Get(config, "MQTT_LAST_WILL_MESSAGE", VNone) == VStr("last will")
    && Get(config, "MQTT_LAST_WILL_QOS", VNone) == VInt(2)
    && Get(config, "MQTT_LAST_WILL_RETAIN", VNone) == VBool(true)
    && Get(config, "MQTT_TLS_CA_CERTS", VNone) == VStr("tls_ca_certs")
    && Get(config, "MQTT_TLS_CERTFILE", VNone) == VStr("tls_certfile")
    && Get(config, "MQTT_TLS_KEYFILE", VNone) == VStr("tls_keyfile")
    && Get(config, "MQTT_TLS_CERT_REQS", VNone) == VStr("tls_cert_reqs")
    && Get(config, "MQTT_TLS_VERSION", VNone) == VStr("tls_version")
    && Get(config, "MQTT_TLS_CIPHERS", VNone) == VStr("tls_ciphers")
    && Get(config, "MQTT_TLS_INSECURE", VNone) == VStr("tls_insecure")
  }

  /** On such a configuration every setting takes the configured value, the TLS ones included. */
  lemma ConfigValuesReadThrough(config: AppConfig)
    requires HoldsConfigValuesTest(config)
    ensures var s := Resolve(Defaults(), config);
      && s.username == VStr("username") && s.password == VStr("password")
      && s.brokerUrl == VStr("broker_url") && s.brokerPort == VStr("broker_port")
      && s.tlsEnabled == VStr("tls_enabled") && s.keepalive == VStr("keepalive")
      && s.lastWillTopic == VStr("home/lastwill") && s.lastWillMessage == VStr("last will")
      && s.lastWillQos == VInt(2) && s.lastWillRetain == VBool(true)
      && s.tlsCaCerts == VStr("tls_ca_certs") && s.tlsCertfile == VStr("tls_certfile")
      && s.tlsKeyfile == VStr("tls_keyfile") && s.tlsCertReqs == VStr("tls_cert_reqs")
      && s.tlsVersion == VStr("tls_version") && s.tlsCiphers == VStr("tls_ciphers")
      && s.tlsInsecure == VStr("tls_insecure")
  {
  }

  /** A truthy non-boolean enables TLS, and the certificate requirement then falls back to `CERT_REQUIRED` (`test_mqtt_config_values` sets `MQTT_TLS_ENABLED` to a string). */
  lemma TruthyStringEnablesTls()
    ensures var r := Resolve(Defaults(), map["MQTT_USERNAME" := VStr("username"), "MQTT_TLS_ENABLED" := VStr("tls_enabled")]);
      && r.username == VStr("username") && r.password == VNone
      && r.tlsEnabled == VStr("tls_enabled")
      && r.tlsCertReqs == VInt(CERT_REQUIRED) && r.tlsVersion == VInt(PROTOCOL_TLSv1)
  {
  }
}
