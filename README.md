# Flask-MQTT session manager in Dafny

This project models the `Mqtt` class of Flask-MQTT (`flask_mqtt/__init__.py`).
`Mqtt` is a session object that wraps one paho-mqtt transport client. It holds:

- the connection settings read from the Flask configuration;
- the subscription registry `topics`, an insertion-ordered dict from topic to `TopicQos(topic, qos)`;
- the `connected` flag, changed only by the connect and disconnect callbacks;
- the user's connect and disconnect handlers, plus the handler slots it forwards to the client.

The model is imperative, like the source:

- `Session.Mqtt` is a class with those fields.
- Each method carries a `modifies` clause naming exactly the fields the Python method changes, directly or through the client.
- The resubscribe loop of `_handle_connect` and the loop of `unsubscribe_all` are `while` loops with invariants.
- The transport is `Transport.Client`. Its subscribe, unsubscribe and publish calls return a result code and a message id, and its connect and disconnect calls a result code, all chosen nondeterministically.
- Every call into the client, and every call into a user handler, is appended to a ghost call log, `client.trace`. Ordering properties and "the transport is not touched" are stated against that log.

Behind the methods sit specification functions, each with its own lemmas:

- `Registry.Apply` and `Registry.Replay` say how a run of transport replies changes the registry.
- `Config.Resolve` gives the settings `init_app` leaves behind.
- `Session.ConnectCalls` lists the requests `_connect` makes.

Each method's `ensures` ties it to one of these functions. The lemmas prove what the source promises:

- a successful subscribe upserts and the last QoS wins;
- a failed one changes nothing;
- `unsubscribe_all` leaves exactly the topics whose unsubscribe failed;
- a successful connect event resubscribes every entry once with its stored QoS, before the user handler runs;
- the connect sequence configures credentials and TLS only when asked to, then makes exactly one connect request and one loop start.

The model follows the code where it keeps a quirk. `init_app` copies `client_id` and `clean_session` into the client before it reads `MQTT_CLIENT_ID` and `MQTT_CLEAN_SESSION`. The client therefore gets the earlier values. Under Python 3 the module sets `unicode = str` (`flask_mqtt/__init__.py:44-45`), so the `isinstance(self.client_id, unicode)` test holds for every string id and the client gets the id encoded as bytes (`Values.EncodeText`). `Session.InitOrderQuirk` shows this on a concrete application: the settings get the configured id, and the client keeps `b""`.

The model follows the code as written:

- `_connect` sets credentials and TLS, connects, and only then starts the network loop (`flask_mqtt/__init__.py:185-223`). The last will is set earlier, in `init_app` (`flask_mqtt/__init__.py:173-181`).
- `publish` sends its one request and does not reconnect first (`flask_mqtt/__init__.py:359-392`).
- `init_app` reads the `MQTT_*` keys by their plain names (`flask_mqtt/__init__.py:113-172`); the constructor takes no configuration-key prefix parameter (`flask_mqtt/__init__.py:66-68`).
- Missing TLS material raises no configuration error: absent TLS keys keep their earlier values, and `tls_set` receives whatever is held.
- No method takes a lock.

Configuration values are dynamically typed (`Values.Value`), as in Python. The tests put strings into the port and the TLS flag. Conditions the source writes as a bare `if x:` use Python truthiness (`Values.Truthy`).

## Model

| member | source | states |
|---|---|---|
| Values.Lower | flask_mqtt/__init__.py:113 | `.lower()` keeps the length, maps each character to its lower-case form position by position, keeps every non-capital character, leaves no capital letter, and is the identity on text without capitals |
| Values.EncodeText | flask_mqtt/__init__.py:108-111 | under Python 3 every `str` id is encoded to bytes with the same text and truthiness; any other value is copied unchanged |
| Config.Defaults | flask_mqtt/__init__.py:79-98 | the initial settings: TLS off, no username, no last will, broker `localhost:1883`, keep-alive 60 |
| Config.TransportKind | flask_mqtt/__init__.py:113 | the client's transport name is `"tcp"` when `MQTT_TRANSPORT` is absent, the lower-cased string when the entry is a `str`, and the lower-cased bytes when it is `bytes`; there is no name (the `.lower()` call raises) exactly when the entry is neither `str` nor `bytes`; a name never holds a capital |
| Config.ResolvePlain | flask_mqtt/__init__.py:119-153 | reading the plain keys (id, clean session, credentials, broker, TLS flag, keep-alive, last will) never changes a TLS setting |
| Config.ResolveTls | flask_mqtt/__init__.py:155-171 | reading the TLS keys never changes a plain setting |
| Config.ResolvePlainKeys | flask_mqtt/__init__.py:119-153 | each of the twelve plain `MQTT_*` keys overrides its setting when present and keeps the earlier value when absent |
| Config.ResolveTlsKeys | flask_mqtt/__init__.py:155-168 | with TLS enabled after the plain keys, each TLS key overrides its setting when present and keeps it when absent |
| Config.ResolveTlsDefaults | flask_mqtt/__init__.py:170-171 | with TLS enabled, an absent `MQTT_TLS_CERT_REQS` gives `CERT_REQUIRED` and an absent `MQTT_TLS_VERSION` gives `PROTOCOL_TLSv1`, whatever the earlier values were |
| Config.ResolveTlsIgnoredWhenDisabled | flask_mqtt/__init__.py:155 | with TLS disabled after the plain keys, no TLS setting changes, whatever TLS keys the configuration holds |
| Config.ResolveIdempotent | flask_mqtt/__init__.py:119-171 | resolving a second time with the same configuration changes nothing |
| Config.ResolveReadsOnlyMqttKeys | flask_mqtt/__init__.py:119-171 | two configurations that agree on the keys read resolve to the same settings |
| Config.ConfigValuesReadThrough | tests/test_flaskmqtt.py:39-69 | with the seventeen `MQTT_*` entries of `test_mqtt_config_values` configured, every setting holds exactly the configured value |
| Config.TruthyStringEnablesTls | tests/test_flaskmqtt.py:39-69 | with only a username and a non-empty string in `MQTT_TLS_ENABLED` configured, TLS is on, the username is taken, the password stays unset, and the certificate requirement and TLS version fall back to `CERT_REQUIRED` and `PROTOCOL_TLSv1` |
| Registry.Topics.Put | flask_mqtt/__init__.py:312 | `topics[t] = TopicQos(t, q)` keeps the dict well formed, stores the new entry, leaves every other entry alone, grows the dict by one only for a new topic, and keeps the order of the old keys |
| Registry.Topics.Pop | flask_mqtt/__init__.py:343 | `topics.pop(t)` keeps the dict well formed, removes `t`, leaves every other entry alone, shrinks the dict by one only when `t` was there, cuts `t` out of its one position in the key order and keeps the order of the rest, and changes nothing otherwise |
| Registry.RemoveIndex | flask_mqtt/__init__.py:343 | in a key list without repetitions, removing a present key is cutting out its one position |
| Registry.Apply | flask_mqtt/__init__.py:308-317 | one subscribe or unsubscribe reply leaves a well-formed registry |
| Registry.Replay | flask_mqtt/__init__.py:353-357 | a run of replies applied in log order leaves a well-formed registry |
| Registry.SubscribesLastWins | flask_mqtt/__init__.py:308-317 | after any run of subscribes, a topic is registered with the QoS of the last successful subscribe to it; with none, its entry is as before |
| Registry.SubscribesOneEntryPerTopic | tests/test_integration.py:77-84 | after any run of subscribes the registered topics are the earlier ones plus exactly the topics some subscribe was granted, and the registry's size is the number of those distinct topics, however often a topic was subscribed |
| Registry.QosOverwriteScenario | tests/test_integration.py:60-75 | `subscribe('test', 1)` then `subscribe('test', 2)` leaves one entry with QoS 2, and unsubscribing it empties the registry |
| Registry.UnsubscribesKeepEntries | flask_mqtt/__init__.py:338-350 | unsubscribe replies only remove entries: every entry that stays is unchanged |
| Registry.UnsubscribeStep | flask_mqtt/__init__.py:338-350 | one unsubscribe of a registered topic removes it exactly when the reply is a success, and no other topic comes or goes |
| Registry.UnsubscribePrefix | flask_mqtt/__init__.py:353-357 | part way through the key snapshot, each visited topic is still registered exactly when its unsubscribe failed, every later key is still registered, and what stays is unchanged |
| Registry.UnsubscribeAllLeavesFailures | flask_mqtt/__init__.py:353-357 | after one unsubscribe per key of the snapshot, the registry holds exactly the topics whose unsubscribe failed, with their entries unchanged |
| Registry.UnsubscribeAllSucceededEmpties | tests/test_integration.py:92-96 | when every unsubscribe of the snapshot succeeds, the registry ends empty |
| Registry.ResubscribeEachOnce | flask_mqtt/__init__.py:233-236 | the resubscribe requests of a connect event ask for every registered topic exactly once and for no other topic, each with its stored QoS |
| Session.CredentialCalls | flask_mqtt/__init__.py:186-187 | one `username_pw_set` request, with the username and password, exactly when a username is set |
| Session.SecurityCalls | flask_mqtt/__init__.py:189-201 | with TLS enabled, one `tls_set` with the six TLS settings, followed by one `tls_insecure_set` exactly when the insecure flag is truthy; nothing with TLS disabled |
| Session.RequestCall | flask_mqtt/__init__.py:203-221 | `connect_async` when asked for and `connect` otherwise, with the broker address, port and keep-alive |
| Session.ConnectCalls | flask_mqtt/__init__.py:185-223 | the requests of `_connect` end with the connect request and then `loop_start`, after the credentials and TLS requests |
| Session.ConnectCallsEndWithOneRequest | flask_mqtt/__init__.py:203-223 | `_connect` ends with one `loop_start`, right after the one connect request: `connect_async` when asked for and `connect` otherwise, with the broker address, port and keep-alive |
| Session.ConnectCallsConfigureOnlyWhenAsked | flask_mqtt/__init__.py:186-201 | `username_pw_set` is called once, first, exactly when a username is set; `tls_set` exactly when TLS is enabled; `tls_insecure_set` exactly when TLS is enabled and the insecure flag is truthy |
| Session.ConnectCallsOrder | flask_mqtt/__init__.py:189-201 | `tls_insecure_set` comes after `tls_set`, and every request before the last two is a credentials or TLS request |
| Session.ConnectCallsCounts | tests/test_flaskmqtt.py:91-96 | the exact number of each kind of request `_connect` makes: one `loop_start`, one of `connect` and `connect_async`, and the credentials and TLS requests as configured |
| Session.ConfigValuesConnect | tests/test_flaskmqtt.py:71-82 | with the configuration of `test_mqtt_config_values` and a blocking connect, `_connect` calls `username_pw_set` exactly once, with `"username"` and `"password"`, then `tls_set` once with the configured TLS material, then `tls_insecure_set`, `connect` and `loop_start` |
| Session.ConfigValuesCalls | flask_mqtt/__init__.py:185-223 | the same request list, from any settings holding the values that configuration gives |
| Session.ConnectCallsCount | flask_mqtt/__init__.py:185-223 | the number of requests of any one kind that `_connect` makes, as a sum over its conditional requests |
| Session.WillCalls | flask_mqtt/__init__.py:174-181 | `will_set` is called once, with the four last-will settings, exactly when a last-will topic is set |
| Session.ConnectHandlerCalls | flask_mqtt/__init__.py:237-238 | the user connect handler runs once, with the result code, exactly when one is registered |
| Session.DisconnectHandlerCalls | flask_mqtt/__init__.py:242-243 | the user disconnect handler runs once exactly when one is registered |
| Session.InitOrderQuirk | flask_mqtt/__init__.py:108-123 | with `MQTT_CLIENT_ID` and `MQTT_CLEAN_SESSION` configured, the session's settings take them while the client keeps the earlier id, encoded as `b""`, and `True` |
| Session.BytesTransportConnects | flask_mqtt/__init__.py:113-183 | with a `bytes` entry in `MQTT_TRANSPORT` (such as `b"TCP"`) the client's transport becomes the lowered bytes (`b"tcp"`), the session's callbacks are installed, the settings are resolved from the configuration, and the log holds the last will and the whole connect sequence, which ends with `loop_start` |
| Session.LastConnectHandlerWins | flask_mqtt/__init__.py:394-406 | after two connect-handler registrations, a connect event ends with a call of the second handler only, preceded only by resubscribe requests |
| Session.LastDisconnectHandlerWins | flask_mqtt/__init__.py:408-420 | after two disconnect-handler registrations, a disconnect event calls the second handler only |
| Session.ReconnectResubscribes | flask_mqtt/__init__.py:230-243 | a disconnect event keeps the registry, so the next successful connect event resubscribes every topic registered before it, in registry order, with its stored QoS |
| Session.Mqtt.constructor | flask_mqtt/__init__.py:66-104 | a fresh session: no handlers, not connected, empty registry, no message, publish, subscribe, unsubscribe, log or per-topic callback on the client; logging enabled if asked; without an app (or when the transport name raises) default settings, transport `"tcp"`, protocol MQTT v3.1.1 and no connect or disconnect callback; with an app and a `str` or `bytes` transport, the settings are resolved from it, the client gets the configured transport and protocol and the session's connect and disconnect callbacks, and the log holds the last will and the connect sequence; the client keeps the default client id, encoded as `b""`, and clean-session flag |
| Session.Mqtt.Start | flask_mqtt/__init__.py:100-117 | from the default settings and an empty log: logging enabled if asked; then with an app and a `str` or `bytes` transport the settings are resolved from it, the client gets the configured transport and protocol and the session's connect and disconnect callbacks, and the log grows by the last will and the connect sequence; without an app or with a transport that is neither `str` nor `bytes`, settings, log, transport, protocol and callbacks stay as they were; the client's id (`b""`) and clean-session flag stay the defaults; no handler and no registry entry changes |
| Session.Mqtt.InitApp | flask_mqtt/__init__.py:106-183 | the client gets the client id (encoded when it is a string) and clean-session flag held before the configuration is read, the transport name and protocol, and the session's own connect and disconnect callbacks; the settings become the resolved ones; the log grows by the last will and the connect sequence; a transport that is neither `str` nor `bytes` stops it after the client id, with nothing else changed |
| Session.Mqtt.ConfigureClient | flask_mqtt/__init__.py:108-117 | the client gets the encoded client id, then the transport name, protocol, clean-session flag and the session's two callbacks; a transport that is neither `str` nor `bytes` stops it after the client id; the settings, the log and the other callbacks stay as they were |
| Session.Mqtt.ApplyConfig | flask_mqtt/__init__.py:119-183 | the settings become the resolution of the old ones by the configuration and the log grows by the last will and the connect sequence; no client attribute or callback changes |
| Session.Mqtt.LoadSettings | flask_mqtt/__init__.py:119-171 | the settings become the resolution of the old ones by the configuration |
| Session.Mqtt.SetWill | flask_mqtt/__init__.py:173-181 | the log grows by the last-will request when a last-will topic is set, and by nothing otherwise |
| Session.Mqtt.Connect | flask_mqtt/__init__.py:185-223 | the log grows by exactly the connect sequence of the current settings |
| Session.Mqtt.Disconnect | flask_mqtt/__init__.py:225-228 | the log grows by `loop_stop` then `disconnect`; the flag and the registry are untouched |
| Session.Mqtt.HandleConnect | flask_mqtt/__init__.py:230-238 | the flag becomes true on a success code and is otherwise unchanged; on success one subscribe per registry entry, in order, with its QoS, comes before the user handler call; the handler runs whatever the code; the registry is untouched |
| Session.Mqtt.HandleDisconnect | flask_mqtt/__init__.py:240-243 | the flag becomes false, then the user handler, if any, runs; the registry is untouched |
| Session.Mqtt.OnTopic | flask_mqtt/__init__.py:245-275 | the handler is returned and installed as the client's callback for that topic, replacing an earlier one |
| Session.Mqtt.Subscribe | flask_mqtt/__init__.py:277-317 | one subscribe request is made and its reply is returned unchanged; a success code upserts the entry and any other code leaves the registry exactly as it was |
| Session.Mqtt.Unsubscribe | flask_mqtt/__init__.py:319-351 | an unregistered topic gives None with no request and no change; a registered one gives one request whose reply is returned, and the entry is removed exactly on a success code |
| Session.Mqtt.UnsubscribeAll | flask_mqtt/__init__.py:353-357 | one unsubscribe request per key of the snapshot, in order, each attempted whatever the earlier replies; the registry ends as those replies leave it |
| Session.Mqtt.Publish | flask_mqtt/__init__.py:359-392 | one publish request whose reply is returned unchanged; neither the registry nor the flag changes |
| Session.Mqtt.OnConnect | flask_mqtt/__init__.py:394-406 | the handler is returned and replaces any earlier connect handler |
| Session.Mqtt.OnDisconnect | flask_mqtt/__init__.py:408-420 | the handler is returned and replaces any earlier disconnect handler |
| Session.Mqtt.OnMessage | flask_mqtt/__init__.py:422-444 | the handler is returned and becomes the client's generic message callback |
| Session.Mqtt.OnPublish | flask_mqtt/__init__.py:446-464 | the handler is returned and becomes the client's publish callback |
| Session.Mqtt.OnSubscribe | flask_mqtt/__init__.py:466-481 | the handler is returned and becomes the client's subscribe callback |
| Session.Mqtt.OnUnsubscribe | flask_mqtt/__init__.py:483-498 | the handler is returned and becomes the client's unsubscribe callback |
| Session.Mqtt.OnLog | flask_mqtt/__init__.py:500-516 | the handler is returned and becomes the client's log callback |

## Left out

- The paho-mqtt client's internals are a foreign library: framing, keep-alive, acknowledgements and message dispatch. `Transport.Client` only records calls and returns arbitrary replies.
- Every client call is assumed to return. An exception the client raises while `init_app` configures or connects it is not modelled: for example `connect` on a socket error, `connect_async` for an empty host or a bad port or keep-alive, `tls_set` when TLS is already configured, `will_set` for a QoS outside 0-2. In the source such a raise stops `_connect` part way (before `loop_start`) and leaves `init_app` and `Mqtt(app)`. The log equations of `Session.Mqtt.constructor`, `Session.Mqtt.Start`, `Session.Mqtt.InitApp`, `Session.Mqtt.ApplyConfig`, `Session.Mqtt.SetWill` and `Session.Mqtt.Connect`, and `Session.ConnectCallsEndWithOneRequest`, describe the run in which no client call raises.
- The per-topic handler taking precedence over the generic message handler (`flask_mqtt/__init__.py:428-430`) is paho dispatch; only the forwarding registration is modelled.
- The background network loop and the arrival of callbacks on its thread are concurrency. Callbacks are sequential method calls here.
- The `userdata` and `flags` arguments passed through to user handlers are not modelled. A handler call records the handler and, for connect, the result code.
- `logging` calls are side effects only.
- `ssl` constants are the fixed integers of CPython's `ssl` module.
- TLS material is kept as opaque values.
- The Flask `app` object is reduced to its configuration map. `Mqtt.app` is stored but not otherwise used by the core.
- Python 2 is not modelled. The model follows Python 3, where `unicode` is `str` (`flask_mqtt/__init__.py:44-45`).
- User handlers are opaque: a call into one is recorded on the log and has no effect on the session. Calls that a handler makes back into the session from inside the callback (as in `tests/test_integration.py:137-139`) are not modelled.
- Configuration values do not include floats.
- Values.Lower: lower-cases ASCII letters only, not the whole of Unicode.
- Config.Resolve: carries no `ensures` of its own. Its behaviour is stated key by key in `Config.ResolvePlainKeys`, `Config.ResolveTlsKeys`, `Config.ResolveTlsDefaults` and `Config.ResolveTlsIgnoredWhenDisabled`, which keeps the methods whose contracts mention it cheap to prove.
- Session.Mqtt.InitApp: does not model the exception itself. An `MQTT_TRANSPORT` that is neither `str` nor `bytes` raises `AttributeError` at `.lower()`; the model returns `ok == false`, with the state the exception leaves behind.
- Session.Mqtt.constructor: when `init_app` raises inside the constructor, a Python caller gets no object, while the model still returns one.
- Session.Mqtt.Subscribe: paho's own `ValueError` for an invalid QoS or topic is not modelled. Any QoS and topic reach the transport, which answers with some reply.
- The configuration-key prefix used by `tests/test_multiple_servers.py` does not exist in the constructor of `flask_mqtt/__init__.py`, so it is not modelled.
- Reconnect-before-publish does not exist in the code, so it is not modelled.
- The decorators `on_connect()` and the like return an inner function. Each is modelled as the combined call `on_x()(handler)`.
