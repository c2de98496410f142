/**
 * The subscription registry, `Mqtt.topics`: a Python dict from topic to
 * `TopicQos(topic, qos)`. Python dicts iterate in insertion order, and both
 * the resubscribe loop of the connect callback and `unsubscribe_all` walk the
 * registry in that order, so the model keeps the keys in order beside the
 * mapping.
 */
module Registry {
  import opened Values
  import opened Transport

  datatype TopicQos = TopicQos(topic: string, qos: int)

  ghost predicate Distinct(s: seq<string>)
  {
    forall i, j :: 0 <= i < j < |s| ==> s[i] != s[j]
  }

  /** `s` with every occurrence of `t` removed, the rest kept in order. */
  function Remove(s: seq<string>, t: string): (r: seq<string>)
    ensures forall x :: x in r <==> x in s && x != t
    ensures t !in s ==> r == s
  {
    if s == [] then []
    else if s[0] == t then Remove(s[1..], t)
    else [s[0]] + Remove(s[1..], t)
  }

  /** An insertion-ordered dictionary from topic to its entry. */
  datatype Topics = Topics(keys: seq<string>, entries: map<string, TopicQos>)
  {
    /** Each key once, keys and entries agree, and each entry is filed under its own topic. */
    ghost predicate Valid()
    {
      && Distinct(keys)
      && (forall t :: t in keys <==> t in entries)
      && (forall t :: t in entries ==> entries[t].topic == t)
    }

    /** `topics[t] = TopicQos(t, q)`: a new key goes last, an existing key keeps its place. */
    function Put(t: string, q: int): (r: Topics)
      requires Valid()
      ensures r.Valid()
      ensures t in r.entries && r.entries[t] == TopicQos(t, q)
      ensures forall u :: u != t ==> (u in r.entries <==> u in entries)
      ensures forall u :: u != t && u in entries ==> r.entries[u] == entries[u]
      ensures |r.keys| == |keys| + (if t in entries then 0 else 1)
      ensures forall i :: 0 <= i < |keys| ==> r.keys[i] == keys[i]
    {
      Topics(if t in entries then keys else keys + [t], entries[t := TopicQos(t, q)])
    }

    /** `topics.pop(t)`: the key leaves, every other key keeps its entry and its relative order. */
    function Pop(t: string): (r: Topics)
      requires Valid()
      ensures r.Valid()
      ensures t !in r.entries
      ensures forall u :: u != t ==> (u in r.entries <==> u in entries)
      ensures forall u :: u in r.entries ==> r.entries[u] == entries[u]
      ensures t !in entries ==> r == this
      ensures |r.keys| == |keys| - (if t in entries then 1 else 0)
      ensures t in entries ==> exists k :: 0 <= k < |keys| && keys[k] == t && r.keys == keys[..k] + keys[k + 1..]
    {
      RemoveLength(keys, t);
      RemoveDistinct(keys, t);
      RemoveAt(keys, t);
      Topics(Remove(keys, t), entries - {t})
    }
  }

  const Empty: Topics := Topics([], map[])

  lemma DistinctTail(s: seq<string>)
    requires s != [] && Distinct(s)
    ensures Distinct(s[1..]) && s[0] !in s[1..]
  {
    forall i, j | 0 <= i < j < |s[1..]| ensures s[1..][i] != s[1..][j] {
      assert s[1..][i] == s[i + 1] && s[1..][j] == s[j + 1];
    }
    forall i | 0 <= i < |s[1..]| ensures s[1..][i] != s[0] {
      assert s[1..][i] == s[i + 1];
    }
  }

  /** In a list without repetitions, removing a present key cuts out its one position `k`. */
  lemma {:induction false} RemoveIndex(s: seq<string>, t: string) returns (k: nat)
    requires Distinct(s) && t in s
    ensures k < |s| && s[k] == t && Remove(s, t) == s[..k] + s[k + 1..]
  {
    DistinctTail(s);
    var tail := s[1..];
    if s[0] == t {
      k := 0;
      assert Remove(s, t) == tail by {
        assert Remove(s, t) == Remove(tail, t);
      }
      assert s[..k] + s[k + 1..] == tail;
    } else {
      assert t in tail;
      var j := RemoveIndex(tail, t);
      k := j + 1;
      assert Remove(s, t) == [s[0]] + Remove(tail, t);
      ConsSlices(s, k);
    }
  }

  lemma ConsSlices(s: seq<string>, k: nat)
    requires 1 <= k < |s|
    ensures [s[0]] + (s[1..][..k - 1] + s[1..][k..]) == s[..k] + s[k + 1..]
  {
    assert [s[0]] + s[1..][..k - 1] == s[..k];
    assert s[1..][k..] == s[k + 1..];
  }

  lemma RemoveAt(s: seq<string>, t: string)
    requires Distinct(s)
    ensures t in s ==> exists k :: 0 <= k < |s| && s[k] == t && Remove(s, t) == s[..k] + s[k + 1..]
  {
    if t in s {
      var k := RemoveIndex(s, t);
    }
  }

  /** Removing a key from a list without repetitions leaves one without repetitions. */
  lemma {:induction false} RemoveDistinct(s: seq<string>, t: string)
    requires Distinct(s)
    ensures Distinct(Remove(s, t))
  {
    if s != [] {
      DistinctTail(s);
      RemoveDistinct(s[1..], t);
      if s[0] != t {
        var rest := Remove(s[1..], t);
        var r := [s[0]] + rest;
        forall i, j | 0 <= i < j < |r| ensures r[i] != r[j] {
          if i == 0 {
            assert r[j] == rest[j - 1];
            assert rest[j - 1] in rest;
          } else {
            assert r[i] == rest[i - 1] && r[j] == rest[j - 1];
          }
        }
      }
    }
  }

  lemma {:induction false} RemoveLength(s: seq<string>, t: string)
    requires Distinct(s)
    ensures |Remove(s, t)| == |s| - (if t in s then 1 else 0)
  {
    if s != [] {
      DistinctTail(s);
      RemoveLength(s[1..], t);
      if s[0] != t {
        assert (t in s) == (t in s[1..]);
      }
    }
  }

  /** What one transport reply does to the registry in `subscribe` and `unsubscribe`. */
  function Apply(topics: Topics, e: Event): (r: Topics)
    requires topics.Valid()
    ensures r.Valid()
  {
    match e
    case Subscribe(t, q, reply) => if reply.result == MQTT_ERR_SUCCESS then topics.Put(t, q) else topics
    case Unsubscribe(t, reply) => if reply.result == MQTT_ERR_SUCCESS then topics.Pop(t) else topics
    case _ => topics
  }

  /** The registry after a run of transport replies, applied in trace order. */
  function Replay(topics: Topics, calls: seq<Event>): (r: Topics)
    requires topics.Valid()
    ensures r.Valid()
  {
    if calls == [] then topics else Apply(Replay(topics, calls[..|calls| - 1]), calls[|calls| - 1])
  }

  /** The newest QoS a successful subscribe on `t` in `calls` stored, if any. */
  function LastGranted(calls: seq<Event>, t: string): Option<int>
  {
    if calls == [] then None
    else
      var e := calls[|calls| - 1];
      if e.Subscribe? && e.topic == t && e.reply.result == MQTT_ERR_SUCCESS then Some(e.qos)
      else LastGranted(calls[..|calls| - 1], t)
  }

  /**
   * Over any run of subscribes, a topic is registered iff it was registered
   * before or some subscribe on it succeeded, and its QoS is the one of the
   * last successful subscribe (else the one it had).
   */
  lemma {:induction false} SubscribesLastWins(topics: Topics, calls: seq<Event>, t: string)
    requires topics.Valid()
    requires forall i :: 0 <= i < |calls| ==> calls[i].Subscribe?
    ensures var r := Replay(topics, calls);
      match LastGranted(calls, t)
      case Some(q) => t in r.entries && r.entries[t] == TopicQos(t, q)
      case None => (t in r.entries <==> t in topics.entries) && (t in r.entries ==> r.entries[t] == topics.entries[t])
  {
    if calls != [] {
      var init := calls[..|calls| - 1];
      SubscribesLastWins(topics, init, t);
    }
  }

  /** The topics some subscribe in `calls` was granted. */
  ghost function GrantedTopics(calls: seq<Event>): set<string>
  {
    set i | 0 <= i < |calls| && calls[i].Subscribe? && calls[i].reply.result == MQTT_ERR_SUCCESS :: calls[i].topic
  }

  /**
   * Over any run of subscribes, the registry gains exactly the granted
   * topics and holds one key per topic, however often a topic was
   * subscribed.
   */
  lemma {:induction false} SubscribesOneEntryPerTopic(topics: Topics, calls: seq<Event>)
    requires topics.Valid()
    requires forall i :: 0 <= i < |calls| ==> calls[i].Subscribe?
    ensures Replay(topics, calls).entries.Keys == topics.entries.Keys + GrantedTopics(calls)
    ensures |Replay(topics, calls).keys| == |topics.entries.Keys + GrantedTopics(calls)|
  {
    var r := Replay(topics, calls);
    if calls == [] {
      assert GrantedTopics(calls) == {};
    } else {
      var init, e := calls[..|calls| - 1], calls[|calls| - 1];
      var before := Replay(topics, init);
      SubscribesOneEntryPerTopic(topics, init);
      assert r.entries.Keys == before.entries.Keys + (if e.reply.result == MQTT_ERR_SUCCESS then {e.topic} else {}) by {
        assert r == Apply(before, e);
        SubscribeKeys(before, e);
      }
      GrantedLast(calls);
      UnionAssoc(topics.entries.Keys, GrantedTopics(init), if e.reply.result == MQTT_ERR_SUCCESS then {e.topic} else {});
    }
    assert |r.keys| == |r.entries.Keys| by {
      DistinctKeysCard(r);
    }
  }

  lemma UnionAssoc<T>(a: set<T>, b: set<T>, c: set<T>)
    ensures (a + b) + c == a + (b + c)
  {
  }

  /** One subscribe reply adds its topic to the keys exactly when it is a success. */
  lemma SubscribeKeys(topics: Topics, e: Event)
    requires topics.Valid() && e.Subscribe?
    ensures Apply(topics, e).entries.Keys == topics.entries.Keys + (if e.reply.result == MQTT_ERR_SUCCESS then {e.topic} else {})
  {
    if e.reply.result == MQTT_ERR_SUCCESS {
      var r := topics.Put(e.topic, e.qos);
      assert r.entries.Keys == topics.entries.Keys + {e.topic};
    }
  }

  lemma GrantedLast(calls: seq<Event>)
    requires calls != [] && calls[|calls| - 1].Subscribe?
    ensures var e := calls[|calls| - 1];
      GrantedTopics(calls) == GrantedTopics(calls[..|calls| - 1]) + (if e.reply.result == MQTT_ERR_SUCCESS then {e.topic} else {})
  {
    var init, e := calls[..|calls| - 1], calls[|calls| - 1];
    forall x | x in GrantedTopics(init) ensures x in GrantedTopics(calls) {
      var i :| 0 <= i < |init| && init[i].Subscribe? && init[i].reply.result == MQTT_ERR_SUCCESS && init[i].topic == x;
      assert calls[i] == init[i];
    }
    forall x | x in GrantedTopics(calls) ensures x in GrantedTopics(init) || (e.reply.result == MQTT_ERR_SUCCESS && x == e.topic) {
      var i :| 0 <= i < |calls| && calls[i].Subscribe? && calls[i].reply.result == MQTT_ERR_SUCCESS && calls[i].topic == x;
      if i < |init| {
        assert calls[i] == init[i];
      }
    }
  }

  lemma {:induction false} DistinctCard(s: seq<string>)
    requires Distinct(s)
    ensures |set x | x in s| == |s|
  {
    if s != [] {
      DistinctTail(s);
      DistinctCard(s[1..]);
      assert (set x | x in s) == {s[0]} + (set x | x in s[1..]);
    }
  }

  lemma DistinctKeysCard(topics: Topics)
    requires topics.Valid()
    ensures |topics.keys| == |topics.entries|
  {
    DistinctCard(topics.keys);
    assert topics.entries.Keys == set x | x in topics.keys;
  }

  /** `calls` are one unsubscribe per key of a prefix of `keys`, in that order, each with some reply. */
  ghost predicate UnsubscribesAlong(calls: seq<Event>, keys: seq<string>)
  {
    |calls| <= |keys| && forall i :: 0 <= i < |calls| ==> calls[i].Unsubscribe? && calls[i].topic == keys[i]
  }

  /** One more reply extends the replay by one step. */
  lemma ReplaySnoc(topics: Topics, calls: seq<Event>, e: Event)
    requires topics.Valid()
    ensures Replay(topics, calls + [e]) == Apply(Replay(topics, calls), e)
  {
    assert (calls + [e])[..|calls|] == calls;
  }

  /** The unsubscribe of the next key of the snapshot extends a run along it. */
  lemma AlongSnoc(calls: seq<Event>, e: Event, keys: seq<string>)
    requires UnsubscribesAlong(calls, keys) && |calls| < |keys|
    requires e.Unsubscribe? && e.topic == keys[|calls|]
    ensures UnsubscribesAlong(calls + [e], keys)
  {
    var next := calls + [e];
    forall j | 0 <= j < |next| ensures next[j].Unsubscribe? && next[j].topic == keys[j] {
      if j < |calls| { assert next[j] == calls[j]; }
    }
  }

  /** The topic at `i` of the snapshot was unsubscribed without success. */
  ghost predicate FailedAt(calls: seq<Event>, i: int)
    requires 0 <= i < |calls| && calls[i].Unsubscribe?
  {
    calls[i].reply.result != MQTT_ERR_SUCCESS
  }

  /**
   * Walking a prefix of the key snapshot: the topics of the prefix stay iff
   * their unsubscribe failed, every later key is still there, and nothing
   * that stays changes its entry.
   */
  lemma {:induction false} UnsubscribePrefix(topics: Topics, calls: seq<Event>)
    requires topics.Valid()
    requires UnsubscribesAlong(calls, topics.keys)
    ensures var r := Replay(topics, calls);
      && (forall i :: 0 <= i < |calls| ==> (topics.keys[i] in r.entries <==> FailedAt(calls, i)))
      && (forall i :: |calls| <= i < |topics.keys| ==> topics.keys[i] in r.entries)
      && (forall u :: u in r.entries ==> u in topics.entries && r.entries[u] == topics.entries[u])
  {
    UnsubscribesKeepEntries(topics, calls);
    if calls != [] {
      var n := |calls|;
      var init := calls[..n - 1];
      assert UnsubscribesAlong(init, topics.keys) by {
        forall i | 0 <= i < |init| ensures init[i] == calls[i] {}
      }
      UnsubscribePrefix(topics, init);
      var before := Replay(topics, init);
      var r := Replay(topics, calls);
      assert r == Apply(before, calls[n - 1]);
      UnsubscribeStep(before, calls[n - 1]);
      PrefixStep(topics.keys, calls, before.entries.Keys, r.entries.Keys);
    }
  }

  /** The inductive step of `UnsubscribePrefix`, on the sets of registered topics before and after the last call. */
  lemma PrefixStep(keys: seq<string>, calls: seq<Event>, before: set<string>, after: set<string>)
    requires Distinct(keys) && UnsubscribesAlong(calls, keys) && calls != []
    requires forall i :: 0 <= i < |calls| - 1 ==> (keys[i] in before <==> FailedAt(calls, i))
    requires forall i :: |calls| - 1 <= i < |keys| ==> keys[i] in before
    requires keys[|calls| - 1] in after <==> FailedAt(calls, |calls| - 1)
    requires forall u :: u != keys[|calls| - 1] ==> (u in after <==> u in before)
    ensures forall i :: 0 <= i < |calls| ==> (keys[i] in after <==> FailedAt(calls, i))
    ensures forall i :: |calls| <= i < |keys| ==> keys[i] in after
  {
  }

  /** Part way through the snapshot, the next key is still registered. */
  lemma NextKeyRegistered(topics: Topics, calls: seq<Event>)
    requires topics.Valid()
    requires UnsubscribesAlong(calls, topics.keys) && |calls| < |topics.keys|
    ensures topics.keys[|calls|] in Replay(topics, calls).entries
  {
    UnsubscribePrefix(topics, calls);
  }

  /** Unsubscribe replies only ever remove entries: whatever stays keeps its entry. */
  lemma {:induction false} UnsubscribesKeepEntries(topics: Topics, calls: seq<Event>)
    requires topics.Valid()
    requires forall i :: 0 <= i < |calls| ==> calls[i].Unsubscribe?
    ensures var r := Replay(topics, calls);
      forall u :: u in r.entries ==> u in topics.entries && r.entries[u] == topics.entries[u]
  {
    if calls != [] {
      var init := calls[..|calls| - 1];
      UnsubscribesKeepEntries(topics, init);
    }
  }

  /** One unsubscribe of a registered topic: it goes iff the reply is a success, and nothing else changes. */
  lemma UnsubscribeStep(before: Topics, e: Event)
    requires before.Valid() && e.Unsubscribe? && e.topic in before.entries
    ensures var r := Apply(before, e);
      && (e.topic in r.entries <==> e.reply.result != MQTT_ERR_SUCCESS)
      && (forall u :: u != e.topic ==> (u in r.entries <==> u in before.entries))
      && (forall u :: u in r.entries ==> r.entries[u] == before.entries[u])
  {
  }

  /**
   * `unsubscribe_all`: after one unsubscribe per key of the snapshot, the
   * registry holds exactly the topics whose unsubscribe failed, with their
   * entries unchanged.
   */
  lemma UnsubscribeAllLeavesFailures(topics: Topics, calls: seq<Event>)
    requires topics.Valid()
    requires UnsubscribesAlong(calls, topics.keys) && |calls| == |topics.keys|
    ensures var r := Replay(topics, calls);
      && (forall u :: u in r.entries <==> exists i :: 0 <= i < |calls| && calls[i].topic == u && calls[i].reply.result != MQTT_ERR_SUCCESS)
      && (forall u :: u in r.entries ==> r.entries[u] == topics.entries[u])
  {
    UnsubscribePrefix(topics, calls);
    var r := Replay(topics, calls);
    forall u ensures u in r.entries <==> exists i :: 0 <= i < |calls| && calls[i].topic == u && calls[i].reply.result != MQTT_ERR_SUCCESS
    {
      if u in r.entries {
        assert u in topics.keys;
        var i :| 0 <= i < |topics.keys| && topics.keys[i] == u;
        assert FailedAt(calls, i);
      }
    }
  }

  /** `unsubscribe_all` empties the registry when every unsubscribe succeeds. */
  lemma UnsubscribeAllSucceededEmpties(topics: Topics, calls: seq<Event>)
    requires topics.Valid()
    requires UnsubscribesAlong(calls, topics.keys) && |calls| == |topics.keys|
    requires forall i :: 0 <= i < |calls| ==> calls[i].reply.result == MQTT_ERR_SUCCESS
    ensures Replay(topics, calls) == Empty
  {
    UnsubscribeAllLeavesFailures(topics, calls);
    var r := Replay(topics, calls);
    assert r.entries == map[];
    DistinctKeysCard(r);
  }

  /** `calls` are one subscribe per registry entry, in registry order, with the entry's stored QoS. */
  ghost predicate ResubscribesOf(calls: seq<Event>, topics: Topics)
    requires topics.Valid()
  {
    && |calls| == |topics.keys|
    && forall i :: 0 <= i < |calls| ==>
         calls[i].Subscribe? && calls[i].topic == topics.keys[i] && calls[i].qos == topics.entries[topics.keys[i]].qos
  }

  /** How many subscribe requests for topic `t` the calls hold. */
  function SubscribesTo(calls: seq<Event>, t: string): nat
  {
    if calls == [] then 0
    else SubscribesTo(calls[..|calls| - 1], t) + (if calls[|calls| - 1].Subscribe? && calls[|calls| - 1].topic == t then 1 else 0)
  }

  lemma {:induction false} SubscribesToPrefix(calls: seq<Event>, keys: seq<string>, n: nat, t: string)
    requires Distinct(keys)
    requires |calls| == |keys| && n <= |calls|
    requires forall i :: 0 <= i < |calls| ==> calls[i].Subscribe? && calls[i].topic == keys[i]
    ensures SubscribesTo(calls[..n], t) == if t in keys[..n] then 1 else 0
  {
    if n > 0 {
      assert calls[..n][..n - 1] == calls[..n - 1];
      SubscribesToPrefix(calls, keys, n - 1, t);
      assert keys[..n] == keys[..n - 1] + [keys[n - 1]];
      if keys[n - 1] == t {
        var init := keys[..n - 1];
        assert t !in init by {
          forall i | 0 <= i < |init| ensures init[i] != t {
            assert init[i] == keys[i];
          }
        }
      }
    }
  }

  /**
   * Resubscribing on connect: every registered topic gets exactly one
   * subscribe request, carrying its stored QoS, and no other topic gets any.
   */
  lemma ResubscribeEachOnce(calls: seq<Event>, topics: Topics)
    requires topics.Valid()
    requires ResubscribesOf(calls, topics)
    ensures forall t :: SubscribesTo(calls, t) == if t in topics.entries then 1 else 0
    ensures forall i :: 0 <= i < |calls| ==> calls[i].topic in topics.entries && calls[i].qos == topics.entries[calls[i].topic].qos
  {
    forall t ensures SubscribesTo(calls, t) == if t in topics.entries then 1 else 0 {
      SubscribesToPrefix(calls, topics.keys, |calls|, t);
      assert calls[..|calls|] == calls;
      assert topics.keys[..|calls|] == topics.keys;
    }
  }

  /** The QoS scenario of the integration tests: a second subscribe overwrites, unsubscribe empties. */
  lemma QosOverwriteScenario()
    ensures Empty.Put("test", 1).entries == map["test" := TopicQos("test", 1)]
    ensures Empty.Put("test", 1).Put("test", 2).entries == map["test" := TopicQos("test", 2)]
    ensures |Empty.Put("test", 1).Put("test", 2).keys| == 1
    ensures Empty.Put("test", 1).Put("test", 2).Pop("test") == Empty
  {
    assert Empty.Valid();
    var one := Empty.Put("test", 1);
    var two := one.Put("test", 2);
    assert two.keys == ["test"];
    assert Remove(["test"], "test") == [];
    assert map["test" := TopicQos("test", 2)] - {"test"} == map[];
  }
}
