/** The string derivations of the MQTT wrapper: the normalised sensor id
    (`name.lower().replace(" ", "_")`), the `unique_id` built from it, and
    the three topic strings of the Home Assistant discovery layout. */
module Naming {

  /** One character of `str.lower()`, for the ASCII letters. */
  function LowerChar(c: char): char
  {
    if 'A' <= c <= 'Z' then (c as int - 'A' as int + 'a' as int) as char else c
  }

  predicate IsUpper(c: char)
  {
    'A' <= c <= 'Z'
  }

  /** `s.lower()`: every character lower-cased, nothing added or removed. */
  function Lower(s: string): (r: string)
    ensures |r| == |s|
    ensures forall i :: 0 <= i < |s| ==> r[i] == LowerChar(s[i])
  {
    if s == [] then [] else [LowerChar(s[0])] + Lower(s[1..])
  }

  /** `s.replace(from, to)` for one-character `from` and `to`: every
      occurrence of `from` becomes `to`, every other character stays. */
  function ReplaceChar(s: string, from: char, to: char): (r: string)
    ensures |r| == |s|
    ensures forall i :: 0 <= i < |s| ==> r[i] == (if s[i] == from then to else s[i])
  {
    if s == [] then [] else [if s[0] == from then to else s[0]] + ReplaceChar(s[1..], from, to)
  }

  /** The id a display name is published under (app.py line 256). */
  function Normalise(name: string): (id: string)
    ensures |id| == |name|
    ensures forall i :: 0 <= i < |name| ==>
      id[i] == (if name[i] == ' ' then '_' else LowerChar(name[i]))
  {
    ReplaceChar(Lower(name), ' ', '_')
  }

  /** A normalised id holds no space and no upper-case letter. */
  lemma NormaliseIsCanonical(name: string)
    ensures forall i :: 0 <= i < |name| ==> Normalise(name)[i] != ' ' && !IsUpper(Normalise(name)[i])
  {
  }

  /** Normalising twice changes nothing. */
  lemma NormaliseIdempotent(name: string)
    ensures Normalise(Normalise(name)) == Normalise(name)
  {
  }

  /** The literal prefix of every published `unique_id` (app.py line 257);
      it does not depend on the configured `device_id`. */
  const UniqueIdPrefix: string := "emeter_"

  function UniqueId(name: string): (u: string)
    ensures |u| == |UniqueIdPrefix| + |name|
    ensures u[..|UniqueIdPrefix|] == UniqueIdPrefix && u[|UniqueIdPrefix|..] == Normalise(name)
  {
    UniqueIdPrefix + Normalise(name)
  }

  /** `topic_prefix`, app.py line 57. */
  function TopicPrefix(mqttPrefix: string, deviceName: string): (t: string)
    ensures |t| == |mqttPrefix| + 8 + |deviceName|
    ensures t[..|mqttPrefix|] == mqttPrefix && t[|mqttPrefix|..] == "/sensor/" + deviceName
  {
    mqttPrefix + "/sensor/" + deviceName
  }

  /** `state_topic`, app.py line 59: the topic prefix followed by `/state`. */
  function StateTopic(topicPrefix: string): (t: string)
    ensures |t| == |topicPrefix| + 6
    ensures t[..|topicPrefix|] == topicPrefix && t[|topicPrefix|..] == "/state"
  {
    topicPrefix + "/state"
  }

  /** The per-sensor configuration topic, app.py line 259. */
  function ConfigTopic(topicPrefix: string, id: string): (t: string)
    ensures |t| == |topicPrefix| + |id| + 8
    ensures t[..|topicPrefix|] == topicPrefix && t[|topicPrefix|..] == "/" + id + "/config"
  {
    topicPrefix + "/" + id + "/config"
  }

  /** A configuration topic is never the state topic under the same prefix:
      the two retained messages never replace each other. */
  lemma ConfigTopicIsNotStateTopic(topicPrefix: string, id: string)
    ensures ConfigTopic(topicPrefix, id) != StateTopic(topicPrefix)
  {
  }

  /** Distinct ids give distinct configuration topics under one prefix. */
  lemma ConfigTopicInjective(topicPrefix: string, a: string, b: string)
    requires ConfigTopic(topicPrefix, a) == ConfigTopic(topicPrefix, b)
    ensures a == b
  {
    var ta, tb := ConfigTopic(topicPrefix, a), ConfigTopic(topicPrefix, b);
    assert |a| == |b|;
    assert a == ta[|topicPrefix| + 1 .. |topicPrefix| + 1 + |a|];
    assert b == tb[|topicPrefix| + 1 .. |topicPrefix| + 1 + |b|];
  }

  /** Names with distinct normalised ids get distinct `unique_id`s. */
  lemma UniqueIdInjective(a: string, b: string)
    requires UniqueId(a) == UniqueId(b)
    ensures Normalise(a) == Normalise(b)
  {
  }
}
