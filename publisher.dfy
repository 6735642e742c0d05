/** The `MqttWrapper` class: a publisher session that connects to the MQTT
    broker lazily, writes the discovery configuration once, and then
    publishes each state string, retained, to its state topic.

    The paho client is reduced to what the wrapper relies on: whether a
    client exists (`client`), how many were created (`connects`), and the
    log of everything published (`log`). */
module Publisher {
  import opened Wrappers
  import opened Naming
  import opened Discovery

  /** The seven mandatory settings of the wrapper. */
  datatype Settings = Settings(
    clientName: string,
    mqttServer: string,
    mqttPrefix: string,
    mqttPassword: string,
    mqttUser: string,
    deviceId: string,
    deviceName: string)

  /** The failed assertion of the constructor: the first mandatory key missing. */
  datatype SettingsError = Unset(key: string)
  {
    /** The assertion message: the key, then the fixed explanation. */
    function Message(): (m: string)
      ensures |m| == |key| + |UnsetExplanation|
      ensures m[..|key|] == key && m[|key|..] == UnsetExplanation
    {
      key + UnsetExplanation
    }
  }

  /** What follows the key in the message of a failed assertion (app.py line 32). */
  const UnsetExplanation: string := " is unset. You must specify a server and a client_name"

  /** The mandatory keys, in the order the constructor checks them. */
  const RequiredKeys: seq<string> :=
    ["client_name", "mqtt_server", "mqtt_prefix", "mqtt_password", "mqtt_user", "device_id", "device_name"]

  /** The checks of app.py lines 34-55: construction succeeds exactly when
      every mandatory key is present, takes each setting from its key, and
      otherwise reports the first missing key in checking order. */
  function ParseSettings(settings: map<string, string>): (r: Result<Settings, SettingsError>)
    ensures r.Success? <==> forall k :: k in RequiredKeys ==> k in settings
    ensures r.Success? ==>
      r.value.clientName == settings["client_name"] && r.value.mqttServer == settings["mqtt_server"] &&
      r.value.mqttPrefix == settings["mqtt_prefix"] && r.value.mqttPassword == settings["mqtt_password"] &&
      r.value.mqttUser == settings["mqtt_user"] && r.value.deviceId == settings["device_id"] &&
      r.value.deviceName == settings["device_name"]
    ensures r.Failure? ==> exists k :: 0 <= k < |RequiredKeys| && r.error == Unset(RequiredKeys[k]) &&
                                      RequiredKeys[k] !in settings &&
                                      forall j :: 0 <= j < k ==> RequiredKeys[j] in settings
  {
    if RequiredKeys[0] !in settings then Failure(Unset(RequiredKeys[0]))
    else if RequiredKeys[1] !in settings then Failure(Unset(RequiredKeys[1]))
    else if RequiredKeys[2] !in settings then Failure(Unset(RequiredKeys[2]))
    else if RequiredKeys[3] !in settings then Failure(Unset(RequiredKeys[3]))
    else if RequiredKeys[4] !in settings then Failure(Unset(RequiredKeys[4]))
    else if RequiredKeys[5] !in settings then Failure(Unset(RequiredKeys[5]))
    else if RequiredKeys[6] !in settings then Failure(Unset(RequiredKeys[6]))
    else Success(Settings(settings["client_name"], settings["mqtt_server"], settings["mqtt_prefix"],
                          settings["mqtt_password"], settings["mqtt_user"], settings["device_id"],
                          settings["device_name"]))
  }

  /** The settings dictionary a Settings record stands for. */
  function ToMap(s: Settings): map<string, string>
  {
    map["client_name" := s.clientName, "mqtt_server" := s.mqttServer, "mqtt_prefix" := s.mqttPrefix,
        "mqtt_password" := s.mqttPassword, "mqtt_user" := s.mqttUser, "device_id" := s.deviceId,
        "device_name" := s.deviceName]
  }

  /** Parsing the dictionary of a settings record gives the record back. */
  lemma ParseSettingsRoundTrip(s: Settings)
    ensures ParseSettings(ToMap(s)) == Success(s)
  {
  }

  /** A paho client as `_connect` sets it up: its client id, the
      credentials it was given and the broker it connected to. */
  datatype Client = Client(clientId: string, user: string, password: string, server: string)

  class MqttWrapper {
    const clientName: string
    const mqttServer: string
    const mqttPrefix: string
    const mqttPassword: string
    const mqttUser: string
    const deviceId: string
    const deviceName: string
    const topicPrefix: string
    const stateTopic: string

    /** `self.mqtt_client`: absent until the first connect. */
    var client: Option<Client>
    var wroteConfiguration: bool

    /** How many clients `_connect` has created. */
    ghost var connects: nat
    /** Every message published so far, in order. */
    ghost var log: seq<Message>
    /** The states handed to `update_state` so far. */
    ghost var readings: seq<string>

    /** The client this wrapper's settings describe. */
    function ConfiguredClient(): Client
    {
      Client(clientName, mqttUser, mqttPassword, mqttServer)
    }

    /** The session invariant of a wrapper driven through `update_state`:
        before the first call nothing is connected and nothing published;
        after it there is exactly one client, the configuration is written,
        and the log is the session log of the calls so far. */
    ghost predicate Valid()
      reads this
    {
      topicPrefix == TopicPrefix(mqttPrefix, deviceName) &&
      stateTopic == StateTopic(topicPrefix) &&
      (client.Some? <==> readings != []) &&
      (client.Some? ==> client.value == ConfiguredClient()) &&
      connects == (if readings == [] then 0 else 1) &&
      (wroteConfiguration <==> readings != []) &&
      log == SessionLog(ConfigBatch(topicPrefix, stateTopic), stateTopic, readings)
    }

    /** `__init__` for settings that passed ParseSettings: derives the two
        topics and connects to nothing. */
    constructor (settings: Settings)
      ensures clientName == settings.clientName && mqttServer == settings.mqttServer
      ensures mqttPrefix == settings.mqttPrefix && mqttPassword == settings.mqttPassword
      ensures mqttUser == settings.mqttUser && deviceId == settings.deviceId
      ensures deviceName == settings.deviceName
      ensures topicPrefix == settings.mqttPrefix + "/sensor/" + settings.deviceName
      ensures stateTopic == settings.mqttPrefix + "/sensor/" + settings.deviceName + "/state"
      ensures client.None? && !wroteConfiguration && connects == 0 && log == [] && readings == []
      ensures Valid()
    {
      clientName := settings.clientName;
      mqttServer := settings.mqttServer;
      mqttPrefix := settings.mqttPrefix;
      mqttPassword := settings.mqttPassword;
      mqttUser := settings.mqttUser;
      deviceId := settings.deviceId;
      deviceName := settings.deviceName;
      topicPrefix := TopicPrefix(settings.mqttPrefix, settings.deviceName);
      stateTopic := StateTopic(TopicPrefix(settings.mqttPrefix, settings.deviceName));
      client := None;
      wroteConfiguration := false;
      connects := 0;
      log := [];
      readings := [];
    }

    /** `_connect`: creates a client with the stored credentials and
        connects it to the stored server. */
    method Connect()
      modifies this`client, this`connects
      ensures client == Some(ConfiguredClient())
      ensures connects == old(connects) + 1
    {
      client := Some(ConfiguredClient());
      connects := connects + 1;
    }

    /** `mqtt_client.publish`: only possible once a client exists. */
    method Publish(topic: string, payload: Payload, retain: bool)
      requires client.Some?
      modifies this`log
      ensures log == old(log) + [Message(topic, payload, retain)]
    {
      log := log + [Message(topic, payload, retain)];
    }

    /** `generate_config`: the table with this wrapper's state topic added
        to every entry, built by updating the entries one by one. */
    method GenerateConfig() returns (sensors: seq<SensorConfig>)
      ensures sensors == GeneratedConfig(stateTopic)
    {
      var table := SensorTable();
      sensors := table;
      for i := 0 to |table|
        invariant |sensors| == |table|
        invariant forall k :: 0 <= k < i ==> sensors[k] == table[k].(stateTopic := Some(stateTopic))
        invariant forall k :: i <= k < |table| ==> sensors[k] == table[k]
      {
        sensors := sensors[i := sensors[i].(stateTopic := Some(stateTopic))];
      }
      WithStateTopicAt(table, stateTopic);
    }

    /** `write_config`: publishes the configuration message of every entry,
        retained and in table order, connecting first if no client exists,
        and records that the configuration was written only afterwards. */
    method WriteConfig()
      modifies this`client, this`connects, this`log, this`wroteConfiguration
      ensures wroteConfiguration
      ensures client == (if old(client).None? then Some(ConfiguredClient()) else old(client))
      ensures connects == old(connects) + (if old(client).None? then 1 else 0)
      ensures log == old(log) + ConfigBatch(topicPrefix, stateTopic)
    {
      var sensors := GenerateConfig();
      ConfigBatchLength(topicPrefix, stateTopic);
      PublishConfigs(sensors);
      wroteConfiguration := true;
    }

    /** The loop of `write_config` over the records `generate_config`
        returned: for each one, derive its id, `unique_id` and topic, connect
        if no client exists yet, and publish the record retained. */
    method PublishConfigs(sensors: seq<SensorConfig>)
      modifies this`client, this`connects, this`log
      ensures client == (if old(client).None? && sensors != [] then Some(ConfiguredClient()) else old(client))
      ensures connects == old(connects) + (if old(client).None? && sensors != [] then 1 else 0)
      ensures log == old(log) + ConfigMessages(topicPrefix, sensors)
    {
      for i := 0 to |sensors|
        invariant client == (if old(client).None? && i == 0 then None
                             else if old(client).None? then Some(ConfiguredClient()) else old(client))
        invariant connects == old(connects) + (if old(client).None? && i > 0 then 1 else 0)
        invariant log == old(log) + ConfigMessages(topicPrefix, sensors[..i])
      {
        var sensor := sensors[i];
        var id := Normalise(sensor.name);
        sensor := sensor.(uniqueId := Some(UniqueIdPrefix + id));
        var topic := ConfigTopic(topicPrefix, id);
        if client.None? {
          Connect();
        }
        Publish(topic, ConfigPayload(sensor), true);
        assert sensors[..i + 1][..i] == sensors[..i];
      }
      assert sensors[..|sensors|] == sensors;
    }

    /** `_state_helper`: connect if needed, write the configuration if it
        was not written yet, then publish `state` retained to `topic`, or to
        the state topic when `topic` is absent or empty. */
    method StateHelper(state: string, topic: Option<string>)
      modifies this`client, this`connects, this`log, this`wroteConfiguration
      ensures wroteConfiguration
      ensures client == (if old(client).None? then Some(ConfiguredClient()) else old(client))
      ensures connects == old(connects) + (if old(client).None? then 1 else 0)
      ensures log == old(log)
                     + (if old(wroteConfiguration) then [] else ConfigBatch(topicPrefix, stateTopic))
                     + [Message(if topic.Some? && topic.value != "" then topic.value else stateTopic,
                                StatePayload(state), true)]
    {
      if client.None? {
        Connect();
      }
      if !wroteConfiguration {
        WriteConfig();
      }
      var target := stateTopic;
      if topic.Some? && topic.value != "" {
        target := topic.value;
      }
      Publish(target, StatePayload(state), true);
    }

    /** `update_state`: the first call connects, writes the 16
        configuration messages and then the state; every later call reuses
        the client and adds only the state message. */
    method UpdateState(state: string)
      requires Valid()
      modifies this
      ensures Valid()
      ensures readings == old(readings) + [state]
      ensures client == Some(ConfiguredClient()) && connects == 1
      ensures log == old(log)
                     + (if old(readings) == [] then ConfigBatch(topicPrefix, stateTopic) else [])
                     + [Message(stateTopic, StatePayload(state), true)]
    {
      StateHelper(state, None);
      SessionLogStep(ConfigBatch(topicPrefix, stateTopic), stateTopic, readings, state);
      readings := readings + [state];
    }
  }

  /** Construction from a settings dictionary: fails, creating nothing, when
      a mandatory key is missing; otherwise yields an unconnected wrapper
      that has published nothing. */
  method Construct(settings: map<string, string>) returns (r: Result<MqttWrapper, SettingsError>)
    ensures ParseSettings(settings).Failure? ==> r == Failure(ParseSettings(settings).error)
    ensures r.Failure? ==>
      r.error.key in RequiredKeys && r.error.key !in settings &&
      r.error.Message() == r.error.key + UnsetExplanation
    ensures ParseSettings(settings).Success? ==>
      r.Success? && fresh(r.value) && r.value.Valid() &&
      r.value.client.None? && r.value.log == [] && r.value.readings == [] &&
      r.value.stateTopic == settings["mqtt_prefix"] + "/sensor/" + settings["device_name"] + "/state"
    ensures ParseSettings(settings).Success? ==>
      r.Success? &&
      Settings(r.value.clientName, r.value.mqttServer, r.value.mqttPrefix, r.value.mqttPassword,
               r.value.mqttUser, r.value.deviceId, r.value.deviceName) == ParseSettings(settings).value
  {
    var parsed := ParseSettings(settings);
    if parsed.Failure? {
      return Failure(parsed.error);
    }
    var wrapper := new MqttWrapper(parsed.value);
    return Success(wrapper);
  }
}
