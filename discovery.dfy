/** The Home Assistant discovery configuration of the energy meter: the fixed
    table of sensor records (`generate_config`), the retained message each of
    them becomes (`write_config`), and the publish log that a session of
    `update_state` calls produces. */
module Discovery {
  import opened Wrappers
  import opened Naming

  /** One sensor record. The four text keys are fixed by the table;
      `state_topic` is added by `generate_config` and `unique_id` by
      `write_config`, so both start absent. */
  datatype SensorConfig = SensorConfig(
    deviceClass: string,
    name: string,
    unitOfMeasurement: string,
    valueTemplate: string,
    stateTopic: Option<string>,
    uniqueId: Option<string>)

  /** What a message carries: a sensor record (sent as JSON by the source)
      or the state text handed to `update_state`, passed through unchanged. */
  datatype Payload = ConfigPayload(config: SensorConfig) | StatePayload(text: string)

  /** One call of the MQTT client's `publish`. */
  datatype Message = Message(topic: string, payload: Payload, retain: bool)

  function Entry(deviceClass: string, name: string, unit: string, template: string): SensorConfig
  {
    SensorConfig(deviceClass, name, unit, template, None, None)
  }

  /** The live entries of the table in app.py lines 112-245, in order; the
      commented-out entries are not part of it. */
  function SensorTable(): seq<SensorConfig>
  {
    [ Entry("voltage", "Voltage", "V", "{{value_json.voltage}}"),
      Entry("current", "Current", "A", "{{ value_json.current}}"),
      Entry("power", "Power Active", "W", "{{ value_json.power_active}}"),
      Entry("power", "Power Apparent", "VA", "{{ value_json.power_apparent}}"),
      Entry("frequency", "Frequency", "Hz", "{{ value_json.frequency}}"),
      Entry("energy", "Import Energy Active", "kWh", "{{ value_json.import_energy_active}}"),
      Entry("energy", "Export Energy Active", "kWh", "{{ value_json.export_energy_active}}"),
      Entry("power", "Total Demand Power Active", "W", "{{ value_json.total_demand_power_active}}"),
      Entry("power", "Maximum Total Demand Power Active", "W", "{{ value_json.maximum_total_demand_power_active}}"),
      Entry("power", "Import Demand Power Active", "W", "{{ value_json.import_demand_power_active}}"),
      Entry("power", "Maximum Import Demand Power Active", "W", "{{ value_json.maximum_import_demand_power_active}}"),
      Entry("power", "Export Demand Power Active", "W", "{{ value_json.export_demand_power_active}}"),
      Entry("power", "Maximum Export Demand Power Active", "W", "{{ value_json.maximum_export_demand_power_active}}"),
      Entry("current", "Total Demand Current", "A", "{{ value_json.total_demand_current}}"),
      Entry("current", "Maximum Total Demand Current", "A", "{{ value_json.maximum_total_demand_current}}"),
      Entry("energy", "Total Energy Active", "kWh", "{{ value_json.total_energy_active}}") ]
  }

  /** The table has 16 live entries. */
  lemma SensorTableShape()
    ensures |SensorTable()| == 16
  {
  }

  /** Every record with `state_topic` set to `stateTopic`, all else kept
      (the loop of app.py lines 246-247, as a value). */
  function WithStateTopic(sensors: seq<SensorConfig>, stateTopic: string): seq<SensorConfig>
  {
    if sensors == [] then []
    else [sensors[0].(stateTopic := Some(stateTopic))] + WithStateTopic(sensors[1..], stateTopic)
  }

  lemma {:induction false} WithStateTopicAt(sensors: seq<SensorConfig>, stateTopic: string)
    ensures |WithStateTopic(sensors, stateTopic)| == |sensors|
    ensures forall i :: 0 <= i < |sensors| ==>
      WithStateTopic(sensors, stateTopic)[i] == sensors[i].(stateTopic := Some(stateTopic))
  {
    if sensors != [] {
      WithStateTopicAt(sensors[1..], stateTopic);
    }
  }

  /** The value `generate_config` returns for a wrapper whose state topic is
      `stateTopic`. */
  function GeneratedConfig(stateTopic: string): seq<SensorConfig>
  {
    WithStateTopic(SensorTable(), stateTopic)
  }

  /** The retained message `write_config` publishes for one record. */
  function ConfigMessage(topicPrefix: string, sensor: SensorConfig): Message
  {
    Message(ConfigTopic(topicPrefix, Normalise(sensor.name)),
            ConfigPayload(sensor.(uniqueId := Some(UniqueId(sensor.name)))),
            true)
  }

  /** The messages of one pass of the `write_config` loop over `sensors`. */
  function ConfigMessages(topicPrefix: string, sensors: seq<SensorConfig>): seq<Message>
  {
    if sensors == [] then []
    else ConfigMessages(topicPrefix, sensors[..|sensors| - 1]) + [ConfigMessage(topicPrefix, sensors[|sensors| - 1])]
  }

  lemma {:induction false} ConfigMessagesAt(topicPrefix: string, sensors: seq<SensorConfig>)
    ensures |ConfigMessages(topicPrefix, sensors)| == |sensors|
    ensures forall i :: 0 <= i < |sensors| ==>
      ConfigMessages(topicPrefix, sensors)[i] == ConfigMessage(topicPrefix, sensors[i])
  {
    if sensors != [] {
      ConfigMessagesAt(topicPrefix, sensors[..|sensors| - 1]);
    }
  }

  /** Everything one `write_config` call publishes. */
  function ConfigBatch(topicPrefix: string, stateTopic: string): seq<Message>
  {
    ConfigMessages(topicPrefix, GeneratedConfig(stateTopic))
  }

  lemma ConfigBatchLength(topicPrefix: string, stateTopic: string)
    ensures |ConfigBatch(topicPrefix, stateTopic)| == 16
  {
    SensorTableShape();
    WithStateTopicAt(SensorTable(), stateTopic);
    ConfigMessagesAt(topicPrefix, GeneratedConfig(stateTopic));
  }

  /** The batch holds one retained message per table entry, in table order:
      the entry with `state_topic` and `unique_id` added, sent to the entry's
      configuration topic. */
  lemma ConfigBatchContents(topicPrefix: string, stateTopic: string)
    ensures |ConfigBatch(topicPrefix, stateTopic)| == |SensorTable()| == 16
    ensures forall i :: 0 <= i < 16 ==>
      var sensor, m := SensorTable()[i], ConfigBatch(topicPrefix, stateTopic)[i];
      m.retain &&
      m.topic == topicPrefix + "/" + Normalise(sensor.name) + "/config" &&
      m.payload == ConfigPayload(sensor.(stateTopic := Some(stateTopic),
                                         uniqueId := Some("emeter_" + Normalise(sensor.name))))
  {
    SensorTableShape();
    WithStateTopicAt(SensorTable(), stateTopic);
    ConfigMessagesAt(topicPrefix, GeneratedConfig(stateTopic));
  }

  /** A fingerprint of an id: its length and its first and ninth characters. */
  function IdKey(id: string): (int, char, char)
  {
    (|id|, if |id| > 0 then id[0] else ' ', if |id| > 8 then id[8] else ' ')
  }

  /** The fingerprints of the table's normalised ids, entry by entry. */
  const TableIdKeys: seq<(int, char, char)> :=
    [ (7, 'v', ' '), (7, 'c', ' '), (12, 'p', 't'), (14, 'p', 'p'), (9, 'f', 'y'),
      (20, 'i', 'n'), (20, 'e', 'n'), (25, 't', 'm'), (33, 'm', 't'), (26, 'i', 'e'),
      (34, 'm', 'i'), (26, 'e', 'e'), (34, 'm', 'e'), (20, 't', 'm'), (28, 'm', 't'),
      (19, 't', 'e') ]

  /** The names of the table's entries, in table order. */
  const TableNames: seq<string> :=
    [ "Voltage", "Current", "Power Active", "Power Apparent", "Frequency",
      "Import Energy Active", "Export Energy Active", "Total Demand Power Active",
      "Maximum Total Demand Power Active", "Import Demand Power Active",
      "Maximum Import Demand Power Active", "Export Demand Power Active",
      "Maximum Export Demand Power Active", "Total Demand Current",
      "Maximum Total Demand Current", "Total Energy Active" ]

  /** The table's `name` fields are exactly these sixteen display names. */
  lemma SensorTableNames()
    ensures |SensorTable()| == |TableNames|
    ensures forall i :: 0 <= i < |TableNames| ==> SensorTable()[i].name == TableNames[i]
  {
    SensorTableShape();
  }

  /** The fingerprint of `Normalise(name)`, read off `name` itself. */
  function NameKey(name: string): (int, char, char)
  {
    (|name|,
     if |name| > 0 then (if name[0] == ' ' then '_' else LowerChar(name[0])) else ' ',
     if |name| > 8 then (if name[8] == ' ' then '_' else LowerChar(name[8])) else ' ')
  }

  /** Equal ids have equal fingerprints, so names with different
      `NameKey`s normalise to different ids. */
  lemma NameKeyOfNormalise(name: string)
    ensures IdKey(Normalise(name)) == NameKey(name)
  {
  }

  /** Each display name has the fingerprint listed for it. */
  lemma TableNameKeys()
    ensures forall i :: 0 <= i < |TableNames| ==> NameKey(TableNames[i]) == TableIdKeys[i]
  {
  }

  /** The sixteen fingerprints are pairwise different. */
  lemma TableIdKeysDistinct()
    ensures forall i, j :: 0 <= i < j < |TableIdKeys| ==> TableIdKeys[i] != TableIdKeys[j]
  {
  }

  /** No two entries of the table share a normalised id. */
  lemma TableIdsDistinct()
    ensures forall i, j :: 0 <= i < j < |SensorTable()| ==>
      Normalise(SensorTable()[i].name) != Normalise(SensorTable()[j].name)
  {
    SensorTableNames();
    TableNameKeys();
    TableIdKeysDistinct();
    var t := SensorTable();
    forall i, j | 0 <= i < j < |t|
      ensures Normalise(t[i].name) != Normalise(t[j].name)
    {
      NameKeyOfNormalise(TableNames[i]);
      NameKeyOfNormalise(TableNames[j]);
    }
  }

  /** Setting `state_topic` keeps the names, so the ids stay distinct. */
  lemma GeneratedIdsDistinct(stateTopic: string)
    ensures forall i, j :: 0 <= i < j < |GeneratedConfig(stateTopic)| ==>
      Normalise(GeneratedConfig(stateTopic)[i].name) != Normalise(GeneratedConfig(stateTopic)[j].name)
  {
    var t, g := SensorTable(), GeneratedConfig(stateTopic);
    TableIdsDistinct();
    WithStateTopicAt(t, stateTopic);
    forall i, j | 0 <= i < j < |g|
      ensures Normalise(g[i].name) != Normalise(g[j].name)
    {
      assert g[i].name == t[i].name && g[j].name == t[j].name;
    }
  }

  /** The `unique_id` a message declares, if it carries a sensor record. */
  function DeclaredId(m: Message): Option<string>
  {
    if m.payload.ConfigPayload? then m.payload.config.uniqueId else None
  }

  /** No two messages go to the same topic or declare the same `unique_id`. */
  ghost predicate DistinctTargets(ms: seq<Message>)
  {
    forall i, j :: 0 <= i < j < |ms| ==> ms[i].topic != ms[j].topic && DeclaredId(ms[i]) != DeclaredId(ms[j])
  }

  /** Records with pairwise distinct normalised names are published under
      pairwise distinct configuration topics and `unique_id`s. */
  lemma ConfigMessagesDistinct(topicPrefix: string, sensors: seq<SensorConfig>)
    requires forall i, j :: 0 <= i < j < |sensors| ==> Normalise(sensors[i].name) != Normalise(sensors[j].name)
    ensures DistinctTargets(ConfigMessages(topicPrefix, sensors))
  {
    var ms := ConfigMessages(topicPrefix, sensors);
    ConfigMessagesAt(topicPrefix, sensors);
    forall i, j | 0 <= i < j < |sensors|
      ensures ms[i].topic != ms[j].topic && DeclaredId(ms[i]) != DeclaredId(ms[j])
    {
      if ms[i].topic == ms[j].topic {
        ConfigTopicInjective(topicPrefix, Normalise(sensors[i].name), Normalise(sensors[j].name));
      }
    }
  }

  /** No two sensors of the meter share a configuration topic or a
      `unique_id`, so no retained configuration replaces another. */
  lemma ConfigBatchDistinct(topicPrefix: string, stateTopic: string)
    ensures DistinctTargets(ConfigBatch(topicPrefix, stateTopic))
  {
    GeneratedIdsDistinct(stateTopic);
    ConfigMessagesDistinct(topicPrefix, GeneratedConfig(stateTopic));
  }

  /** One retained state publish per reading, to the state topic, in order. */
  function StateMessages(stateTopic: string, readings: seq<string>): seq<Message>
  {
    if readings == [] then []
    else StateMessages(stateTopic, readings[..|readings| - 1])
         + [Message(stateTopic, StatePayload(readings[|readings| - 1]), true)]
  }

  lemma {:induction false} StateMessagesAt(stateTopic: string, readings: seq<string>)
    ensures |StateMessages(stateTopic, readings)| == |readings|
    ensures forall i :: 0 <= i < |readings| ==>
      StateMessages(stateTopic, readings)[i] == Message(stateTopic, StatePayload(readings[i]), true)
  {
    if readings != [] {
      StateMessagesAt(stateTopic, readings[..|readings| - 1]);
    }
  }

  /** What the broker has received after `update_state` was called with each
      of `readings` in turn on a fresh wrapper whose `write_config` publishes
      `batch`: nothing before the first call, then the batch once, then one
      state message per call. */
  function SessionLog(batch: seq<Message>, stateTopic: string, readings: seq<string>): seq<Message>
  {
    if readings == [] then [] else batch + StateMessages(stateTopic, readings)
  }

  /** One more `update_state` call adds the configuration batch only if it is
      the first call, and then exactly one state message. */
  lemma {:induction false} SessionLogStep(batch: seq<Message>, stateTopic: string, readings: seq<string>, state: string)
    ensures SessionLog(batch, stateTopic, readings + [state])
         == SessionLog(batch, stateTopic, readings)
            + (if readings == [] then batch else [])
            + [Message(stateTopic, StatePayload(state), true)]
  {
    var rs, m := readings + [state], Message(stateTopic, StatePayload(state), true);
    assert rs[..|rs| - 1] == readings;
    assert StateMessages(stateTopic, rs) == StateMessages(stateTopic, readings) + [m];
    if readings == [] {
      assert SessionLog(batch, stateTopic, rs) == batch + [m];
    } else {
      var states := StateMessages(stateTopic, readings);
      assert SessionLog(batch, stateTopic, rs) == batch + (states + [m]);
      assert batch + (states + [m]) == (batch + states) + [m];
    }
  }

  /** The ordering a session guarantees: the configuration batch comes
      first, whole and in order; every later message is the state message of
      the matching reading, retained, sent to the state topic. */
  lemma SessionLogOrder(batch: seq<Message>, stateTopic: string, readings: seq<string>)
    requires readings != []
    ensures var log := SessionLog(batch, stateTopic, readings);
      |log| == |batch| + |readings| &&
      log[..|batch|] == batch &&
      (forall i :: |batch| <= i < |log| ==> log[i] == Message(stateTopic, StatePayload(readings[i - |batch|]), true))
  {
    StateMessagesAt(stateTopic, readings);
  }

  /** For this meter: the 16 configuration messages of ConfigBatchContents
      come first, then one retained state message per reading; no
      configuration message follows a state message. */
  lemma MeterSessionOrder(topicPrefix: string, stateTopic: string, readings: seq<string>)
    requires readings != []
    ensures var log := SessionLog(ConfigBatch(topicPrefix, stateTopic), stateTopic, readings);
      |log| == 16 + |readings| &&
      log[..16] == ConfigBatch(topicPrefix, stateTopic) &&
      (forall i :: 16 <= i < |log| ==> log[i] == Message(stateTopic, StatePayload(readings[i - 16]), true))
  {
    ConfigBatchLength(topicPrefix, stateTopic);
    SessionLogOrder(ConfigBatch(topicPrefix, stateTopic), stateTopic, readings);
  }

  /** The message for one entry of the batch, read off the table. */
  lemma ConfigBatchAt(topicPrefix: string, stateTopic: string, i: nat)
    requires i < 16
    ensures |ConfigBatch(topicPrefix, stateTopic)| == 16
    ensures ConfigBatch(topicPrefix, stateTopic)[i] == ConfigMessage(topicPrefix, SensorTable()[i].(stateTopic := Some(stateTopic)))
  {
    SensorTableShape();
    WithStateTopicAt(SensorTable(), stateTopic);
    ConfigMessagesAt(topicPrefix, GeneratedConfig(stateTopic));
  }
}
