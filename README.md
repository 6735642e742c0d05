# MqttWrapper of the SDM energy-meter bridge, modelled in Dafny

The bridge forwards energy-meter readings to an MQTT broker and announces
the meter to Home Assistant through MQTT discovery. Its logic is the
`MqttWrapper` class in `sdm-modbus-zeromq/rootfs/app.py`:

- construction checks seven mandatory settings and derives two topics;
- the client connects lazily;
- the discovery configuration (one retained message per sensor of a fixed
  16-entry table) is written once;
- then every state string is published, retained, to the state topic.

The project has four modules, one file each:

- `wrappers.dfy`, module `Wrappers`: `Option` and `Result`.
- `naming.dfy`, module `Naming`: the pure string derivations. These are the
  normalised sensor id (`name.lower().replace(" ", "_")`), the `unique_id`
  (`"emeter_"` + id), `topic_prefix`, `state_topic` and the per-sensor
  configuration topic.
- `discovery.dfy`, module `Discovery`: the sensor records and the sensor
  table. It also holds the message a record becomes and the batch one
  `write_config` publishes. `SessionLog` is the log a sequence of
  `update_state` calls produces, together with its ordering lemmas.
- `publisher.dfy`, module `Publisher`: settings parsing and the
  `MqttWrapper` class. The class has the settings as constants, the client
  (`self.mqtt_client`, absent until the first connect) and the
  `wroteConfiguration` flag. It also has ghost state for the broker's view: a
  count of created clients, the log of every
  `(topic, payload, retain)` publish, and the states passed to `update_state`
  so far. `Valid()` is the session invariant. Before the first
  `update_state` nothing is connected or published. After it, exactly one
  client exists, the flag is set, and the log is the configuration batch
  followed by one state message per call. `UpdateState` keeps this invariant.

The loop of `write_config` is the method `PublishConfigs`. `WriteConfig`
calls `GenerateConfig`, then that loop, then sets the flag. Keeping the loop
separate keeps the fixed table out of the loop's proof obligations.

Facts about the code that the model keeps:

- the table has 16 live entries (app.py:112-245);
- the `unique_id` prefix is the literal `emeter_` (app.py:257); the
  stored `device_id` is never used;
- the configuration topic is built from the bare normalised id
  (app.py:259).

## Model

| member | source | states |
|---|---|---|
| `Publisher.ParseSettings` | sdm-modbus-zeromq/rootfs/app.py:34-55 | Construction succeeds exactly when all seven mandatory keys are present. Each setting is taken from its key. Otherwise the error names the first missing key in checking order, and every earlier key is present. |
| `Publisher.ParseSettingsRoundTrip` | sdm-modbus-zeromq/rootfs/app.py:34-55 | Parsing the dictionary of a settings record gives back that record. |
| `Publisher.Construct` | sdm-modbus-zeromq/rootfs/app.py:15-63 | A missing key fails construction and creates nothing. Otherwise the wrapper is fresh, valid, unconnected and has published nothing, its seven stored settings are the dictionary's values, and its state topic is `mqtt_prefix + "/sensor/" + device_name + "/state"`. On failure the error names a mandatory key absent from the dictionary, and its message is that key followed by the fixed explanation. |
| `Publisher.SettingsError.Message` | sdm-modbus-zeromq/rootfs/app.py:32-34 | The assertion message starts with the missing key and ends with the fixed explanation ` is unset. You must specify a server and a client_name`. |
| `Publisher.MqttWrapper.constructor` | sdm-modbus-zeromq/rootfs/app.py:57-62 | Stores the settings. `topic_prefix` is `mqtt_prefix/sensor/device_name` and `state_topic` is that followed by `/state`. There is no client, the flag is false, and nothing is published. |
| `Publisher.MqttWrapper.Connect` | sdm-modbus-zeromq/rootfs/app.py:65-73 | Creates a client with the stored client name, user, password and server, and counts one more client. |
| `Publisher.MqttWrapper.Publish` | sdm-modbus-zeromq/rootfs/app.py:89 | Needs an existing client. Appends exactly the `(topic, payload, retain)` message to the log. |
| `Publisher.MqttWrapper.GenerateConfig` | sdm-modbus-zeromq/rootfs/app.py:106-248 | The result is the fixed table with `state_topic` set to this wrapper's state topic in every entry, in table order. |
| `Publisher.MqttWrapper.PublishConfigs` | sdm-modbus-zeromq/rootfs/app.py:255-268 | Appends one retained configuration message per record, in order. Connects only if no client exists, so at most one client is created. The flag is not touched. |
| `Publisher.MqttWrapper.WriteConfig` | sdm-modbus-zeromq/rootfs/app.py:250-269 | Appends exactly the configuration batch. Creates a client only if none existed. Sets the flag after all records are published. |
| `Publisher.MqttWrapper.StateHelper` | sdm-modbus-zeromq/rootfs/app.py:75-89 | Connects only if no client exists. Appends the configuration batch only if it was not written yet. Then appends one retained state message, to `topic` or, when `topic` is absent or empty, to the state topic. |
| `Publisher.MqttWrapper.UpdateState` | sdm-modbus-zeromq/rootfs/app.py:271-276 | Keeps the session invariant. The first call appends the 16-message batch and then the state. Every later call appends only one retained state message to the state topic. Afterwards exactly one client exists, whichever call this was. |
| `Naming.Lower` | sdm-modbus-zeromq/rootfs/app.py:256 | Lower-casing keeps the length and lower-cases each character in place. |
| `Naming.ReplaceChar` | sdm-modbus-zeromq/rootfs/app.py:256 | Replacement keeps the length. Each occurrence of the old character becomes the new one, and every other character is kept. |
| `Naming.Normalise` | sdm-modbus-zeromq/rootfs/app.py:256 | The id has the name's length. Each space becomes `_` and every other character is lower-cased. |
| `Naming.NormaliseIsCanonical` | sdm-modbus-zeromq/rootfs/app.py:256 | A normalised id holds no space and no upper-case letter. |
| `Naming.NormaliseIdempotent` | sdm-modbus-zeromq/rootfs/app.py:256 | Normalising an id again leaves it unchanged. |
| `Naming.UniqueId` | sdm-modbus-zeromq/rootfs/app.py:257 | The `unique_id` is the literal `emeter_` followed by the normalised id. |
| `Naming.UniqueIdInjective` | sdm-modbus-zeromq/rootfs/app.py:257 | Equal `unique_id`s come only from equal normalised ids. |
| `Naming.TopicPrefix` | sdm-modbus-zeromq/rootfs/app.py:57 | `topic_prefix` is the MQTT prefix followed by `/sensor/` and the device name. |
| `Naming.StateTopic` | sdm-modbus-zeromq/rootfs/app.py:59 | `state_topic` is `topic_prefix` followed by `/state`. Removing that suffix gives `topic_prefix` back. |
| `Naming.ConfigTopic` | sdm-modbus-zeromq/rootfs/app.py:259 | The configuration topic is `topic_prefix` + `/` + id + `/config`. |
| `Naming.ConfigTopicIsNotStateTopic` | sdm-modbus-zeromq/rootfs/app.py:57-59 | No configuration topic equals the state topic under the same prefix. |
| `Naming.ConfigTopicInjective` | sdm-modbus-zeromq/rootfs/app.py:259 | Under one prefix, equal configuration topics come only from equal ids. |
| `Discovery.SensorTableShape` | sdm-modbus-zeromq/rootfs/app.py:112-245 | The table has 16 live entries. |
| `Discovery.WithStateTopicAt` | sdm-modbus-zeromq/rootfs/app.py:246-247 | Adding the state topic keeps the length and order. Each entry gets `state_topic` and keeps every other field. |
| `Discovery.ConfigMessagesAt` | sdm-modbus-zeromq/rootfs/app.py:255-268 | There is one message per record, in record order, each the record's retained configuration message. |
| `Discovery.ConfigBatchLength` | sdm-modbus-zeromq/rootfs/app.py:255-268 | One `write_config` publishes exactly 16 messages. |
| `Discovery.ConfigBatchAt` | sdm-modbus-zeromq/rootfs/app.py:255-268 | Message `i` of the batch is the configuration message of table entry `i`, with the state topic set. |
| `Discovery.ConfigBatchContents` | sdm-modbus-zeromq/rootfs/app.py:250-269 | Every batch message is retained. It goes to `topic_prefix/<id>/config` and carries its table entry with `state_topic` and `unique_id = "emeter_" + id` added; all other fields are unchanged. |
| `Discovery.NameKeyOfNormalise` | sdm-modbus-zeromq/rootfs/app.py:256 | Proof step of `TableIdsDistinct`: the length and the first and ninth characters of a normalised id can be read off the display name: the lower-cased character, or `_` for a space. |
| `Discovery.TableNameKeys` | sdm-modbus-zeromq/rootfs/app.py:112-245 | Proof step of `TableIdsDistinct`: each table name has the fingerprint listed for it. |
| `Discovery.TableIdKeysDistinct` | sdm-modbus-zeromq/rootfs/app.py:112-245 | Proof step of `TableIdsDistinct`: no two table entries have the same fingerprint. |
| `Discovery.SensorTableNames` | sdm-modbus-zeromq/rootfs/app.py:112-245 | Proof step of `TableIdsDistinct`: the table's `name` fields are the sixteen display names, in table order. |
| `Discovery.TableIdsDistinct` | sdm-modbus-zeromq/rootfs/app.py:112-245 | No two table entries share a normalised id. |
| `Discovery.GeneratedIdsDistinct` | sdm-modbus-zeromq/rootfs/app.py:246-248 | The records `generate_config` returns have pairwise distinct ids. |
| `Discovery.ConfigMessagesDistinct` | sdm-modbus-zeromq/rootfs/app.py:255-259 | Records with distinct ids get distinct configuration topics and distinct `unique_id`s. |
| `Discovery.ConfigBatchDistinct` | sdm-modbus-zeromq/rootfs/app.py:250-269 | No two configuration messages of the meter share a topic or a `unique_id`. |
| `Discovery.StateMessagesAt` | sdm-modbus-zeromq/rootfs/app.py:85-89 | There is one retained state message per reading, in order, each sent to the state topic. |
| `Discovery.SessionLogStep` | sdm-modbus-zeromq/rootfs/app.py:79-89 | One more `update_state` adds the configuration batch only if it is the first call. It then adds exactly one state message. |
| `Discovery.SessionLogOrder` | sdm-modbus-zeromq/rootfs/app.py:271-276 | After any non-empty sequence of calls, the log is the whole batch followed by the state message of each call in order: every message after the batch is a state message. |
| `Discovery.MeterSessionOrder` | sdm-modbus-zeromq/rootfs/app.py:82-89 | For this meter, the log holds 16 configuration messages and then exactly one retained state message to the state topic per reading. |

## Left out

- The paho-mqtt client is not part of this model: its construction, `username_pw_set`, `connect` and `publish` over the network. A connect is only a client value and a counter. A publish is only an append to a ghost log of `(topic, payload, retain)` messages.
- `json.dumps` is not modelled. Configuration payloads are the sensor records themselves. State payloads are the text handed to `update_state`, passed through unchanged.
- Failures of connect or publish are not modelled: in the source they raise and end the process. A failure inside the `write_config` loop would leave the flag false, so the next call would publish the whole batch again from the first sensor. The model assumes every connect and publish succeeds.
- The ZeroMQ reading source (`Client.get_data`) and the `__main__` block are outside this model. This covers argument reading, the empty-host checks and the endless fetch-and-publish loop: input and output plumbing with no termination.
- Logging calls are left out; they have no effect on behaviour.
- The commented-out `delete` method and the commented-out table entries are dead code and are left out.
- Naming.Lower: models `str.lower()` for the ASCII letters only. Every name in the table is ASCII; Unicode case mapping is not modelled.
- Publisher.ParseSettings: settings values are strings. The source accepts values of any type and formats them into the topics with f-strings. With Python's optimisation flag the source would skip its `assert` checks; that case is not modelled.
- Publisher.MqttWrapper.StateHelper: takes the state as a string. The source's default `state=None` is never used by `update_state`.
- Publisher.MqttWrapper.UpdateState: requires the session invariant `Valid()`. This holds for a wrapper driven only through `update_state`. Calling the public `write_config` directly in between, as the source allows, is covered only by `WriteConfig`'s own contract, not by the session invariant.
