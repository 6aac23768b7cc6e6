# SwitchBot Cloud discovery engine, modelled in Dafny

The `switchbot_cloud` Home Assistant integration polls a SwitchBot cloud account for its
device list and announces newly seen devices to the platforms that turn them into
entities. This project models the discovery and de-duplication core of that integration:

- `devices.dfy` (module `Devices`): the three notification categories (cover, sensor,
  switch), a polled device record, and the static table `DEVICE_TYPE_MAPPING` that says
  which categories a raw device type feeds ("Curtain" and "CurtainGroup" feed cover and
  sensor, "Bot" feeds switch, anything else feeds nothing).
- `accounts.dfy` (module `Accounts`): the account object with its `known_ids` ledger (a map
  from category to the list of ids already announced) and its `listeners` (dispatcher
  unsubscribe handles, kept as opaque tokens); the signal name per category; the update
  callback, which walks one polled list and groups, per category, the devices that are new
  for it. Dispatching is modelled by returning the grouped map. The pure definitions
  `Group` and `NewDevices` say what the callback computes; the lemmas beside them state
  what that means.
- `switch_platform.dfy` (module `SwitchPlatform`): the switch platform's handler, which is
  the only code that writes the ledger. It makes one entity per device whose id the switch
  ledger lacks and appends that id at once, so a repeated id in one batch yields a single
  entity. The entity class keeps a cached on/off state. This file also holds what the
  callback and the handler guarantee together over several polls.
- `api.dfy` (module `Api`): the API client as three flags (a session exists; the poll task
  is set; that task still loops), with `authenticate`, `start`, `stop`, and one pass of the
  poll loop as a tick, either one that fetched a list or one whose fetch raised.

Behaviour worth knowing, all of it as the code is written:

- The update callback never writes `known_ids`. It does not remove a device repeated
  within one poll: such a device is announced twice (`RepeatAnnouncedTwice`). Only the
  switch handler removes repeats.
- No cover or sensor subscriber records ids: `cover.py` and `sensor.py` do not connect to
  the signals. So a curtain is announced to cover and sensor again on every poll
  (`CoverAndSensorReannounced`). Only the switch category announces an id in at most one
  poll (`SwitchAnnouncedOnce`), and each id becomes at most one switch entity
  (`EntitiesOverPollsDistinct`). Within a single poll a Bot listed twice is still announced
  twice to the switch category.
- `authenticate` stores the session object before the password is checked. A rejected
  password therefore still leaves the client with a session, and a second `authenticate`
  on it would fail its assertion.
- The poll loop has no exception handling. A pass whose fetch or callback raises ends the
  task, but `_task` stays set, so `start` makes no new task and the callback receives
  nothing more until `stop` and `start` (`NoBatchAfterRaise`). Poll failures were meant to
  be transient, skipping one pass only; the model follows the code.

## Model

| member | source | states |
|---|---|---|
| `Devices.ClassificationTable` | custom_components/switchbot_cloud/account.py:20-24 | "Curtain" and "CurtainGroup" feed exactly cover and sensor, "Bot" feeds exactly switch, and every other type feeds no category |
| `Devices.MappingHasNoRepeats` | custom_components/switchbot_cloud/account.py:20-24 | no listed type names one category twice |
| `Accounts.SignalNewDevice` | custom_components/switchbot_cloud/account.py:58-67 | the signal name starts with "switchbot_cloud_new_" and ends with the account id |
| `Accounts.SignalNamesDistinct` | custom_components/switchbot_cloud/account.py:59-67 | two signal names are equal exactly when both the category and the account id are equal, so the three categories never share a signal |
| `Accounts.FreshLedger` | custom_components/switchbot_cloud/account.py:45-46 | the ledger built category by category has exactly the three categories, each with no ids |
| `Accounts.Account.constructor` | custom_components/switchbot_cloud/account.py:36-46 | a new account has the empty three-category ledger and no listeners |
| `Accounts.Account.UpdateDevices` | custom_components/switchbot_cloud/account.py:89-117 | the nested loop builds exactly `NewDevices`: for each category, the poll's devices new for it, in order, only for categories with at least one; it changes neither the ledger nor the listeners, so two calls over one ledger give the same groups |
| `Accounts.GroupMembership` | custom_components/switchbot_cloud/account.py:94-112 | a device is in the group for a category exactly when it is in the poll, its type feeds that category, and its id is not in that category's ledger |
| `Accounts.GroupPositions` | custom_components/switchbot_cloud/account.py:94-112 | each group member sits at a strictly increasing position in the poll, so groups keep the poll's order, and every position whose device is new appears |
| `Accounts.NewDevicesAnnounced` | custom_components/switchbot_cloud/account.py:109-117 | every announced group is non-empty, and a category is announced exactly when some device of the poll is new for it |
| `Accounts.UnknownTypeAnnouncedNowhere` | custom_components/switchbot_cloud/account.py:98-99 | a device whose type is not in the table is in no announced group |
| `Accounts.KnownIdNotAnnounced` | custom_components/switchbot_cloud/account.py:101-103 | a device whose id is in the ledger for a category is absent from that category's group |
| `Accounts.GroupIndependent` | custom_components/switchbot_cloud/account.py:101-103 | a category's group depends on the ledger only through that category's entry |
| `Accounts.RepeatAnnouncedTwice` | custom_components/switchbot_cloud/account.py:94-112 | a new device listed twice in one poll appears twice in its group |
| `Accounts.Account.Reset` | custom_components/switchbot_cloud/account.py:134-141 | every unsubscribe is called once, in order; afterwards there are no listeners and the ledger is the empty three-category ledger |
| `SwitchPlatform.SubscribeSwitches` | custom_components/switchbot_cloud/switch.py:46-50 | the unsubscribe token of the switch handler is appended to the account's listeners |
| `SwitchPlatform.AddSwitch` | custom_components/switchbot_cloud/switch.py:22-44 | the entities are fresh and correspond one to one, in order, to `AddedSwitches` of the batch; each has the device id as unique id and the device's name and state; the switch ledger becomes the old one followed by the new ids; the cover and sensor ledgers are untouched; the entities are handed over exactly when there is at least one |
| `SwitchPlatform.AddedAreUnknown` | custom_components/switchbot_cloud/switch.py:30-31 | an entity is made only from a device of the batch whose id the switch ledger lacked |
| `SwitchPlatform.AddedIdsDistinct` | custom_components/switchbot_cloud/switch.py:25-41 | no two entities of one batch share an id, even when the batch repeats an id |
| `SwitchPlatform.LedgerCoversBatch` | custom_components/switchbot_cloud/switch.py:30-41 | after the handler, the switch ledger starts with the ids it held before and holds the id of every device of the batch |
| `SwitchPlatform.AddedIdSet` | custom_components/switchbot_cloud/switch.py:25-41 | the ids of the entities are exactly the batch's ids that the ledger lacked |
| `SwitchPlatform.EntityCount` | custom_components/switchbot_cloud/switch.py:25-41 | the number of entities equals the number of distinct previously unknown ids in the batch |
| `SwitchPlatform.AddedPositions` | custom_components/switchbot_cloud/switch.py:25-44 | entities keep batch order, and each is made from the first device of the batch carrying its id |
| `SwitchPlatform.BinarySwitch.constructor` | custom_components/switchbot_cloud/switch.py:56-65 | the entity keeps the device, takes the device id as unique id, and caches the given name and state |
| `SwitchPlatform.BinarySwitch.TurnOn` | custom_components/switchbot_cloud/switch.py:103-107 | afterwards the cached state is on, and nothing else of the entity changes |
| `SwitchPlatform.BinarySwitch.TurnOff` | custom_components/switchbot_cloud/switch.py:109-113 | afterwards the cached state is off, and nothing else of the entity changes |
| `SwitchPlatform.PollRecordsSwitches` | custom_components/switchbot_cloud/switch.py:30-41 | after a poll whose switch group went through the handler, the switch ledger keeps its old ids as a prefix and holds the id of every device of the poll that feeds the switch category |
| `SwitchPlatform.SwitchAnnouncedOnce` | custom_components/switchbot_cloud/account.py:101-103 | a device with the id of a switch-feeding device of an earlier poll is never in the switch group of any later poll, however many polls come between |
| `SwitchPlatform.SecondPollAnnouncesNoSwitch` | custom_components/switchbot_cloud/switch.py:41 | polling the same list a second time announces nothing to the switch category |
| `SwitchPlatform.CoverAndSensorReannounced` | custom_components/switchbot_cloud/account.py:101-103 | the cover and sensor groups of a poll are the same after the switch handler has run, so those devices are announced again |
| `SwitchPlatform.PollEntitiesRecorded` | custom_components/switchbot_cloud/switch.py:30-41 | one poll's entities have distinct ids that the switch ledger lacked before the poll and holds after it, and the ledger loses no id |
| `SwitchPlatform.EntitiesOverPollsDistinct` | custom_components/switchbot_cloud/switch.py:30-41 | over any run of polls without a reset, no two switch entities share an id, and none has an id the ledger held at the start |
| `Api.ApiClient.constructor` | custom_components/switchbot_cloud/api.py:13-17 | a new client has no session and no poll task |
| `Api.ApiClient.Authenticate` | custom_components/switchbot_cloud/api.py:19-24 | allowed only without a session; afterwards there is a session whether or not the password was accepted, and the outcome is success exactly when it was |
| `Api.ApiClient.Start` | custom_components/switchbot_cloud/api.py:26-45 | allowed only with a session; afterwards a task is set; a new, looping task is made exactly when none was set, otherwise nothing changes, even if the set task no longer loops |
| `Api.ApiClient.Stop` | custom_components/switchbot_cloud/api.py:47-53 | afterwards no task is set; a task is cancelled exactly when one was set, otherwise nothing changes |
| `Api.ApiClient.Tick` | custom_components/switchbot_cloud/api.py:35-43 | a pass that fetched a list hands over exactly what `Delivery` gives for the client's state |
| `Api.ApiClient.TickRaised` | custom_components/switchbot_cloud/api.py:35-43 | a pass whose fetch raised ends the task's looping and leaves the session and the set task as they were |
| `Api.Delivery` | custom_components/switchbot_cloud/api.py:40-41 | a pass of the loop hands over a batch exactly when the task still loops and the list is non-empty, and the batch is the polled list |
| `Api.StepConsistent` | custom_components/switchbot_cloud/api.py:26-53 | every event keeps the session, and only a set task is ever looping |
| `Api.BatchesNonEmpty` | custom_components/switchbot_cloud/api.py:35-43 | over any run of starts, stops, polls and raising passes, every batch the callback receives is non-empty |
| `Api.NoBatchAfterStop` | custom_components/switchbot_cloud/api.py:47-53 | once stopped, the callback receives nothing until the client is started again |
| `Api.NoBatchAfterRaise` | custom_components/switchbot_cloud/api.py:30-43 | once a pass has raised, the callback receives nothing until the client is stopped, since `start` sees the task still set |
| `Api.StartStopIdempotent` | custom_components/switchbot_cloud/api.py:26-53 | starting twice is starting once, stopping twice is stopping once, stop after start leaves no task, a start cannot revive a task that raised, and a stop followed by a start does |

## Left out

- The asyncio task, `asyncio.sleep(60)`, `run_in_executor` and task cancellation are
  concurrency and timing. The model keeps only whether the task is set and whether it
  still loops, and one pass of the `while True` loop is a tick. A cancelled task makes no
  further pass, so a tick of a stopped client hands over nothing.
- The `switchbot` library (`SwitchBot`, `authenticate`, `devices`, `device.turn`) is a
  remote service. The cloud's answer to the password is the `accepted` parameter, the
  polled list is the tick's parameter, and the remote `turn` call before the cached state
  is set is not modelled.
- Home Assistant's dispatcher (`async_dispatcher_send`/`async_dispatcher_connect`) is not
  modelled. Sending is the grouped map that `UpdateDevices` returns, and connecting
  yields the unsubscribe token that `SubscribeSwitches` takes as a parameter.
- Accounts.Account.UpdateDevices: the order in which categories are dispatched (the
  insertion order of the Python dict) is not kept, because the result is a map.
- `async_generate_entity_id`, the entity's `entity_id`, `device_info`, and the
  `async_update` re-read of name and state are host glue and remote reads.
  `async_add_entities` is represented by the `handedOver` flag and the returned entities.
- Accounts.Account.Reset: stopping and dropping the API client and unloading the
  platforms are not part of the account model. `Api.ApiClient.Stop` models the stop.
- `async_setup` of the account, `shutdown`, `get_account_from_config_entry` and the
  integration's `__init__.py` (registration in `hass.data`, the stop-event listener, the
  startup banner) are host glue. Setup stores the account by `entry_id`, while unload
  pops it by `unique_id`; this is not modelled.
- `cover.py` and `sensor.py` build placeholder entities from a coordinator and take no part
  in discovery. Their modules' `.entity` base class is not part of this model.
- `const.py` holds plain strings. The categories are a Dafny datatype, and the three
  category constants the account module imports are distinct values of it.
