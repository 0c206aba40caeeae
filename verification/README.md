# OpenMotics coordinator and cover platform in Dafny

This project models the decision logic of the OpenMotics Home Assistant
integration: the data update coordinator and the cover (shutter) platform.

- **Coordinator** (`coordinator.dfy`). The `OpenMoticsDataUpdateCoordinator`
  class fixes the installation id and the client at construction. The client
  is a cloud client when the configured host is the default cloud host, and a
  local gateway client otherwise. `GetToken` classifies the outcome of the
  client's login: a timeout becomes `CannotConnect`, and an `ApiException`
  becomes `ConfigEntryNotReady` carrying the error text. `AsyncUpdateData`
  fetches outputs, lights, group actions, shutters and sensors in that order.
  The first `ApiException` stops the fetching and yields the snapshot whose
  five collections are all empty. Any other exception propagates.
- **Cover** (`cover.dfy`). `AsyncSetupEntry` creates one `OpenMoticsShutter`
  per shutter whose name is present, non-empty and not the not-in-use
  sentinel. Each entity is bound to its `enumerate` index. A shutter entity
  reports its position and a three-valued `IsClosed`. Open, close and stop
  each send one command, then request one refresh.

The pyhaopenmotics client is an oracle. Each `get_all` outcome is a
`Result<seq<Device>, ClientError>`, given as a function of the resource kind.
The login and command outcomes are `Option<ClientError>`, where None means the
call returned. The requests actually issued are recorded in the coordinator's
`calls` trace. The sentinels `DEFAULT_HOST` and `NOT_IN_USE` are defined in
`const.py`, which is not part of this model, so they are parameters
(`defaultHost`, `notInUse`). The entity base class in `entity.py` is not part
of this model either. The entity's `install_id` is taken to be the
coordinator's installation id, and its `device_id` the bound record's `id`.

Two behaviours of the code that the model keeps:

- The shown code binds a shutter entity's record `data["shutters"][index]`
  only at construction (cover.py:71).
- Only `ApiException` degrades a fetch cycle to the empty snapshot. A timeout
  or any other exception raised by a `get_all` call propagates out of
  `_async_update_data`.

## Model

| member | source | states |
|---|---|---|
| `Coordinator.SelectClient` | custom_components/openmotics/coordinator.py:46-58 | The cloud client is chosen if and only if the host equals the default host. The cloud client gets only the client id and secret. The local client also gets server = host, port, and ssl = the verify-SSL flag. |
| `Coordinator.OpenMoticsDataUpdateCoordinator.constructor` | custom_components/openmotics/coordinator.py:33-58 | The installation id and the client are fixed at construction (the `install_id` and `omclient` properties are these constant fields). No data is stored yet and no request has been issued. |
| `Coordinator.GetToken` | custom_components/openmotics/coordinator.py:60-77 | Returns True exactly when the login returns. It raises CannotConnect exactly on a timeout. It raises ConfigEntryNotReady exactly on an ApiException, and the message is "Unable to connect to OpenMoticsApi: " followed by the error text. Any other exception propagates unchanged. |
| `Coordinator.IssueCalls` | custom_components/openmotics/coordinator.py:85-90 | Calls go out in the given order, each scoped by the installation id. No exception means every call returned, and the collections are exactly their results. Otherwise the last call issued is the first one that raised, and every earlier call returned. |
| `Coordinator.AsyncUpdateData` | custom_components/openmotics/coordinator.py:79-109 | A returned snapshot always has exactly the five keys. Between one and five calls are issued, as a prefix of the fetch order, all scoped by the installation id. |
| `Coordinator.AllFetchesSucceed` | custom_components/openmotics/coordinator.py:86-109 | When all five calls return, each key maps to exactly its call's result. All five calls were issued, in the order outputs, lights, groupactions, shutters, sensors. |
| `Coordinator.FirstFailureDecides` | custom_components/openmotics/coordinator.py:85-101 | If call k is the first to raise, exactly k+1 calls were issued. An ApiException then gives the all-empty snapshot, and any other exception propagates. |
| `Coordinator.NeverPartial` | custom_components/openmotics/coordinator.py:92-109 | A returned snapshot is either the all-empty one or holds every collection exactly as fetched, never a partial mix. |
| `Coordinator.NoCallAfterFailure` | custom_components/openmotics/coordinator.py:86-92 | Once the call for one kind raises, no call for a later kind is issued. |
| `Coordinator.OpenMoticsDataUpdateCoordinator.Send` | custom_components/openmotics/cover.py:88-91 | A command sent through the client is appended to the trace, and the stored data is unchanged. |
| `Coordinator.OpenMoticsDataUpdateCoordinator.AsyncRefresh` | custom_components/openmotics/coordinator.py:79-109 | A refresh appends one Refresh request and the update's `get_all` calls to the trace. It stores the returned snapshot, or keeps the previous data when the update raised. The five-key invariant is preserved. |
| `Cover.KeptIndicesExact` | custom_components/openmotics/cover.py:45-53 | The shutter at index i gets an entity if and only if its name is present, not "" and not the not-in-use sentinel. |
| `Cover.KeptIndicesIncreasing` | custom_components/openmotics/cover.py:45-53 | The kept indices are strictly increasing, so the entities keep snapshot order. |
| `Cover.AsyncSetupEntry` | custom_components/openmotics/cover.py:35-59 | While the coordinator holds no data, subscripting it fails (`NoSnapshot`) and nothing is added. Otherwise the j-th entity is new, distinct from the others, and bound to the j-th kept `enumerate` index (not to j), to the record at that index and to that record's position. With no kept shutter it returns False and adds nothing. Otherwise it adds exactly the filtered list and returns None. |
| `Cover.OpenMoticsShutter.constructor` | custom_components/openmotics/cover.py:67-84 | The entity's record is `data["shutters"][index]` as read at construction, and its `current_cover_position` is that record's status position. |
| `Cover.OpenMoticsShutter.IsClosed` | custom_components/openmotics/cover.py:73-78 | Unknown exactly when the position is unknown. True exactly at position 0, and False exactly at a known non-zero position. |
| `Cover.FetchesOnly` | custom_components/openmotics/coordinator.py:86-90 | The calls of an update hold no shutter command and no refresh request. |
| `Cover.OneCommandThenOneRefresh` | custom_components/openmotics/cover.py:86-108 | The trace of an action whose command returned starts with that command, then one Refresh. It holds exactly one command and exactly one refresh. |
| `Cover.OpenMoticsShutter.AsyncOpenCover` | custom_components/openmotics/cover.py:86-92 | Sends `up(install_id, device_id)`, then one refresh. If the command raises, the exception propagates and no refresh happens. When the command returns, the requests it added hold exactly that one command and exactly one refresh. |
| `Cover.OpenMoticsShutter.AsyncCloseCover` | custom_components/openmotics/cover.py:94-100 | Sends `down(install_id, device_id)`, then one refresh. If the command raises, the exception propagates and no refresh happens. When the command returns, the requests it added hold exactly that one command and exactly one refresh. |
| `Cover.OpenMoticsShutter.AsyncStopCover` | custom_components/openmotics/cover.py:102-108 | Sends `stop(install_id, device_id)`, then one refresh. If the command raises, the exception propagates and no refresh happens. When the command returns, the requests it added hold exactly that one command and exactly one refresh. |

## Left out

- The `DataUpdateCoordinator` base class is not modelled: the polling timer, refresh coalescing, listener registration and notification, and `last_update_success`. `AsyncRefresh` keeps only its effect on `data`: store what `_async_update_data` returns, or keep the previous data when it raises.
- The pyhaopenmotics clients (`CloudClient`, `LocalGatewayClient` and their `get_token`, `get_all`, `up`, `down`, `stop`) are network I/O. Their outcomes are parameters, and their calls appear as trace entries.
- Logging calls are left out; they do not affect results.
- `async_setup_platform` (cover.py:30-32) is a no-op and is not modelled.
- Home Assistant plumbing is not modelled: the `hass.data[DOMAIN][entry.entry_id]` lookup (the coordinator is a parameter instead), `async_add_entities` (its argument is returned as `added` instead), and the entity registry.
- Async suspension is not modelled; each await is one atomic step.
- Device records are one record type (`id`, optional `name`, status with an optional `position`). The other status fields of outputs, lights, group actions and sensors are not modelled, because the core does not read them.
- The shutter constructor's `device` argument goes to the base entity in `entity.py`, which is not part of this model. The model keeps only the record re-read from the snapshot.
- Any re-binding of an entity's record by the `entity.py` base class (for example on a coordinator update) is not modelled; the entity keeps the record bound at construction.
