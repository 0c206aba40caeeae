/**
 * The OpenMotics data update coordinator: client selection at construction,
 * the login classification of `get_token`, and the all-or-nothing snapshot
 * assembled by `_async_update_data` from five `get_all` calls.
 *
 * The pyhaopenmotics client is an oracle: each call's outcome is a parameter,
 * and the calls actually issued are recorded as a trace of `Call` values.
 */
module Coordinator {
  import opened Wrappers

  /** The status sub-record of a device; a shutter reports its position
      (None is unknown, 0 is closed, 100 is fully open). */
  datatype Status = Status(position: Option<int>)

  /** One device record of a resource collection. */
  datatype Device = Device(id: int, name: Option<string>, status: Status)

  /** The installation id read from the config entry (absent when the entry lacks it). */
  type InstallId = Option<string>

  /** The five resource collections of a snapshot. */
  datatype Kind = Outputs | Lights | GroupActions | Shutters | Sensors

  /** The key under which a collection is stored in the snapshot. */
  function Key(kind: Kind): string
  {
    match kind
    case Outputs => "outputs"
    case Lights => "lights"
    case GroupActions => "groupactions"
    case Shutters => "shutters"
    case Sensors => "sensors"
  }

  /** The order in which `_async_update_data` fetches the collections. */
  const FetchOrder: seq<Kind> := [Outputs, Lights, GroupActions, Shutters, Sensors]

  const SnapshotKeys: set<string> := {"outputs", "lights", "groupactions", "shutters", "sensors"}

  /** The mapping `_async_update_data` returns: collection key to device records. */
  type Snapshot = map<string, seq<Device>>

  /** The fallback snapshot: every key present, every collection empty. */
  const EmptySnapshot: Snapshot :=
    map["lights" := [], "outputs" := [], "groupactions" := [], "shutters" := [], "sensors" := []]

  /** The snapshot built when all five calls returned, in fetch order. */
  function FullSnapshot(collections: seq<seq<Device>>): Snapshot
    requires |collections| == 5
  {
    map["outputs" := collections[0], "lights" := collections[1], "groupactions" := collections[2],
        "shutters" := collections[3], "sensors" := collections[4]]
  }

  /** Exceptions a pyhaopenmotics call can raise, as the coordinator tells them apart. */
  datatype ClientError =
    | ApiException(text: string)   // text is str(err)
    | TimeoutError                 // asyncio.TimeoutError
    | OtherError(text: string)     // anything else; never caught here

  /** The outcome of one `get_all(install_id)` call. */
  type FetchOutcome = Result<seq<Device>, ClientError>

  /** A request issued to the OpenMotics client or the coordinator. */
  datatype Call =
    | GetAll(kind: Kind, installId: InstallId)
    | Up(installId: InstallId, deviceId: int)
    | Down(installId: InstallId, deviceId: int)
    | Stop(installId: InstallId, deviceId: int)
    | Refresh

  // ---------------------------------------------------------------------------
  // Client selection (__init__)

  /** The config entry's data, each value as `entry.data.get` returns it. */
  datatype EntryData = EntryData(
    installId: InstallId,
    host: Option<string>,
    port: Option<int>,
    clientId: Option<string>,
    clientSecret: Option<string>,
    verifySsl: Option<bool>)

  /** The client the coordinator builds: cloud or local gateway. */
  datatype OmClient =
    | CloudClient(clientId: Option<string>, clientSecret: Option<string>)
    | LocalGatewayClient(clientId: Option<string>, clientSecret: Option<string>,
                         server: Option<string>, port: Option<int>, ssl: Option<bool>)

  /** The cloud client exactly when the configured host is the default (cloud) host;
      otherwise a local gateway client addressed by host, port and SSL flag. */
  function SelectClient(entry: EntryData, defaultHost: string): (client: OmClient)
    ensures client.CloudClient? <==> entry.host == Some(defaultHost)
    ensures client.clientId == entry.clientId && client.clientSecret == entry.clientSecret
    ensures client.LocalGatewayClient? ==>
      client.server == entry.host && client.port == entry.port && client.ssl == entry.verifySsl
  {
    if entry.host == Some(defaultHost) then
      CloudClient(entry.clientId, entry.clientSecret)
    else
      LocalGatewayClient(entry.clientId, entry.clientSecret, entry.host, entry.port, entry.verifySsl)
  }

  // ---------------------------------------------------------------------------
  // Login (get_token)

  /** What `get_token` raises to the integration's setup. */
  datatype SetupError =
    | CannotConnect
    | ConfigEntryNotReady(message: string)
    | Unhandled(error: ClientError)   // an exception the method does not catch

  const NotReadyPrefix: string := "Unable to connect to OpenMoticsApi: "

  /** `get_token`, given what the client's own `get_token` raised (None: it returned). */
  function GetToken(raised: Option<ClientError>): (r: Result<bool, SetupError>)
    ensures r == Success(true) <==> raised.None?
    ensures r == Failure(CannotConnect) <==> raised == Some(TimeoutError)
    ensures (r.Failure? && r.error.ConfigEntryNotReady?) <==> (raised.Some? && raised.value.ApiException?)
    ensures r.Failure? && r.error.ConfigEntryNotReady? ==>
      && |r.error.message| == |NotReadyPrefix| + |raised.value.text|
      && r.error.message[..|NotReadyPrefix|] == NotReadyPrefix
      && r.error.message[|NotReadyPrefix|..] == raised.value.text
    ensures raised.Some? && raised.value.OtherError? ==> r == Failure(Unhandled(raised.value))
  {
    match raised
    case None => Success(true)
    case Some(TimeoutError) => Failure(CannotConnect)
    case Some(ApiException(text)) => Failure(ConfigEntryNotReady(NotReadyPrefix + text))
    case Some(other) => Failure(Unhandled(other))
  }

  // ---------------------------------------------------------------------------
  // Snapshot assembly (_async_update_data)

  /** The calls issued, the collections returned and the exception that ended
      the sequence, if any. */
  datatype Run = Run(calls: seq<Call>, collections: seq<seq<Device>>, raised: Option<ClientError>)

  /** Awaits `get_all` for each kind in turn; the first call that raises ends
      the sequence and no later call is issued. */
  function IssueCalls(installId: InstallId, kinds: seq<Kind>, client: Kind -> FetchOutcome): (run: Run)
    ensures |run.calls| <= |kinds|
    ensures forall i :: 0 <= i < |run.calls| ==> run.calls[i] == GetAll(kinds[i], installId)
    ensures run.raised.None? <==> forall i :: 0 <= i < |kinds| ==> client(kinds[i]).Success?
    ensures run.raised.None? ==> |run.calls| == |kinds| && |run.collections| == |kinds|
    ensures run.raised.Some? ==>
      && |run.calls| == |run.collections| + 1
      && client(kinds[|run.collections|]) == Failure(run.raised.value)
    ensures forall i :: 0 <= i < |run.collections| ==> client(kinds[i]) == Success(run.collections[i])
    decreases |kinds|
  {
    if kinds == [] then Run([], [], None)
    else
      var call := GetAll(kinds[0], installId);
      match client(kinds[0])
      case Failure(error) => Run([call], [], Some(error))
      case Success(devices) =>
        var rest := IssueCalls(installId, kinds[1..], client);
        Run([call] + rest.calls, [devices] + rest.collections, rest.raised)
  }

  /** The value `_async_update_data` returns or the exception it lets through,
      and the calls it issued. */
  datatype Update = Update(result: Result<Snapshot, ClientError>, calls: seq<Call>)

  /** `_async_update_data`: fetch the five collections in order; an ApiException
      from any call yields the empty snapshot, any other exception propagates. */
  function AsyncUpdateData(installId: InstallId, client: Kind -> FetchOutcome): (u: Update)
    ensures u.result.Success? ==> u.result.value.Keys == SnapshotKeys
    ensures 1 <= |u.calls| <= |FetchOrder|
    ensures forall i :: 0 <= i < |u.calls| ==> u.calls[i] == GetAll(FetchOrder[i], installId)
  {
    var run := IssueCalls(installId, FetchOrder, client);
    match run.raised
    case None => Update(Success(FullSnapshot(run.collections)), run.calls)
    case Some(ApiException(_)) => Update(Success(EmptySnapshot), run.calls)
    case Some(error) => Update(Failure(error), run.calls)
  }

  /** Every kind has a position in the fetch order. */
  lemma KindFetched(kind: Kind) returns (i: nat)
    ensures i < |FetchOrder| && FetchOrder[i] == kind
  {
    i := match kind
      case Outputs => 0
      case Lights => 1
      case GroupActions => 2
      case Shutters => 3
      case Sensors => 4;
  }

  /** When all five calls return, the snapshot holds exactly their results, one
      per key, and all five calls were issued in order. */
  lemma AllFetchesSucceed(installId: InstallId, client: Kind -> FetchOutcome)
    requires forall kind :: client(kind).Success?
    ensures var u := AsyncUpdateData(installId, client);
      && u.result.Success?
      && (forall kind :: Key(kind) in u.result.value && u.result.value[Key(kind)] == client(kind).value)
      && u.calls == [GetAll(Outputs, installId), GetAll(Lights, installId), GetAll(GroupActions, installId),
                     GetAll(Shutters, installId), GetAll(Sensors, installId)]
  {
  }

  /** The call that raises first decides the outcome: an ApiException gives the
      empty snapshot, any other exception propagates; either way the calls
      issued are exactly those up to and including the failing one. */
  lemma FirstFailureDecides(installId: InstallId, client: Kind -> FetchOutcome, k: nat)
    requires k < |FetchOrder|
    requires forall j :: 0 <= j < k ==> client(FetchOrder[j]).Success?
    requires client(FetchOrder[k]).Failure?
    ensures var u := AsyncUpdateData(installId, client);
      && |u.calls| == k + 1
      && (client(FetchOrder[k]).error.ApiException? ==> u.result == Success(EmptySnapshot))
      && (!client(FetchOrder[k]).error.ApiException? ==> u.result == Failure(client(FetchOrder[k]).error))
  {
  }

  /** All-or-nothing: a returned snapshot is either the empty one or holds
      every collection exactly as fetched — never a partial mix. */
  lemma NeverPartial(installId: InstallId, client: Kind -> FetchOutcome)
    ensures var u := AsyncUpdateData(installId, client);
      u.result.Success? ==>
        || u.result.value == EmptySnapshot
        || forall kind :: client(kind).Success? && Key(kind) in u.result.value && u.result.value[Key(kind)] == client(kind).value
  {
    var run := IssueCalls(installId, FetchOrder, client);
    match run.raised
    case None =>
      AllSucceedFromRun(installId, client);
      AllFetchesSucceed(installId, client);
    case Some(ApiException(_)) =>
      assert AsyncUpdateData(installId, client).result == Success(EmptySnapshot);
    case Some(_) =>
  }

  /** Helper: no exception in the run means every kind's call returned. */
  lemma AllSucceedFromRun(installId: InstallId, client: Kind -> FetchOutcome)
    requires IssueCalls(installId, FetchOrder, client).raised.None?
    ensures forall kind :: client(kind).Success?
  {
    forall kind ensures client(kind).Success? {
      var i := KindFetched(kind);
    }
  }

  /** Short circuit: once the call for FetchOrder[i] raises, the call for any
      later kind is never issued. */
  lemma NoCallAfterFailure(installId: InstallId, client: Kind -> FetchOutcome, i: nat, j: nat)
    requires i < j < |FetchOrder|
    requires client(FetchOrder[i]).Failure?
    ensures GetAll(FetchOrder[j], installId) !in AsyncUpdateData(installId, client).calls
  {
    var run := IssueCalls(installId, FetchOrder, client);
    assert |run.calls| <= i + 1;
  }

  // ---------------------------------------------------------------------------
  // The coordinator object

  /** What the base coordinator keeps after a refresh: the returned snapshot, or
      the previous data when the update raised. */
  function StoredData(previous: Option<Snapshot>, u: Update): Option<Snapshot>
  {
    match u.result
    case Success(snapshot) => Some(snapshot)
    case Failure(_) => previous
  }

  /** The requests one `async_refresh` issues: the refresh itself, then the
      `get_all` calls of `_async_update_data`. */
  function RefreshTrace(installId: InstallId, client: Kind -> FetchOutcome): seq<Call>
  {
    [Refresh] + AsyncUpdateData(installId, client).calls
  }

  class OpenMoticsDataUpdateCoordinator {
    /** `_install_id` and `_omclient`, read through the `install_id` and
        `omclient` properties; both are fixed at construction. */
    const installId: InstallId
    const omclient: OmClient

    /** `coordinator.data`: None until the first refresh has stored a snapshot. */
    var data: Option<Snapshot>

    /** Every request issued through this coordinator, in order. */
    var calls: seq<Call>

    ghost predicate Valid()
      reads this
    {
      data.Some? ==> data.value.Keys == SnapshotKeys
    }

    constructor (entry: EntryData, defaultHost: string)
      ensures Valid()
      ensures installId == entry.installId && omclient == SelectClient(entry, defaultHost)
      ensures data.None? && calls == []
    {
      installId := entry.installId;
      omclient := SelectClient(entry, defaultHost);
      data := None;
      calls := [];
    }

    /** Issue one request through `omclient`; nothing else changes. */
    method Send(call: Call)
      requires Valid()
      modifies this
      ensures Valid()
      ensures calls == old(calls) + [call] && data == old(data)
    {
      calls := calls + [call];
    }

    /** `async_refresh`: run `_async_update_data` and keep its snapshot. */
    method AsyncRefresh(client: Kind -> FetchOutcome)
      requires Valid()
      modifies this
      ensures Valid()
      ensures calls == old(calls) + RefreshTrace(installId, client)
      ensures data == StoredData(old(data), AsyncUpdateData(installId, client))
    {
      var u := AsyncUpdateData(installId, client);
      calls := calls + RefreshTrace(installId, client);
      data := StoredData(data, u);
    }
  }
}
