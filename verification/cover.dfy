/**
 * The OpenMotics cover platform: which shutters of the coordinator's snapshot
 * become entities at setup, how a shutter entity reports its state, and the
 * requests its open, close and stop actions issue.
 */
module Cover {
  import opened Wrappers
  import opened Coordinator

  // ---------------------------------------------------------------------------
  // Setup filter (async_setup_entry)

  /** A shutter gets an entity unless its name is None, empty or the
      not-in-use sentinel. */
  predicate InUse(shutter: Device, notInUse: string)
  {
    shutter.name.Some? && shutter.name.value != "" && shutter.name.value != notInUse
  }

  /** The `enumerate` indices below n whose shutter passes the filter, in
      snapshot order. */
  function KeptIndices(shutters: seq<Device>, notInUse: string, n: nat): (kept: seq<nat>)
    requires n <= |shutters|
    ensures forall a :: 0 <= a < |kept| ==> kept[a] < n
  {
    if n == 0 then []
    else KeptIndices(shutters, notInUse, n - 1) + (if InUse(shutters[n - 1], notInUse) then [n - 1] else [])
  }

  /** An index is kept if and only if its shutter passes the filter. */
  lemma {:induction false} KeptIndicesExact(shutters: seq<Device>, notInUse: string, n: nat)
    requires n <= |shutters|
    ensures forall i :: i in KeptIndices(shutters, notInUse, n) <==> 0 <= i < n && InUse(shutters[i], notInUse)
  {
    if n > 0 {
      KeptIndicesExact(shutters, notInUse, n - 1);
    }
  }

  /** Kept indices are strictly increasing: the entities keep snapshot order. */
  lemma {:induction false} KeptIndicesIncreasing(shutters: seq<Device>, notInUse: string, n: nat)
    requires n <= |shutters|
    ensures forall a, b :: 0 <= a < b < |KeptIndices(shutters, notInUse, n)| ==>
      KeptIndices(shutters, notInUse, n)[a] < KeptIndices(shutters, notInUse, n)[b]
  {
    if n > 0 {
      var prev := KeptIndices(shutters, notInUse, n - 1);
      var kept := KeptIndices(shutters, notInUse, n);
      KeptIndicesIncreasing(shutters, notInUse, n - 1);
      forall a, b | 0 <= a < b < |kept| ensures kept[a] < kept[b] {
        assert kept[a] == prev[a] && prev[a] < n - 1;
        if b < |prev| {
          assert kept[b] == prev[b];
          assert prev[a] < prev[b];
        } else {
          assert kept[b] == n - 1;
        }
      }
    }
  }

  /** Why `async_setup_entry` can raise: subscripting `coordinator.data` while
      it is still None (no snapshot stored yet) raises a TypeError. */
  datatype SetupError = NoSnapshot

  /** `async_setup_entry`: build one new entity per shutter that passes the
      filter, bound to its `enumerate` index. With no entity it returns False
      and adds nothing; otherwise `added` is the list handed to
      `async_add_entities` and it returns None. */
  method AsyncSetupEntry(coordinator: OpenMoticsDataUpdateCoordinator, notInUse: string)
    returns (result: Result<Option<bool>, SetupError>, added: seq<OpenMoticsShutter>)
    requires coordinator.Valid()
    ensures coordinator.data.None? ==> result == Failure(NoSnapshot) && added == []
    ensures coordinator.data.Some? ==>
      var shutters := coordinator.data.value["shutters"];
      var kept := KeptIndices(shutters, notInUse, |shutters|);
      && |added| == |kept|
      && forall j :: 0 <= j < |added| ==>
           && added[j].coordinator == coordinator
           && added[j].index == kept[j]
           && added[j].device == shutters[kept[j]]
           && added[j].CurrentCoverPosition() == shutters[kept[j]].status.position
    ensures coordinator.data.Some? ==> result == Success(if added == [] then Some(false) else None)
    ensures forall j :: 0 <= j < |added| ==> fresh(added[j])
    ensures forall i, j :: 0 <= i < j < |added| ==> added[i] != added[j]
  {
    if coordinator.data.None? {
      return Failure(NoSnapshot), [];
    }
    var shutters := coordinator.data.value["shutters"];
    var entities: seq<OpenMoticsShutter> := [];
    for index := 0 to |shutters|
      invariant |entities| == |KeptIndices(shutters, notInUse, index)|
      invariant forall j :: 0 <= j < |entities| ==>
        && fresh(entities[j])
        && entities[j].coordinator == coordinator
        && entities[j].index == KeptIndices(shutters, notInUse, index)[j]
        && entities[j].device == shutters[entities[j].index]
      invariant forall i, j :: 0 <= i < j < |entities| ==> entities[i] != entities[j]
    {
      var omCover := shutters[index];
      if !InUse(omCover, notInUse) {
        continue;
      }
      var entity := new OpenMoticsShutter(coordinator, index, omCover);
      entities := entities + [entity];
    }
    if entities == [] {
      return Success(Some(false)), [];
    }
    result, added := Success(None), entities;
  }

  // ---------------------------------------------------------------------------
  // Control actions

  predicate IsCommand(call: Call)
  {
    call.Up? || call.Down? || call.Stop?
  }

  /** The shutter commands in a trace, in order. */
  function Commands(trace: seq<Call>): seq<Call>
  {
    if trace == [] then [] else (if IsCommand(trace[0]) then [trace[0]] else []) + Commands(trace[1..])
  }

  /** How many refreshes a trace requests. */
  function Refreshes(trace: seq<Call>): nat
  {
    if trace == [] then 0 else (if trace[0].Refresh? then 1 else 0) + Refreshes(trace[1..])
  }

  /** A sequence of `get_all` calls holds no command and no refresh. */
  lemma {:induction false} FetchesOnly(trace: seq<Call>)
    requires forall i :: 0 <= i < |trace| ==> trace[i].GetAll?
    ensures Commands(trace) == [] && Refreshes(trace) == 0
  {
    if trace != [] {
      FetchesOnly(trace[1..]);
    }
  }

  /** A control action whose command returns issues that command first and
      then exactly one refresh, followed only by the refresh's fetches. */
  lemma OneCommandThenOneRefresh(command: Call, installId: InstallId, client: Kind -> FetchOutcome)
    requires IsCommand(command)
    ensures var trace := [command] + RefreshTrace(installId, client);
      && trace[0] == command && trace[1] == Refresh
      && Commands(trace) == [command]
      && Refreshes(trace) == 1
  {
    var trace := [command] + RefreshTrace(installId, client);
    var fetches := AsyncUpdateData(installId, client).calls;
    FetchesOnly(fetches);
    assert trace[1..] == RefreshTrace(installId, client) == [Refresh] + fetches;
    assert trace[1..][1..] == fetches;
  }

  /** What a trace gained past its old length is what was appended. */
  lemma AppendedSuffix(before: seq<Call>, command: Call, rest: seq<Call>)
    ensures (before + [command] + rest)[|before|..] == [command] + rest
  {
  }

  // ---------------------------------------------------------------------------
  // The shutter entity

  class OpenMoticsShutter {
    const coordinator: OpenMoticsDataUpdateCoordinator
    const index: nat
    /** The record bound at construction; the code shown never re-binds it. */
    const device: Device

    /** Binds the entity to `data["shutters"][index]` as it is at construction
        (`device` goes to the base entity, cover.py:69, and is not kept here). */
    constructor (coordinator: OpenMoticsDataUpdateCoordinator, index: nat, device: Device)
      requires coordinator.Valid() && coordinator.data.Some?
      requires index < |coordinator.data.value["shutters"]|
      ensures this.coordinator == coordinator && this.index == index
      ensures this.device == coordinator.data.value["shutters"][index]
      ensures CurrentCoverPosition() == coordinator.data.value["shutters"][index].status.position
    {
      this.coordinator := coordinator;
      this.index := index;
      this.device := coordinator.data.value["shutters"][index];
    }

    /** `install_id` and `device_id`, as the base entity provides them. */
    function InstallId(): InstallId
    {
      coordinator.installId
    }

    function DeviceId(): int
    {
      device.id
    }

    /** `current_cover_position`: the bound record's position, unchanged
        (None is unknown, 0 is closed, 100 is fully open). */
    function CurrentCoverPosition(): Option<int>
    {
      device.status.position
    }

    /** `is_closed`: unknown when the position is unknown, otherwise closed
        exactly at position 0. */
    function IsClosed(): (closed: Option<bool>)
      ensures closed.None? <==> device.status.position.None?
      ensures closed == Some(true) <==> device.status.position == Some(0)
      ensures closed == Some(false) <==> device.status.position.Some? && device.status.position.value != 0
    {
      if CurrentCoverPosition().None? then None else Some(CurrentCoverPosition().value == 0)
    }

    /** Issue one shutter command, then one coordinator refresh; an exception
        from the command propagates and skips the refresh. */
    method SendThenRefresh(command: Call, raised: Option<ClientError>, client: Kind -> FetchOutcome)
      returns (r: Result<(), ClientError>)
      requires coordinator.Valid() && IsCommand(command)
      modifies coordinator
      ensures coordinator.Valid()
      ensures coordinator.calls ==
        if raised.Some? then old(coordinator.calls) + [command]
        else old(coordinator.calls) + [command] + RefreshTrace(InstallId(), client)
      ensures coordinator.data ==
        if raised.Some? then old(coordinator.data)
        else StoredData(old(coordinator.data), AsyncUpdateData(InstallId(), client))
      ensures r == if raised.Some? then Failure(raised.value) else Success(())
      ensures raised.None? ==>
        && Commands(coordinator.calls[|old(coordinator.calls)|..]) == [command]
        && Refreshes(coordinator.calls[|old(coordinator.calls)|..]) == 1
    {
      ghost var before := coordinator.calls;
      coordinator.Send(command);
      if raised.Some? {
        return Failure(raised.value);
      }
      coordinator.AsyncRefresh(client);
      AppendedSuffix(before, command, RefreshTrace(InstallId(), client));
      OneCommandThenOneRefresh(command, InstallId(), client);
      r := Success(());
    }

    /** `async_open_cover`: `shutters.up(install_id, device_id)`, then a refresh. */
    method AsyncOpenCover(raised: Option<ClientError>, client: Kind -> FetchOutcome)
      returns (r: Result<(), ClientError>)
      requires coordinator.Valid()
      modifies coordinator
      ensures coordinator.Valid()
      ensures coordinator.calls ==
        if raised.Some? then old(coordinator.calls) + [Up(InstallId(), DeviceId())]
        else old(coordinator.calls) + [Up(InstallId(), DeviceId())] + RefreshTrace(InstallId(), client)
      ensures coordinator.data ==
        if raised.Some? then old(coordinator.data)
        else StoredData(old(coordinator.data), AsyncUpdateData(InstallId(), client))
      ensures r == if raised.Some? then Failure(raised.value) else Success(())
      ensures raised.None? ==>
        && Commands(coordinator.calls[|old(coordinator.calls)|..]) == [Up(InstallId(), DeviceId())]
        && Refreshes(coordinator.calls[|old(coordinator.calls)|..]) == 1
    {
      r := SendThenRefresh(Up(InstallId(), DeviceId()), raised, client);
    }

    /** `async_close_cover`: `shutters.down(install_id, device_id)`, then a refresh. */
    method AsyncCloseCover(raised: Option<ClientError>, client: Kind -> FetchOutcome)
      returns (r: Result<(), ClientError>)
      requires coordinator.Valid()
      modifies coordinator
      ensures coordinator.Valid()
      ensures coordinator.calls ==
        if raised.Some? then old(coordinator.calls) + [Down(InstallId(), DeviceId())]
        else old(coordinator.calls) + [Down(InstallId(), DeviceId())] + RefreshTrace(InstallId(), client)
      ensures coordinator.data ==
        if raised.Some? then old(coordinator.data)
        else StoredData(old(coordinator.data), AsyncUpdateData(InstallId(), client))
      ensures r == if raised.Some? then Failure(raised.value) else Success(())
      ensures raised.None? ==>
        && Commands(coordinator.calls[|old(coordinator.calls)|..]) == [Down(InstallId(), DeviceId())]
        && Refreshes(coordinator.calls[|old(coordinator.calls)|..]) == 1
    {
      r := SendThenRefresh(Down(InstallId(), DeviceId()), raised, client);
    }

    /** `async_stop_cover`: `shutters.stop(install_id, device_id)`, then a refresh. */
    method AsyncStopCover(raised: Option<ClientError>, client: Kind -> FetchOutcome)
      returns (r: Result<(), ClientError>)
      requires coordinator.Valid()
      modifies coordinator
      ensures coordinator.Valid()
      ensures coordinator.calls ==
        if raised.Some? then old(coordinator.calls) + [Stop(InstallId(), DeviceId())]
        else old(coordinator.calls) + [Stop(InstallId(), DeviceId())] + RefreshTrace(InstallId(), client)
      ensures coordinator.data ==
        if raised.Some? then old(coordinator.data)
        else StoredData(old(coordinator.data), AsyncUpdateData(InstallId(), client))
      ensures r == if raised.Some? then Failure(raised.value) else Success(())
      ensures raised.None? ==>
        && Commands(coordinator.calls[|old(coordinator.calls)|..]) == [Stop(InstallId(), DeviceId())]
        && Refreshes(coordinator.calls[|old(coordinator.calls)|..]) == 1
    {
      r := SendThenRefresh(Stop(InstallId(), DeviceId()), raised, client);
    }
  }
}
