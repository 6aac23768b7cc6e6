/** The switch platform: the handler that turns announced Bot devices into switch entities
    and records their ids in the account's ledger, the entity with its cached on/off state,
    and what the handler and the account's callback guarantee together over many polls. */
module SwitchPlatform {
  import opened Devices
  import opened Accounts

  /** The devices the handler makes entities for, in batch order: those whose id is neither
      in the switch ledger nor taken by an earlier device of the same batch. */
  function AddedSwitches(known: seq<string>, devices: seq<Device>): seq<Device>
    decreases |devices|
  {
    if devices == [] then []
    else if devices[0].id in known then AddedSwitches(known, devices[1..])
    else [devices[0]] + AddedSwitches(known + [devices[0].id], devices[1..])
  }

  /** The switch ledger once the handler has run over `devices`. */
  function LedgerAfter(known: seq<string>, devices: seq<Device>): seq<string>
  {
    known + Ids(AddedSwitches(known, devices))
  }

  /** The ids of a list of devices, as a set. */
  function IdSet(devices: seq<Device>): set<string>
  {
    set d | d in devices :: d.id
  }

  /** The ids of a batch that the ledger does not hold yet. */
  function UnknownIds(known: seq<string>, devices: seq<Device>): set<string>
  {
    set d | d in devices && d.id !in known :: d.id
  }

  /** No two devices in the list share an id. */
  predicate DistinctIds(devices: seq<Device>)
  {
    forall i, j :: 0 <= i < j < |devices| ==> devices[i].id != devices[j].id
  }

  /** Two lists with distinct ids and no id in common make a list with distinct ids. */
  lemma DistinctConcat(xs: seq<Device>, ys: seq<Device>)
    requires DistinctIds(xs) && DistinctIds(ys)
    requires forall x, y :: x in xs && y in ys ==> x.id != y.id
    ensures DistinctIds(xs + ys)
  {
    var all := xs + ys;
    forall i, j | 0 <= i < j < |all| ensures all[i].id != all[j].id {
      if i < |xs| && j >= |xs| {
        assert all[i] in xs && all[j] in ys;
      } else if i >= |xs| {
        assert all[i] == ys[i - |xs|] && all[j] == ys[j - |xs|];
      }
    }
  }

  /** An entity is made only from a device of the batch whose id the ledger lacked. */
  lemma {:induction false} AddedAreUnknown(known: seq<string>, devices: seq<Device>)
    ensures forall d :: d in AddedSwitches(known, devices) ==> d in devices && d.id !in known
    decreases |devices|
  {
    if devices != [] {
      var rest := devices[1..];
      if devices[0].id in known {
        AddedAreUnknown(known, rest);
      } else {
        AddedAreUnknown(known + [devices[0].id], rest);
      }
    }
  }

  /** The handler never makes two entities for one id, even when the batch repeats it. */
  lemma {:induction false} AddedIdsDistinct(known: seq<string>, devices: seq<Device>)
    ensures DistinctIds(AddedSwitches(known, devices))
    decreases |devices|
  {
    if devices != [] && devices[0].id !in known {
      var known' := known + [devices[0].id];
      AddedIdsDistinct(known', devices[1..]);
      AddedAreUnknown(known', devices[1..]);
      var added := AddedSwitches(known, devices);
      forall i, j | 0 <= i < j < |added| ensures added[i].id != added[j].id {
        if i == 0 {
          assert added[j] in AddedSwitches(known', devices[1..]);
        } else {
          assert added[i] == AddedSwitches(known', devices[1..])[i - 1];
        }
      }
    } else if devices != [] {
      AddedIdsDistinct(known, devices[1..]);
    }
  }

  /** After the handler, the switch ledger still starts with every id it held before and
      holds the id of every device of the batch. */
  lemma {:induction false} LedgerCoversBatch(known: seq<string>, devices: seq<Device>)
    ensures LedgerAfter(known, devices)[..|known|] == known
    ensures forall d :: d in devices ==> d.id in LedgerAfter(known, devices)
    decreases |devices|
  {
    if devices != [] {
      var h, rest := devices[0], devices[1..];
      var known' := LedgerStep(known, devices);
      LedgerCoversBatch(known', rest);
      assert LedgerAfter(known', rest)[..|known'|] == known';
      assert known'[..|known|] == known;
      forall d | d in devices ensures d.id in LedgerAfter(known, devices) {
        if d != h {
          assert d in rest;
        } else {
          assert h.id in LedgerAfter(known', rest)[..|known'|];
        }
      }
    }
  }

  /** The handler's first step: the ledger after the batch is the ledger after the rest of
      the batch, from the ledger that records the first device. */
  lemma LedgerStep(known: seq<string>, devices: seq<Device>) returns (known': seq<string>)
    requires devices != []
    ensures known' == if devices[0].id in known then known else known + [devices[0].id]
    ensures LedgerAfter(known, devices) == LedgerAfter(known', devices[1..])
  {
    known' := if devices[0].id in known then known else known + [devices[0].id];
    if devices[0].id !in known {
      IdsConcat([devices[0]], AddedSwitches(known', devices[1..]));
    }
  }

  /** The ids of the entities made are exactly the batch's ids the ledger lacked. */
  lemma {:induction false} AddedIdSet(known: seq<string>, devices: seq<Device>)
    ensures IdSet(AddedSwitches(known, devices)) == UnknownIds(known, devices)
    decreases |devices|
  {
    if devices != [] {
      var h, rest := devices[0], devices[1..];
      assert devices == [h] + rest;
      if h.id in known {
        AddedIdSet(known, rest);
        assert UnknownIds(known, devices) == UnknownIds(known, rest);
      } else {
        var known' := known + [h.id];
        AddedIdSet(known', rest);
        assert IdSet(AddedSwitches(known, devices)) == {h.id} + IdSet(AddedSwitches(known', rest));
        assert UnknownIds(known, devices) == {h.id} + UnknownIds(known', rest);
      }
    }
  }

  /** A list with distinct ids has as many ids as devices. */
  lemma {:induction false} DistinctIdCount(devices: seq<Device>)
    requires DistinctIds(devices)
    ensures |IdSet(devices)| == |devices|
  {
    if devices != [] {
      var n := |devices| - 1;
      var init := devices[..n];
      assert DistinctIds(init);
      DistinctIdCount(init);
      assert devices == init + [devices[n]];
      assert IdSet(devices) == IdSet(init) + {devices[n].id};
      assert devices[n].id !in IdSet(init);
    }
  }

  /** The handler makes exactly one entity per distinct id of the batch that the ledger
      lacked. */
  lemma EntityCount(known: seq<string>, devices: seq<Device>)
    ensures |AddedSwitches(known, devices)| == |UnknownIds(known, devices)|
  {
    AddedIdsDistinct(known, devices);
    DistinctIdCount(AddedSwitches(known, devices));
    AddedIdSet(known, devices);
  }

  /** Where each entity's device sits in the batch: strictly increasing positions, so
      entities keep batch order, and each at the first occurrence of its id. */
  lemma AddedPositions(known: seq<string>, devices: seq<Device>) returns (pos: seq<nat>)
    ensures |pos| == |AddedSwitches(known, devices)|
    ensures forall k :: 0 <= k < |pos| ==>
              pos[k] < |devices| && devices[pos[k]] == AddedSwitches(known, devices)[k]
    ensures forall k, l :: 0 <= k < l < |pos| ==> pos[k] < pos[l]
    ensures forall k, i :: 0 <= k < |pos| && 0 <= i < pos[k] ==> devices[i].id != devices[pos[k]].id
  {
    pos := AddedPositionsFrom(known, devices, 0);
    assert devices[0..] == devices;
  }

  /** `pos` places each of `added` in `devices` at or after `from`: in increasing order,
      and each at the first position from `from` on that carries its id. */
  ghost predicate PositionsOf(pos: seq<nat>, devices: seq<Device>, from: nat, added: seq<Device>)
  {
    && |pos| == |added|
    && (forall k :: 0 <= k < |pos| ==> from <= pos[k] < |devices| && devices[pos[k]] == added[k])
    && (forall k, l :: 0 <= k < l < |pos| ==> pos[k] < pos[l])
    && (forall k, i :: 0 <= k < |pos| && from <= i < pos[k] ==> devices[i].id != added[k].id)
  }

  /** `AddedPositions` for the part of the batch from position `from` on, with positions
      counted in the whole batch. */
  lemma {:induction false} AddedPositionsFrom(known: seq<string>, devices: seq<Device>, from: nat) returns (pos: seq<nat>)
    requires from <= |devices|
    ensures PositionsOf(pos, devices, from, AddedSwitches(known, devices[from..]))
    decreases |devices| - from
  {
    if from == |devices| {
      return [];
    }
    var h := devices[from];
    AddedStep(known, devices, from);
    if h.id in known {
      var rest := AddedPositionsFrom(known, devices, from + 1);
      pos := SkipKnownPosition(known, devices, from, rest);
    } else {
      var rest := AddedPositionsFrom(known + [h.id], devices, from + 1);
      pos := PrependNewPosition(known, devices, from, rest);
    }
  }

  /** The positions step over a device whose id the ledger holds: nothing is added. */
  lemma SkipKnownPosition(known: seq<string>, devices: seq<Device>, from: nat, rest: seq<nat>) returns (pos: seq<nat>)
    requires from < |devices| && devices[from].id in known
    requires PositionsOf(rest, devices, from + 1, AddedSwitches(known, devices[from + 1..]))
    ensures pos == rest
    ensures PositionsOf(pos, devices, from, AddedSwitches(known, devices[from + 1..]))
  {
    var added := AddedSwitches(known, devices[from + 1..]);
    AddedAreUnknown(known, devices[from + 1..]);
    pos := rest;
    forall k | 0 <= k < |pos| ensures devices[from].id != added[k].id {
      assert added[k] in added;
    }
  }

  /** The positions step over a device whose id is new: its own position comes first. */
  lemma PrependNewPosition(known: seq<string>, devices: seq<Device>, from: nat, rest: seq<nat>) returns (pos: seq<nat>)
    requires from < |devices| && devices[from].id !in known
    requires PositionsOf(rest, devices, from + 1, AddedSwitches(known + [devices[from].id], devices[from + 1..]))
    ensures pos == [from] + rest
    ensures PositionsOf(pos, devices, from, [devices[from]] + AddedSwitches(known + [devices[from].id], devices[from + 1..]))
  {
    var h := devices[from];
    var added := AddedSwitches(known + [h.id], devices[from + 1..]);
    AddedAreUnknown(known + [h.id], devices[from + 1..]);
    pos := [from] + rest;
    PrependPlaced(devices, from, rest, added);
    PrependFirst(devices, from, rest, added);
  }

  /** Putting position `from` before positions after it keeps them placed and increasing. */
  lemma PrependPlaced(devices: seq<Device>, from: nat, rest: seq<nat>, added: seq<Device>)
    requires from < |devices| && PositionsOf(rest, devices, from + 1, added)
    ensures forall k :: 0 <= k < |[from] + rest| ==>
              from <= ([from] + rest)[k] < |devices| && devices[([from] + rest)[k]] == ([devices[from]] + added)[k]
    ensures forall k, l :: 0 <= k < l < |[from] + rest| ==> ([from] + rest)[k] < ([from] + rest)[l]
  {
    var pos := [from] + rest;
    forall k | 0 <= k < |pos|
      ensures from <= pos[k] < |devices| && devices[pos[k]] == ([devices[from]] + added)[k]
    {
      if k > 0 {
        assert pos[k] == rest[k - 1];
      }
    }
    forall k, l | 0 <= k < l < |pos| ensures pos[k] < pos[l] {
      assert pos[l] == rest[l - 1];
    }
  }

  /** When no later entity shares the id at `from`, each stays at its first occurrence. */
  lemma PrependFirst(devices: seq<Device>, from: nat, rest: seq<nat>, added: seq<Device>)
    requires from < |devices| && PositionsOf(rest, devices, from + 1, added)
    requires forall x :: x in added ==> x.id != devices[from].id
    ensures forall k, i :: 0 <= k < |[from] + rest| && from <= i < ([from] + rest)[k] ==>
              devices[i].id != ([devices[from]] + added)[k].id
  {
    var pos := [from] + rest;
    forall k, i | 0 <= k < |pos| && from <= i < pos[k]
      ensures devices[i].id != ([devices[from]] + added)[k].id
    {
      assert pos[k] == rest[k - 1];
      assert added[k - 1] in added;
    }
  }

  /** The handler's step over the device at position `i` of the batch. */
  lemma AddedStep(known: seq<string>, devices: seq<Device>, i: nat)
    requires i < |devices|
    ensures AddedSwitches(known, devices[i..]) ==
              if devices[i].id in known then AddedSwitches(known, devices[i + 1..])
              else [devices[i]] + AddedSwitches(known + [devices[i].id], devices[i + 1..])
  {
    assert devices[i..][1..] == devices[i + 1..];
  }

  /** The handler's loop step, in terms of what is still to be made: a known id adds
      nothing, a new one adds its device and joins the ledger. */
  lemma HandlerStep(target: seq<Device>, created: seq<Device>, ledger: seq<string>, devices: seq<Device>, i: nat)
    requires i < |devices|
    requires target == created + AddedSwitches(ledger, devices[i..])
    ensures devices[i].id in ledger ==> target == created + AddedSwitches(ledger, devices[i + 1..])
    ensures devices[i].id !in ledger ==>
              target == (created + [devices[i]]) + AddedSwitches(ledger + [devices[i].id], devices[i + 1..])
  {
    AddedStep(ledger, devices, i);
  }

  /** Home Assistant's switch entity for one Bot: its unique id is the device id, and it
      caches the on/off state that turning it on or off sets. */
  class BinarySwitch {
    const device: Device
    const uniqueId: string
    var name: string
    var state: bool

    constructor (deviceId: string, device: Device, name: string, state: bool)
      ensures this.device == device && uniqueId == deviceId
      ensures this.name == name && this.state == state
    {
      this.device := device;
      uniqueId := deviceId;
      this.name := name;
      this.state := state;
    }

    /** Whether the entity stands for `d` as the handler created it. */
    ghost predicate MadeFrom(d: Device)
      reads this
    {
      device == d && uniqueId == d.id && name == d.name && IsOn() == d.state
    }

    function IsOn(): bool
      reads this
    {
      state
    }

    method TurnOn()
      modifies this`state
      ensures IsOn()
    {
      state := true;
    }

    method TurnOff()
      modifies this`state
      ensures !IsOn()
    {
      state := false;
    }
  }

  /** Connects the switch handler to the account's switch signal and keeps the returned
      unsubscribe token in the account's listeners. */
  method SubscribeSwitches(account: Account, unsubscribe: Unsubscribe)
    modifies account`listeners
    ensures account.listeners == old(account.listeners) + [unsubscribe]
  {
    account.listeners := account.listeners + [unsubscribe];
  }

  /** The handler for one announced switch batch: makes one entity per device whose id the
      switch ledger lacks, appending that id at once, and hands the entities over only if
      there is at least one. The cover and sensor ledgers are left alone. */
  method AddSwitch(account: Account, devices: seq<Device>) returns (entities: seq<BinarySwitch>, handedOver: bool)
    requires account.Valid()
    modifies account`knownIds
    ensures account.Valid()
    ensures account.knownIds ==
              old(account.knownIds)[Switch := LedgerAfter(old(account.knownIds[Switch]), devices)]
    ensures |entities| == |AddedSwitches(old(account.knownIds[Switch]), devices)|
    ensures forall k :: 0 <= k < |entities| ==>
              fresh(entities[k]) && entities[k].MadeFrom(AddedSwitches(old(account.knownIds[Switch]), devices)[k])
    ensures handedOver <==> entities != []
  {
    ghost var known0 := account.knownIds[Switch];
    ghost var ledger0 := account.knownIds;
    ghost var target := AddedSwitches(known0, devices);
    ghost var created: seq<Device> := [];
    ghost var ledger := known0;
    entities := [];
    assert ledger0[Switch := ledger] == ledger0;
    for i := 0 to |devices|
      invariant account.knownIds == ledger0[Switch := ledger]
      invariant ledger == known0 + Ids(created)
      invariant target == created + AddedSwitches(ledger, devices[i..])
      invariant |entities| == |created|
      invariant forall k :: 0 <= k < |entities| ==> fresh(entities[k]) && entities[k].MadeFrom(created[k])
    {
      var device := devices[i];
      HandlerStep(target, created, ledger, devices, i);
      if device.id in account.knownIds[Switch] {
        continue;
      }
      var entity := new BinarySwitch(device.id, device, device.name, device.state);
      entities := entities + [entity];
      account.knownIds := account.knownIds[Switch := account.knownIds[Switch] + [device.id]];
      IdsConcat(created, [device]);
      created, ledger := created + [device], ledger + [device.id];
    }
    assert devices[|devices|..] == [];
    assert created == target;
    handedOver := entities != [];
  }

  /** The ledger after one poll whose switch group, if any, went through the handler. */
  function AfterPoll(known: Ledger, devices: seq<Device>): Ledger
  {
    var announced := NewDevices(devices, known);
    if Switch in announced then known[Switch := LedgerAfter(KnownFor(known, Switch), announced[Switch])]
    else known
  }

  /** After one poll, the switch ledger holds the id of every device of that poll that
      feeds the switch category, and still holds every id it held before. */
  lemma PollRecordsSwitches(known: Ledger, devices: seq<Device>)
    ensures KnownFor(AfterPoll(known, devices), Switch)[..|KnownFor(known, Switch)|] == KnownFor(known, Switch)
    ensures forall d :: d in devices && Switch in CategoriesOf(d.deviceType) ==>
              d.id in KnownFor(AfterPoll(known, devices), Switch)
  {
    var announced := NewDevices(devices, known);
    var before := KnownFor(known, Switch);
    if Switch in announced {
      LedgerCoversBatch(before, announced[Switch]);
    }
    forall d | d in devices && Switch in CategoriesOf(d.deviceType)
      ensures d.id in KnownFor(AfterPoll(known, devices), Switch)
    {
      GroupMembership(devices, known, Switch, d);
      EveryCategoryListed(Switch);
      if d.id !in before {
        assert d in announced[Switch];
      } else if Switch in announced {
        assert LedgerAfter(before, announced[Switch])[..|before|] == before;
        assert d.id in LedgerAfter(before, announced[Switch])[..|before|];
      }
    }
  }

  /** The ledger after a run of polls, each of whose switch group went through the
      handler. */
  function LedgerAfterPolls(known: Ledger, polls: seq<seq<Device>>): Ledger
    decreases |polls|
  {
    if polls == [] then known else LedgerAfterPolls(AfterPoll(known, polls[0]), polls[1..])
  }

  /** No run of polls removes an id from the switch ledger. */
  lemma {:induction false} KeepsId(known: Ledger, polls: seq<seq<Device>>, id: string)
    requires id in KnownFor(known, Switch)
    ensures id in KnownFor(LedgerAfterPolls(known, polls), Switch)
    decreases |polls|
  {
    if polls != [] {
      PollEntitiesRecorded(known, polls[0]);
      KeepsId(AfterPoll(known, polls[0]), polls[1..], id);
    }
  }

  /** Across polls, a Bot is announced to the switch category in one poll only: after the
      poll that carried it and any run of polls `between`, no later poll has a device with
      its id in the switch group. */
  lemma SwitchAnnouncedOnce(known: Ledger, devices: seq<Device>, d: Device, between: seq<seq<Device>>,
                            later: seq<Device>, e: Device)
    requires d in devices && Switch in CategoriesOf(d.deviceType) && e.id == d.id
    ensures var k := LedgerAfterPolls(AfterPoll(known, devices), between);
            Switch in NewDevices(later, k) ==> e !in NewDevices(later, k)[Switch]
  {
    PollRecordsSwitches(known, devices);
    KeepsId(AfterPoll(known, devices), between, d.id);
    KnownIdNotAnnounced(later, LedgerAfterPolls(AfterPoll(known, devices), between), Switch, e);
  }

  /** Polling the same list twice announces nothing to the switch category the second
      time. */
  lemma SecondPollAnnouncesNoSwitch(known: Ledger, devices: seq<Device>)
    ensures Switch !in NewDevices(devices, AfterPoll(known, devices))
  {
    var after := AfterPoll(known, devices);
    PollRecordsSwitches(known, devices);
    NewDevicesAnnounced(devices, after, Switch);
    forall e | e in devices ensures !IsNewFor(e, Switch, after) {
    }
  }

  /** No handler ever writes the cover or sensor ledgers, so a curtain that is new for those
      categories is announced again, unchanged, on the next poll. */
  lemma CoverAndSensorReannounced(known: Ledger, devices: seq<Device>, c: Category)
    requires c != Switch
    ensures Group(devices, AfterPoll(known, devices), c) == Group(devices, known, c)
  {
    GroupIndependent(devices, known, AfterPoll(known, devices), c);
  }

  /** The entities the switch handler makes from one poll. */
  function PollEntities(known: Ledger, devices: seq<Device>): seq<Device>
  {
    var announced := NewDevices(devices, known);
    if Switch in announced then AddedSwitches(KnownFor(known, Switch), announced[Switch]) else []
  }

  /** One poll's entities have distinct ids the switch ledger lacked before the poll and
      holds after it, and the poll only appends to that ledger. */
  lemma PollEntitiesRecorded(known: Ledger, devices: seq<Device>)
    ensures DistinctIds(PollEntities(known, devices))
    ensures forall x :: x in PollEntities(known, devices) ==>
              x.id !in KnownFor(known, Switch) && x.id in KnownFor(AfterPoll(known, devices), Switch)
    ensures forall id :: id in KnownFor(known, Switch) ==> id in KnownFor(AfterPoll(known, devices), Switch)
  {
    var announced := NewDevices(devices, known);
    var before := KnownFor(known, Switch);
    if Switch in announced {
      AddedIdsDistinct(before, announced[Switch]);
      AddedAreUnknown(before, announced[Switch]);
      LedgerCoversBatch(before, announced[Switch]);
      var after := LedgerAfter(before, announced[Switch]);
      assert KnownFor(AfterPoll(known, devices), Switch) == after;
      forall id | id in before ensures id in after {
        assert after[..|before|] == before;
      }
    }
  }

  /** The entities the switch handler makes over a run of polls, in order. */
  function EntitiesOverPolls(known: Ledger, polls: seq<seq<Device>>): seq<Device>
    decreases |polls|
  {
    if polls == [] then []
    else PollEntities(known, polls[0]) + EntitiesOverPolls(AfterPoll(known, polls[0]), polls[1..])
  }

  /** Until a reset, each device id becomes at most one switch entity over any run of
      polls, and never one whose id the ledger held at the start. */
  lemma {:induction false} EntitiesOverPollsDistinct(known: Ledger, polls: seq<seq<Device>>)
    ensures DistinctIds(EntitiesOverPolls(known, polls))
    ensures forall d :: d in EntitiesOverPolls(known, polls) ==> d.id !in KnownFor(known, Switch)
    decreases |polls|
  {
    if polls != [] {
      var after := AfterPoll(known, polls[0]);
      var made := PollEntities(known, polls[0]);
      var rest := EntitiesOverPolls(after, polls[1..]);
      EntitiesOverPollsDistinct(after, polls[1..]);
      PollEntitiesRecorded(known, polls[0]);
      var all: seq<Device> := made + rest;
      DistinctConcat(made, rest);
      forall x | x in all ensures x.id !in KnownFor(known, Switch) {
        if x !in made {
          assert x in rest;
        }
      }
    }
  }
}
