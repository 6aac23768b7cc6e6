/** The account: the per-category ledger of ids already announced, the dispatcher
    listeners it owns, the signal names it announces on, and the per-poll delta it
    computes from one polled device list. */
module Accounts {
  import opened Devices

  /** A dispatcher unsubscribe handle, kept as an opaque token. */
  type Unsubscribe = nat

  /** The ids already announced, per category. */
  type Ledger = map<Category, seq<string>>

  /** The ledger the account starts with and returns to on reset: each category present,
      each with no ids. */
  predicate IsEmptyLedger(known: Ledger)
  {
    known.Keys == AllCategories && forall c :: c in known ==> known[c] == []
  }

  /** The ids recorded for `c`; a category the ledger lacks has none. */
  function KnownFor(known: Ledger, c: Category): seq<string>
  {
    if c in known then known[c] else []
  }

  /** The fixed part of the signal name for each category. */
  function SignalPrefix(c: Category): string
  {
    match c
    case Cover => "switchbot_cloud_new_cover_"
    case Sensor => "switchbot_cloud_new_sensor_"
    case Switch => "switchbot_cloud_new_switch_"
  }

  /** The dispatcher signal that announces new devices of category `c` for the account
      whose config entry id is `accountId`. */
  function SignalNewDevice(c: Category, accountId: string): (signal: string)
    ensures |signal| >= |accountId| + 26
    ensures signal[..20] == "switchbot_cloud_new_"
    ensures signal[|signal| - |accountId|..] == accountId
  {
    SignalPrefix(c) + accountId
  }

  /** Two signals are the same only for the same category of the same account: the three
      categories of one account never share a signal, and two accounts never do either. */
  lemma SignalNamesDistinct(c1: Category, c2: Category, id1: string, id2: string)
    ensures SignalNewDevice(c1, id1) == SignalNewDevice(c2, id2) <==> c1 == c2 && id1 == id2
  {
    var s1, s2 := SignalNewDevice(c1, id1), SignalNewDevice(c2, id2);
    if s1 == s2 {
      // the characters after "switchbot_cloud_new_" tell the categories apart
      assert s1[20] == SignalPrefix(c1)[20] && s1[21] == SignalPrefix(c1)[21];
      assert s2[20] == SignalPrefix(c2)[20] && s2[21] == SignalPrefix(c2)[21];
      assert c1 == c2;
      var n := |SignalPrefix(c1)|;
      assert id1 == s1[n..] == s2[n..] == id2;
    }
  }

  /** Whether `device` is new for category `c`: its type feeds `c`, and the ledger does
      not hold its id for `c`. */
  predicate IsNewFor(device: Device, c: Category, known: Ledger)
  {
    && c in CategoriesOf(device.deviceType)
    && device.id !in KnownFor(known, c)
  }

  /** The devices of one poll that are new for `c`, in poll order, repeats kept. */
  function Group(devices: seq<Device>, known: Ledger, c: Category): seq<Device>
  {
    if devices == [] then []
    else
      var last := devices[|devices| - 1];
      Group(devices[..|devices| - 1], known, c) + (if IsNewFor(last, c, known) then [last] else [])
  }

  /** What one poll announces: each category with at least one new device, mapped to its
      group. */
  function NewDevices(devices: seq<Device>, known: Ledger): map<Category, seq<Device>>
  {
    map c | c in AllCategories && Group(devices, known, c) != [] :: Group(devices, known, c)
  }

  /** `m` holds `group` for `c` exactly when the group is not empty. */
  predicate GroupEntry(m: map<Category, seq<Device>>, c: Category, group: seq<Device>)
  {
    (c in m <==> group != []) && (c in m ==> m[c] == group)
  }

  /** A device is in the group for `c` exactly when it is in the poll and new for `c`. */
  lemma {:induction false} GroupMembership(devices: seq<Device>, known: Ledger, c: Category, d: Device)
    ensures d in Group(devices, known, c) <==> d in devices && IsNewFor(d, c, known)
  {
    if devices != [] {
      var n := |devices| - 1;
      GroupMembership(devices[..n], known, c, d);
      assert devices == devices[..n] + [devices[n]];
    }
  }

  /** `pos` places each of `group` in `devices`, at strictly increasing positions. */
  ghost predicate OrderedPositions(pos: seq<nat>, devices: seq<Device>, group: seq<Device>)
  {
    && |pos| == |group|
    && (forall k :: 0 <= k < |pos| ==> pos[k] < |devices| && devices[pos[k]] == group[k])
    && (forall k, l :: 0 <= k < l < |pos| ==> pos[k] < pos[l])
  }

  /** Where each member of a group sits in the poll: strictly increasing positions, so a
      group keeps the poll's order, and every position whose device is new for `c`
      appears, so nothing new is dropped. */
  lemma {:induction false} GroupPositions(devices: seq<Device>, known: Ledger, c: Category) returns (pos: seq<nat>)
    ensures OrderedPositions(pos, devices, Group(devices, known, c))
    ensures forall i :: 0 <= i < |devices| && IsNewFor(devices[i], c, known) ==> i in pos
  {
    if devices == [] {
      return [];
    }
    var n := |devices| - 1;
    var init := devices[..n];
    var rest := GroupPositions(init, known, c);
    if IsNewFor(devices[n], c, known) {
      pos := AppendPosition(devices, Group(init, known, c), rest);
    } else {
      pos := rest;
      KeepPositions(devices, Group(init, known, c), rest);
    }
    forall i | 0 <= i < |devices| && IsNewFor(devices[i], c, known) ensures i in pos {
      if i < n {
        assert devices[i] == init[i];
      }
    }
  }

  /** Positions in all but the last device stay valid in the whole poll. */
  lemma KeepPositions(devices: seq<Device>, group: seq<Device>, rest: seq<nat>)
    requires devices != []
    requires OrderedPositions(rest, devices[..|devices| - 1], group)
    ensures OrderedPositions(rest, devices, group)
  {
    var init := devices[..|devices| - 1];
    forall k | 0 <= k < |rest| ensures devices[rest[k]] == group[k] {
      assert devices[rest[k]] == init[rest[k]];
    }
  }

  /** The last device, appended to a group, sits after every earlier member. */
  lemma AppendPosition(devices: seq<Device>, group: seq<Device>, rest: seq<nat>) returns (pos: seq<nat>)
    requires devices != []
    requires OrderedPositions(rest, devices[..|devices| - 1], group)
    ensures pos == rest + [|devices| - 1]
    ensures OrderedPositions(pos, devices, group + [devices[|devices| - 1]])
  {
    var n := |devices| - 1;
    KeepPositions(devices, group, rest);
    pos := rest + [n];
    forall k | 0 <= k < |pos| ensures pos[k] < |devices| && devices[pos[k]] == (group + [devices[n]])[k] {
      if k < |rest| {
        assert pos[k] == rest[k];
      }
    }
  }

  /** Every announced group is non-empty, and a category is announced exactly when some
      device of the poll is new for it. */
  lemma NewDevicesAnnounced(devices: seq<Device>, known: Ledger, c: Category)
    ensures c in NewDevices(devices, known) ==> NewDevices(devices, known)[c] != []
    ensures c in NewDevices(devices, known) <==> exists d :: d in devices && IsNewFor(d, c, known)
  {
    assert c in AllCategories;
    if d :| d in devices && IsNewFor(d, c, known) {
      GroupMembership(devices, known, c, d);
    }
    if c in NewDevices(devices, known) {
      var d := Group(devices, known, c)[0];
      GroupMembership(devices, known, c, d);
    }
  }

  /** A device whose type is not in the table is in no announced group. */
  lemma UnknownTypeAnnouncedNowhere(devices: seq<Device>, known: Ledger, d: Device)
    requires d.deviceType !in DeviceTypeMapping
    ensures forall c :: c in NewDevices(devices, known) ==> d !in NewDevices(devices, known)[c]
  {
    forall c | c in NewDevices(devices, known)
      ensures d !in NewDevices(devices, known)[c]
    {
      GroupMembership(devices, known, c, d);
    }
  }

  /** A device whose id the ledger holds for `c` is not in the group for `c`. */
  lemma KnownIdNotAnnounced(devices: seq<Device>, known: Ledger, c: Category, d: Device)
    requires d.id in KnownFor(known, c)
    ensures c in NewDevices(devices, known) ==> d !in NewDevices(devices, known)[c]
  {
    GroupMembership(devices, known, c, d);
  }

  /** The group for `c` depends on the ledger only through its entry for `c`: each
      category is decided independently of the others. */
  lemma {:induction false} GroupIndependent(devices: seq<Device>, known1: Ledger, known2: Ledger, c: Category)
    requires KnownFor(known1, c) == KnownFor(known2, c)
    ensures Group(devices, known1, c) == Group(devices, known2, c)
  {
    if devices != [] {
      GroupIndependent(devices[..|devices| - 1], known1, known2, c);
    }
  }

  /** The callback does not remove repeats: a device listed twice in one poll and new for
      `c` is announced twice. */
  lemma RepeatAnnouncedTwice(d: Device, known: Ledger, c: Category)
    requires IsNewFor(d, c, known)
    ensures c in NewDevices([d, d], known) && NewDevices([d, d], known)[c] == [d, d]
  {
    assert [d, d][..1] == [d] && [d][..0] == [];
    assert Group([d], known, c) == [d];
    assert Group([d, d], known, c) == [d, d];
    assert c in AllCategories;
  }

  /** Extending the poll by its next device extends each group by that device exactly
      when it is new for the group's category. */
  lemma GroupStep(seen: seq<Device>, device: Device, known: Ledger, cats: seq<Category>)
    requires cats == CategoriesOf(device.deviceType)
    ensures forall c :: Group(seen + [device], known, c) ==
              Group(seen, known, c) + (if c in cats && device.id !in KnownFor(known, c) then [device] else [])
  {
    assert (seen + [device])[..|seen|] == seen;
  }

  /** Once `m` holds, for each category, the groups of `seen` extended by `device` where it
      is new, it holds the groups of `seen + [device]`. */
  lemma EntriesStep(m: map<Category, seq<Device>>, seen: seq<Device>, device: Device, known: Ledger,
                    cats: seq<Category>)
    requires cats == CategoriesOf(device.deviceType)
    requires forall c :: GroupEntry(m, c, Group(seen, known, c) +
                           if c in cats && device.id !in KnownFor(known, c) then [device] else [])
    ensures forall c :: GroupEntry(m, c, Group(seen + [device], known, c))
  {
    GroupStep(seen, device, known, cats);
  }

  /** A map that holds, for every category, exactly its non-empty group is the poll's
      announcement. */
  lemma NewDevicesByEntries(m: map<Category, seq<Device>>, devices: seq<Device>, known: Ledger)
    requires forall c :: GroupEntry(m, c, Group(devices, known, c))
    ensures m == NewDevices(devices, known)
  {
    forall c ensures c in AllCategories {
      EveryCategoryListed(c);
    }
  }

  /** A ledger with each category present and no ids, built one category at a time. */
  method FreshLedger() returns (known: Ledger)
    ensures IsEmptyLedger(known)
  {
    known := map[];
    var categories := [Cover, Sensor, Switch];
    for i := 0 to |categories|
      invariant known.Keys == set k | 0 <= k < i :: categories[k]
      invariant forall c :: c in known ==> known[c] == []
    {
      known := known[categories[i] := []];
    }
    assert forall c :: c in AllCategories ==> c in categories;
  }

  class Account {
    /** The config entry id, which names the account. */
    const id: string
    var knownIds: Ledger
    var listeners: seq<Unsubscribe>

    /** The ledger always has exactly the three categories. */
    ghost predicate Valid()
      reads this
    {
      knownIds.Keys == AllCategories
    }

    constructor (entryId: string)
      ensures id == entryId && IsEmptyLedger(knownIds) && listeners == [] && Valid()
    {
      id := entryId;
      listeners := [];
      var ledger := FreshLedger();
      knownIds := ledger;
    }

    /** Walks one polled list and groups, per category, the devices that are new for it,
        in poll order. It reads the ledger and the listeners and writes neither, so two
        calls over the same ledger give the same groups. */
    method UpdateDevices(devices: seq<Device>) returns (newDevices: map<Category, seq<Device>>)
      requires Valid()
      ensures newDevices == NewDevices(devices, knownIds)
    {
      newDevices := map[];
      var known := knownIds;
      for i := 0 to |devices|
        invariant forall c :: GroupEntry(newDevices, c, Group(devices[..i], known, c))
      {
        var device := devices[i];
        ghost var seen := devices[..i];
        assert devices[..i + 1] == seen + [device];
        if device.deviceType !in DeviceTypeMapping {
          EntriesStep(newDevices, seen, device, known, []);
          continue;
        }
        var cats := CategoriesOf(device.deviceType);
        MappingHasNoRepeats(device.deviceType);
        for j := 0 to |cats|
          invariant forall c :: GroupEntry(newDevices, c, Group(seen, known, c) +
                                  if c in cats[..j] && device.id !in KnownFor(known, c) then [device] else [])
        {
          var c := cats[j];
          assert cats[..j + 1] == cats[..j] + [c];
          if device.id in known[c] {
            continue;
          }
          if c !in newDevices {
            newDevices := newDevices[c := []];
          }
          newDevices := newDevices[c := newDevices[c] + [device]];
        }
        assert cats[..|cats|] == cats;
        EntriesStep(newDevices, seen, device, known, cats);
      }
      assert devices[..|devices|] == devices;
      NewDevicesByEntries(newDevices, devices, known);
    }

    /** Calls every unsubscribe once, in order, then empties the listeners and the ledger. */
    method Reset() returns (unsubscribed: seq<Unsubscribe>)
      modifies this
      ensures unsubscribed == old(listeners)
      ensures listeners == [] && IsEmptyLedger(knownIds) && Valid()
    {
      unsubscribed := [];
      for i := 0 to |listeners|
        invariant unsubscribed == listeners[..i]
      {
        unsubscribed := unsubscribed + [listeners[i]];
      }
      listeners := [];
      knownIds := FreshLedger();
    }
  }
}
