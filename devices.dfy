/** The entities the discovery engine works on: the notification categories, a polled
    device record, and the static table that classifies a raw device type. */
module Devices {

  /** The three notification channels a device can be announced on. */
  datatype Category = Cover | Sensor | Switch

  const AllCategories: set<Category> := {Cover, Sensor, Switch}

  /** One device as a single poll reports it. `state` is the on/off flag a Bot reports. */
  datatype Device = Device(id: string, deviceType: string, name: string, state: bool)

  lemma EveryCategoryListed(c: Category)
    ensures c in AllCategories
  {
    match c
    case Cover =>
    case Sensor =>
    case Switch =>
  }

  /** The raw device types the integration knows, each with the categories it feeds,
      in the order they are listed. */
  const DeviceTypeMapping: map<string, seq<Category>> := map[
    "Curtain" := [Cover, Sensor],
    "CurtainGroup" := [Cover, Sensor],
    "Bot" := [Switch]
  ]

  /** The categories a raw device type feeds; none for a type the table does not list. */
  function CategoriesOf(deviceType: string): seq<Category>
  {
    if deviceType in DeviceTypeMapping then DeviceTypeMapping[deviceType] else []
  }

  /** The whole table, as sets: curtains (single or grouped) feed cover and sensor,
      a Bot feeds switch, and every other type feeds nothing. */
  lemma ClassificationTable(deviceType: string)
    ensures deviceType == "Curtain" || deviceType == "CurtainGroup" ==>
              (set c | c in CategoriesOf(deviceType)) == {Cover, Sensor}
    ensures deviceType == "Bot" ==> (set c | c in CategoriesOf(deviceType)) == {Switch}
    ensures deviceType !in {"Curtain", "CurtainGroup", "Bot"} ==> CategoriesOf(deviceType) == []
  {
    if deviceType == "Curtain" || deviceType == "CurtainGroup" {
      assert CategoriesOf(deviceType) == [Cover, Sensor];
    }
  }

  /** No listed type names a category twice, so a device is appended at most once
      per category in one pass over its categories. */
  lemma MappingHasNoRepeats(deviceType: string)
    ensures forall i, j :: 0 <= i < j < |CategoriesOf(deviceType)| ==>
              CategoriesOf(deviceType)[i] != CategoriesOf(deviceType)[j]
  {
  }

  /** The ids of a list of devices, in order. */
  function Ids(devices: seq<Device>): (ids: seq<string>)
    ensures |ids| == |devices|
    ensures forall k :: 0 <= k < |devices| ==> ids[k] == devices[k].id
  {
    seq(|devices|, k requires 0 <= k < |devices| => devices[k].id)
  }

  lemma IdsConcat(xs: seq<Device>, ys: seq<Device>)
    ensures Ids(xs + ys) == Ids(xs) + Ids(ys)
  {
  }
}
