/**
 The device registry of `createMesh` (Omnify.js, lines 32-48): a Map from a
 device's id to the device, with `connect`, `disconnect` and `broadcast`.

 A device is a value carrying its `id` and a `handle` that stands for the
 object's identity (two distinct objects may share an id). `device.receive(m)`
 is recorded as a delivery `Call(id, m)` to the device registered under `id`.
 */
module MeshNetwork {
  import opened Fanout

  datatype Device<Id> = Device(id: Id, handle: nat)

  class Mesh<Id(==,!new)> {
    /** The `devices` Map: id to the device last connected under that id. */
    var devices: map<Id, Device<Id>>

    /** Every device is filed under its own id. */
    ghost predicate Valid()
      reads this
    {
      forall id :: id in devices ==> devices[id].id == id
    }

    /** `createMesh()`: no device is connected. */
    constructor ()
      ensures Valid() && devices == map[]
    {
      devices := map[];
    }

    /**
     `broadcast(message)`: every registered device receives `message` exactly
     once, whatever id it is filed under; nobody else receives anything and
     the registry is unchanged (the method modifies nothing). Each delivery
     goes to a registered id, and the device filed there carries that id.
     */
    method Broadcast<M>(message: M) returns (deliveries: seq<Call<Id, M>>)
      requires Valid()
      ensures EachOnce(deliveries, devices.Keys, message)
      ensures |deliveries| == |devices|
      ensures forall i :: 0 <= i < |deliveries| ==>
        deliveries[i].target in devices && devices[deliveries[i].target].id == deliveries[i].target
    {
      deliveries := Notify(devices.Keys, message);
      forall i | 0 <= i < |deliveries|
        ensures deliveries[i].target in devices
      {
        assert CallsTo(deliveries, deliveries[i].target) != 0;
      }
    }

    /**
     `connect(device)`: files `device` under its id, replacing any device that
     was there; every other id keeps its device.
     */
    method Connect(device: Device<Id>)
      requires Valid()
      modifies this
      ensures Valid()
      ensures devices == old(devices)[device.id := device]
      ensures device.id in devices && devices[device.id] == device
      ensures forall id :: id != device.id ==> (id in devices <==> id in old(devices))
      ensures forall id :: id != device.id && id in devices ==> devices[id] == old(devices)[id]
    {
      devices := devices[device.id := device];
    }

    /**
     `disconnect(deviceId)`: removes the device filed under `deviceId`, if
     any; every other id keeps its device, and an absent id changes nothing.
     */
    method Disconnect(deviceId: Id)
      requires Valid()
      modifies this
      ensures Valid()
      ensures devices == old(devices) - {deviceId}
      ensures deviceId !in old(devices) ==> devices == old(devices)
      ensures forall id :: id != deviceId && id in old(devices) ==> id in devices && devices[id] == old(devices)[id]
    {
      devices := devices - {deviceId};
    }
  }
}
