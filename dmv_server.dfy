/**
 * The registry-enrichment stage: each poll receives at most one message from the
 * downward queue, looks its plate up in the vehicle registry, sends the vehicle
 * record with the violation fields added to the upward queue when the plate is
 * found, and deletes the source message whether or not it was found.
 *
 * The registry is a sequence of records (the XML file is not modelled). Send and
 * delete failures are fault inputs; both are logged and swallowed, as in DMVServer.js.
 */
module DMVServer {
  import opened Outcomes
  import opened Text
  import opened Cloud
  import opened Messages

  const UpwardGroupId := "DMVDataGroup"

  /** One vehicle element of the registry. */
  datatype RegistryVehicle = RegistryVehicle(
    plate: string,
    make: string,
    model: string,
    color: string,
    ownerName: string,
    ownerContact: string)

  /** The record the lookup builds from a registry vehicle found for a plate. */
  function VehicleInfoOf(v: RegistryVehicle, licensePlate: string): VehicleInfo {
    VehicleInfo(licensePlate, v.make, v.model, v.color, Owner(v.ownerName, v.ownerContact))
  }

  predicate IsFirstWithPlate(registry: seq<RegistryVehicle>, licensePlate: string, i: int) {
    && 0 <= i < |registry|
    && registry[i].plate == licensePlate
    && forall j :: 0 <= j < i ==> registry[j].plate != licensePlate
  }

  /** The lookup the query performs: the first vehicle with exactly this plate. */
  function Lookup(registry: seq<RegistryVehicle>, licensePlate: string): (r: Option<VehicleInfo>)
    ensures r.Some? ==> r.value.plate == licensePlate
  {
    if registry == [] then None
    else if registry[0].plate == licensePlate then Some(VehicleInfoOf(registry[0], licensePlate))
    else Lookup(registry[1..], licensePlate)
  }

  /** The first vehicle carrying the plate is the one returned; later duplicates are ignored. */
  lemma {:induction false} LookupFindsFirst(registry: seq<RegistryVehicle>, licensePlate: string, i: int)
    requires IsFirstWithPlate(registry, licensePlate, i)
    ensures Lookup(registry, licensePlate) == Some(VehicleInfoOf(registry[i], licensePlate))
  {
    if i > 0 {
      assert IsFirstWithPlate(registry[1..], licensePlate, i - 1);
      LookupFindsFirst(registry[1..], licensePlate, i - 1);
    }
  }

  /** The lookup misses exactly when no vehicle carries the plate. */
  lemma {:induction false} LookupMissesIffAbsent(registry: seq<RegistryVehicle>, licensePlate: string)
    ensures Lookup(registry, licensePlate).None? <==>
            forall i :: 0 <= i < |registry| ==> registry[i].plate != licensePlate
  {
    if registry != [] && registry[0].plate != licensePlate {
      LookupMissesIffAbsent(registry[1..], licensePlate);
      assert forall i :: 1 <= i < |registry| ==> registry[i] == registry[1..][i - 1];
    }
  }

  /** A found record copies make, model, color and owner from some vehicle with the plate. */
  lemma {:induction false} LookupCopiesVehicle(registry: seq<RegistryVehicle>, licensePlate: string)
    requires Lookup(registry, licensePlate).Some?
    ensures exists i :: IsFirstWithPlate(registry, licensePlate, i) &&
                        Lookup(registry, licensePlate).value == VehicleInfoOf(registry[i], licensePlate)
  {
    if registry[0].plate == licensePlate {
      assert IsFirstWithPlate(registry, licensePlate, 0);
    } else {
      LookupCopiesVehicle(registry[1..], licensePlate);
      var i :| IsFirstWithPlate(registry[1..], licensePlate, i) &&
               Lookup(registry[1..], licensePlate).value == VehicleInfoOf(registry[1..][i], licensePlate);
      assert IsFirstWithPlate(registry, licensePlate, i + 1);
    }
  }

  /** queryDMVDatabase: a linear search of the registry by exact plate. */
  method QueryDMVDatabase(registry: seq<RegistryVehicle>, licensePlate: string) returns (vehicleInfo: Option<VehicleInfo>)
    ensures vehicleInfo == Lookup(registry, licensePlate)
  {
    vehicleInfo := None;
    var i := 0;
    while i < |registry|
      invariant 0 <= i <= |registry|
      invariant Lookup(registry, licensePlate) == Lookup(registry[i..], licensePlate)
    {
      var vehicle := registry[i];
      if vehicle.plate == licensePlate {
        vehicleInfo := Some(VehicleInfoOf(vehicle, licensePlate));
        return;
      }
      assert registry[i..][1..] == registry[i + 1..];
      i := i + 1;
    }
  }

  /** The upward record: the found vehicle with the message's violation, time and location added. */
  function Enrich(vehicleDetails: VehicleInfo, body: MessageDetail): (r: VehicleDetails)
    ensures r.Vehicle() == vehicleDetails
    ensures r.violation == body.violation && r.time == body.time && r.location == body.location
  {
    VehicleDetails(vehicleDetails.plate, vehicleDetails.make, vehicleDetails.model, vehicleDetails.color,
                   vehicleDetails.owner, body.violation, body.time, body.location)
  }

  /** Enrichment keeps the queried plate: the record on the upward queue names the plate the message asked for. */
  lemma EnrichedPlateIsQueried(registry: seq<RegistryVehicle>, body: MessageDetail)
    requires Lookup(registry, body.licensePlate).Some?
    ensures Enrich(Lookup(registry, body.licensePlate).value, body).plate == body.licensePlate
  {
  }

  /** The upward deduplication id: the plate, a dash and the send time, each of which can
      be read back from it. */
  function UpwardDeduplicationId(message: VehicleDetails, now: nat): (id: string)
    ensures && |id| > |message.plate| + 1 && id[..|message.plate|] == message.plate && id[|message.plate|] == '-'
            && AllDigits(id[|message.plate| + 1..]) && DigitsValue(id[|message.plate| + 1..]) == now
  {
    DashedNumberParts(message.plate, now);
    message.plate + "-" + NatToString(now)
  }

  /** postMessageToUpwardQueue: one message in group `DMVDataGroup`; a failed send is only logged. */
  method PostMessageToUpwardQueue(queue: Queue<VehicleDetails>, message: VehicleDetails, now: nat, fault: bool)
    requires queue.Valid()
    modifies queue
    ensures queue.Valid()
    ensures queue.messages == old(queue.messages) +
      (if fault then [] else [Message(old(queue.nextHandle), UpwardGroupId, UpwardDeduplicationId(message, now), message)])
    ensures queue.nextHandle == old(queue.nextHandle) + (if fault then 0 else 1)
  {
    var sent := queue.Send(message, UpwardGroupId, UpwardDeduplicationId(message, now), fault);
  }

  /** deleteMessageFromQueue: removes the message; a failed delete is only logged. */
  method DeleteMessageFromQueue(queue: Queue<MessageDetail>, receiptHandle: Handle, fault: bool)
    requires queue.Valid()
    modifies queue
    ensures queue.Valid() && queue.nextHandle == old(queue.nextHandle)
    ensures queue.messages == if fault then old(queue.messages) else Without(old(queue.messages), {receiptHandle})
  {
    var deleted := queue.Delete(receiptHandle, fault);
  }

  datatype PollError = ReceiveFailed

  /**
   * What one poll appends to the upward queue for a received message: at most one record,
   * and exactly one when the plate is in the registry and the send succeeds; that record
   * is the looked-up vehicle with the message's violation, time and location.
   */
  function Forwarded(registry: seq<RegistryVehicle>, m: Message<MessageDetail>, handle: Handle, now: nat, sendFault: bool)
    : (f: seq<Message<VehicleDetails>>)
    ensures |f| <= 1
    ensures |f| == 1 <==> !sendFault && exists i :: 0 <= i < |registry| && registry[i].plate == m.body.licensePlate
    ensures |f| == 1 ==>
      && f[0].receiptHandle == handle && f[0].groupId == UpwardGroupId
      && Lookup(registry, m.body.licensePlate).Some?
      && f[0].body.Vehicle() == Lookup(registry, m.body.licensePlate).value
      && f[0].body.violation == m.body.violation && f[0].body.time == m.body.time
      && f[0].body.location == m.body.location
  {
    LookupMissesIffAbsent(registry, m.body.licensePlate);
    match Lookup(registry, m.body.licensePlate)
    case None => []
    case Some(v) =>
      if sendFault then []
      else
        var enriched := Enrich(v, m.body);
        [Message(handle, UpwardGroupId, UpwardDeduplicationId(enriched, now), enriched)]
  }

  /**
   * pollDownwardQueue: a failed receive throws and changes nothing. An empty receive
   * changes nothing. Otherwise the oldest message is looked up; on a hit the enriched
   * record is sent upward (a failed send is swallowed), and in every case the source
   * message is then deleted (a failed delete is swallowed and leaves it in place).
   */
  method PollDownwardQueue(registry: seq<RegistryVehicle>, downward: Queue<MessageDetail>, upward: Queue<VehicleDetails>,
                           now: nat, receiveFault: bool, sendFault: bool, deleteFault: bool)
    returns (result: Outcome<PollError>)
    requires downward.Valid() && upward.Valid()
    modifies downward, upward
    ensures downward.Valid() && upward.Valid()
    ensures result == if receiveFault then Fail(ReceiveFailed) else Pass
    ensures receiveFault || old(downward.messages) == [] ==> unchanged(downward) && unchanged(upward)
    ensures !receiveFault && old(downward.messages) != [] ==>
      var m := old(downward.messages)[0];
      var f := Forwarded(registry, m, old(upward.nextHandle), now, sendFault);
      && upward.messages == old(upward.messages) + f
      && upward.nextHandle == old(upward.nextHandle) + |f|
      && downward.messages == (if deleteFault then old(downward.messages) else old(downward.messages)[1..])
      && downward.nextHandle == old(downward.nextHandle)
  {
    var received, batch := downward.Receive(receiveFault);
    if !received {
      return Fail(ReceiveFailed);
    }
    if |batch| > 0 {
      for i := 0 to |batch|
        invariant downward.Valid() && upward.Valid()
        invariant i == 0 ==> unchanged(downward) && unchanged(upward)
        invariant i == 1 ==>
          var m := old(downward.messages)[0];
          var f := Forwarded(registry, m, old(upward.nextHandle), now, sendFault);
          && upward.messages == old(upward.messages) + f
          && upward.nextHandle == old(upward.nextHandle) + |f|
          && downward.messages == (if deleteFault then old(downward.messages) else old(downward.messages)[1..])
          && downward.nextHandle == old(downward.nextHandle)
      {
        var message := batch[i];
        var body := message.body;
        var vehicleDetails := QueryDMVDatabase(registry, body.licensePlate);
        if vehicleDetails.Some? {
          var enriched := Enrich(vehicleDetails.value, body);
          PostMessageToUpwardQueue(upward, enriched, now, sendFault);
        }
        DeleteMessageFromQueue(downward, message.receiptHandle, deleteFault);
        if !deleteFault {
          WithoutHead(old(downward.messages));
        }
      }
    }
    result := Pass;
  }

  // ---------------------------------------------------------------------------
  // Worked example

  /** A registry entry for 3ABC123 enriches a no_stop violation at Main St. */
  lemma RegistryHitExample()
    ensures var registry := [RegistryVehicle("3ABC123", "Toyota", "Camry", "Blue", "J Doe", "j@x.com")];
      var body := MessageDetail("img.jpg", "3ABC123", "no_stop", "2024-05-01T10:00:00Z", "Main St");
      Enrich(Lookup(registry, "3ABC123").value, body)
        == VehicleDetails("3ABC123", "Toyota", "Camry", "Blue", Owner("J Doe", "j@x.com"),
                          "no_stop", "2024-05-01T10:00:00Z", "Main St")
  {
  }
}
