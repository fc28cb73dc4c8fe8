/**
 * The records the stages exchange. In the deployed system they travel as JSON text;
 * here they are values (serialisation is not modelled).
 */
module Messages {

  /** Body of a downward-queue message and detail of an event-bus entry:
      the image key, the classified plate and the image's violation metadata. */
  datatype MessageDetail = MessageDetail(
    imageKey: string,
    licensePlate: string,
    violation: string,
    time: string,
    location: string)

  datatype Owner = Owner(name: string, contact: string)

  /** What the registry lookup returns for a plate. */
  datatype VehicleInfo = VehicleInfo(
    plate: string,
    make: string,
    model: string,
    color: string,
    owner: Owner)

  /** Body of an upward-queue message: the vehicle record with the violation fields added. */
  datatype VehicleDetails = VehicleDetails(
    plate: string,
    make: string,
    model: string,
    color: string,
    owner: Owner,
    violation: string,
    time: string,
    location: string)
  {
    /** The vehicle part of the record, without the violation fields. */
    function Vehicle(): VehicleInfo {
      VehicleInfo(plate, make, model, color, owner)
    }
  }
}
