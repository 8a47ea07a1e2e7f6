/** The stored records of the fleet backend and the status strings the controllers compare against. */
module Records {

  const AVAILABLE: string := "AVAILABLE"
  const ON_TRIP: string := "ON_TRIP"
  const IN_SHOP: string := "IN_SHOP"

  const ON_DUTY: string := "ON_DUTY"
  const OFF_DUTY: string := "OFF_DUTY"

  const DRAFT: string := "DRAFT"
  const DISPATCHED: string := "DISPATCHED"
  const COMPLETED: string := "COMPLETED"
  const CANCELLED: string := "CANCELLED"

  /** Statuses are stored verbatim, so any string may appear in `status`. */
  datatype Vehicle = Vehicle(id: int, licensePlate: string, model: string, maxCapacity: real, status: string)

  /** `licenseExpiry` is a timestamp in milliseconds. */
  datatype Driver = Driver(id: int, name: string, licenseNumber: string, licenseExpiry: int,
                           safetyScore: real, status: string)

  datatype Trip = Trip(id: int, cargoWeight: real, vehicleId: int, driverId: int, status: string)

  /** `createdAt` is the insertion timestamp in milliseconds. */
  datatype MaintenanceLog = MaintenanceLog(id: int, description: string, cost: real, vehicleId: int, createdAt: int)
}
