/**
 * Values shared by the adapter and the service: the request options that
 * drive provider selection, and the location fix itself.
 */
module RequestOptions {
  /** The four priority classes of a location request. */
  datatype Priority = HighAccuracy | BalancedPowerAccuracy | LowPower | NoPower

  /**
   * Immutable request options. minTime is in milliseconds and minDistance in
   * whole metres (the Java field is a float; only non-negative values are
   * accepted by its builder).
   */
  datatype LocationRequestOptions = LocationRequestOptions(priority: Priority, minTime: nat, minDistance: nat)

  /** One position sample, treated as an opaque value. */
  datatype Location = Location(provider: string, latitudeE6: int, longitudeE6: int, time: nat)
}
