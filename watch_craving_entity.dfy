/** The watch-side craving record (CraveWatch/Core/Domain/Entities/WatchCravingEntity.swift). */
module Domain {

  /** Seconds since the epoch. The source holds a `Date` and sends its
      `timeIntervalSince1970` (a `Double`); here the value is opaque and
      only ever copied, so an integer stands in for it. */
  type Seconds = int

  /** The three stored fields of `WatchCravingEntity`. Persistence is not modelled. */
  datatype WatchCravingEntity = WatchCravingEntity(text: string, intensity: int, timestamp: Seconds)
}
