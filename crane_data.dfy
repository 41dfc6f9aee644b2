/** Values the Details screen receives from the rest of the Crane application:
    the nullable wrapper used for Kotlin's `T?`, the `City` entity looked up in
    the destinations repository, and the `ExploreModel` item a user taps on. */
module CraneData {

  /** A Kotlin nullable reference: `None` stands for `null`. */
  datatype Option<+T> = None | Some(value: T)

  /** A destination city. Only the fields the Details screen reads are kept:
      the lookup key `name`, the title `nameToDisplay` and the coordinates,
      which the source carries as strings. */
  datatype City = City(name: string, nameToDisplay: string, latitude: string, longitude: string)

  /** An item of the Explore list; the Details screen only uses its city. */
  datatype ExploreModel = ExploreModel(city: City)
}
