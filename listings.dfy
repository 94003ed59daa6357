/** The records of the marketplace (types.ts): a listing is a property, a job
    or a service ad; every listing carries an id, an owner, a moderation
    status and the display fields the three kinds share. */
module Listings {

  datatype Status = Pending | Approved | Rejected

  datatype DealType = Sale | Rent | Mortgage

  datatype PropertyType = Apartment | House | Home | Land | Commercial | Shop

  datatype JobType = FullTime | PartTime | Remote | Contract

  datatype ServiceCategory = Repair | Cleaning | Education | Technical | Transport

  /** Which of the three collections the app is browsing. */
  datatype AppMode = Estate | Jobs | Services

  datatype Language = Dari | Pashto

  /** A JavaScript number used as a coordinate: finite, or NaN/Infinity. */
  datatype Coordinate = Finite(value: real) | NonFinite

  datatype Location = Location(lat: Coordinate, lng: Coordinate)

  /** `Number.isFinite(loc.lat) && Number.isFinite(loc.lng)`. */
  predicate IsFiniteLocation(loc: Location)
  {
    loc.lat.Finite? && loc.lng.Finite?
  }

  /** `Property | Job | Service`. Fields with the same name are shared by
      the constructors, so `item.id`, `item.status`, `item.city` work on any
      listing, as they do on the TypeScript union. */
  datatype Listing =
    | Property(id: string, ownerId: string, title: string, price: int, currency: string,
               location: Location, address: string, city: string, images: seq<string>,
               bedrooms: int, hasStorage: bool, area: int, propertyType: PropertyType,
               dealType: DealType, description: string, features: seq<string>, date: string,
               status: Status, phoneNumber: string)
    | Job(id: string, ownerId: string, title: string, company: string, salary: int,
          currency: string, location: Location, address: string, city: string,
          images: seq<string>, jobType: JobType, description: string,
          requirements: seq<string>, date: string, status: Status, phoneNumber: string)
    | Service(id: string, ownerId: string, title: string, providerName: string,
              category: ServiceCategory, location: Location, address: string, city: string,
              images: seq<string>, description: string, experience: string,
              phoneNumber: string, date: string, status: Status)

  datatype AdminRole = Super | Normal

  datatype AdminUser = AdminUser(id: string, username: string, password: string,
                                 fullName: string, role: AdminRole)
}
