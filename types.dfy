/** The record shapes shared by the data layer and the components (src/types/index.ts). */
module Types {
  import opened Wrappers

  /** A point in time; the store's timestamps and their `toDate()` images are both this. */
  type Timestamp = nat

  /** A marketplace listing as the components see it. Prices are modelled as reals. */
  datatype Listing = Listing(
    id: string,
    title: string,
    description: string,
    price: real,
    ownerId: string,
    createdAt: Timestamp)

  /** The signed-in user; only `uid` takes part in any decision. */
  datatype User = User(uid: string, email: Option<string>, displayName: Option<string>)
}
