/** The lost-item record the repository decodes documents into. */
module LostItemModel {

  /**
   * One lost-item record. The field set is the one the repository builds,
   * plus `contactInfo`, which the storage manager writes.
   */
  datatype LostItem = LostItem(
    id: string,
    ownerId: string,
    itemName: string,
    location: string,
    description: string,
    additionalInfo: string,
    city: string,
    state: string,
    status: string,
    datePosted: string,
    userName: string,
    imageUrl: string,
    storagePath: string,
    latitude: real,
    longitude: real,
    contactInfo: string)

  /** The record class's default for string fields. */
  const DefaultText: string := ""

  /** The record class's default for coordinates. */
  const DefaultCoordinate: real := 0.0

  /** The status a record has when its document holds none. */
  const DefaultStatus: string := "Lost"

  /**
   * The record class's default `contactInfo`. The repository never reads that field back, so every
   * decoded record carries this value.
   */
  const DefaultContactInfo: string := "N/A"
}

/** The authentication service's current user, as the core reads it. */
module Auth {
  import opened Wrappers

  /** `FirebaseUser`: its `uid` and optional `displayName`. */
  datatype User = User(uid: string, displayName: Option<string>)
}
