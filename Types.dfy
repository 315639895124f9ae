/** The enumerations shared by the forms, the API and the database rows. */
module Types {

  /** The kinds of food center (`FoodCenterType`). */
  const CenterTypes: seq<string> := ["food_bank", "community_kitchen", "soup_kitchen", "mobile_unit", "pantry"]

  /** The availability statuses a food center can report (`AvailabilityStatus`). */
  const AvailabilityStatuses: seq<string> := ["available", "limited", "unavailable", "unknown"]

  /** A food center as the front end lists it (the fields the list and its filter use). */
  datatype FoodCenter = FoodCenter(
    id: string,
    name: string,
    centerType: string,
    address: string,
    city: string,
    country: string,
    currentAvailability: string,
    verified: bool)
}
