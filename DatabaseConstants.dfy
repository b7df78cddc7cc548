/** Column names of the `owners` table. */
module DatabaseConstants {

  const FirstNameColumn := "first_name"
  const LastNameColumn := "last_name"
  const AddressColumn := "address"
  const CityColumn := "city"
  const TelephoneColumn := "telephone"
  const IdColumn := "id"
}
