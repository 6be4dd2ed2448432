/** One truck weighment as the entry form records it and the viewer reads it:
    two strings and three weights in kilograms, already parsed to numbers. */
module Weighment {

  datatype EntryData = EntryData(
    village: string,
    vehicleNumber: string,
    loadedWeight: real,
    emptyWeight: real,
    bagWeight: real)
}
