/** The value of WeightEntry.swift. */
module Weights {
  import opened Base

  /** A weight in kilograms. Its floating-point value is not inspected anywhere in the
      model; it is carried as the text `String(weight)` renders it as, which for a finite
      `Double` identifies it. */
  datatype Weight = Weight(text: string)

  datatype WeightEntry = WeightEntry(id: Id, weight: Weight, date: Timestamp, note: Option<string>)

  function EntryDate(e: WeightEntry): Timestamp {
    e.date
  }

  function EntryId(e: WeightEntry): Id {
    e.id
  }
}
