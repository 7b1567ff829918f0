/** One blood type's stock, as listed by a blood bank and by the hospital inventory. */
module BloodStock {
  datatype StockStatus = High | Medium | Low | Critical

  datatype StockEntry = StockEntry(bloodType: string, units: int, status: StockStatus)
}
