/** The configuration constants the billing code reads (`src/config.py`). */
module Config {
  import opened Calendar

  /** Monthly rent in Thai baht, the fixed foreign amount of every payment. */
  const ThbAmount: int := 40000

  const UseDateRangeFilter: bool := false
  const StartDate: CalendarDate := Date(2022, 7, 1)
  const EndDate: CalendarDate := Date(2024, 12, 31)

  const GenerateMergedPdfs: bool := true
  const GenerateSummaryReport: bool := true

  const From: string := "David Rucker\nPO Box 16656\nChapel Hill, NC 27516\nUSA"
  const To: string := "ROBERT W TRAYLOR JR\n1400 Village Square Blvd, #3-80930\nTallahassee, FL 32312\nUSA"
  const Item: string := "Rental Unit - Sukhumvit House, Apartment 9C"
}
