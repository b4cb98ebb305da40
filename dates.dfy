/** The date rules the workbook code calls but that live outside it
    (`isDateFormat`, `isDateTime` and `dateOffset`). They are kept abstract:
    every result of this model holds for whichever rules are supplied. */
module Dates {
  datatype DateRules = DateRules(
    /** Whether a custom number-format code displays a date or time. */
    isDateFormat: string -> bool,
    /** Whether a number-format id is a date, given the custom date ids. */
    isDateTime: (int, set<int>) -> bool,
    /** The day offset of the serial-date epoch, given the 1904 flag. */
    dateOffset: bool -> real)
}
