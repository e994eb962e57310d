# Chalet bookings pipeline, modelled in Dafny

This project models the booking pipeline of the chalet bookings scripts. A
guest fills in a Google Form. The answers arrive in one of two ways:

- the polling script `chalet_bookings_v2.py` reads the whole response sheet;
- the webhook script `chalet_bookings_v2.1.py` receives one submission at a time.

Each response is cleaned and parsed into a `Booking`: a party leader, the
guests numbered from 2, and three answers about the whole party. The booking
is then written to the master sheet as one batch of cells. The polling script
also dumps every booking to a local JSON archive. It records the sheet's
fingerprint and the run's start time, so that the next run only picks up
newer responses.

The modules follow the program's structure:

| module | file | what it models |
|---|---|---|
| `Wrappers` | wrappers.dfy | `Option` and `Result` |
| `Chars` | chars.dfy | character classes, `strip()`, decimal digits |
| `PhoneNumbers` | phone.dfy | `parse_phone_number` |
| `LongFormDates` | long_dates.dfy | `parse_long_form_date`, stage by stage |
| `Bookings` | bookings.dfy | the `Booking` class and the dicts it holds |
| `BookingParser` | parser.dfy | `parse_row` / `parse_booking`, the blank-cell cleaning of the polling loop, `filter_data` |
| `MasterSheet` | master_sheet.dfy | `MASTER_COLUMNS_MAPPING` and the cell batch of `add_to_master` |
| `BookingsArchive` | archive.dfy | id allocation of `dump_to_json` |
| `ResponsePolling` | polling.dfy | `check_sheet_changed`, `process_responses`, `main` of the polling script |
| `FormWebhook` | webhook.dfy | `google_form_webhook` of the webhook script |

How the Python maps onto Dafny:

- Python dicts keep insertion order. A dict that is written out is
  therefore a sequence of (key, value) pairs; the guests and the archive are
  sequences too.
- A Python exception is a `Failure` of a `Result`.
- `sys.exit(1)` is an `Exited` outcome.
- The sheet's SHA-256 is an opaque fingerprint compared for equality.
- Times are integers.
- `pd.to_datetime` and the booking-date `strftime` are function parameters.

The phone normaliser is modelled as the code is written: only a leading
`44` is dropped (functions.py:19-20). A number written `0044 …` therefore
keeps `0044` and is not reduced to eleven digits. `DoubleZeroPrefixKept`
states this.

The two scripts read the form's timestamp differently. The polling script
converts the Timestamp column day-first (`dayfirst=True`,
chalet_bookings_v2.py:226), and its booking date comes from that same time.
The webhook calls `pd.to_datetime` with the default, month-first reading
(chalet_bookings_v2.1.py:136). The model gives the polling script
`parseStamp` and `dayText`, and the webhook its own `hookBookedOn`.
`BookingDateCellsAgreeIff` states that the two booking-date cells agree
exactly when the two conversions do, and `WebhookMatchesPolling` promises
the same values for the sheet only in that case.

## Model

| member | source | states |
|---|---|---|
| Chars.TrimStart | functions.py:39 | `lstrip` drops exactly a blank prefix: what remains is a suffix of the input that does not start with whitespace |
| Chars.TrimEnd | functions.py:39 | `rstrip` drops exactly a blank suffix: what remains is a prefix of the input that does not end with whitespace |
| Chars.StripEmptyIffBlank | chalet_bookings_v2.1.py:132 | `x.strip()` is empty exactly when every character of `x` is whitespace |
| Chars.NatToString | chalet_bookings_v2.py:184 | `str(n)` is a non-empty digit string that reads back as `n`; it is one digit exactly when `n < 10`; it starts with `0` only for `n == 0` |
| Chars.Pad2 | functions.py:45 | `%d` / `%m` give two digits that read back as the number |
| Chars.Pad4 | functions.py:45 | `%Y` gives four digits that read back as the year |
| PhoneNumbers.Digits | functions.py:18 | the kept characters are all digits and no more than the input; a single character is kept exactly when it is a digit |
| PhoneNumbers.DigitsOfConcat | functions.py:18 | filtering digits distributes over concatenation |
| PhoneNumbers.DigitsOfDigitString | functions.py:18 | a string of digits is kept whole |
| PhoneNumbers.NormalisePhone | functions.py:18-23 | never fails; the result is all digits and starts with `0`; an input with no digits gives `"0"` |
| PhoneNumbers.NormalisePhoneIdempotent | functions.py:18-23 | normalising a normalised number changes nothing |
| PhoneNumbers.CountryCodeDroppedOnce | functions.py:19-22 | when the digits are `44` + national, the result is national if that starts with `0`, else `0` + national |
| PhoneNumbers.NoCountryCodeKeepsDigits | functions.py:19-22 | without a leading `44` every digit is kept, with a `0` put in front unless one is there |
| PhoneNumbers.InternationalBecomesElevenDigits | functions.py:18-22 | `44` followed by ten national digits not starting with `0` becomes the eleven digits `0` + national |
| PhoneNumbers.PhoneExample | functions.py:13-16 | `"+44 7802 312241"` becomes `"07802312241"` |
| PhoneNumbers.DoubleZeroPrefixKept | functions.py:19-20 | `"0044 7802 312241"` keeps its `0044`: the result is `"00447802312241"` |
| PhoneNumbers.RepeatedCountryCode | functions.py:19-20 | the input `"44 44 123"` normalises to `"044123"` |
| LongFormDates.WeekdayAt | functions.py:38 | a weekday name is found only where the text starts with one of the seven names |
| LongFormDates.RemoveWeekdaysKeepsMonth | functions.py:38 | the weekday pattern never deletes a month name |
| LongFormDates.RemoveLeadingWeekday | functions.py:38 | a weekday name followed by a non-word character is deleted |
| LongFormDates.StripOrdinalsDropsSuffix | functions.py:39 | `st`, `nd`, `rd` or `th` right after a digit run is deleted and the digits are kept |
| LongFormDates.StripOrdinalsKeepsNumber | functions.py:39 | a digit run followed by whitespace or the end is left alone |
| LongFormDates.WeekdayAndSuffixIgnored | functions.py:38-39 | the weekday is not checked against the date and any of the four suffixes is accepted on any day: both clean to the bare day |
| LongFormDates.CleanCanonical | functions.py:38-39 | text already of the form `<day> <Month> <year>` is unchanged by cleaning |
| LongFormDates.SplitDayMonthYear | functions.py:42 | a split gives three whitespace-free tokens separated by whitespace runs that join back into the text |
| LongFormDates.SplitDayMonthYearOf | functions.py:42 | any three tokens separated by whitespace runs split back into exactly those pieces |
| LongFormDates.DayValue | functions.py:42 | `%d` accepts only a digit string for a number from 1 to 31 |
| LongFormDates.DayValueOfNumber | functions.py:42 | every day number 1..31, padded or not, is read as itself |
| LongFormDates.MonthIndex | functions.py:42 | `%B` reads the 1-based number of the full month name it matches, ignoring case, and rejects text matching no month name |
| LongFormDates.MonthIndexOfName | functions.py:42 | each month name is read as its position in the year |
| LongFormDates.MonthNamesDistinct | functions.py:42 | no two month names match each other, ignoring case |
| LongFormDates.YearValue | functions.py:42 | `%Y` accepts a token exactly when it is four digits, and reads it as their decimal value |
| LongFormDates.ReadDate | functions.py:42 | `strptime` succeeds only on a real calendar day whose day, month and year are the three tokens' values |
| LongFormDates.ReadDateOf | functions.py:42 | once the tokens are read, success depends on the calendar alone: a day that does not exist is `OutOfRange` |
| LongFormDates.ReadCanonical | functions.py:42 | reading the canonical text of a date gives that date back, or `OutOfRange` when there is no such day |
| LongFormDates.DecodeFormatRoundTrip | functions.py:45 | `dd/mm/yyyy` output reads back as the date it was made from |
| LongFormDates.ParseLongFormDate | functions.py:36-45 | succeeds exactly when the cleaned text names a real day; the result is `dd/mm/yyyy` and decodes to that day; errors are passed on unchanged |
| LongFormDates.CleanLongForm | functions.py:38-39 | cleaning `<Weekday> <day><suffix> <Month> <year>` leaves `<day> <Month> <year>` |
| LongFormDates.LongFormRoundTrip | functions.py:36-45 | the long form of a date converts to that date's `dd/mm/yyyy` text, or fails with `OutOfRange` when the day does not exist |
| LongFormDates.LongFormIgnoresDecoration | functions.py:38-45 | any weekday name and any ordinal suffix give the same result for the same date |
| LongFormDates.ExampleSunday | functions.py:28 | `"Sunday 25th January 2026"` becomes `"25/01/2026"` |
| LongFormDates.ExampleNoSuchDay | functions.py:42 | `"Monday 30th February 2026"` is rejected as `OutOfRange` |
| Bookings.RecordKeys | chalet_bookings_v2.py:161-200 | the leader dict's keys are the 17 of `LeaderKeys` in insertion order, a guest dict's the 11 of `GuestKeys`; the popped polling booking keeps `booking_time`, `start_date`, `end_date`, `how_heard`, `dietaries`, `kids_meals` in attribute order and the webhook's keeps the last three |
| Bookings.LeaderRecordLookup | chalet_bookings_v2.py:161-179 | each of the 17 leader keys looks up the leader's field for it |
| Bookings.GuestRecordLookup | chalet_bookings_v2.py:188-200 | each of the 11 guest keys looks up the guest's field for it, with `None` for an email, birth date or room left out |
| Bookings.PersonRecordsLack | chalet_bookings_v2.py:161-200 | a key that a person dict does not hold looks up as nothing |
| Bookings.LastFieldAppend | chalet_bookings_v2.py:113-115 | in dicts written one after the other, a key's value is the later dict's when it has the key, the earlier one's otherwise |
| BookingParser.Answer | chalet_bookings_v2.1.py:137-154 | `data[key]` succeeds exactly when the key is present; a missing key is a `MissingAnswer` for that key |
| BookingParser.Get | chalet_bookings_v2.py:185-194 | `data.get(key)` is the answer when the key is present and `None` otherwise |
| BookingParser.StayDate | chalet_bookings_v2.py:158-159 | a stay date is the date converter's output; its failure is a `BadStayDate` carrying the question and the converter's reason |
| BookingParser.ParseTrip | chalet_bookings_v2.py:155-159 | the shared values are computed exactly when timestamp, family name, chalet and both stay dates of that chalet are present and valid; they are the booking date of the timestamp, the family name as group, the chalet and the converted dates; a missing answer is the first one missing in the order timestamp, family name, chalet, start, end; a bad timestamp or stay date names its own question |
| BookingParser.ThirdAddressLine | chalet_bookings_v2.py:169 | `Address 3` is `None` exactly when it is absent or empty |
| BookingParser.ParseLeader | chalet_bookings_v2.py:161-179 | the leader succeeds exactly when every required answer is present; it carries the shared values; full name is first + `" "` + family; the phone is normalised; a failure names the first missing required question in the order the dict is built |
| BookingParser.FirstMissing | chalet_bookings_v2.py:161-179 | finds nothing exactly when every label is answered; otherwise the first unanswered label, with every earlier one answered |
| BookingParser.GuestAt | chalet_bookings_v2.py:188-200 | a guest carries the shared values, its own answers read with `get`, family name `""` when absent, and full name first + `" "` + family |
| BookingParser.GuestsFrom | chalet_bookings_v2.py:181-201 | guests are numbered contiguously from the start, each the guest read for its number; the loop stops at the first person whose first name is missing or empty |
| BookingParser.ParseBooking | chalet_bookings_v2.py:153-206 | succeeds exactly when the response is `Accepted`; the leader is `ParseLeader` on the trip from `ParseTrip`; the three party answers are read with `get`; the guests are the guest loop from person 2; a trip error comes first, then the first missing leader question |
| BookingParser.BookedOnFromStamp | chalet_bookings_v2.py:155 | when the timestamp converts, the booking is never rejected for it and its booking date is the conversion |
| BookingParser.SameStampSameBooking | chalet_bookings_v2.py:153-206 | two conversions that agree on the row's timestamp give the same booking or the same error |
| BookingParser.SameStampSameAcceptance | chalet_bookings_v2.py:153-206 | two conversions that both succeed or both fail on the timestamp accept the same rows |
| BookingParser.GapAtPersonTwo | chalet_bookings_v2.py:182-187 | without a first name for person 2 there are no guests, whatever later persons answered |
| BookingParser.GuestsStopAtGap | chalet_bookings_v2.py:183-187 | the guest loop stops no later than the first unanswered person |
| BookingParser.SharedTrip | chalet_bookings_v2.py:195-199 | every guest's group, chalet, stay dates and booking date are the leader's, and the group is the leader's family name |
| BookingParser.CleanRow | chalet_bookings_v2.py:231 | the polling clean-up keeps exactly the answers that are not all whitespace, unchanged |
| BookingParser.AnyStripsNonEmptyIffSomeNotBlank | chalet_bookings_v2.1.py:132 | `any(x.strip() for x in v)` holds exactly when some answer in `v` is not all whitespace |
| BookingParser.FilterData | chalet_bookings_v2.1.py:131-132 | `filter_data` keeps a question exactly when some answer in its list is not blank, and maps it to the list's first element |
| BookingParser.FilterSingletonsIsCleanRow | chalet_bookings_v2.1.py:131-132 | on one-answer lists, `filter_data` and the polling clean-up give the same answers |
| BookingParser.CleanRowAnsweredIffPresent | chalet_bookings_v2.py:185-187 | after the polling clean-up, a question counts as answered exactly when its answer is not all whitespace |
| BookingParser.EmptyFirstAnswerEndsGuests | chalet_bookings_v2.1.py:166-168 | a kept first-name question whose first answer is `""` still ends the guest loop |
| BookingParser.WhitespaceFirstAnswerNamesGuest | chalet_bookings_v2.1.py:166-169 | a first answer `" "` next to a non-blank one is truthy and names a guest `" "` |
| MasterSheet.Column | chalet_bookings_v2.py:36-57 | every key except `booking_time` has a column; none is column 2 or 15; `KeyOfColumn` inverts it |
| MasterSheet.KeyOfColumnInverse | chalet_bookings_v2.py:36-57 | each column the mapping knows is the column of its key |
| MasterSheet.ColumnInjective | chalet_bookings_v2.py:36-57 | no two keys share a column |
| MasterSheet.MapFields | chalet_bookings_v2.py:98-102 | `map_fields` makes at most one cell per entry, all on the given row and all in mapped columns |
| MasterSheet.Written | chalet_bookings_v2.py:122 | the batch sends a value for a position exactly when some cell of the batch is at it; it sends the last such cell's value |
| MasterSheet.WrittenAppend | chalet_bookings_v2.py:122 | a later cell for a position replaces an earlier one in what the batch sends |
| MasterSheet.MapFieldsWritten | chalet_bookings_v2.py:98-102 | after `map_fields`, the batch sends, for a mapped column, the dict's last value for its key |
| MasterSheet.GuestRow | chalet_bookings_v2.py:118-120 | a guest row starts with its marker `row - 1` in column 2 and stays on its row |
| MasterSheet.GuestCells | chalet_bookings_v2.py:117-120 | the guest rows stay within one row per guest; column 2 holds the row's marker; other cells are mapped columns |
| MasterSheet.LeaderCells | chalet_bookings_v2.py:111-115 | the leader row starts with the marker and the `True` flag, then mapped fields only |
| MasterSheet.BuildCells | chalet_bookings_v2.py:104-120 | every cell is on the rows from `identified + 2` to one per guest beyond, in column 2, 15 or a mapped column; markers are `row - 1`; `True` goes in column 15 of the leader row only |
| MasterSheet.LeaderMarkers | chalet_bookings_v2.py:111-112 | the batch sends marker `identified + 1` and the confirmed flag for the leader row |
| MasterSheet.NotConfirmed | chalet_bookings_v2.py:112 | no row but the leader's gets the confirmed flag |
| MasterSheet.Markers | chalet_bookings_v2.py:111-119 | for every row it touches, the batch sends marker `row - 1`, and it sends the confirmed flag for the leader row only |
| MasterSheet.LeaderRowReadsBack | chalet_bookings_v2.py:114-115 | for a mapped column of the leader row, the batch sends the last value for its key among the top-level fields and then the leader's |
| MasterSheet.LeaderFamilyCell | chalet_bookings_v2.py:115 | the batch sends the leader's family name for the family-name column of the leader row |
| MasterSheet.LeaderBookedOnCell | chalet_bookings_v2.py:114-115 | the batch sends the booking date for the booked-on column of the leader row |
| MasterSheet.GuestRowReadsBack | chalet_bookings_v2.py:117-120 | for every mapped column of row `row + i`, the guest cells send guest `i`'s value for that column's key |
| MasterSheet.GuestRowInBatch | chalet_bookings_v2.py:117-120 | for row `identified + 3 + i`, the whole batch sends the fields of guest `i` |
| MasterSheet.PollingTopLevel | chalet_bookings_v2.py:60-69 | the polling script's top-level cells are `None` for columns 16 and 17 followed by the webhook script's |
| MasterSheet.PollingDatesWrittenTwice | chalet_bookings_v2.py:107-115 | the polling batch sends `None` for columns 16 and 17 right after the marker and flag, and the batch's last value for them is still the leader's dates |
| MasterSheet.ScriptsWriteSameSheet | chalet_bookings_v2.1.py:89-102 | both scripts' batches send the same value for every position of the sheet |
| MasterSheet.PartyAnswersOnLeaderRowOnly | chalet_bookings_v2.1.py:96-102 | children's meals, dietary requirements and how-heard reach no row but the leader's |
| MasterSheet.ExampleRows | chalet_bookings_v2.py:104-120 | with five identified rows and two guests, the batch sends markers 6 to 8 for rows 7 to 9 and the confirmed flag for row 7 only, and touches no other row |
| BookingsArchive.MaxId | chalet_bookings_v2.py:79 | the largest id is one of the ids and bounds them all |
| BookingsArchive.NextId | chalet_bookings_v2.py:79 | the new id is greater than every id in use; it is 1 for an empty archive and otherwise one more than an id in use |
| BookingsArchive.Append | chalet_bookings_v2.py:79-80 | the booking is added at the end under the new id and earlier entries are unchanged |
| BookingsArchive.AppendIds | chalet_bookings_v2.py:79-80 | appending adds exactly the new id to the ids in use |
| BookingsArchive.AppendKeepsDistinct | chalet_bookings_v2.py:79-80 | appending keeps ids unique |
| BookingsArchive.AppendKeepsIncreasing | chalet_bookings_v2.py:79-80 | appending keeps ids increasing along the file |
| BookingsArchive.AppendAll | chalet_bookings_v2.py:230-233 | dumping several bookings keeps what the file held and adds one entry each |
| BookingsArchive.AppendAllKeepsIncreasing | chalet_bookings_v2.py:79-80 | dumping several bookings keeps ids increasing |
| BookingsArchive.AppendAllInOrder | chalet_bookings_v2.py:230-233 | the bookings land after what the file held, in the order they were dumped |
| BookingsArchive.FreshArchiveNumbersFromOne | chalet_bookings_v2.py:75-80 | a file numbered 1, 2, … stays numbered 1, 2, … |
| ResponsePolling.WriteCells | chalet_bookings_v2.py:104-120 | the cells of one write lie on its own rows |
| ResponsePolling.Reset | chalet_bookings_v2.py:245-249 | debug mode deletes the sync file and the archive; otherwise nothing changes; the master sheet is never touched |
| ResponsePolling.CheckSheetChanged | chalet_bookings_v2.py:125-150 | "unchanged" exactly when the stored fingerprint is the sheet's; otherwise the stored time, or the epoch without a sync file |
| ResponsePolling.StampOf | chalet_bookings_v2.py:226 | an empty cell is no time; otherwise the cell fails to convert exactly when the parser rejects it |
| ResponsePolling.SelectFrom | chalet_bookings_v2.py:227 | the selected positions are increasing, in range and newer than the mark, and every newer position is selected |
| ResponsePolling.SelectNew | chalet_bookings_v2.py:227 | a row is selected exactly when its time is strictly after the mark; selection keeps sheet order |
| ResponsePolling.FirstBadStamp | chalet_bookings_v2.py:226 | finds a cell that fails to convert exactly when there is one |
| ResponsePolling.PolledAnswers | chalet_bookings_v2.py:231 | blank answers are dropped, except the timestamp, and nothing else changes |
| ResponsePolling.PolledAnswersIsCleanRow | chalet_bookings_v2.py:231 | with a non-blank timestamp, the polled answers are exactly the cleaned row |
| ResponsePolling.NewResponses | chalet_bookings_v2.py:224-227 | a missing Timestamp column or a cell that fails to convert is an error, and the failing cell is named |
| ResponsePolling.NewResponsesAreTheNewerRows | chalet_bookings_v2.py:226-227 | once the column converts, the rows processed are exactly the rows stamped after the mark, in sheet order |
| ResponsePolling.SelectedRowHasBookingDate | chalet_bookings_v2.py:155 | a row selected for its time is never rejected for its timestamp, and its booking date is that time rendered as a date |
| ResponsePolling.ProcessFrom | chalet_bookings_v2.py:230-234 | the loop never touches the sync file, and the only exceptions inside it are a row that does not parse or a failed write |
| ResponsePolling.ProcessFromOutcome | chalet_bookings_v2.py:230-234 | with no exception every row was dumped and written; an unparsed row stops the loop before anything is done for it; a failed write stops it after that row was dumped |
| ResponsePolling.ProcessFromKeeps | chalet_bookings_v2.py:230-234 | the loop never removes archive entries |
| ResponsePolling.ProcessFromStopsAtFirstFailure | chalet_bookings_v2.py:230-234 | the loop stops at the first row that does not parse or whose write fails, and every earlier row went through |
| ResponsePolling.ProcessFromFirst | chalet_bookings_v2.py:232-233 | the first row's booking is dumped right after the archive's entries, under the next id |
| ResponsePolling.ProcessFromArchives | chalet_bookings_v2.py:230-233 | the archive entry for row `j` holds the booking parsed from row `j`, in row order after what the archive held |
| ResponsePolling.ProcessFromWrites | chalet_bookings_v2.py:230-234 | the batch sent for row `j` holds the booking parsed from row `j`, in row order after what was sent before |
| ResponsePolling.ProcessFromConsecutive | chalet_bookings_v2.py:104-120 | the batches the loop sends sit on consecutive rows from the first free one, and the identified count ends right after the last |
| ResponsePolling.LoopCompleted | chalet_bookings_v2.py:230-234 | a loop without an exception parsed every row; archive entry and batch `k` both hold the parse of row `k`, in order, the batches on consecutive rows; nothing earlier is taken back |
| ResponsePolling.Pending | chalet_bookings_v2.py:209-227 | the early exits: an unreachable sheet, an empty sheet, an unchanged sheet; otherwise the rows are those `NewResponses` selects, and its error is raised |
| ResponsePolling.PendingRowsAreNewer | chalet_bookings_v2.py:226-227 | every row a run goes through is stamped after the mark |
| ResponsePolling.Run | chalet_bookings_v2.py:237-254 | the sync file gets the new fingerprint and the start time only when the run completes; otherwise it is left as it was; an early exit changes nothing but debug mode's deletions |
| ResponsePolling.CompletedRun | chalet_bookings_v2.py:230-254 | a completed run took the newer rows; archive entry and batch `k` both hold the parse of newer row `k`, in sheet order, on consecutive rows |
| ResponsePolling.NextRunStartsAtStart | chalet_bookings_v2.py:253-254 | after a completed run, the next run on a changed sheet takes rows stamped after this run's start |
| ResponsePolling.RaisedRun | chalet_bookings_v2.py:230-234 | a run that raises inside the loop keeps what it did: after a failed write that row is already dumped; after an unparsed row nothing is done for it |
| ResponsePolling.RunAgainIsNoOp | chalet_bookings_v2.py:141-144 | running again on a sheet unchanged since a completed run exits and changes nothing |
| ResponsePolling.RetryDumpsAgain | chalet_bookings_v2.py:232-234 | after a failed write, rerunning on the same sheet dumps the first booking a second time under a new id |
| ResponsePolling.ScriptRunNoBadTimestamp | chalet_bookings_v2.py:226 | in the polling script a run never raises for a row's timestamp: an unconvertible one stops the run before the loop |
| FormWebhook.HandleAnswers | chalet_bookings_v2.1.py:116-117 | the reply is OK exactly when the booking parses and the sheet write goes through; errors say which step failed |
| FormWebhook.SubmissionAccepted | chalet_bookings_v2.1.py:111-117 | a submission is written exactly when the sheet write goes through and its non-blank answers are `Accepted` |
| FormWebhook.LeaderRowOfSubmission | chalet_bookings_v2.1.py:111-117 | an accepted submission's leader row gets the next marker and the first `Family name` answer |
| FormWebhook.WebhookMatchesPolling | chalet_bookings_v2.1.py:109-117 | when the webhook's conversion agrees with the polling script's on the row's timestamp, an accepted submission of the row's answers is a row the polling script parses, and both send the same value for every position of the sheet |
| FormWebhook.WebhookAcceptsAsPolling | chalet_bookings_v2.1.py:109-117 | when both conversions succeed or both fail on the timestamp, the webhook accepts the submission exactly when the polling script parses the row |
| FormWebhook.BookingDateCell | chalet_bookings_v2.1.py:136 | for an accepted booking, the batch sends the converted timestamp for the booked-on column of the leader row |
| FormWebhook.BookingDateCellsAgreeIff | chalet_bookings_v2.1.py:136 | the webhook's booked-on cell is its month-first conversion and the polling one its day-first conversion; the two cells are equal exactly when the conversions agree |

## Left out

- `MasterSheet.Written`: it is the value a batch sends for a position, not what the sheet then stores. `update_cells` sends a `None` value as null and the Sheets API skips it, leaving that cell's old content; with `USER_ENTERED` the API also re-reads text, so a phone number such as `07802312241` is stored as a number without its leading `0`. Neither is modelled.
- Google Sheets access is not modelled: opening sheets, `get_all_values`, `update_cells`. The fetch is the input `Fetch`, the count of identified rows is a number, and failed writes are named by position in `ledgerDown`.
- The Flask route's HTTP plumbing, `send_booking_alert`, logging, `argparse` and `config` are I/O and are not modelled.
- The webhook script's `main` and its debug path are not modelled. They only feed bundled test data through `filter_data` and `parse_booking`.
- Reading and writing JSON files is not modelled. The archive and the sync file are values in `Store`, and a missing file is an empty archive or no sync state.
- SHA-256 over `pd.util.hash_pandas_object` is an opaque fingerprint compared for equality.
- `pd.to_datetime` is not modelled. In the polling script it is `parseStamp` (day-first) and the booking date is `dayText` of that time; in the webhook the whole conversion is `hookBookedOn` (month-first). The epoch default is time 0.
- `FormWebhook.WebhookMatchesPolling` promises the same values for the sheet only when the two scripts' timestamp conversions agree; `BookingDateCellsAgreeIff` states that the booked-on cells differ otherwise.
- pandas mechanics are reduced to maps from header label to cell. This covers header promotion, `dropna` and the regular-expression replace. A short row lacks the label.
- The count of identified rows assumes the `Identifier` header is column 2, where the markers are written. Each write therefore adds one identified row per person.
- Concurrency is not modelled: two webhook calls racing for the same start row. The same goes for the gap between the `started` time and the fetch; `NextRunStartsAtStart` states its consequence.
- Text handling covers ASCII only. This affects `str.isdigit`, `\d`, `\b`, `\w` and the case-insensitive month match.
- `LongFormDates.FormatDate`: years below 1000 are padded to four digits, while the platform's `strftime` may not pad them. Such years never come from booking forms.
- `ResponsePolling.WriteCells`: a `Write` records the booking and the identifier count. The cells it sends are given by `WriteCells`, whose contract only bounds the rows. The full content is stated by the `MasterSheet` lemmas.
- `ResponsePolling.NewResponses`: its contract states only the failure cases. The successful result is stated by `NewResponsesAreTheNewerRows`.
- `FormWebhook.HandleSubmission` carries no contract of its own. Its behaviour is stated by `SubmissionAccepted`, `LeaderRowOfSubmission` and `WebhookMatchesPolling`.
