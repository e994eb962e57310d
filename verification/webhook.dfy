/** The webhook script, chalet_bookings_v2.1.py: `google_form_webhook`
    receives one form submission as JSON (each question label with the list
    of its answers), keeps the answered questions (`filter_data`), parses
    the booking (`parse_booking`) and writes it to the master sheet
    (`add_to_master`). An exception answers the request with a server
    error; otherwise an alert e-mail is sent and the reply is "OK".

    The count of identified master-sheet rows is the parameter `identified`,
    whether the sheet write goes through is `ledgerUp`, and
    `pd.to_datetime(data["Timestamp"]).strftime("%d/%m/%Y")` is `bookedOnOf`.
    Unlike the polling script, which converts its Timestamp column with
    `dayfirst=True`, this conversion uses pandas' default month-first
    reading; the two are separate parameters wherever both scripts meet. */
module FormWebhook {
  import opened Wrappers
  import opened Bookings
  import opened BookingParser
  import opened MasterSheet
  import ResponsePolling

  /** A submission as Google Forms posts it. */
  type Submission = map<string, seq<string>>

  datatype WebhookError = Rejected(error: ParseError) | SheetWriteFailed

  /** The reply, with the cells written to the master sheet on success. */
  datatype Reply = Ok(cells: seq<Cell>) | ServerError(error: WebhookError)

  /** What the webhook does with the answers `filter_data` kept. */
  function HandleAnswers(answers: Answers, bookedOnOf: string -> Option<string>, identified: nat, ledgerUp: bool)
    : (r: Reply)
    ensures r.Ok? <==> ledgerUp && ParseBooking(answers, bookedOnOf).Success?
    ensures r.ServerError? && r.error.Rejected? ==> ParseBooking(answers, bookedOnOf) == Failure(r.error.error)
    ensures r.ServerError? && r.error.SheetWriteFailed? ==> !ledgerUp
  {
    match ParseBooking(answers, bookedOnOf)
    case Failure(e) => ServerError(Rejected(e))
    case Success(b) =>
      if ledgerUp then Ok(BuildCells(b, WebhookScript, identified)) else ServerError(SheetWriteFailed)
  }

  /** `google_form_webhook`. */
  function HandleSubmission(data: Submission, bookedOnOf: string -> Option<string>, identified: nat, ledgerUp: bool): Reply {
    HandleAnswers(FilterData(data), bookedOnOf, identified, ledgerUp)
  }

  /** A submission is written exactly when the sheet write goes through and
      its answered questions hold what parsing needs; only answers that are
      not all blank count. */
  lemma SubmissionAccepted(data: Submission, bookedOnOf: string -> Option<string>, identified: nat, ledgerUp: bool)
    ensures HandleSubmission(data, bookedOnOf, identified, ledgerUp).Ok?
      <==> ledgerUp && Accepted(FilterData(data), bookedOnOf)
  {
  }

  /** The leader row of an accepted submission carries the next identifier
      and the first answer to "Family name" in the family-name column. */
  lemma LeaderRowOfSubmission(data: Submission, bookedOnOf: string -> Option<string>, identified: nat)
    ensures var reply := HandleSubmission(data, bookedOnOf, identified, true);
      reply.Ok? ==>
      && FamilyNameLabel in data && |data[FamilyNameLabel]| > 0
      && Written(reply.cells, identified + 2, IdentifierColumn) == Some(Number(identified + 1))
      && Written(reply.cells, identified + 2, Column(FamilyName).value) == Some(Text(data[FamilyNameLabel][0]))
  {
    if HandleSubmission(data, bookedOnOf, identified, true).Ok? {
      var answers := FilterData(data);
      var b := ParseBooking(answers, bookedOnOf).value;
      assert b.leader.familyName == answers[FamilyNameLabel] == data[FamilyNameLabel][0];
      assert HandleSubmission(data, bookedOnOf, identified, true).cells == BuildCells(b, WebhookScript, identified);
      Markers(b, WebhookScript, identified, identified + 2);
      LeaderFamilyCell(b, WebhookScript, identified);
    }
  }

  /** Submitting the answers of a polled row, one answer per question,
      succeeds exactly when the polling script's parse of that row does,
      provided the two timestamp conversions accept the same stamps. */
  lemma WebhookAcceptsAsPolling(data: Submission, row: Answers, hookBookedOn: string -> Option<string>,
                                parseStamp: string -> Option<int>, dayText: int -> string, identified: nat)
    requires data.Keys == row.Keys
    requires forall k :: k in data ==> data[k] == [row[k]]
    requires TimestampLabel in row && !Chars.Blank(row[TimestampLabel])
    ensures hookBookedOn(row[TimestampLabel]).Some? == parseStamp(row[TimestampLabel]).Some? ==>
      (HandleSubmission(data, hookBookedOn, identified, true).Ok?
       <==> ParseBooking(ResponsePolling.PolledAnswers(row), ResponsePolling.PollBookedOn(parseStamp, dayText)).Success?)
  {
    var poll := ResponsePolling.PollBookedOn(parseStamp, dayText);
    var answers := CleanRow(row);
    ResponsePolling.PolledAnswersIsCleanRow(row);
    FilterSingletonsIsCleanRow(data, row);
    if hookBookedOn(row[TimestampLabel]).Some? == parseStamp(row[TimestampLabel]).Some? {
      assert TimestampLabel in answers && answers[TimestampLabel] == row[TimestampLabel];
      assert poll(row[TimestampLabel]).Some? == parseStamp(row[TimestampLabel]).Some?;
      SameStampSameAcceptance(answers, hookBookedOn, poll);
    }
  }

  /** When the two timestamp conversions also give the same booking date,
      an accepted submission sends the master sheet the same value for every
      position as the polling script's run over that row. */
  lemma WebhookMatchesPolling(data: Submission, row: Answers, hookBookedOn: string -> Option<string>,
                              parseStamp: string -> Option<int>, dayText: int -> string, identified: nat, r: int, c: nat)
    requires data.Keys == row.Keys
    requires forall k :: k in data ==> data[k] == [row[k]]
    requires TimestampLabel in row && !Chars.Blank(row[TimestampLabel])
    ensures var poll := ResponsePolling.PollBookedOn(parseStamp, dayText);
      hookBookedOn(row[TimestampLabel]) == poll(row[TimestampLabel])
      && HandleSubmission(data, hookBookedOn, identified, true).Ok? ==>
      && ParseBooking(ResponsePolling.PolledAnswers(row), poll).Success?
      && Written(HandleSubmission(data, hookBookedOn, identified, true).cells, r, c)
         == Written(BuildCells(ParseBooking(ResponsePolling.PolledAnswers(row), poll).value, PollingScript, identified), r, c)
  {
    var poll := ResponsePolling.PollBookedOn(parseStamp, dayText);
    var answers := CleanRow(row);
    ResponsePolling.PolledAnswersIsCleanRow(row);
    FilterSingletonsIsCleanRow(data, row);
    if hookBookedOn(row[TimestampLabel]) == poll(row[TimestampLabel]) {
      assert TimestampLabel in answers && answers[TimestampLabel] == row[TimestampLabel];
      SameStampSameBooking(answers, hookBookedOn, poll);
      if ParseBooking(answers, poll).Success? {
        ScriptsWriteSameSheet(ParseBooking(answers, poll).value, identified, r, c);
      }
    }
  }

  /** Either script writes the converted timestamp of the response as the
      leader row's booking date. */
  lemma BookingDateCell(answers: Answers, bookedOnOf: string -> Option<string>, script: Script, identified: nat)
    requires TimestampLabel in answers
    ensures ParseBooking(answers, bookedOnOf).Success? ==>
      && bookedOnOf(answers[TimestampLabel]).Some?
      && Written(BuildCells(ParseBooking(answers, bookedOnOf).value, script, identified), identified + 2, Column(BookedOn).value)
         == Some(Text(bookedOnOf(answers[TimestampLabel]).value))
  {
    var parsed := ParseBooking(answers, bookedOnOf);
    if parsed.Success? {
      BookedOnFromStamp(answers, bookedOnOf);
      LeaderBookedOnCell(parsed.value, script, identified);
    }
  }

  /** When both scripts take the same row, the leader rows' booking-date
      cells agree exactly when the webhook's month-first conversion and the
      polling script's day-first one give the same date for its timestamp. */
  lemma BookingDateCellsAgreeIff(data: Submission, row: Answers, hookBookedOn: string -> Option<string>,
                                 parseStamp: string -> Option<int>, dayText: int -> string, identified: nat)
    requires data.Keys == row.Keys
    requires forall k :: k in data ==> data[k] == [row[k]]
    requires TimestampLabel in row && !Chars.Blank(row[TimestampLabel])
    ensures var poll := ResponsePolling.PollBookedOn(parseStamp, dayText);
      var hook := HandleSubmission(data, hookBookedOn, identified, true);
      var polled := ParseBooking(ResponsePolling.PolledAnswers(row), poll);
      hook.Ok? && polled.Success? ==>
      && Written(hook.cells, identified + 2, Column(BookedOn).value) == Some(Text(hookBookedOn(row[TimestampLabel]).value))
      && Written(BuildCells(polled.value, PollingScript, identified), identified + 2, Column(BookedOn).value)
         == Some(Text(dayText(parseStamp(row[TimestampLabel]).value)))
      && (Written(hook.cells, identified + 2, Column(BookedOn).value)
          == Written(BuildCells(polled.value, PollingScript, identified), identified + 2, Column(BookedOn).value)
          <==> hookBookedOn(row[TimestampLabel]) == poll(row[TimestampLabel]))
  {
    var poll := ResponsePolling.PollBookedOn(parseStamp, dayText);
    var answers := CleanRow(row);
    ResponsePolling.PolledAnswersIsCleanRow(row);
    FilterSingletonsIsCleanRow(data, row);
    assert TimestampLabel in answers && answers[TimestampLabel] == row[TimestampLabel];
    BookingDateCell(answers, hookBookedOn, WebhookScript, identified);
    BookingDateCell(answers, poll, PollingScript, identified);
  }
}
