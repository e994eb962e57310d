/** One run of the polling script, chalet_bookings_v2.py: `main`,
    `process_responses` and `check_sheet_changed`.

    A run fetches the whole response sheet, stops early when it cannot be
    fetched, is empty or is unchanged since the last completed run (judged
    by a fingerprint of the sheet), and otherwise turns every response
    submitted after the last completed run into a booking: the booking is
    dumped to the local archive, then written to the master sheet. Only a
    run that gets through every response records the new fingerprint and
    the time the run started.

    The stored state is the sync file (fingerprint and time, or nothing),
    the archive and the master sheet. The sheet fetch is an input (`Fetch`);
    the SHA-256 of the sheet is its `fingerprint`; pandas' timestamp parsing
    and `strftime` are the parameters of `Env`; the writes to the master
    sheet that fail are named by position in `Env.ledgerDown`. */
module ResponsePolling {
  import opened Wrappers
  import opened Bookings
  import opened BookingParser
  import opened MasterSheet
  import opened BookingsArchive

  /** `datetime(1970, 1, 1)`: the default time of the last completed run. */
  const Epoch: int := 0

  /** The sync file: fingerprint of the sheet and start time of the last
      completed run. */
  datatype Synced = Synced(hash: string, mark: int)

  /** `pd.to_datetime` on one cell of the Timestamp column. */
  datatype Stamp =
    | NotATime   // the column conversion raises
    | NoTime     // NaT: compares false with any time
    | At(t: int)

  /** What fetching the response sheet gives. `columns` are the header
      labels; each row maps a header label to its cell. */
  datatype Fetch =
    | Unreachable
    | NoRows
    | Fetched(fingerprint: string, columns: set<string>, rows: seq<Answers>)

  /** How the loop turns one new row into a booking. */
  type Parser = Answers -> Result<Booking, ParseError>

  /** The outside world a run depends on, and the row parser it uses
      (`RowParser` in the script; see `ScriptEnv`). */
  datatype Env = Env(
    parseStamp: string -> Option<int>,
    parse: Parser,
    ledgerDown: set<nat>)

  /** One successful `add_to_master`: the booking and the number of rows of
      the master sheet that carried an identifier when it was written. */
  datatype Write = Write(booking: Booking, identified: nat)

  /** The cells a write sent to the master sheet. */
  function WriteCells(w: Write): (cells: seq<Cell>)
    ensures forall j :: 0 <= j < |cells| ==>
      w.identified + 2 <= cells[j].row <= w.identified + 2 + |w.booking.guests|
  {
    BuildCells(w.booking, PollingScript, w.identified)
  }

  /** Everything a run reads and writes. `writes` are the writes written
      to the master sheet, in order; `identified` is the number of rows of
      the master sheet that carry an identifier. */
  datatype Store = Store(
    sync: Option<Synced>,
    archive: Archive,
    writes: seq<Write>,
    identified: nat)

  /** The ways a run stops through `sys.exit(1)`. */
  datatype Exit = FetchFailed | NoResponsesYet | NoNewResponses

  /** The exceptions a run can end with. */
  datatype RunError =
    | NoTimestampColumn
    | UnparsedTimestamp(row: nat)
    | Unparsed(at: nat, error: ParseError)
    | LedgerWriteFailed(at: nat)

  datatype Outcome = Completed | Exited(reason: Exit) | Raised(error: RunError)

  /** Debug mode deletes the sync file and the archive first. */
  function Reset(store: Store, debug: bool): (r: Store)
    ensures debug ==> r.sync.None? && r.archive == []
    ensures !debug ==> r == store
    ensures r.writes == store.writes && r.identified == store.identified
  {
    if debug then store.(sync := None, archive := []) else store
  }

  /** `check_sheet_changed`: `None` when the stored fingerprint is the
      sheet's, otherwise the time of the last completed run (the epoch when
      there is no sync file). */
  function CheckSheetChanged(sync: Option<Synced>, fingerprint: string): (r: Option<int>)
    ensures r.None? <==> sync.Some? && sync.value.hash == fingerprint
    ensures r.Some? && sync.Some? ==> r.value == sync.value.mark
    ensures r.Some? && sync.None? ==> r.value == Epoch
  {
    match sync
    case None => Some(Epoch)
    case Some(s) => if s.hash == fingerprint then None else Some(s.mark)
  }

  /** The text of a row's Timestamp cell; a short row is padded with "". */
  function StampText(row: Answers): string {
    if TimestampLabel in row then row[TimestampLabel] else ""
  }

  /** `pd.to_datetime` on one cell: the empty cell is NaT. */
  function StampOf(text: string, parseStamp: string -> Option<int>): (s: Stamp)
    ensures text == "" ==> s == NoTime
    ensures text != "" ==> (s.NotATime? <==> parseStamp(text).None?)
    ensures s.At? ==> parseStamp(text) == Some(s.t)
  {
    if text == "" then NoTime
    else match parseStamp(text)
      case None => NotATime
      case Some(t) => At(t)
  }

  /** `responses['Timestamp'] > previous_datetime` on one cell. */
  predicate Newer(s: Stamp, mark: int) {
    s.At? && s.t > mark
  }

  /** The positions of the rows newer than `mark`, from `from` on, in order. */
  function SelectFrom(stamps: seq<Stamp>, mark: int, from: nat): (r: seq<nat>)
    requires from <= |stamps|
    ensures forall k :: 0 <= k < |r| ==> from <= r[k] < |stamps| && Newer(stamps[r[k]], mark)
    ensures forall k, l :: 0 <= k < l < |r| ==> r[k] < r[l]
    ensures forall i :: from <= i < |stamps| && Newer(stamps[i], mark) ==> i in r
    decreases |stamps| - from
  {
    if from == |stamps| then []
    else
      var rest := SelectFrom(stamps, mark, from + 1);
      if Newer(stamps[from], mark) then [from] + rest else rest
  }

  /** `responses[responses['Timestamp'] > previous_datetime]`: the positions
      of the newer rows, in sheet order. */
  function SelectNew(stamps: seq<Stamp>, mark: int): (r: seq<nat>)
    ensures forall k, l :: 0 <= k < l < |r| ==> r[k] < r[l]
    ensures forall i :: 0 <= i < |stamps| ==> (i in r <==> Newer(stamps[i], mark))
    ensures forall k :: 0 <= k < |r| ==> r[k] < |stamps|
  {
    SelectFrom(stamps, mark, 0)
  }

  /** The first row whose Timestamp cell does not parse, if any. */
  function FirstBadStamp(stamps: seq<Stamp>, from: nat): (r: Option<nat>)
    requires from <= |stamps|
    ensures r.None? <==> forall i :: from <= i < |stamps| ==> !stamps[i].NotATime?
    ensures r.Some? ==> from <= r.value < |stamps| && stamps[r.value].NotATime?
    decreases |stamps| - from
  {
    if from == |stamps| then None
    else if stamps[from].NotATime? then Some(from)
    else FirstBadStamp(stamps, from + 1)
  }

  /** The answers `parse_row` gets for a polled row: blank answers dropped,
      except the Timestamp, which by then holds a time and not text. */
  function PolledAnswers(row: Answers): (r: Answers)
    ensures TimestampLabel in row ==> TimestampLabel in r && r[TimestampLabel] == row[TimestampLabel]
    ensures forall k :: k in row && k != TimestampLabel ==> (k in r <==> !Chars.Blank(row[k]))
    ensures forall k :: k in r ==> k in row && r[k] == row[k]
  {
    var cleaned := CleanRow(row);
    if TimestampLabel in row then cleaned[TimestampLabel := row[TimestampLabel]] else cleaned
  }

  /** A row whose Timestamp cell is not blank is cleaned exactly as the
      webhook's answers are: keeping the Timestamp adds nothing. */
  lemma PolledAnswersIsCleanRow(row: Answers)
    requires TimestampLabel in row && !Chars.Blank(row[TimestampLabel])
    ensures PolledAnswers(row) == CleanRow(row)
  {
  }

  /** The rows a run processes once the sheet is known to have changed:
      the Timestamp column is converted as a whole, so one cell that is not
      a time stops the run before any row is processed. */
  function NewResponses(columns: set<string>, rows: seq<Answers>, mark: int, parseStamp: string -> Option<int>)
    : (r: Result<seq<Answers>, RunError>)
    ensures r.Failure? ==> r.error.NoTimestampColumn? || r.error.UnparsedTimestamp?
    ensures TimestampLabel !in columns ==> r == Failure(NoTimestampColumn)
    ensures r.Success? ==> TimestampLabel in columns
    ensures r.Failure? && r.error.UnparsedTimestamp? ==>
      r.error.row < |rows| && StampOf(StampText(rows[r.error.row]), parseStamp).NotATime?
  {
    if TimestampLabel !in columns then Failure(NoTimestampColumn)
    else
      var stamps := Stamps(rows, parseStamp);
      match FirstBadStamp(stamps, 0)
      case Some(i) => Failure(UnparsedTimestamp(i))
      case None =>
        var sel := SelectNew(stamps, mark);
        Success(seq(|sel|, k requires 0 <= k < |sel| => rows[sel[k]]))
  }

  /** The Timestamp column after `pd.to_datetime`. */
  function Stamps(rows: seq<Answers>, parseStamp: string -> Option<int>): (r: seq<Stamp>)
    ensures |r| == |rows|
    ensures forall i :: 0 <= i < |rows| ==> r[i] == StampOf(StampText(rows[i]), parseStamp)
  {
    seq(|rows|, i requires 0 <= i < |rows| => StampOf(StampText(rows[i]), parseStamp))
  }

  /** Once the column converts, the rows processed are exactly the rows
      stamped after `mark`, in sheet order. */
  lemma NewResponsesAreTheNewerRows(columns: set<string>, rows: seq<Answers>, mark: int, parseStamp: string -> Option<int>)
    requires NewResponses(columns, rows, mark, parseStamp).Success?
    ensures var newer := NewResponses(columns, rows, mark, parseStamp).value;
      var sel := SelectNew(Stamps(rows, parseStamp), mark);
      && (forall i :: 0 <= i < |rows| ==> !StampOf(StampText(rows[i]), parseStamp).NotATime?)
      && |newer| == |sel|
      && forall k :: 0 <= k < |sel| ==> newer[k] == rows[sel[k]]
  {
  }

  /** `add_to_master` applied: the batch is written and the identifier
      count grows by one row per person. */
  function Record(store: Store, b: Booking): Store {
    store.(writes := store.writes + [Write(b, store.identified)], identified := store.identified + 1 + |b.guests|)
  }

  /** `parse_row` on a polled row. */
  function RowParser(bookedOnOf: string -> Option<string>): Parser {
    row => ParseBooking(PolledAnswers(row), bookedOnOf)
  }

  /** `pd.to_datetime(row["Timestamp"]).strftime("%d/%m/%Y")` in the polling
      script: the Timestamp column already holds the times `parseStamp`
      gave (day first), and `dayText` renders one as a date. */
  function PollBookedOn(parseStamp: string -> Option<int>, dayText: int -> string): string -> Option<string> {
    t => if parseStamp(t).Some? then Some(dayText(parseStamp(t).value)) else None
  }

  /** The environment of the polling script: `pd.to_datetime(...,
      dayfirst=True)` is `parseStamp`, and the booking date of a row is
      rendered from that same time. */
  function ScriptEnv(parseStamp: string -> Option<int>, dayText: int -> string, ledgerDown: set<nat>): (e: Env)
    ensures e.parseStamp == parseStamp && e.ledgerDown == ledgerDown
    ensures forall row :: e.parse(row) == ParseBooking(PolledAnswers(row), PollBookedOn(parseStamp, dayText))
  {
    Env(parseStamp, RowParser(PollBookedOn(parseStamp, dayText)), ledgerDown)
  }

  /** A row the polling script selects has a time, so its booking date is
      that time rendered as a date, and it is never rejected for its
      timestamp. */
  lemma SelectedRowHasBookingDate(parseStamp: string -> Option<int>, dayText: int -> string, row: Answers)
    requires StampOf(StampText(row), parseStamp).At?
    ensures var r := ParseBooking(PolledAnswers(row), PollBookedOn(parseStamp, dayText));
      && !(r.Failure? && r.error.BadTimestamp?)
      && (r.Success? ==> r.value.leader.bookedOn == dayText(StampOf(StampText(row), parseStamp).t))
  {
    var data := PolledAnswers(row);
    var f := PollBookedOn(parseStamp, dayText);
    assert TimestampLabel in data && data[TimestampLabel] == StampText(row);
    BookedOnFromStamp(data, f);
  }

  /** The loop of `process_responses` from the `i`-th new row: parse, dump
      to the archive, write to the master sheet; the first exception ends
      the loop with everything done so far kept. */
  function ProcessFrom(store: Store, rows: seq<Answers>, i: nat, parse: Parser, ledgerDown: set<nat>)
    : (r: (Store, Option<RunError>))
    requires i <= |rows|
    ensures r.0.sync == store.sync
    ensures r.1.Some? ==> r.1.value.Unparsed? || r.1.value.LedgerWriteFailed?
    decreases |rows| - i
  {
    if i == |rows| then (store, None)
    else
      var parsed := parse(rows[i]);
      if parsed.Failure? then (store, Some(Unparsed(i, parsed.error)))
      else
        var archived := store.(archive := Append(store.archive, parsed.value));
        if i in ledgerDown then (archived, Some(LedgerWriteFailed(i)))
        else ProcessFrom(Record(archived, parsed.value), rows, i + 1, parse, ledgerDown)
  }

  /** What the run does before its loop: the exits of `process_responses`
      and the conversion of the Timestamp column, or else the rows the loop
      goes through and the fingerprint to record. */
  function Pending(sync: Option<Synced>, fetch: Fetch, parseStamp: string -> Option<int>)
    : (r: Result<seq<Answers>, Outcome>)
    ensures r.Failure? ==> r.error.Exited? || r.error.Raised?
    ensures r.Failure? && r.error.Exited? ==>
      r.error.reason == (if fetch.Unreachable? then FetchFailed else if fetch.NoRows? then NoResponsesYet else NoNewResponses)
    ensures r.Success? ==> fetch.Fetched? && CheckSheetChanged(sync, fetch.fingerprint).Some?
    ensures fetch.Fetched? && sync.Some? && sync.value.hash == fetch.fingerprint ==> r == Failure(Exited(NoNewResponses))
    ensures fetch.Fetched? && CheckSheetChanged(sync, fetch.fingerprint).Some? ==>
      var nr := NewResponses(fetch.columns, fetch.rows, CheckSheetChanged(sync, fetch.fingerprint).value, parseStamp);
      && (nr.Success? ==> r == Success(nr.value))
      && (nr.Failure? ==> r == Failure(Raised(nr.error)))
  {
    match fetch
    case Unreachable => Failure(Exited(FetchFailed))
    case NoRows => Failure(Exited(NoResponsesYet))
    case Fetched(fingerprint, columns, rows) =>
      match CheckSheetChanged(sync, fingerprint)
      case None => Failure(Exited(NoNewResponses))
      case Some(mark) =>
        match NewResponses(columns, rows, mark, parseStamp)
        case Failure(e) => Failure(Raised(e))
        case Success(newer) => Success(newer)
  }

  /** `main` (with `process_responses`): one run from `store`, started at
      time `started`. The sync file is written only when every new row went
      through. */
  function Run(store: Store, fetch: Fetch, started: int, debug: bool, env: Env): (r: (Store, Outcome))
    ensures r.1.Completed? ==> fetch.Fetched? && r.0.sync == Some(Synced(fetch.fingerprint, started))
    ensures !r.1.Completed? ==> r.0.sync == Reset(store, debug).sync
    ensures r.1.Exited? ==> r.0 == Reset(store, debug)
  {
    var s0 := Reset(store, debug);
    match Pending(s0.sync, fetch, env.parseStamp)
    case Failure(outcome) => (s0, outcome)
    case Success(newer) =>
      var (s1, err) := ProcessFrom(s0, newer, 0, env.parse, env.ledgerDown);
      if err.Some? then (s1, Raised(err.value))
      else (s1.(sync := Some(Synced(fetch.fingerprint, started))), Completed)
  }

  /** The part of the store a loop step cannot touch. */
  predicate Grew(before: Store, after: Store, archived: nat, written: nat) {
    && |after.archive| == |before.archive| + archived
    && after.archive[..|before.archive|] == before.archive
    && |after.writes| == |before.writes| + written
    && after.writes[..|before.writes|] == before.writes
  }

  lemma GrewStep(s0: Store, s1: Store, s2: Store, a1: nat, w1: nat, a2: nat, w2: nat)
    requires Grew(s0, s1, a1, w1) && Grew(s1, s2, a2, w2)
    ensures Grew(s0, s2, a1 + a2, w1 + w2)
  {
    assert s2.archive[..|s0.archive|] == s2.archive[..|s1.archive|][..|s0.archive|];
    assert s2.writes[..|s0.writes|] == s2.writes[..|s1.writes|][..|s0.writes|];
  }

  /** How far a loop from row `i` got, given what it left (`r`): with no
      exception, every row was dumped and written; a row that does not
      parse stops it before anything is done for that row; a failed write
      stops it after that row's booking was dumped to the archive. */
  predicate Reached(store: Store, r: (Store, Option<RunError>), rows: seq<Answers>, i: nat, parse: Parser, ledgerDown: set<nat>)
    requires i <= |rows|
  {
    match r.1
    case None => Grew(store, r.0, |rows| - i, |rows| - i)
    case Some(Unparsed(j, e)) =>
      && i <= j < |rows|
      && parse(rows[j]) == Failure(e)
      && Grew(store, r.0, j - i, j - i)
    case Some(LedgerWriteFailed(j)) =>
      && i <= j < |rows|
      && j in ledgerDown
      && parse(rows[j]).Success?
      && Grew(store, r.0, j - i + 1, j - i)
    case Some(_) => false
  }

  /** How far the loop got, whichever way it ended. */
  lemma {:induction false} ProcessFromOutcome(store: Store, rows: seq<Answers>, i: nat, parse: Parser, ledgerDown: set<nat>)
    requires i <= |rows|
    ensures Reached(store, ProcessFrom(store, rows, i, parse, ledgerDown), rows, i, parse, ledgerDown)
    decreases |rows| - i
  {
    if i < |rows| && parse(rows[i]).Success? {
      var b := parse(rows[i]).value;
      var archived := store.(archive := Append(store.archive, b));
      if i !in ledgerDown {
        var next := Record(archived, b);
        ProcessFromOutcome(next, rows, i + 1, parse, ledgerDown);
        assert Reached(next, ProcessFrom(next, rows, i + 1, parse, ledgerDown), rows, i + 1, parse, ledgerDown);
        OutcomeStep(store, rows, i, parse, ledgerDown);
      } else {
        assert Grew(store, archived, 1, 0);
      }
    } else {
      assert store.archive[..|store.archive|] == store.archive;
      assert store.writes[..|store.writes|] == store.writes;
    }
  }

  /** One turn of `ProcessFromOutcome`: a row dumped and written in front
      of what the rest of the loop reached. */
  lemma OutcomeStep(store: Store, rows: seq<Answers>, i: nat, parse: Parser, ledgerDown: set<nat>)
    requires i < |rows| && parse(rows[i]).Success? && i !in ledgerDown
    requires var b := parse(rows[i]).value; var next := Record(store.(archive := Append(store.archive, b)), b);
      Reached(next, ProcessFrom(next, rows, i + 1, parse, ledgerDown), rows, i + 1, parse, ledgerDown)
    ensures Reached(store, ProcessFrom(store, rows, i, parse, ledgerDown), rows, i, parse, ledgerDown)
  {
    var b := parse(rows[i]).value;
    var archived := store.(archive := Append(store.archive, b));
    var next := Record(archived, b);
    assert Grew(store, archived, 1, 0);
    assert Grew(archived, next, 0, 1);
    GrewStep(store, archived, next, 1, 0, 0, 1);
    ProcessFromStep(store, rows, i, parse, ledgerDown);
    var (s, err) := ProcessFrom(next, rows, i + 1, parse, ledgerDown);
    match err
    case None => GrewStep(store, next, s, 1, 1, |rows| - (i + 1), |rows| - (i + 1));
    case Some(Unparsed(j, e)) => GrewStep(store, next, s, 1, 1, j - (i + 1), j - (i + 1));
    case Some(LedgerWriteFailed(j)) => GrewStep(store, next, s, 1, 1, j - (i + 1) + 1, j - (i + 1));
  }

  /** The loop never takes back what it did. */
  lemma {:induction false} ProcessFromKeeps(store: Store, rows: seq<Answers>, i: nat, parse: Parser, ledgerDown: set<nat>)
    requires i <= |rows|
    ensures var s := ProcessFrom(store, rows, i, parse, ledgerDown).0;
      && |s.archive| >= |store.archive| && s.archive[..|store.archive|] == store.archive
      && |s.writes| >= |store.writes| && s.writes[..|store.writes|] == store.writes
    decreases |rows| - i
  {
    var s := ProcessFrom(store, rows, i, parse, ledgerDown).0;
    if i < |rows| && parse(rows[i]).Success? {
      var archived := store.(archive := Append(store.archive, parse(rows[i]).value));
      if i !in ledgerDown {
        var next := Record(archived, parse(rows[i]).value);
        ProcessFromKeeps(next, rows, i + 1, parse, ledgerDown);
        assert s.archive[..|store.archive|] == s.archive[..|next.archive|][..|store.archive|];
        assert s.writes[..|store.writes|] == s.writes[..|next.writes|][..|store.writes|];
      } else {
        assert s.writes[..|store.writes|] == store.writes;
      }
    } else {
      assert s.archive[..|store.archive|] == store.archive;
      assert s.writes[..|store.writes|] == store.writes;
    }
  }

  /** One turn of the loop on a row that parses and is written. */
  lemma ProcessFromStep(store: Store, rows: seq<Answers>, i: nat, parse: Parser, ledgerDown: set<nat>)
    requires i < |rows| && parse(rows[i]).Success? && i !in ledgerDown
    ensures var next := Record(store.(archive := Append(store.archive, parse(rows[i]).value)), parse(rows[i]).value);
      ProcessFrom(store, rows, i, parse, ledgerDown) == ProcessFrom(next, rows, i + 1, parse, ledgerDown)
  {
  }

  /** Rows `i` to `j` (exclusive) all parse and are all written. */
  predicate WentThrough(rows: seq<Answers>, i: nat, j: nat, parse: Parser, ledgerDown: set<nat>)
    requires i <= j <= |rows|
  {
    forall m :: i <= m < j ==> parse(rows[m]).Success? && m !in ledgerDown
  }

  /** The first of the rows that went through, and the rest. */
  lemma WentThroughFirst(rows: seq<Answers>, i: nat, j: nat, parse: Parser, ledgerDown: set<nat>)
    requires i < j <= |rows| && WentThrough(rows, i, j, parse, ledgerDown)
    ensures parse(rows[i]).Success? && i !in ledgerDown
    ensures WentThrough(rows, i + 1, j, parse, ledgerDown)
  {
  }

  /** The loop stops at the first row that does not parse or whose write
      fails, and only there. */
  lemma {:induction false} ProcessFromStopsAtFirstFailure(store: Store, rows: seq<Answers>, i: nat, parse: Parser, ledgerDown: set<nat>)
    requires i <= |rows|
    ensures var err := ProcessFrom(store, rows, i, parse, ledgerDown).1;
      match err
      case None => WentThrough(rows, i, |rows|, parse, ledgerDown)
      case Some(Unparsed(j, _)) => i <= j < |rows| && WentThrough(rows, i, j, parse, ledgerDown)
      case Some(LedgerWriteFailed(j)) => i <= j < |rows| && WentThrough(rows, i, j, parse, ledgerDown)
      case Some(_) => false
    decreases |rows| - i
  {
    if i < |rows| && parse(rows[i]).Success? && i !in ledgerDown {
      var next := Record(store.(archive := Append(store.archive, parse(rows[i]).value)), parse(rows[i]).value);
      ProcessFromStep(store, rows, i, parse, ledgerDown);
      ProcessFromStopsAtFirstFailure(next, rows, i + 1, parse, ledgerDown);
    }
  }

  /** The first row the loop goes through is dumped right after what the
      archive held. */
  lemma ProcessFromFirst(store: Store, rows: seq<Answers>, i: nat, parse: Parser, ledgerDown: set<nat>)
    requires i < |rows| && parse(rows[i]).Success?
    ensures var s := ProcessFrom(store, rows, i, parse, ledgerDown).0;
      |s.archive| > |store.archive| && s.archive[|store.archive|] == (NextId(store.archive), parse(rows[i]).value)
  {
    var s := ProcessFrom(store, rows, i, parse, ledgerDown).0;
    var b := parse(rows[i]).value;
    var archive := Append(store.archive, b);
    assert |archive| == |store.archive| + 1 && archive[|store.archive|] == (NextId(store.archive), b);
    if i !in ledgerDown {
      var next := Record(store.(archive := archive), b);
      ProcessFromStep(store, rows, i, parse, ledgerDown);
      ProcessFromKeeps(next, rows, i + 1, parse, ledgerDown);
      assert s.archive[|store.archive|] == s.archive[..|archive|][|store.archive|];
    }
  }

  /** Entry `k` of the store's archive holds booking `b`. */
  predicate DumpedAt(s: Store, k: nat, b: Booking) { |s.archive| > k && s.archive[k].1 == b }

  /** Batch `k` the store has sent to the master sheet is booking `b`'s. */
  predicate SentAt(s: Store, k: nat, b: Booking) { |s.writes| > k && s.writes[k].booking == b }

  /** The booking the loop dumps for row `j` is the one parsed from that
      row, in row order after what the archive held. */
  lemma {:induction false} ProcessFromArchives(store: Store, rows: seq<Answers>, i: nat, parse: Parser, ledgerDown: set<nat>, j: nat)
    requires i <= j < |rows| && WentThrough(rows, i, j, parse, ledgerDown)
    requires parse(rows[j]).Success?
    ensures DumpedAt(ProcessFrom(store, rows, i, parse, ledgerDown).0, |store.archive| + (j - i), parse(rows[j]).value)
    decreases j - i
  {
    if j == i {
      ProcessFromFirst(store, rows, i, parse, ledgerDown);
      assert DumpedAt(ProcessFrom(store, rows, i, parse, ledgerDown).0, |store.archive|, parse(rows[i]).value);
    } else {
      WentThroughFirst(rows, i, j, parse, ledgerDown);
      var b := parse(rows[i]).value;
      var next := Record(store.(archive := Append(store.archive, b)), b);
      ProcessFromArchives(next, rows, i + 1, parse, ledgerDown, j);
      assert |next.archive| + (j - (i + 1)) == |store.archive| + (j - i);
      ArchivesStep(store, rows, i, parse, ledgerDown, |store.archive| + (j - i), parse(rows[j]).value);
    }
  }

  /** One turn of `ProcessFromArchives`: an entry the rest of the loop
      dumps is where the whole loop dumps it. */
  lemma ArchivesStep(store: Store, rows: seq<Answers>, i: nat, parse: Parser, ledgerDown: set<nat>, k: nat, v: Booking)
    requires i < |rows| && parse(rows[i]).Success? && i !in ledgerDown
    requires var b := parse(rows[i]).value;
      DumpedAt(ProcessFrom(Record(store.(archive := Append(store.archive, b)), b), rows, i + 1, parse, ledgerDown).0, k, v)
    ensures DumpedAt(ProcessFrom(store, rows, i, parse, ledgerDown).0, k, v)
  {
    ProcessFromStep(store, rows, i, parse, ledgerDown);
  }

  /** The booking the loop writes for row `j` is the one parsed from that
      row, in row order after what the master sheet had been sent. */
  lemma {:induction false} ProcessFromWrites(store: Store, rows: seq<Answers>, i: nat, parse: Parser, ledgerDown: set<nat>, j: nat)
    requires i <= j < |rows| && WentThrough(rows, i, j + 1, parse, ledgerDown)
    ensures SentAt(ProcessFrom(store, rows, i, parse, ledgerDown).0, |store.writes| + (j - i), parse(rows[j]).value)
    decreases j - i
  {
    assert parse(rows[i]).Success? && i !in ledgerDown;
    if j == i {
      WritesFirst(store, rows, i, parse, ledgerDown);
    } else {
      var b := parse(rows[i]).value;
      var next := Record(store.(archive := Append(store.archive, b)), b);
      ProcessFromWrites(next, rows, i + 1, parse, ledgerDown, j);
      assert |next.writes| + (j - (i + 1)) == |store.writes| + (j - i);
      WritesStep(store, rows, i, parse, ledgerDown, |store.writes| + (j - i), parse(rows[j]).value);
    }
  }

  /** The first row the loop goes through and writes is sent right after
      what the master sheet had been sent. */
  lemma WritesFirst(store: Store, rows: seq<Answers>, i: nat, parse: Parser, ledgerDown: set<nat>)
    requires i < |rows| && parse(rows[i]).Success? && i !in ledgerDown
    ensures SentAt(ProcessFrom(store, rows, i, parse, ledgerDown).0, |store.writes|, parse(rows[i]).value)
  {
    var b := parse(rows[i]).value;
    var next := Record(store.(archive := Append(store.archive, b)), b);
    ProcessFromStep(store, rows, i, parse, ledgerDown);
    var s := ProcessFrom(store, rows, i, parse, ledgerDown).0;
    ProcessFromKeeps(next, rows, i + 1, parse, ledgerDown);
    assert s.writes[|store.writes|] == s.writes[..|next.writes|][|store.writes|];
  }

  /** One turn of `ProcessFromWrites`: a batch the rest of the loop sends
      is where the whole loop sends it. */
  lemma WritesStep(store: Store, rows: seq<Answers>, i: nat, parse: Parser, ledgerDown: set<nat>, k: nat, v: Booking)
    requires i < |rows| && parse(rows[i]).Success? && i !in ledgerDown
    requires var b := parse(rows[i]).value;
      SentAt(ProcessFrom(Record(store.(archive := Append(store.archive, b)), b), rows, i + 1, parse, ledgerDown).0, k, v)
    ensures SentAt(ProcessFrom(store, rows, i, parse, ledgerDown).0, k, v)
  {
    ProcessFromStep(store, rows, i, parse, ledgerDown);
  }

  /** Write batches that follow one another on the master sheet: the first
      starts after `from` identified rows, each later one right after the
      rows of the one before it, and `to` rows are identified after the
      last. */
  predicate Consecutive(ws: seq<Write>, from: nat, to: nat)
    decreases |ws|
  {
    if ws == [] then from == to
    else ws[0].identified == from && Consecutive(ws[1..], from + 1 + |ws[0].booking.guests|, to)
  }

  /** However the loop ends, the bookings it wrote sit one after another on
      the master sheet, from the first free row on, and the identified count
      ends just after the last of them. */
  lemma {:induction false} ProcessFromConsecutive(store: Store, rows: seq<Answers>, i: nat, parse: Parser, ledgerDown: set<nat>)
    requires i <= |rows|
    ensures var s := ProcessFrom(store, rows, i, parse, ledgerDown).0;
      |s.writes| >= |store.writes| && Consecutive(s.writes[|store.writes|..], store.identified, s.identified)
    decreases |rows| - i
  {
    var s := ProcessFrom(store, rows, i, parse, ledgerDown).0;
    if i < |rows| && parse(rows[i]).Success? && i !in ledgerDown {
      var b := parse(rows[i]).value;
      var next := Record(store.(archive := Append(store.archive, b)), b);
      var after := ProcessFrom(next, rows, i + 1, parse, ledgerDown).0;
      ProcessFromConsecutive(next, rows, i + 1, parse, ledgerDown);
      assert Consecutive(after.writes[|next.writes|..], next.identified, after.identified);
      ProcessFromKeeps(next, rows, i + 1, parse, ledgerDown);
      ConsecutiveStep(store, next, after, b);
      ProcessFromStep(store, rows, i, parse, ledgerDown);
    } else {
      assert s.writes == store.writes && s.identified == store.identified;
      assert s.writes[|store.writes|..] == [];
    }
  }

  /** One turn of `ProcessFromConsecutive`: the batch of booking `b`,
      written after `store`'s identified rows, goes in front of the batches
      written after it. */
  lemma ConsecutiveStep(store: Store, next: Store, after: Store, b: Booking)
    requires next.writes == store.writes + [Write(b, store.identified)]
    requires next.identified == store.identified + 1 + |b.guests|
    requires |after.writes| >= |next.writes| && after.writes[..|next.writes|] == next.writes
    requires Consecutive(after.writes[|next.writes|..], next.identified, after.identified)
    ensures |after.writes| >= |store.writes| && Consecutive(after.writes[|store.writes|..], store.identified, after.identified)
  {
    var ws := after.writes[|store.writes|..];
    assert ws[0] == after.writes[..|next.writes|][|store.writes|] == Write(b, store.identified);
    assert ws[1..] == after.writes[|next.writes|..];
  }

  /** What a loop that went through `rows` from `before` leaves: every row
      parsed and none had a failed write; the archive grew by the parsed
      bookings in row order; the master sheet was sent the same bookings in
      row order, on consecutive rows from the first free one, and nothing
      that came before was taken back. */
  predicate HandledAll(before: Store, archive: Archive, writes: seq<Write>, identified: nat,
                       rows: seq<Answers>, parse: Parser, ledgerDown: set<nat>) {
    && |archive| == |before.archive| + |rows| && archive[..|before.archive|] == before.archive
    && |writes| == |before.writes| + |rows| && writes[..|before.writes|] == before.writes
    && Consecutive(writes[|before.writes|..], before.identified, identified)
    && forall k :: 0 <= k < |rows| ==>
         && parse(rows[k]).Success?
         && k !in ledgerDown
         && archive[|before.archive| + k].1 == parse(rows[k]).value
         && writes[|before.writes| + k].booking == parse(rows[k]).value
  }

  /** A loop that ends without an exception dumped and wrote every row, in
      order. */
  lemma LoopCompleted(store: Store, rows: seq<Answers>, parse: Parser, ledgerDown: set<nat>)
    requires ProcessFrom(store, rows, 0, parse, ledgerDown).1.None?
    ensures var s := ProcessFrom(store, rows, 0, parse, ledgerDown).0;
      HandledAll(store, s.archive, s.writes, s.identified, rows, parse, ledgerDown)
  {
    var s := ProcessFrom(store, rows, 0, parse, ledgerDown).0;
    ProcessFromOutcome(store, rows, 0, parse, ledgerDown);
    ProcessFromStopsAtFirstFailure(store, rows, 0, parse, ledgerDown);
    ProcessFromConsecutive(store, rows, 0, parse, ledgerDown);
    forall k | 0 <= k < |rows|
      ensures parse(rows[k]).Success? && k !in ledgerDown
      ensures s.archive[|store.archive| + k].1 == parse(rows[k]).value
      ensures s.writes[|store.writes| + k].booking == parse(rows[k]).value
    {
      assert WentThrough(rows, 0, k, parse, ledgerDown);
      ProcessFromArchives(store, rows, 0, parse, ledgerDown, k);
      assert WentThrough(rows, 0, k + 1, parse, ledgerDown);
      ProcessFromWrites(store, rows, 0, parse, ledgerDown, k);
    }
  }

  lemma CompletedRunShape(store: Store, fetch: Fetch, started: int, debug: bool, env: Env)
    requires Run(store, fetch, started, debug, env).1.Completed?
    ensures Pending(Reset(store, debug).sync, fetch, env.parseStamp).Success?
    ensures var loop := ProcessFrom(Reset(store, debug), Pending(Reset(store, debug).sync, fetch, env.parseStamp).value,
                                    0, env.parse, env.ledgerDown);
      var s := Run(store, fetch, started, debug, env).0;
      && loop.1.None?
      && s.archive == loop.0.archive && s.writes == loop.0.writes && s.identified == loop.0.identified
  {
  }

  /** A run that completes went through every newer row: each parsed, was
      dumped to the archive in sheet order and written to the master sheet
      in sheet order, on consecutive rows. */
  lemma CompletedRun(store: Store, fetch: Fetch, started: int, debug: bool, env: Env)
    requires Run(store, fetch, started, debug, env).1.Completed?
    ensures Pending(Reset(store, debug).sync, fetch, env.parseStamp).Success?
    ensures var newer := Pending(Reset(store, debug).sync, fetch, env.parseStamp).value;
      var s := Run(store, fetch, started, debug, env).0;
      HandledAll(Reset(store, debug), s.archive, s.writes, s.identified, newer, env.parse, env.ledgerDown)
  {
    var s0 := Reset(store, debug);
    CompletedRunShape(store, fetch, started, debug, env);
    var newer := Pending(s0.sync, fetch, env.parseStamp).value;
    var loop := ProcessFrom(s0, newer, 0, env.parse, env.ledgerDown).0;
    LoopCompleted(s0, newer, env.parse, env.ledgerDown);
  }

  /** A completed run records its own start time, so the next run over a
      changed sheet picks up every row stamped after that time (even one
      this run already went through). */
  lemma NextRunStartsAtStart(store: Store, fetch: Fetch, started: int, debug: bool, env: Env, other: string)
    requires Run(store, fetch, started, debug, env).1.Completed?
    requires other != fetch.fingerprint
    ensures CheckSheetChanged(Run(store, fetch, started, debug, env).0.sync, other) == Some(started)
  {
  }

  /** A run that raises inside the loop keeps what it did before: when a
      master sheet write fails, that row's booking is already in the
      archive; when a row does not parse, nothing is done for it. */
  lemma RaisedRun(store: Store, fetch: Fetch, started: int, debug: bool, env: Env)
    requires var o := Run(store, fetch, started, debug, env).1;
      o.Raised? && (o.error.Unparsed? || o.error.LedgerWriteFailed?)
    ensures Pending(Reset(store, debug).sync, fetch, env.parseStamp).Success?
    ensures var newer := Pending(Reset(store, debug).sync, fetch, env.parseStamp).value;
      var (s, o) := Run(store, fetch, started, debug, env);
      match o.error
      case Unparsed(j, e) =>
        && j < |newer|
        && env.parse(newer[j]) == Failure(e)
        && Grew(Reset(store, debug), s, j, j)
      case LedgerWriteFailed(j) =>
        && j < |newer|
        && j in env.ledgerDown
        && Grew(Reset(store, debug), s, j + 1, j)
      case _ => false
  {
    var s0 := Reset(store, debug);
    var newer := Pending(s0.sync, fetch, env.parseStamp).value;
    var loop := ProcessFrom(s0, newer, 0, env.parse, env.ledgerDown);
    assert Run(store, fetch, started, debug, env) == (loop.0, Raised(loop.1.value));
    ProcessFromOutcome(s0, newer, 0, env.parse, env.ledgerDown);
  }

  /** Every row a run goes through is stamped after the last completed
      run. */
  lemma PendingRowsAreNewer(sync: Option<Synced>, fetch: Fetch, parseStamp: string -> Option<int>)
    ensures var p := Pending(sync, fetch, parseStamp);
      p.Success? ==> forall k :: 0 <= k < |p.value| ==>
        Newer(StampOf(StampText(p.value[k]), parseStamp), CheckSheetChanged(sync, fetch.fingerprint).value)
  {
    var p := Pending(sync, fetch, parseStamp);
    if p.Success? {
      var mark := CheckSheetChanged(sync, fetch.fingerprint).value;
      NewResponsesAreTheNewerRows(fetch.columns, fetch.rows, mark, parseStamp);
      var sel := SelectNew(Stamps(fetch.rows, parseStamp), mark);
      forall k | 0 <= k < |p.value|
        ensures Newer(StampOf(StampText(p.value[k]), parseStamp), mark)
      {
        assert sel[k] in sel;
      }
    }
  }

  /** In the polling script no row is ever rejected for its timestamp: a row
      whose timestamp does not parse stops the run before the loop. */
  lemma ScriptRunNoBadTimestamp(store: Store, fetch: Fetch, started: int, debug: bool,
                                parseStamp: string -> Option<int>, dayText: int -> string, ledgerDown: set<nat>)
    ensures var o := Run(store, fetch, started, debug, ScriptEnv(parseStamp, dayText, ledgerDown)).1;
      o.Raised? && o.error.Unparsed? ==> !o.error.error.BadTimestamp?
  {
    var env := ScriptEnv(parseStamp, dayText, ledgerDown);
    var o := Run(store, fetch, started, debug, env).1;
    if o.Raised? && o.error.Unparsed? {
      RaisedRun(store, fetch, started, debug, env);
      var s0 := Reset(store, debug);
      var newer := Pending(s0.sync, fetch, parseStamp).value;
      var j := o.error.at;
      PendingRowsAreNewer(s0.sync, fetch, parseStamp);
      assert StampOf(StampText(newer[j]), parseStamp).At?;
      SelectedRowHasBookingDate(parseStamp, dayText, newer[j]);
    }
  }

  /** Running again on a sheet that has not changed since a completed run
      exits without touching anything. */
  lemma RunAgainIsNoOp(store: Store, fetch: Fetch, started: int, debug: bool, env: Env, later: int, env': Env)
    requires Run(store, fetch, started, debug, env).1.Completed?
    ensures var s := Run(store, fetch, started, debug, env).0;
      Run(s, fetch, later, false, env') == (s, Exited(NoNewResponses))
  {
    var s := Run(store, fetch, started, debug, env).0;
    assert s.sync == Some(Synced(fetch.fingerprint, started));
    assert Pending(s.sync, fetch, env'.parseStamp) == Failure(Exited(NoNewResponses));
  }

  /** A run that raises keeps the sync file as it was, so the next run over
      the same sheet goes through the same rows again: when the master
      sheet write failed, the booking dumped first is dumped a second time,
      under a new id. */
  lemma RetryDumpsAgain(store: Store, fetch: Fetch, started: int, env: Env, j: nat, later: int, env': Env)
    requires Run(store, fetch, started, false, env).1 == Raised(LedgerWriteFailed(j))
    requires env'.parse == env.parse && env'.parseStamp == env.parseStamp
    requires 0 !in env'.ledgerDown
    ensures var s1 := Run(store, fetch, started, false, env).0;
      var s2 := Run(s1, fetch, later, false, env').0;
      && |s1.archive| > |store.archive|
      && |s2.archive| > |s1.archive|
      && s2.archive[|s1.archive|].1 == s1.archive[|store.archive|].1
      && s2.archive[|s1.archive|].0 != s1.archive[|store.archive|].0
  {
    var newer := Pending(store.sync, fetch, env.parseStamp).value;
    var loop1 := ProcessFrom(store, newer, 0, env.parse, env.ledgerDown);
    var s1 := Run(store, fetch, started, false, env).0;
    assert s1 == loop1.0;
    ProcessFromStopsAtFirstFailure(store, newer, 0, env.parse, env.ledgerDown);
    assert 0 <= j < |newer| && env.parse(newer[0]).Success?;
    ProcessFromFirst(store, newer, 0, env.parse, env.ledgerDown);
    var first := env.parse(newer[0]).value;
    assert s1.archive[|store.archive|].1 == first;
    assert s1.sync == store.sync;
    assert Pending(s1.sync, fetch, env'.parseStamp) == Pending(store.sync, fetch, env.parseStamp);
    var loop2 := ProcessFrom(s1, newer, 0, env'.parse, env'.ledgerDown);
    var s2 := Run(s1, fetch, later, false, env').0;
    assert s2.archive == loop2.0.archive;
    ProcessFromFirst(s1, newer, 0, env'.parse, env'.ledgerDown);
    assert s2.archive[|s1.archive|].0 == NextId(s1.archive);
  }
}
