/** The cell batch `Booking.add_to_master` sends to the master sheet
    (identical in chalet_bookings_v2.py and chalet_bookings_v2.1.py), and
    the value it sends for each position of the sheet.

    Reading the sheet and counting the rows with an `Identifier` is I/O: the
    count is the parameter `identified`. `update_cells` gathers the cells
    into one range, a later cell for a position replacing an earlier one;
    `Written` is the value the batch sends for a position. What the Sheets
    API then stores is not modelled: it skips a `None` value, leaving that
    cell as it was, and re-reads text as a number or date
    (`USER_ENTERED`). Below, a row or column "holds" a value when the batch
    sends that value for it. */
module MasterSheet {
  import opened Wrappers
  import opened Bookings

  /** The column that holds a row's identifier marker. */
  const IdentifierColumn: nat := 2

  /** The column that holds the "confirmed" flag of the leader row. */
  const ConfirmedColumn: nat := 15

  /** `MASTER_COLUMNS_MAPPING.get(key)`: the sheet column of a key, if any. */
  function Column(k: Key): (c: Option<nat>)
    ensures c.Some? ==> KeyOfColumn(c.value) == Some(k)
    ensures c.Some? ==> c.value != IdentifierColumn && c.value != ConfirmedColumn
    ensures c.None? <==> k == BookingTime
  {
    match k
    case FirstName => Some(3)
    case FamilyName => Some(4)
    case FullName => Some(5)
    case Dob => Some(6)
    case Add1 => Some(7)
    case Add2 => Some(8)
    case Add3 => Some(9)
    case Town => Some(10)
    case Postcode => Some(11)
    case Email => Some(12)
    case Phone => Some(13)
    case Group => Some(14)
    case StartDate => Some(16)
    case EndDate => Some(17)
    case Chalet => Some(19)
    case Room => Some(20)
    case BookedOn => Some(21)
    case KidsMeals => Some(41)
    case Dietaries => Some(42)
    case HowHeard => Some(43)
    case BookingTime => None
  }

  /** The key a mapped column receives, the inverse of `Column`. */
  function KeyOfColumn(c: nat): Option<Key> {
    if c == 3 then Some(FirstName)
    else if c == 4 then Some(FamilyName)
    else if c == 5 then Some(FullName)
    else if c == 6 then Some(Dob)
    else if c == 7 then Some(Add1)
    else if c == 8 then Some(Add2)
    else if c == 9 then Some(Add3)
    else if c == 10 then Some(Town)
    else if c == 11 then Some(Postcode)
    else if c == 12 then Some(Email)
    else if c == 13 then Some(Phone)
    else if c == 14 then Some(Group)
    else if c == 16 then Some(StartDate)
    else if c == 17 then Some(EndDate)
    else if c == 19 then Some(Chalet)
    else if c == 20 then Some(Room)
    else if c == 21 then Some(BookedOn)
    else if c == 41 then Some(KidsMeals)
    else if c == 42 then Some(Dietaries)
    else if c == 43 then Some(HowHeard)
    else None
  }

  /** The columns of the mapping are exactly the columns `KeyOfColumn` knows. */
  lemma KeyOfColumnInverse(c: nat)
    ensures KeyOfColumn(c).Some? ==> Column(KeyOfColumn(c).value) == Some(c)
  {
  }

  /** No two keys share a column. */
  lemma ColumnInjective(k1: Key, k2: Key)
    requires Column(k1).Some? && Column(k1) == Column(k2)
    ensures k1 == k2
  {
    assert KeyOfColumn(Column(k1).value) == Some(k1);
  }

  /** `gspread.Cell(row=..., col=..., value=...)`. */
  datatype Cell = Cell(row: int, col: nat, value: Value)

  /** `map_fields`: one cell on `row` for each entry whose key is mapped, in
      the dict's order. */
  function MapFields(rec: Record, row: int): (r: seq<Cell>)
    ensures |r| <= |rec|
    ensures forall j :: 0 <= j < |r| ==>
      && r[j].row == row
      && KeyOfColumn(r[j].col).Some?
  {
    if rec == [] then []
    else
      var rest := MapFields(rec[1..], row);
      match Column(rec[0].0)
      case Some(c) => [Cell(row, c, rec[0].1)] + rest
      case None => rest
  }

  /** The value a batch sends for a position: that of the last cell for
      it, or nothing when no cell of the batch is at it. */
  function Written(cells: seq<Cell>, row: int, col: nat): (v: Option<Value>)
    ensures v.None? <==> forall j :: 0 <= j < |cells| ==> !(cells[j].row == row && cells[j].col == col)
  {
    if cells == [] then None
    else
      var last := cells[|cells| - 1];
      if last.row == row && last.col == col then Some(last.value)
      else
        var v := Written(cells[..|cells| - 1], row, col);
        assert forall j :: 0 <= j < |cells| - 1 ==> cells[..|cells| - 1][j] == cells[j];
        v
  }

  /** Cells later in a batch win over earlier ones. */
  lemma {:induction false} WrittenAppend(a: seq<Cell>, b: seq<Cell>, row: int, col: nat)
    ensures Written(a + b, row, col) == if Written(b, row, col).Some? then Written(b, row, col) else Written(a, row, col)
    decreases |b|
  {
    if b != [] {
      var b' := b[..|b| - 1];
      assert (a + b)[..|a + b| - 1] == a + b';
      WrittenAppend(a, b', row, col);
    } else {
      assert a + b == a;
    }
  }

  lemma {:induction false} MapFieldsAppend(a: Record, b: Record, row: int)
    ensures MapFields(a + b, row) == MapFields(a, row) + MapFields(b, row)
  {
    if a != [] {
      assert (a + b)[1..] == a[1..] + b;
      MapFieldsAppend(a[1..], b, row);
    } else {
      assert a + b == b;
    }
  }

  /** After `map_fields`, a mapped column of the row holds the dict's value
      for the key of that column. */
  lemma {:induction false} MapFieldsWritten(rec: Record, row: int, k: Key)
    requires Column(k).Some?
    ensures Written(MapFields(rec, row), row, Column(k).value) == LastFieldOf(rec, k)
  {
    if rec != [] {
      var c := Column(k).value;
      var rest := MapFields(rec[1..], row);
      MapFieldsWritten(rec[1..], row, k);
      if Column(rec[0].0).Some? {
        WrittenAppend([Cell(row, Column(rec[0].0).value, rec[0].1)], rest, row, c);
        if Column(rec[0].0).value == c {
          ColumnInjective(rec[0].0, k);
        }
      }
    }
  }

  /** A batch confined to one row leaves every other row alone. */
  lemma OtherRowUntouched(cells: seq<Cell>, row: int, other: int, col: nat)
    requires forall j :: 0 <= j < |cells| ==> cells[j].row == row
    requires other != row
    ensures Written(cells, other, col).None?
  {
  }

  /** What the guest rows get is not affected by the leader row before them. */
  lemma AfterLeaderRow(lead: seq<Cell>, guests: seq<Cell>, start: int, row: int, col: nat)
    requires forall j :: 0 <= j < |lead| ==> lead[j].row == start
    requires row != start
    ensures Written(lead + guests, row, col) == Written(guests, row, col)
  {
    OtherRowUntouched(lead, start, row, col);
    WrittenAppend(lead, guests, row, col);
  }

  /** The only cell of a batch at a position is its first: the batch
      sends that cell's value for it. */
  lemma WrittenFirstOnly(cells: seq<Cell>, row: int, col: nat)
    requires |cells| >= 1 && cells[0].row == row && cells[0].col == col
    requires forall j :: 1 <= j < |cells| ==> !(cells[j].row == row && cells[j].col == col)
    ensures Written(cells, row, col) == Some(cells[0].value)
  {
    assert cells == cells[..1] + cells[1..];
    WrittenAppend(cells[..1], cells[1..], row, col);
  }

  /** The row of one guest: its marker, then its fields. */
  function GuestRow(g: Guest, row: int): (r: seq<Cell>)
    ensures |r| >= 1 && r[0] == Cell(row, IdentifierColumn, Number(row - 1))
    ensures forall j :: 0 <= j < |r| ==> r[j].row == row
    ensures forall j :: 1 <= j < |r| ==> KeyOfColumn(r[j].col).Some?
  {
    [Cell(row, IdentifierColumn, Number(row - 1))] + MapFields(GuestRecord(g), row)
  }

  /** The cells of the guests, person after person from row `row`. */
  function GuestCells(gs: seq<(nat, Guest)>, row: int): (r: seq<Cell>)
    ensures forall j :: 0 <= j < |r| ==>
      && row <= r[j].row < row + |gs|
      && (r[j].col == IdentifierColumn ==> r[j].value == Number(r[j].row - 1))
      && (r[j].col == IdentifierColumn || KeyOfColumn(r[j].col).Some?)
  {
    if gs == [] then []
    else GuestRow(gs[0].1, row) + GuestCells(gs[1..], row + 1)
  }

  /** The leader row: marker, confirmed flag, the top-level fields of the
      booking and the leader's fields. */
  function LeaderCells(b: Booking, script: Script, row: int): (r: seq<Cell>)
    ensures |r| >= 2
    ensures r[0] == Cell(row, IdentifierColumn, Number(row - 1))
    ensures r[1] == Cell(row, ConfirmedColumn, Flag(true))
    ensures forall j :: 0 <= j < |r| ==> r[j].row == row
    ensures forall j :: 2 <= j < |r| ==> KeyOfColumn(r[j].col).Some?
  {
    [Cell(row, IdentifierColumn, Number(row - 1)), Cell(row, ConfirmedColumn, Flag(true))]
      + MapFields(TopLevelRecord(b, script), row)
      + MapFields(LeaderRecord(b.leader), row)
  }

  /** The shape of a batch for a party of `n` guests whose leader goes on
      row `start`: rows `start` to `start + n`, only mapped columns besides
      the marker and the flag, each marker the row number less one, the
      flag on the leader row only. */
  predicate Shaped(cells: seq<Cell>, start: int, n: nat) {
    forall j :: 0 <= j < |cells| ==>
      && start <= cells[j].row <= start + n
      && (cells[j].col == IdentifierColumn || cells[j].col == ConfirmedColumn || KeyOfColumn(cells[j].col).Some?)
      && (cells[j].col == IdentifierColumn ==> cells[j].value == Number(cells[j].row - 1))
      && (cells[j].col == ConfirmedColumn ==> cells[j].row == start && cells[j].value == Flag(true))
  }

  /** The shape of a batch made of a leader row and guest rows. */
  lemma BatchShape(lead: seq<Cell>, guests: seq<Cell>, start: int, n: nat)
    requires |lead| >= 2
    requires lead[0] == Cell(start, IdentifierColumn, Number(start - 1))
    requires lead[1] == Cell(start, ConfirmedColumn, Flag(true))
    requires forall j :: 0 <= j < |lead| ==> lead[j].row == start
    requires forall j :: 2 <= j < |lead| ==> KeyOfColumn(lead[j].col).Some?
    requires forall j :: 0 <= j < |guests| ==>
      && start + 1 <= guests[j].row < start + 1 + n
      && (guests[j].col == IdentifierColumn ==> guests[j].value == Number(guests[j].row - 1))
      && (guests[j].col == IdentifierColumn || KeyOfColumn(guests[j].col).Some?)
    ensures Shaped(lead + guests, start, n)
  {
    var cells := lead + guests;
    forall j | 0 <= j < |cells|
      ensures && start <= cells[j].row <= start + n
              && (cells[j].col == IdentifierColumn || cells[j].col == ConfirmedColumn || KeyOfColumn(cells[j].col).Some?)
              && (cells[j].col == IdentifierColumn ==> cells[j].value == Number(cells[j].row - 1))
              && (cells[j].col == ConfirmedColumn ==> cells[j].row == start && cells[j].value == Flag(true))
    {
      if j < |lead| {
        assert cells[j] == lead[j];
      } else {
        assert cells[j] == guests[j - |lead|];
      }
    }
  }

  /** The batch `add_to_master` sends when `identified` rows already carry
      an identifier: the leader on the next free row, `identified + 2` (the
      header is row 1), then one row per guest. */
  function BuildCells(b: Booking, script: Script, identified: nat): (cells: seq<Cell>)
    ensures Shaped(cells, identified + 2, |b.guests|)
  {
    var start := identified + 2;
    var lead, guests := LeaderCells(b, script, start), GuestCells(b.guests, start + 1);
    BatchShape(lead, guests, start, |b.guests|);
    lead + guests
  }

  /** The first guest row gets the marker. */
  lemma FirstGuestMarker(gs: seq<(nat, Guest)>, row: int)
    requires gs != []
    ensures Written(GuestCells(gs, row), row, IdentifierColumn) == Some(Number(row - 1))
  {
    var first := GuestRow(gs[0].1, row);
    var rest := GuestCells(gs[1..], row + 1);
    var cells := first + rest;
    forall j | 1 <= j < |cells|
      ensures !(cells[j].row == row && cells[j].col == IdentifierColumn)
    {
      if j < |first| {
        assert cells[j] == first[j];
      } else {
        assert cells[j] == rest[j - |first|];
      }
    }
    WrittenFirstOnly(cells, row, IdentifierColumn);
  }

  /** Every guest row gets its own marker, the row number less one. */
  lemma {:induction false} GuestMarkers(gs: seq<(nat, Guest)>, row: int, at: int)
    requires row <= at < row + |gs|
    ensures Written(GuestCells(gs, row), at, IdentifierColumn) == Some(Number(at - 1))
    decreases |gs|
  {
    if at == row {
      FirstGuestMarker(gs, row);
    } else {
      var first, rest := GuestRow(gs[0].1, row), GuestCells(gs[1..], row + 1);
      assert GuestCells(gs, row) == first + rest;
      GuestMarkers(gs[1..], row + 1, at);
      WrittenAppend(first, rest, at, IdentifierColumn);
    }
  }

  /** A leader row ends with the marker and the flag it starts with. */
  lemma LeaderRowFlags(lead: seq<Cell>, start: int)
    requires |lead| >= 2
    requires lead[0] == Cell(start, IdentifierColumn, Number(start - 1))
    requires lead[1] == Cell(start, ConfirmedColumn, Flag(true))
    requires forall j :: 2 <= j < |lead| ==> KeyOfColumn(lead[j].col).Some?
    ensures Written(lead, start, IdentifierColumn) == Some(Number(start - 1))
    ensures Written(lead, start, ConfirmedColumn) == Some(Flag(true))
  {
    WrittenFirstOnly(lead, start, IdentifierColumn);
    var tail := lead[1..];
    assert forall j :: 1 <= j < |tail| ==> tail[j] == lead[j + 1];
    WrittenFirstOnly(tail, start, ConfirmedColumn);
    assert lead == lead[..1] + tail;
    WrittenAppend(lead[..1], tail, start, ConfirmedColumn);
  }

  /** The leader row gets the marker and the confirmed flag. */
  lemma LeaderMarkers(b: Booking, script: Script, identified: nat)
    ensures var cells := BuildCells(b, script, identified);
      && Written(cells, identified + 2, IdentifierColumn) == Some(Number(identified + 1))
      && Written(cells, identified + 2, ConfirmedColumn) == Some(Flag(true))
  {
    var start := identified + 2;
    var lead := LeaderCells(b, script, start);
    var guests := GuestCells(b.guests, start + 1);
    assert BuildCells(b, script, identified) == lead + guests;
    LeaderRowFlags(lead, start);
    assert Written(guests, start, IdentifierColumn).None?;
    assert Written(guests, start, ConfirmedColumn).None?;
    WrittenAppend(lead, guests, start, IdentifierColumn);
    WrittenAppend(lead, guests, start, ConfirmedColumn);
  }

  /** Only the leader row is flagged. */
  lemma NotConfirmed(b: Booking, script: Script, identified: nat, row: int)
    requires row != identified + 2
    ensures Written(BuildCells(b, script, identified), row, ConfirmedColumn) == None
  {
    var cells := BuildCells(b, script, identified);
    forall j | 0 <= j < |cells|
      ensures !(cells[j].row == row && cells[j].col == ConfirmedColumn)
    {
    }
  }

  /** The rows touched are exactly the leader row and one row per guest:
      every one of them receives the marker `row - 1`, and only the leader
      row is flagged as confirmed. */
  lemma Markers(b: Booking, script: Script, identified: nat, row: int)
    requires identified + 2 <= row <= identified + 2 + |b.guests|
    ensures Written(BuildCells(b, script, identified), row, IdentifierColumn) == Some(Number(row - 1))
    ensures Written(BuildCells(b, script, identified), row, ConfirmedColumn) ==
      if row == identified + 2 then Some(Flag(true)) else None
  {
    var start := identified + 2;
    if row == start {
      LeaderMarkers(b, script, identified);
    } else {
      var lead, guests := LeaderCells(b, script, start), GuestCells(b.guests, start + 1);
      assert BuildCells(b, script, identified) == lead + guests;
      GuestMarkers(b.guests, start + 1, row);
      assert Written(guests, row, IdentifierColumn) == Some(Number(row - 1));
      WrittenAppend(lead, guests, row, IdentifierColumn);
      NotConfirmed(b, script, identified, row);
    }
  }

  /** Reading the leader row back gives the booking's top-level answers and
      the leader's fields, the leader's winning where both have the key. */
  lemma LeaderRowReadsBack(b: Booking, script: Script, identified: nat, k: Key)
    requires Column(k).Some?
    ensures Written(BuildCells(b, script, identified), identified + 2, Column(k).value)
      == LastFieldOf(TopLevelRecord(b, script) + LeaderRecord(b.leader), k)
  {
    var start := identified + 2;
    var c := Column(k).value;
    assert Written(GuestCells(b.guests, start + 1), start, c).None?;
    WrittenAppend(LeaderCells(b, script, start), GuestCells(b.guests, start + 1), start, c);
    LeaderCellsReadBack(b, script, start, k);
  }

  lemma LeaderCellsReadBack(b: Booking, script: Script, start: int, k: Key)
    requires Column(k).Some?
    ensures Written(LeaderCells(b, script, start), start, Column(k).value)
      == LastFieldOf(TopLevelRecord(b, script) + LeaderRecord(b.leader), k)
  {
    var c := Column(k).value;
    var head := [Cell(start, IdentifierColumn, Number(start - 1)), Cell(start, ConfirmedColumn, Flag(true))];
    var recs := TopLevelRecord(b, script) + LeaderRecord(b.leader);
    MapFieldsAppend(TopLevelRecord(b, script), LeaderRecord(b.leader), start);
    assert LeaderCells(b, script, start) == head + MapFields(recs, start);
    WrittenAppend(head, MapFields(recs, start), start, c);
    MapFieldsWritten(recs, start, k);
  }

  /** The leader row holds the party's family name in the family-name
      column. */
  lemma LeaderFamilyCell(b: Booking, script: Script, identified: nat)
    ensures Written(BuildCells(b, script, identified), identified + 2, Column(FamilyName).value)
      == Some(Text(b.leader.familyName))
  {
    LeaderRowReadsBack(b, script, identified, FamilyName);
    LastFieldAppend(TopLevelRecord(b, script), LeaderRecord(b.leader), FamilyName);
    LeaderRecordLookup(b.leader);
  }

  /** The leader row holds the booking date in the booked-on column. */
  lemma LeaderBookedOnCell(b: Booking, script: Script, identified: nat)
    ensures Written(BuildCells(b, script, identified), identified + 2, Column(BookedOn).value)
      == Some(Text(b.leader.bookedOn))
  {
    LeaderRowReadsBack(b, script, identified, BookedOn);
    LastFieldAppend(TopLevelRecord(b, script), LeaderRecord(b.leader), BookedOn);
    LeaderRecordLookup(b.leader);
  }

  /** A guest's own row holds that guest's fields. */
  lemma GuestRowHolds(g: Guest, row: int, k: Key)
    requires Column(k).Some?
    ensures Written(GuestRow(g, row), row, Column(k).value) == LastFieldOf(GuestRecord(g), k)
  {
    var c := Column(k).value;
    var marker := [Cell(row, IdentifierColumn, Number(row - 1))];
    var fields := MapFields(GuestRecord(g), row);
    assert GuestRow(g, row) == marker + fields;
    WrittenAppend(marker, fields, row, c);
    MapFieldsWritten(GuestRecord(g), row, k);
  }

  /** Rows after the first guest's are read from the remaining guests. */
  lemma LaterGuestRow(gs: seq<(nat, Guest)>, row: int, at: int, c: nat)
    requires row < at < row + |gs|
    ensures Written(GuestCells(gs, row), at, c) == Written(GuestCells(gs[1..], row + 1), at, c)
    ensures gs[1..][at - (row + 1)..] == gs[at - row..]
  {
    var first, rest := GuestRow(gs[0].1, row), GuestCells(gs[1..], row + 1);
    assert GuestCells(gs, row) == first + rest;
    assert Written(first, at, c).None?;
    WrittenAppend(first, rest, at, c);
  }

  /** The first guest's row is read from that guest's cells alone. */
  lemma FirstGuestRow(gs: seq<(nat, Guest)>, row: int, c: nat)
    requires gs != []
    ensures Written(GuestCells(gs, row), row, c) == Written(GuestRow(gs[0].1, row), row, c)
  {
    var first, rest := GuestRow(gs[0].1, row), GuestCells(gs[1..], row + 1);
    assert GuestCells(gs, row) == first + rest;
    assert Written(rest, row, c).None?;
    WrittenAppend(first, rest, row, c);
  }

  /** The rows of the guests before the one on row `at` leave that row
      alone. */
  lemma {:induction false} EarlierGuestsApart(gs: seq<(nat, Guest)>, row: int, at: int, c: nat)
    requires row <= at < row + |gs|
    ensures Written(GuestCells(gs, row), at, c) == Written(GuestCells(gs[at - row..], at), at, c)
    decreases |gs|
  {
    if at == row {
      assert gs[0..] == gs;
    } else {
      var tail := gs[1..];
      EarlierGuestsApart(tail, row + 1, at, c);
      assert row + 1 <= at;
      assert Written(GuestCells(tail, row + 1), at, c) == Written(GuestCells(tail[at - (row + 1)..], at), at, c);
      EarlierGuestsStep(gs, tail, row, at, c);
    }
  }

  /** One step of `EarlierGuestsApart`: from the guests after the first to
      all of them. */
  lemma EarlierGuestsStep(gs: seq<(nat, Guest)>, tail: seq<(nat, Guest)>, row: int, at: int, c: nat)
    requires row < at < row + |gs| && tail == gs[1..]
    requires Written(GuestCells(tail, row + 1), at, c) == Written(GuestCells(tail[at - (row + 1)..], at), at, c)
    ensures Written(GuestCells(gs, row), at, c) == Written(GuestCells(gs[at - row..], at), at, c)
  {
    LaterGuestRow(gs, row, at, c);
  }

  /** Each guest's row, in person order from the row after the leader's,
      holds that guest's fields. */
  lemma GuestRowReadsBack(gs: seq<(nat, Guest)>, row: int, at: int, k: Key)
    requires row <= at < row + |gs| && Column(k).Some?
    ensures Written(GuestCells(gs, row), at, Column(k).value) == LastFieldOf(GuestRecord(gs[at - row].1), k)
  {
    var c := Column(k).value;
    EarlierGuestsApart(gs, row, at, c);
    FirstGuestRow(gs[at - row..], at, c);
    assert gs[at - row..][0] == gs[at - row];
    GuestRowHolds(gs[at - row].1, at, k);
  }

  /** The leader's stay dates are the last entries for their keys on the
      leader row. */
  lemma LeaderDates(b: Booking, script: Script)
    ensures LastFieldOf(TopLevelRecord(b, script) + LeaderRecord(b.leader), StartDate) == Some(Text(b.leader.startDate))
    ensures LastFieldOf(TopLevelRecord(b, script) + LeaderRecord(b.leader), EndDate) == Some(Text(b.leader.endDate))
  {
    LastFieldAppend(TopLevelRecord(b, script), LeaderRecord(b.leader), StartDate);
    LastFieldAppend(TopLevelRecord(b, script), LeaderRecord(b.leader), EndDate);
    LeaderRecordLookup(b.leader);
  }

  /** The polling script sends `None` for columns 16 and 17 of the leader
      row right after the marker and the flag, from the booking's own
      `start_date` / `end_date`, and the leader's dates later in the same
      batch; the leader's dates are what the batch sends for the row. */
  lemma PollingDatesWrittenTwice(b: Booking, identified: nat)
    ensures var cells := BuildCells(b, PollingScript, identified);
      && |cells| >= 4
      && cells[2] == Cell(identified + 2, 16, Null)
      && cells[3] == Cell(identified + 2, 17, Null)
      && Written(cells, identified + 2, 16) == Some(Text(b.leader.startDate))
      && Written(cells, identified + 2, 17) == Some(Text(b.leader.endDate))
  {
    PollingDateCells(b, identified);
    LeaderDates(b, PollingScript);
    LeaderRowReadsBack(b, PollingScript, identified, StartDate);
    LeaderRowReadsBack(b, PollingScript, identified, EndDate);
  }

  lemma PollingDateCells(b: Booking, identified: nat)
    ensures var cells := BuildCells(b, PollingScript, identified);
      |cells| >= 4 && cells[2] == Cell(identified + 2, 16, Null) && cells[3] == Cell(identified + 2, 17, Null)
  {
    var start := identified + 2;
    var top := MapFields(TopLevelRecord(b, PollingScript), start);
    var lead := LeaderCells(b, PollingScript, start);
    var cells := BuildCells(b, PollingScript, identified);
    PollingTopLevel(b, start);
    assert |top| >= 2 && top[0] == Cell(start, 16, Null) && top[1] == Cell(start, 17, Null);
    assert lead[2] == top[0] && lead[3] == top[1];
    assert cells[2] == lead[2] && cells[3] == lead[3];
  }

  /** The polling script's top-level fields are the webhook's preceded by
      two `None` cells for columns 16 and 17. */
  lemma PollingTopLevel(b: Booking, row: int)
    ensures MapFields(TopLevelRecord(b, PollingScript), row)
      == [Cell(row, 16, Null), Cell(row, 17, Null)] + MapFields(TopLevelRecord(b, WebhookScript), row)
  {
    var u3: Record := [(EndDate, Null)];
    var u2: Record := [(StartDate, Null)] + u3;
    var unset: Record := [(BookingTime, Null)] + u2;
    var answers := TopLevelRecord(b, WebhookScript);
    assert TopLevelRecord(b, PollingScript) == unset + answers;
    MapFieldsAppend(unset, answers, row);
    UnsetDateCells(row);
  }

  /** The three unset top-level fields give a `None` cell for each stay
      date; the booking time has no column. */
  lemma UnsetDateCells(row: int)
    ensures MapFields([(BookingTime, Null), (StartDate, Null), (EndDate, Null)], row)
      == [Cell(row, 16, Null), Cell(row, 17, Null)]
  {
    var u3: Record := [(EndDate, Null)];
    var u2: Record := [(StartDate, Null)] + u3;
    MapFieldsFront((EndDate, Null), [], row);
    MapFieldsFront((StartDate, Null), u3, row);
    MapFieldsFront((BookingTime, Null), u2, row);
    assert [(BookingTime, Null)] + u2 == [(BookingTime, Null), (StartDate, Null), (EndDate, Null)];
  }

  /** The cells of a record's first entry come before those of the rest. */
  lemma MapFieldsFront(e: (Key, Value), rest: Record, row: int)
    ensures MapFields([e] + rest, row)
      == (if Column(e.0).Some? then [Cell(row, Column(e.0).value, e.1)] else []) + MapFields(rest, row)
  {
    assert ([e] + rest)[1..] == rest;
  }

  /** The leader's fields include both stay dates. */
  lemma LeaderWritesDates(l: Leader, row: int, col: nat)
    requires col == 16 || col == 17
    ensures Written(MapFields(LeaderRecord(l), row), row, col).Some?
  {
    LeaderRecordLookup(l);
    if col == 16 {
      MapFieldsWritten(LeaderRecord(l), row, StartDate);
    } else {
      MapFieldsWritten(LeaderRecord(l), row, EndDate);
    }
  }

  /** Both scripts send the same value for every position: the polling
      script's extra `None` dates are replaced by the leader's. */
  lemma ScriptsWriteSameSheet(b: Booking, identified: nat, row: int, col: nat)
    ensures Written(BuildCells(b, PollingScript, identified), row, col)
      == Written(BuildCells(b, WebhookScript, identified), row, col)
  {
    var start := identified + 2;
    var head := [Cell(start, IdentifierColumn, Number(start - 1)), Cell(start, ConfirmedColumn, Flag(true))];
    var dates := [Cell(start, 16, Null), Cell(start, 17, Null)];
    var answers := MapFields(TopLevelRecord(b, WebhookScript), start);
    var lead := MapFields(LeaderRecord(b.leader), start);
    var guests := GuestCells(b.guests, start + 1);
    PollingTopLevel(b, start);
    assert BuildCells(b, PollingScript, identified) == head + (dates + answers) + lead + guests;
    assert BuildCells(b, WebhookScript, identified) == head + answers + lead + guests;
    WrittenAppend(head + (dates + answers) + lead, guests, row, col);
    WrittenAppend(head + (dates + answers), lead, row, col);
    WrittenAppend(head, dates + answers, row, col);
    WrittenAppend(dates, answers, row, col);
    WrittenAppend(head + answers + lead, guests, row, col);
    WrittenAppend(head + answers, lead, row, col);
    WrittenAppend(head, answers, row, col);
    if row == start && (col == 16 || col == 17) {
      LeaderWritesDates(b.leader, start, col);
    }
  }

  /** Guest rows read back the same whatever leader row precedes them. */
  lemma GuestRowAfterLeader(lead: seq<Cell>, gs: seq<(nat, Guest)>, first: int, row: int, k: Key)
    requires forall j :: 0 <= j < |lead| ==> lead[j].row == first - 1
    requires first <= row < first + |gs| && Column(k).Some?
    ensures Written(lead + GuestCells(gs, first), row, Column(k).value)
      == LastFieldOf(GuestRecord(gs[row - first].1), k)
  {
    GuestRowReadsBack(gs, first, row, k);
    AfterLeaderRow(lead, GuestCells(gs, first), first - 1, row, Column(k).value);
  }

  /** In the whole batch, each guest row (the `row - identified - 3`-th
      guest's, 0-based) holds that guest's fields. */
  lemma GuestRowInBatch(b: Booking, script: Script, identified: nat, row: int, k: Key)
    requires identified + 3 <= row < identified + 3 + |b.guests| && Column(k).Some?
    ensures Written(BuildCells(b, script, identified), row, Column(k).value)
      == LastFieldOf(GuestRecord(b.guests[row - (identified + 3)].1), k)
  {
    var first := identified + 3;
    var lead := LeaderCells(b, script, first - 1);
    assert BuildCells(b, script, identified) == lead + GuestCells(b.guests, first);
    GuestRowAfterLeader(lead, b.guests, first, row, k);
  }

  /** The answers about the whole party (children's meals, dietary
      requirements, how they heard) land on the leader row only. */
  lemma PartyAnswersOnLeaderRowOnly(b: Booking, script: Script, identified: nat, row: int, k: Key)
    requires k == KidsMeals || k == Dietaries || k == HowHeard
    requires row != identified + 2
    ensures Written(BuildCells(b, script, identified), row, Column(k).value).None?
  {
    if identified + 3 <= row <= identified + 2 + |b.guests| {
      var rec := GuestRecord(b.guests[row - (identified + 3)].1);
      assert forall j :: 0 <= j < |rec| ==> rec[j].0 != k;
      LastFieldAbsent(rec, k);
      GuestRowInBatch(b, script, identified, row, k);
    }
  }

  /** With five identified rows and two guests, the batch fills rows 7, 8
      and 9 with markers 6, 7 and 8, and confirms row 7 only. */
  lemma ExampleRows(b: Booking, script: Script)
    requires |b.guests| == 2
    ensures var cells := BuildCells(b, script, 5);
      && Written(cells, 7, IdentifierColumn) == Some(Number(6))
      && Written(cells, 8, IdentifierColumn) == Some(Number(7))
      && Written(cells, 9, IdentifierColumn) == Some(Number(8))
      && Written(cells, 7, ConfirmedColumn) == Some(Flag(true))
      && Written(cells, 8, ConfirmedColumn).None?
      && Written(cells, 9, ConfirmedColumn).None?
      && forall j :: 0 <= j < |cells| ==> 7 <= cells[j].row <= 9
  {
    Markers(b, script, 5, 7);
    Markers(b, script, 5, 8);
    Markers(b, script, 5, 9);
  }
}
