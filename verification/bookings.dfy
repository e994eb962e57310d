/** The booking record both scripts build from one form response (the
    `Booking` class of chalet_bookings_v2.py and chalet_bookings_v2.1.py),
    and the dictionaries the scripts hand to the ledger writer.

    Both scripts keep each person as a Python dict; here each is a datatype
    with one field per key, and `LeaderRecord` / `GuestRecord` give back the
    dict as an ordered list of (key, value) pairs in the dict's insertion
    order, which is the order the writer visits them in. */
module Bookings {
  import opened Wrappers

  /** The keys the scripts use in their dicts. `BookingTime` only exists in
      the polling script's top-level record. */
  datatype Key =
    | FirstName | FamilyName | FullName | Email | Dob | Add1 | Add2 | Add3
    | Town | Postcode | Phone | Room | Group | Chalet | StartDate | EndDate
    | BookedOn | BookingTime | HowHeard | Dietaries | KidsMeals

  /** The Python key spelling of each `Key`. */
  function KeyName(k: Key): string {
    match k
    case FirstName => "first_name"
    case FamilyName => "family_name"
    case FullName => "full_name"
    case Email => "email"
    case Dob => "dob"
    case Add1 => "add1"
    case Add2 => "add2"
    case Add3 => "add3"
    case Town => "town"
    case Postcode => "postcode"
    case Phone => "phone"
    case Room => "room"
    case Group => "group"
    case Chalet => "chalet"
    case StartDate => "start_date"
    case EndDate => "end_date"
    case BookedOn => "booked_on"
    case BookingTime => "booking_time"
    case HowHeard => "how_heard"
    case Dietaries => "dietaries"
    case KidsMeals => "kids_meals"
  }

  /** A value a cell may receive: `None`, a string, an integer or a boolean. */
  datatype Value = Null | Text(s: string) | Number(n: int) | Flag(b: bool)

  function OptText(o: Option<string>): Value {
    match o
    case None => Null
    case Some(s) => Text(s)
  }

  type Record = seq<(Key, Value)>

  /** The keys of a dict, in insertion order. */
  function Keys(rec: Record): (ks: seq<Key>)
    ensures |ks| == |rec| && forall i :: 0 <= i < |rec| ==> ks[i] == rec[i].0
  {
    seq(|rec|, i requires 0 <= i < |rec| => rec[i].0)
  }

  /** No key occurs twice, as in a Python dict. */
  predicate DistinctKeys(ks: seq<Key>) {
    forall i, j :: 0 <= i < j < |ks| ==> ks[i] != ks[j]
  }

  /** The value a dict ends up with for a key: the last entry for it. */
  function LastFieldOf(rec: Record, k: Key): Option<Value> {
    if rec == [] then None
    else
      var later := LastFieldOf(rec[1..], k);
      if later.Some? then later
      else if rec[0].0 == k then Some(rec[0].1)
      else None
  }

  lemma {:induction false} LastFieldAbsent(rec: Record, k: Key)
    requires forall j :: 0 <= j < |rec| ==> rec[j].0 != k
    ensures LastFieldOf(rec, k) == None
  {
    if rec != [] {
      LastFieldAbsent(rec[1..], k);
    }
  }

  /** The entry at `i` is the dict's last one for its key. */
  lemma {:induction false} LastFieldAt(rec: Record, i: nat, k: Key)
    requires i < |rec| && rec[i].0 == k
    requires forall j :: i < j < |rec| ==> rec[j].0 != k
    ensures LastFieldOf(rec, k) == Some(rec[i].1)
  {
    if i > 0 {
      LastFieldAt(rec[1..], i - 1, k);
    } else {
      LastFieldAbsent(rec[1..], k);
    }
  }

  /** Updating a dict with another: the second's entries win. */
  lemma {:induction false} LastFieldAppend(a: Record, b: Record, k: Key)
    ensures LastFieldOf(a + b, k) == if LastFieldOf(b, k).Some? then LastFieldOf(b, k) else LastFieldOf(a, k)
  {
    if a == [] {
      assert a + b == b;
    } else {
      assert (a + b)[1..] == a[1..] + b;
      LastFieldAppend(a[1..], b, k);
    }
  }

  /** In a dict without repeated keys, each entry is what a lookup of its
      key gives. */
  lemma DistinctLookup(rec: Record, i: nat)
    requires DistinctKeys(Keys(rec)) && i < |rec|
    ensures LastFieldOf(rec, rec[i].0) == Some(rec[i].1)
  {
    assert forall j :: i < j < |rec| ==> Keys(rec)[j] == rec[j].0;
    LastFieldAt(rec, i, rec[i].0);
  }

  /** The group leader (`leader_details`). */
  datatype Leader = Leader(
    firstName: string, familyName: string, fullName: string,
    email: string, dob: string,
    add1: string, add2: string, add3: Option<string>,
    town: string, postcode: string, phone: string, room: string,
    group: string, chalet: string, startDate: string, endDate: string, bookedOn: string)

  /** A further member of the party (`guests[n]` for person number `n`). */
  datatype Guest = Guest(
    firstName: string, familyName: string, fullName: string,
    email: Option<string>, dob: Option<string>, room: Option<string>,
    group: string, chalet: string, startDate: string, endDate: string, bookedOn: string)

  /** A booking: the leader, the guests keyed by person number in insertion
      order, and the three optional answers about the whole party. */
  datatype Booking = Booking(
    leader: Leader, guests: seq<(nat, Guest)>,
    howHeard: Option<string>, dietaries: Option<string>, kidsMeals: Option<string>)

  /** The two scripts differ in the top-level attributes of `Booking`: the
      polling script also carries `booking_time`, `start_date` and `end_date`,
      which it never sets. */
  datatype Script = PollingScript | WebhookScript

  /** The trip-level values every member of the party shares. */
  datatype Trip = Trip(group: string, chalet: string, startDate: string, endDate: string, bookedOn: string)

  function LeaderTrip(l: Leader): Trip {
    Trip(l.group, l.chalet, l.startDate, l.endDate, l.bookedOn)
  }

  function GuestTrip(g: Guest): Trip {
    Trip(g.group, g.chalet, g.startDate, g.endDate, g.bookedOn)
  }

  /** The keys of the leader dict, in the order the parser inserts them. */
  const LeaderKeys := [FirstName, FamilyName, FullName, Email, Dob, Add1, Add2, Add3, Town, Postcode,
                       Phone, Room, Group, Chalet, StartDate, EndDate, BookedOn]

  /** The keys of a guest dict, in the order the parser inserts them. */
  const GuestKeys := [FirstName, FamilyName, FullName, Email, Dob, Room, Group, Chalet, StartDate, EndDate, BookedOn]

  /** The leader dict, in the order the parser builds it. */
  function LeaderRecord(l: Leader): (r: Record)
    ensures |r| == |LeaderKeys|
  {
    [ (FirstName, Text(l.firstName)), (FamilyName, Text(l.familyName)), (FullName, Text(l.fullName)),
      (Email, Text(l.email)), (Dob, Text(l.dob)),
      (Add1, Text(l.add1)), (Add2, Text(l.add2)), (Add3, OptText(l.add3)),
      (Town, Text(l.town)), (Postcode, Text(l.postcode)), (Phone, Text(l.phone)), (Room, Text(l.room)),
      (Group, Text(l.group)), (Chalet, Text(l.chalet)), (StartDate, Text(l.startDate)),
      (EndDate, Text(l.endDate)), (BookedOn, Text(l.bookedOn)) ]
  }

  /** The keys of the dicts, in insertion order: the person dicts hold the
      keys of `LeaderKeys` and `GuestKeys`; the top-level record holds
      `booking_time`, `start_date` and `end_date` (polling script only)
      before the three party answers. */
  lemma RecordKeys(b: Booking, g: Guest)
    ensures Keys(LeaderRecord(b.leader)) == LeaderKeys
    ensures Keys(GuestRecord(g)) == GuestKeys
    ensures Keys(TopLevelRecord(b, PollingScript)) == [BookingTime, StartDate, EndDate, HowHeard, Dietaries, KidsMeals]
    ensures Keys(TopLevelRecord(b, WebhookScript)) == [HowHeard, Dietaries, KidsMeals]
  {
  }

  /** The position of a key in the leader dict; 17 for a key it lacks. */
  function LeaderPosition(k: Key): nat {
    match k
    case FirstName => 0
    case FamilyName => 1
    case FullName => 2
    case Email => 3
    case Dob => 4
    case Add1 => 5
    case Add2 => 6
    case Add3 => 7
    case Town => 8
    case Postcode => 9
    case Phone => 10
    case Room => 11
    case Group => 12
    case Chalet => 13
    case StartDate => 14
    case EndDate => 15
    case BookedOn => 16
    case _ => 17
  }

  lemma LeaderPositionOf(i: nat)
    requires i < |LeaderKeys|
    ensures LeaderPosition(LeaderKeys[i]) == i
  {
  }

  lemma LeaderKeysDistinct()
    ensures DistinctKeys(LeaderKeys)
  {
    forall i, j | 0 <= i < j < |LeaderKeys|
      ensures LeaderKeys[i] != LeaderKeys[j]
    {
      LeaderPositionOf(i);
      LeaderPositionOf(j);
    }
  }

  lemma LeaderLookupAt(l: Leader, i: nat)
    requires i < |LeaderKeys|
    ensures LastFieldOf(LeaderRecord(l), LeaderKeys[i]) == Some(LeaderRecord(l)[i].1)
  {
    LeaderKeysDistinct();
    assert Keys(LeaderRecord(l)) == LeaderKeys;
    DistinctLookup(LeaderRecord(l), i);
  }

  /** Looking a key up in the leader dict gives the leader's field for it. */
  lemma LeaderRecordLookup(l: Leader)
    ensures LastFieldOf(LeaderRecord(l), FirstName) == Some(Text(l.firstName))
    ensures LastFieldOf(LeaderRecord(l), FamilyName) == Some(Text(l.familyName))
    ensures LastFieldOf(LeaderRecord(l), FullName) == Some(Text(l.fullName))
    ensures LastFieldOf(LeaderRecord(l), Email) == Some(Text(l.email))
    ensures LastFieldOf(LeaderRecord(l), Dob) == Some(Text(l.dob))
    ensures LastFieldOf(LeaderRecord(l), Add1) == Some(Text(l.add1))
    ensures LastFieldOf(LeaderRecord(l), Add2) == Some(Text(l.add2))
    ensures LastFieldOf(LeaderRecord(l), Add3) == Some(OptText(l.add3))
    ensures LastFieldOf(LeaderRecord(l), Town) == Some(Text(l.town))
    ensures LastFieldOf(LeaderRecord(l), Postcode) == Some(Text(l.postcode))
    ensures LastFieldOf(LeaderRecord(l), Phone) == Some(Text(l.phone))
    ensures LastFieldOf(LeaderRecord(l), Room) == Some(Text(l.room))
    ensures LastFieldOf(LeaderRecord(l), Group) == Some(Text(l.group))
    ensures LastFieldOf(LeaderRecord(l), Chalet) == Some(Text(l.chalet))
    ensures LastFieldOf(LeaderRecord(l), StartDate) == Some(Text(l.startDate))
    ensures LastFieldOf(LeaderRecord(l), EndDate) == Some(Text(l.endDate))
    ensures LastFieldOf(LeaderRecord(l), BookedOn) == Some(Text(l.bookedOn))
  {
    LeaderLookupAt(l, 0); LeaderLookupAt(l, 1); LeaderLookupAt(l, 2); LeaderLookupAt(l, 3);
    LeaderLookupAt(l, 4); LeaderLookupAt(l, 5); LeaderLookupAt(l, 6); LeaderLookupAt(l, 7);
    LeaderLookupAt(l, 8); LeaderLookupAt(l, 9); LeaderLookupAt(l, 10); LeaderLookupAt(l, 11);
    LeaderLookupAt(l, 12); LeaderLookupAt(l, 13); LeaderLookupAt(l, 14); LeaderLookupAt(l, 15);
    LeaderLookupAt(l, 16);
  }

  /** A guest dict, in the order the parser builds it. */
  function GuestRecord(g: Guest): (r: Record)
    ensures |r| == |GuestKeys|
  {
    [ (FirstName, Text(g.firstName)), (FamilyName, Text(g.familyName)), (FullName, Text(g.fullName)),
      (Email, OptText(g.email)), (Dob, OptText(g.dob)), (Room, OptText(g.room)),
      (Group, Text(g.group)), (Chalet, Text(g.chalet)), (StartDate, Text(g.startDate)),
      (EndDate, Text(g.endDate)), (BookedOn, Text(g.bookedOn)) ]
  }

  /** The position of a key in a guest dict; 11 for a key it lacks. */
  function GuestPosition(k: Key): nat {
    match k
    case FirstName => 0
    case FamilyName => 1
    case FullName => 2
    case Email => 3
    case Dob => 4
    case Room => 5
    case Group => 6
    case Chalet => 7
    case StartDate => 8
    case EndDate => 9
    case BookedOn => 10
    case _ => 11
  }

  lemma GuestPositionOf(i: nat)
    requires i < |GuestKeys|
    ensures GuestPosition(GuestKeys[i]) == i
  {
  }

  lemma GuestKeysDistinct()
    ensures DistinctKeys(GuestKeys)
  {
    forall i, j | 0 <= i < j < |GuestKeys|
      ensures GuestKeys[i] != GuestKeys[j]
    {
      GuestPositionOf(i);
      GuestPositionOf(j);
    }
  }

  lemma GuestLookupAt(g: Guest, i: nat)
    requires i < |GuestKeys|
    ensures LastFieldOf(GuestRecord(g), GuestKeys[i]) == Some(GuestRecord(g)[i].1)
  {
    GuestKeysDistinct();
    assert Keys(GuestRecord(g)) == GuestKeys;
    DistinctLookup(GuestRecord(g), i);
  }

  /** Looking a key up in a guest dict gives the guest's field for it; the
      answers a guest may leave out are `None`. */
  lemma GuestRecordLookup(g: Guest)
    ensures LastFieldOf(GuestRecord(g), FirstName) == Some(Text(g.firstName))
    ensures LastFieldOf(GuestRecord(g), FamilyName) == Some(Text(g.familyName))
    ensures LastFieldOf(GuestRecord(g), FullName) == Some(Text(g.fullName))
    ensures LastFieldOf(GuestRecord(g), Email) == Some(OptText(g.email))
    ensures LastFieldOf(GuestRecord(g), Dob) == Some(OptText(g.dob))
    ensures LastFieldOf(GuestRecord(g), Room) == Some(OptText(g.room))
    ensures LastFieldOf(GuestRecord(g), Group) == Some(Text(g.group))
    ensures LastFieldOf(GuestRecord(g), Chalet) == Some(Text(g.chalet))
    ensures LastFieldOf(GuestRecord(g), StartDate) == Some(Text(g.startDate))
    ensures LastFieldOf(GuestRecord(g), EndDate) == Some(Text(g.endDate))
    ensures LastFieldOf(GuestRecord(g), BookedOn) == Some(Text(g.bookedOn))
  {
    GuestLookupAt(g, 0); GuestLookupAt(g, 1); GuestLookupAt(g, 2); GuestLookupAt(g, 3);
    GuestLookupAt(g, 4); GuestLookupAt(g, 5); GuestLookupAt(g, 6); GuestLookupAt(g, 7);
    GuestLookupAt(g, 8); GuestLookupAt(g, 9); GuestLookupAt(g, 10);
  }

  /** A key a dict does not hold looks up as nothing: a guest dict has no
      address, postcode or phone; neither person dict has the party's
      answers. */
  lemma PersonRecordsLack(l: Leader, g: Guest, k: Key)
    ensures k !in LeaderKeys ==> LastFieldOf(LeaderRecord(l), k) == None
    ensures k !in GuestKeys ==> LastFieldOf(GuestRecord(g), k) == None
  {
    if k !in LeaderKeys {
      assert Keys(LeaderRecord(l)) == LeaderKeys;
      LastFieldAbsent(LeaderRecord(l), k);
    }
    if k !in GuestKeys {
      assert Keys(GuestRecord(g)) == GuestKeys;
      LastFieldAbsent(GuestRecord(g), k);
    }
  }

  /** What is left of `booking.__dict__` once `guests` and `leader_details`
      are popped, in attribute order. */
  function TopLevelRecord(b: Booking, script: Script): (r: Record)
    ensures |r| == if script == PollingScript then 6 else 3
  {
    var answers := [(HowHeard, OptText(b.howHeard)), (Dietaries, OptText(b.dietaries)), (KidsMeals, OptText(b.kidsMeals))];
    match script
    case PollingScript => [(BookingTime, Null), (StartDate, Null), (EndDate, Null)] + answers
    case WebhookScript => answers
  }
}
