/** Turning one form response into a `Booking`: `parse_row` in
    chalet_bookings_v2.py and `parse_booking` in chalet_bookings_v2.1.py,
    which are the same code over a Series and a dict, together with the two
    ways the scripts clean a response first (the blank-cell regex of the
    polling loop and `filter_data` of the webhook).

    A response is a map from question label to answer text. A Python
    `KeyError` on a missing label, a failing `parse_long_form_date` and a
    timestamp that `pd.to_datetime` rejects are the three ways parsing fails;
    each is a `ParseError`, reported for the first failing step in the order
    `parse_row` evaluates them. `pd.to_datetime(...).strftime("%d/%m/%Y")` is
    not modelled: it is the parameter `bookedOnOf`, which gives the booking
    date text for a timestamp or `None` when the timestamp does not parse. */
module BookingParser {
  import opened Wrappers
  import opened Chars
  import PhoneNumbers
  import LongFormDates
  import opened Bookings

  /** A cleaned response: question label to answer. */
  type Answers = map<string, string>

  datatype ParseError =
    | MissingAnswer(question: string)
    | BadTimestamp(stamp: string)
    | BadStayDate(question: string, reason: LongFormDates.DateError)

  const TimestampLabel := "Timestamp"
  const FamilyNameLabel := "Family name"
  const ChaletLabel := "Which chalet?"
  const FirstNameLabel := "First name"
  const EmailLabel := "Email address"
  const DobLabel := "Date of birth"
  const Address1Label := "Address 1"
  const Address2Label := "Address 2"
  const Address3Label := "Address 3"
  const TownLabel := "Town"
  const PostcodeLabel := "Postcode"
  const PhoneLabel := "Contact telephone number"
  const RoomLabel := "Which room will you be staying in?"
  const GuestRoomLabel := "Which room will this person be in?"
  const DietariesLabel := "What are the dietary requirements?"
  const KidsMealsLabel := "How many children's meals do you require?"
  const HowHeardLabel := "Please tell us how you heard about us. It would be really helpful!"

  /** The date questions are asked per chalet; the chalet answer picks them. */
  function StartLabel(chalet: string): string { "Start of stay in chalet " + chalet }

  function EndLabel(chalet: string): string { "End of stay in chalet " + chalet }

  /** A guest question: `"<question> (person <n>)"`. */
  function PersonLabel(question: string, n: nat): string {
    question + " (person " + NatToString(n) + ")"
  }

  /** The leader answers `parse_row` reads with `[]` (a `KeyError` when absent). */
  const LeaderLabels := [FirstNameLabel, EmailLabel, DobLabel, Address1Label, Address2Label,
                         TownLabel, PostcodeLabel, PhoneLabel, RoomLabel]

  /** Python truthiness of `data.get(key)`: present and not the empty string. */
  predicate Answered(data: Answers, key: string) {
    key in data && data[key] != ""
  }

  /** `data[key]`. */
  function Answer(data: Answers, key: string): (r: Result<string, ParseError>)
    ensures r.Success? <==> key in data
    ensures r.Success? ==> r.value == data[key]
    ensures r.Failure? ==> r.error == MissingAnswer(key)
  {
    if key in data then Success(data[key]) else Failure(MissingAnswer(key))
  }

  /** `data.get(key)`. */
  function Get(data: Answers, key: string): (r: Option<string>)
    ensures r.Some? <==> key in data
    ensures r.Some? ==> r.value == data[key]
  {
    if key in data then Some(data[key]) else None
  }

  /** `parse_long_form_date` on the answer to a date question. */
  function StayDate(key: string, text: string): (r: Result<string, ParseError>)
    ensures r.Success? <==> LongFormDates.ParseLongFormDate(text).Success?
    ensures r.Success? ==> r.value == LongFormDates.ParseLongFormDate(text).value
    ensures r.Failure? ==> r.error == BadStayDate(key, LongFormDates.ParseLongFormDate(text).error)
  {
    match LongFormDates.ParseLongFormDate(text)
    case Success(d) => Success(d)
    case Failure(e) => Failure(BadStayDate(key, e))
  }

  /** What must hold of a response for the trip-level values to be computed. */
  predicate TripAccepted(data: Answers, bookedOnOf: string -> Option<string>) {
    && TimestampLabel in data && bookedOnOf(data[TimestampLabel]).Some?
    && FamilyNameLabel in data
    && ChaletLabel in data
    && StartLabel(data[ChaletLabel]) in data
    && LongFormDates.ParseLongFormDate(data[StartLabel(data[ChaletLabel])]).Success?
    && EndLabel(data[ChaletLabel]) in data
    && LongFormDates.ParseLongFormDate(data[EndLabel(data[ChaletLabel])]).Success?
  }

  /** The values computed once and copied onto every member of the party:
      the booking date, the family name as the group, the chalet and the two
      stay dates. */
  function ParseTrip(data: Answers, bookedOnOf: string -> Option<string>): (r: Result<Trip, ParseError>)
    ensures r.Success? <==> TripAccepted(data, bookedOnOf)
    ensures r.Success? ==>
      && r.value.bookedOn == bookedOnOf(data[TimestampLabel]).value
      && r.value.group == data[FamilyNameLabel]
      && r.value.chalet == data[ChaletLabel]
      && r.value.startDate == LongFormDates.ParseLongFormDate(data[StartLabel(r.value.chalet)]).value
      && r.value.endDate == LongFormDates.ParseLongFormDate(data[EndLabel(r.value.chalet)]).value
    ensures r.Failure? && r.error.MissingAnswer? ==> r.error.question !in data
    // The missing question is the first one asked, in the order: timestamp,
    // family name, chalet, start of stay, end of stay.
    ensures r.Failure? && r.error.MissingAnswer? ==>
      || r.error.question == TimestampLabel
      || (&& TimestampLabel in data && bookedOnOf(data[TimestampLabel]).Some?
          && (|| r.error.question == FamilyNameLabel
              || (&& FamilyNameLabel in data
                  && (|| r.error.question == ChaletLabel
                      || (&& ChaletLabel in data
                          && (|| r.error.question == StartLabel(data[ChaletLabel])
                              || (&& StartLabel(data[ChaletLabel]) in data
                                  && LongFormDates.ParseLongFormDate(data[StartLabel(data[ChaletLabel])]).Success?
                                  && r.error.question == EndLabel(data[ChaletLabel]))))))))
    ensures r.Failure? && r.error.BadTimestamp? ==>
      TimestampLabel in data && r.error.stamp == data[TimestampLabel] && bookedOnOf(r.error.stamp).None?
    ensures r.Failure? && r.error.BadStayDate? ==>
      && TimestampLabel in data && bookedOnOf(data[TimestampLabel]).Some?
      && FamilyNameLabel in data && ChaletLabel in data
      && r.error.question in data
      && LongFormDates.ParseLongFormDate(data[r.error.question]) == Failure(r.error.reason)
      && (|| r.error.question == StartLabel(data[ChaletLabel])
          || (&& StartLabel(data[ChaletLabel]) in data
              && LongFormDates.ParseLongFormDate(data[StartLabel(data[ChaletLabel])]).Success?
              && r.error.question == EndLabel(data[ChaletLabel])))
  {
    var stamp :- Answer(data, TimestampLabel);
    var bookedOn :- if bookedOnOf(stamp).Some? then Success(bookedOnOf(stamp).value) else Failure(BadTimestamp(stamp));
    var family :- Answer(data, FamilyNameLabel);
    var chalet :- Answer(data, ChaletLabel);
    var startText :- Answer(data, StartLabel(chalet));
    var start :- StayDate(StartLabel(chalet), startText);
    var endText :- Answer(data, EndLabel(chalet));
    var end :- StayDate(EndLabel(chalet), endText);
    Success(Trip(family, chalet, start, end, bookedOn))
  }

  /** `row.get("Address 3") or None`: an empty answer counts as no answer. */
  function ThirdAddressLine(data: Answers): (r: Option<string>)
    ensures r.None? <==> !Answered(data, Address3Label)
    ensures r.Some? ==> r.value == data[Address3Label]
  {
    if Answered(data, Address3Label) then Some(data[Address3Label]) else None
  }

  /** The position of the first of `labels` a response lacks, from `from`
      on: the `KeyError` a run of `data[label]` lookups raises first. */
  function FirstMissing(labels: seq<string>, data: Answers, from: nat): (r: Option<nat>)
    requires from <= |labels|
    ensures r.None? <==> forall i :: from <= i < |labels| ==> labels[i] in data
    ensures r.Some? ==> from <= r.value < |labels| && labels[r.value] !in data
    ensures r.Some? ==> forall i :: from <= i < r.value ==> labels[i] in data
    decreases |labels| - from
  {
    if from == |labels| then None
    else if labels[from] !in data then Some(from)
    else FirstMissing(labels, data, from + 1)
  }

  /** The leader dict. A missing answer is reported for the first of
      `LeaderLabels` that is missing, in the order the dict is built. */
  function ParseLeader(data: Answers, trip: Trip): (r: Result<Leader, ParseError>)
    ensures r.Success? <==> forall l :: l in LeaderLabels ==> l in data
    ensures r.Success? ==>
      && LeaderTrip(r.value) == trip
      && r.value.familyName == trip.group
      && r.value.firstName == data[FirstNameLabel]
      && r.value.fullName == r.value.firstName + " " + r.value.familyName
      && r.value.email == data[EmailLabel]
      && r.value.dob == data[DobLabel]
      && r.value.add1 == data[Address1Label]
      && r.value.add2 == data[Address2Label]
      && r.value.add3 == ThirdAddressLine(data)
      && r.value.town == data[TownLabel]
      && r.value.postcode == data[PostcodeLabel]
      && r.value.phone == PhoneNumbers.NormalisePhone(data[PhoneLabel])
      && r.value.room == data[RoomLabel]
    ensures r.Failure? ==> r.error.MissingAnswer? && r.error.question in LeaderLabels && r.error.question !in data
    ensures r.Failure? ==> forall i, j :: 0 <= j < i < |LeaderLabels| && LeaderLabels[i] == r.error.question ==>
      LeaderLabels[j] in data
  {
    match FirstMissing(LeaderLabels, data, 0)
    case Some(i) => Failure(MissingAnswer(LeaderLabels[i]))
    case None =>
      assert LeaderLabels[0] in data && LeaderLabels[1] in data && LeaderLabels[2] in data;
      assert LeaderLabels[3] in data && LeaderLabels[4] in data && LeaderLabels[5] in data;
      assert LeaderLabels[6] in data && LeaderLabels[7] in data && LeaderLabels[8] in data;
      var first := data[FirstNameLabel];
      Success(Leader(first, trip.group, first + " " + trip.group, data[EmailLabel], data[DobLabel],
                     data[Address1Label], data[Address2Label], ThirdAddressLine(data), data[TownLabel],
                     data[PostcodeLabel], PhoneNumbers.NormalisePhone(data[PhoneLabel]), data[RoomLabel],
                     trip.group, trip.chalet, trip.startDate, trip.endDate, trip.bookedOn))
  }

  /** The guest dict for person `n`, whose first name is answered. */
  function GuestAt(data: Answers, trip: Trip, n: nat): (g: Guest)
    requires Answered(data, PersonLabel(FirstNameLabel, n))
    ensures GuestTrip(g) == trip
    ensures g.firstName == data[PersonLabel(FirstNameLabel, n)]
    ensures g.familyName == Get(data, PersonLabel(FamilyNameLabel, n)).GetOr("")
    ensures g.fullName == g.firstName + " " + g.familyName
    ensures g.email == Get(data, PersonLabel(EmailLabel, n))
    ensures g.dob == Get(data, PersonLabel(DobLabel, n))
    ensures g.room == Get(data, PersonLabel(GuestRoomLabel, n))
  {
    var first := data[PersonLabel(FirstNameLabel, n)];
    var family := Get(data, PersonLabel(FamilyNameLabel, n)).GetOr("");
    Guest(first, family, first + " " + family,
          Get(data, PersonLabel(EmailLabel, n)), Get(data, PersonLabel(DobLabel, n)),
          Get(data, PersonLabel(GuestRoomLabel, n)),
          trip.group, trip.chalet, trip.startDate, trip.endDate, trip.bookedOn)
  }

  const GuestFirstNamePrefix := "First name (person "

  /** The person number a label asks the first name of, if it is such a label. */
  function FirstNamePerson(key: string): Option<nat> {
    var p := |GuestFirstNamePrefix|;
    if |key| >= p + 2 && key[..p] == GuestFirstNamePrefix && key[|key| - 1] == ')'
       && AllDigits(key[p..|key| - 1])
    then Some(DecimalValue(key[p..|key| - 1]))
    else None
  }

  /** The guest first-name questions answered from person `n` onwards; the
      guest loop shrinks this set at every step. */
  ghost function FirstNamesFrom(data: Answers, n: nat): set<string> {
    set k | k in data && FirstNamePerson(k).Some? && FirstNamePerson(k).value >= n
  }

  lemma FirstNamePersonOf(n: nat)
    ensures FirstNamePerson(PersonLabel(FirstNameLabel, n)) == Some(n)
  {
    var s := NatToString(n);
    var key := PersonLabel(FirstNameLabel, n);
    assert key == GuestFirstNamePrefix + s + ")";
    var p := |GuestFirstNamePrefix|;
    assert key[..p] == GuestFirstNamePrefix;
    assert key[p..|key| - 1] == s;
  }

  lemma FirstNamesShrink(data: Answers, n: nat)
    requires PersonLabel(FirstNameLabel, n) in data
    ensures FirstNamesFrom(data, n + 1) < FirstNamesFrom(data, n)
  {
    FirstNamePersonOf(n);
    var key := PersonLabel(FirstNameLabel, n);
    assert key in FirstNamesFrom(data, n) && key !in FirstNamesFrom(data, n + 1);
  }

  /** `gs` are the guests numbered contiguously from `n`: each answered a
      first name and carries the dict built for that person. */
  predicate NumberedFrom(data: Answers, trip: Trip, n: nat, gs: seq<(nat, Guest)>) {
    forall i :: 0 <= i < |gs| ==>
      && gs[i].0 == n + i
      && Answered(data, PersonLabel(FirstNameLabel, n + i))
      && gs[i].1 == GuestAt(data, trip, n + i)
  }

  lemma NumberedCons(data: Answers, trip: Trip, n: nat, rest: seq<(nat, Guest)>)
    requires Answered(data, PersonLabel(FirstNameLabel, n))
    requires NumberedFrom(data, trip, n + 1, rest)
    ensures NumberedFrom(data, trip, n, [(n, GuestAt(data, trip, n))] + rest)
  {
    var r := [(n, GuestAt(data, trip, n))] + rest;
    forall i | 1 <= i < |r|
      ensures r[i].0 == n + i && r[i].1 == GuestAt(data, trip, n + i)
      ensures Answered(data, PersonLabel(FirstNameLabel, n + i))
    {
      assert r[i] == rest[i - 1];
    }
  }

  /** The guest loop from person `n`: guests are numbered contiguously from
      `n`, every one of them answered a first name, and the loop stops at the
      first person whose first name is missing or empty. */
  function GuestsFrom(data: Answers, trip: Trip, n: nat): (r: seq<(nat, Guest)>)
    ensures NumberedFrom(data, trip, n, r)
    ensures !Answered(data, PersonLabel(FirstNameLabel, n + |r|))
    decreases FirstNamesFrom(data, n)
  {
    if Answered(data, PersonLabel(FirstNameLabel, n)) then
      FirstNamesShrink(data, n);
      var rest := GuestsFrom(data, trip, n + 1);
      NumberedCons(data, trip, n, rest);
      [(n, GuestAt(data, trip, n))] + rest
    else []
  }

  /** Everything a response needs for `parse_row` / `parse_booking` to return. */
  predicate Accepted(data: Answers, bookedOnOf: string -> Option<string>) {
    TripAccepted(data, bookedOnOf) && forall l :: l in LeaderLabels ==> l in data
  }

  /** `parse_row` (v2) and `parse_booking` (v2.1). */
  function ParseBooking(data: Answers, bookedOnOf: string -> Option<string>): (r: Result<Booking, ParseError>)
    ensures r.Success? <==> Accepted(data, bookedOnOf)
    ensures r.Success? ==>
      && r.value.leader.familyName == r.value.leader.group == data[FamilyNameLabel]
      && r.value.leader.chalet == data[ChaletLabel]
      && r.value.howHeard == Get(data, HowHeardLabel)
      && r.value.dietaries == Get(data, DietariesLabel)
      && r.value.kidsMeals == Get(data, KidsMealsLabel)
      && r.value.guests == GuestsFrom(data, LeaderTrip(r.value.leader), 2)
    ensures r.Success? ==>
      && ParseTrip(data, bookedOnOf) == Success(LeaderTrip(r.value.leader))
      && ParseLeader(data, LeaderTrip(r.value.leader)) == Success(r.value.leader)
    ensures r.Failure? && r.error.MissingAnswer? ==> r.error.question !in data
    // The trip questions are checked before the leader's.
    ensures r.Failure? && !TripAccepted(data, bookedOnOf) ==> r.error == ParseTrip(data, bookedOnOf).error
    ensures r.Failure? && TripAccepted(data, bookedOnOf) ==>
      && r.error.MissingAnswer? && r.error.question in LeaderLabels
      && forall i, j :: 0 <= j < i < |LeaderLabels| && LeaderLabels[i] == r.error.question ==> LeaderLabels[j] in data
  {
    var trip :- ParseTrip(data, bookedOnOf);
    var leader :- ParseLeader(data, trip);
    Success(Booking(leader, GuestsFrom(data, trip, 2),
                    Get(data, HowHeardLabel), Get(data, DietariesLabel), Get(data, KidsMealsLabel)))
  }

  /** A response whose timestamp converts is never rejected for it, and its
      booking date is the converted timestamp. */
  lemma BookedOnFromStamp(data: Answers, bookedOnOf: string -> Option<string>)
    requires TimestampLabel in data && bookedOnOf(data[TimestampLabel]).Some?
    ensures var r := ParseBooking(data, bookedOnOf);
      && !(r.Failure? && r.error.BadTimestamp?)
      && (r.Success? ==> r.value.leader.bookedOn == bookedOnOf(data[TimestampLabel]).value)
  {
    var r := ParseBooking(data, bookedOnOf);
    if r.Success? {
      assert ParseTrip(data, bookedOnOf) == Success(LeaderTrip(r.value.leader));
    }
  }

  /** Parsing reads the timestamp conversion at the response's own
      timestamp only. */
  lemma SameStampSameBooking(data: Answers, f: string -> Option<string>, g: string -> Option<string>)
    requires TimestampLabel in data ==> f(data[TimestampLabel]) == g(data[TimestampLabel])
    ensures ParseBooking(data, f) == ParseBooking(data, g)
  {
    SameStampSameTrip(data, f, g);
    match ParseTrip(data, f)
    case Failure(e) =>
      assert ParseBooking(data, f) == Failure(e) == ParseBooking(data, g);
    case Success(trip) =>
      match ParseLeader(data, trip)
      case Failure(e) =>
        assert ParseBooking(data, f) == Failure(e) == ParseBooking(data, g);
      case Success(leader) =>
    }

  /** Whether a response is accepted depends on the timestamp conversion
      only through whether it converts the response's timestamp. */
  lemma SameStampSameAcceptance(data: Answers, f: string -> Option<string>, g: string -> Option<string>)
    requires TimestampLabel in data ==> f(data[TimestampLabel]).Some? == g(data[TimestampLabel]).Some?
    ensures ParseBooking(data, f).Success? == ParseBooking(data, g).Success?
  {
    assert TripAccepted(data, f) == TripAccepted(data, g);
  }

  lemma SameStampSameTrip(data: Answers, f: string -> Option<string>, g: string -> Option<string>)
    requires TimestampLabel in data ==> f(data[TimestampLabel]) == g(data[TimestampLabel])
    ensures ParseTrip(data, f) == ParseTrip(data, g)
  {
  }

  /** A gap at person 2 hides every later guest, whatever they answered. */
  lemma GapAtPersonTwo(data: Answers, bookedOnOf: string -> Option<string>)
    requires !Answered(data, PersonLabel(FirstNameLabel, 2))
    ensures ParseBooking(data, bookedOnOf).Success? ==> ParseBooking(data, bookedOnOf).value.guests == []
  {
  }

  /** The guest loop stops no later than the first unanswered person. */
  lemma {:induction false} GuestsStopAtGap(data: Answers, trip: Trip, n: nat, gap: nat)
    requires n <= gap && !Answered(data, PersonLabel(FirstNameLabel, gap))
    ensures |GuestsFrom(data, trip, n)| <= gap - n
    decreases gap - n
  {
    if Answered(data, PersonLabel(FirstNameLabel, n)) {
      GuestsStopAtGap(data, trip, n + 1, gap);
    }
  }

  /** Everyone in the party shares the leader's trip: the group is the
      leader's family name, and chalet, stay dates and booking date are the
      leader's. */
  lemma SharedTrip(data: Answers, bookedOnOf: string -> Option<string>, i: nat)
    ensures var r := ParseBooking(data, bookedOnOf);
      r.Success? && i < |r.value.guests| ==>
      var b := r.value;
      var g := b.guests[i].1;
      && g.group == b.leader.familyName
      && g.chalet == b.leader.chalet
      && g.startDate == b.leader.startDate
      && g.endDate == b.leader.endDate
      && g.bookedOn == b.leader.bookedOn
  {
  }

  // ---------------------------------------------------------------------
  // Cleaning a response before parsing
  // ---------------------------------------------------------------------

  /** Polling script: `row.replace(r'^\s*$', pd.NA, regex=True).dropna()`
      drops every answer that is empty or all whitespace. */
  function CleanRow(row: Answers): (r: Answers)
    ensures r.Keys <= row.Keys
    ensures forall k :: k in row ==> (k in r <==> !Blank(row[k]))
    ensures forall k :: k in r ==> r[k] == row[k] && r[k] != ""
  {
    map k | k in row && !Blank(row[k]) :: row[k]
  }

  /** Python's `any(x.strip() for x in v)`. */
  predicate AnyStripsNonEmpty(v: seq<string>) {
    exists i :: 0 <= i < |v| && Strip(v[i]) != []
  }

  /** Some answer in the list is not all whitespace. */
  predicate SomeNotBlank(v: seq<string>) {
    exists i :: 0 <= i < |v| && !Blank(v[i])
  }

  lemma AnyStripsNonEmptyIffSomeNotBlank(v: seq<string>)
    ensures AnyStripsNonEmpty(v) <==> SomeNotBlank(v)
  {
    forall i | 0 <= i < |v| {
      StripEmptyIffBlank(v[i]);
    }
  }

  /** Webhook script: `filter_data` keeps a question when some element of
      its answer list is not blank and keeps that list's first element. */
  function FilterData(data: map<string, seq<string>>): (r: Answers)
    ensures r.Keys <= data.Keys
    ensures forall k :: k in data ==> (k in r <==> SomeNotBlank(data[k]))
    ensures forall k :: k in r ==> |data[k]| > 0 && r[k] == data[k][0]
  {
    forall k | k in data {
      AnyStripsNonEmptyIffSomeNotBlank(data[k]);
    }
    map k | k in data && AnyStripsNonEmpty(data[k]) :: data[k][0]
  }

  lemma SingletonNotBlank(x: string)
    ensures SomeNotBlank([x]) <==> !Blank(x)
  {
    assert [x][0] == x;
  }

  /** On single-answer lists the two cleanings agree. */
  lemma FilterSingletonsIsCleanRow(data: map<string, seq<string>>, row: Answers)
    requires data.Keys == row.Keys
    requires forall k :: k in data ==> data[k] == [row[k]]
    ensures FilterData(data) == CleanRow(row)
  {
    FilterSingletonsAgree(data, row);
  }

  lemma FilterSingletonsAgree(data: map<string, seq<string>>, row: Answers)
    requires data.Keys == row.Keys
    requires forall k :: k in data ==> data[k] == [row[k]]
    ensures forall k :: k in FilterData(data) <==> k in CleanRow(row)
    ensures forall k :: k in FilterData(data) ==> FilterData(data)[k] == CleanRow(row)[k]
  {
    forall k | k in data
      ensures k in FilterData(data) <==> k in CleanRow(row)
    {
      SingletonNotBlank(row[k]);
    }
  }


  /** In the polling script a guest is counted exactly when the first-name
      question is present after cleaning. */
  lemma CleanRowAnsweredIffPresent(row: Answers, key: string)
    ensures Answered(CleanRow(row), key) <==> key in row && !Blank(row[key])
  {
  }

  /** In the webhook script a first answer `""` next to a non-blank one
      survives `filter_data` but still ends the guest loop. */
  lemma EmptyFirstAnswerEndsGuests(data: map<string, seq<string>>, trip: Trip, n: nat)
    requires n >= 2
    requires PersonLabel(FirstNameLabel, n) in data
    requires var v := data[PersonLabel(FirstNameLabel, n)]; |v| >= 2 && v[0] == "" && !Blank(v[1])
    ensures PersonLabel(FirstNameLabel, n) in FilterData(data)
    ensures |GuestsFrom(FilterData(data), trip, 2)| <= n - 2
  {
    var key := PersonLabel(FirstNameLabel, n);
    assert !Blank(data[key][1]);
    GuestsStopAtGap(FilterData(data), trip, 2, n);
  }

  /** A first answer that is whitespace but not empty is truthy: in the
      webhook script it names a guest, where the polling script's cleaning
      would have dropped it. */
  lemma WhitespaceFirstAnswerNamesGuest(data: map<string, seq<string>>, trip: Trip)
    requires PersonLabel(FirstNameLabel, 2) in data
    requires var v := data[PersonLabel(FirstNameLabel, 2)]; |v| >= 2 && v[0] == " " && !Blank(v[1])
    ensures var gs := GuestsFrom(FilterData(data), trip, 2);
      |gs| >= 1 && gs[0].1.firstName == " "
  {
    var key := PersonLabel(FirstNameLabel, 2);
    assert !Blank(data[key][1]);
    assert FilterData(data)[key] == " ";
  }
}
