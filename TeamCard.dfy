/** One team's card and its details modal (src/components/TeamCard.tsx): the crew list, the
    QR value picked from the backend's reply, the timestamp branches, the meal log, and the
    two request buttons with their busy flags. */
module TeamCard {
  import opened Teams
  import opened Seqs
  import opened Text
  import opened Filters

  // ---------------------------------------------------------------------
  // The crew list
  // ---------------------------------------------------------------------

  /** One entry of `people`. */
  datatype Person = Person(name: string, email: string, role: Role)

  /** `people`: the lead, then `team.members ?? []` as members. */
  function People(t: Team): (r: seq<Person>)
    ensures |r| == 1 + |MembersOf(t)|
    ensures forall i :: 0 <= i < |r| ==> (r[i].role == Leader <==> i == 0)
  {
    var ms := MembersOf(t);
    [Person(t.lead.name, t.lead.email, Leader)]
      + seq(|ms|, i requires 0 <= i < |ms| => Person(ms[i].fullName, ms[i].email, Member))
  }

  function AsPerson(p: Participant): Person
  {
    Person(p.name, p.email, p.role)
  }

  /** The card lists the same people, in the same order and with the same roles, as the
      team's slice of the monitoring page's participant list. */
  lemma PeopleMatchRoster(t: Team)
    ensures |People(t)| == |TeamEntries(t)|
    ensures forall i :: 0 <= i < |People(t)| ==> People(t)[i] == AsPerson(TeamEntries(t)[i])
  {
    var ms := MembersOf(t);
    forall i | 1 <= i < |People(t)|
      ensures People(t)[i] == AsPerson(TeamEntries(t)[i])
    {
      MemberEntriesAt(t, ms, i - 1);
    }
  }

  /** A team without a members field shows its lead alone. */
  lemma PeopleWithoutMembers(t: Team)
    requires t.members.None?
    ensures People(t) == [Person(t.lead.name, t.lead.email, Leader)]
  {
  }

  // ---------------------------------------------------------------------
  // The QR value
  // ---------------------------------------------------------------------

  /** The JSON reply of the per-team QR endpoint: an array whose elements may each be an
      object with an optional `qr` string or null, an object with an optional `qr`, or null. */
  datatype QrResponse =
    | QrArray(items: seq<Option<Option<string>>>)
    | QrObject(qr: Option<string>)
    | QrNull

  /** The outcome of `setQr(Array.isArray(data) ? data[0]?.qr : data.qr)`: the value set, or
      a TypeError (reading `.qr` of null) that the `catch` swallows. */
  datatype QrPick = Picked(value: Option<string>) | TypeError

  function PickQr(d: QrResponse): (r: QrPick)
    ensures r == TypeError <==> d == QrNull
    ensures d.QrObject? ==> r == Picked(d.qr)
    ensures d.QrArray? && d.items == [] ==> r == Picked(None)
    ensures d.QrArray? && |d.items| > 0 ==> r == Picked(if d.items[0].Some? then d.items[0].value else None)
    ensures r.Picked? && r.value.Some? ==>
      (d.QrObject? && d.qr == r.value) || (d.QrArray? && |d.items| > 0 && d.items[0] == Some(r.value))
  {
    match d
    case QrArray(items) =>
      if |items| == 0 then Picked(None)
      else (
        match items[0]
        case None => Picked(None)
        case Some(q) => Picked(q))
    case QrObject(q) => Picked(q)
    case QrNull => TypeError
  }

  /** Only the first element of an array reply matters. */
  lemma PickQrFirstOnly(first: Option<Option<string>>, rest1: seq<Option<Option<string>>>, rest2: seq<Option<Option<string>>>)
    ensures PickQr(QrArray([first] + rest1)) == PickQr(QrArray([first] + rest2))
  {
  }

  // ---------------------------------------------------------------------
  // formatDateIST
  // ---------------------------------------------------------------------

  /** A timestamp field as stored: missing or null, a string, a number, or an extended-JSON
      object whose `$date` field is itself one of these (Missing when absent). */
  datatype DateInput = Missing | Str(s: string) | Number(n: int) | Wrapped(date: DateInput)

  /** JavaScript truthiness of the value (NaN is not modelled). */
  predicate Truthy(v: DateInput)
  {
    match v
    case Missing => false
    case Str(s) => s != ""
    case Number(n) => n != 0
    case Wrapped(_) => true
  }

  /** `dateValue?.$date || dateValue` */
  function Timestamp(v: DateInput): (ts: DateInput)
    ensures ts == v || (v.Wrapped? && ts == v.date)
    ensures !v.Wrapped? ==> ts == v
    ensures v.Wrapped? && Truthy(v.date) ==> ts == v.date
    ensures Truthy(ts) <==> Truthy(v)
  {
    if v.Wrapped? && Truthy(v.date) then v.date else v
  }

  datatype DateText = NotRecorded | InvalidLog | Formatted(ts: DateInput)

  /** The text shown for each outcome: for a valid time, the Intl formatter's output (the
      parameter `format`) put through `.toUpperCase().replace(/,/g, '')`. */
  function Label(d: DateText, format: DateInput -> string): (r: string)
    ensures d == NotRecorded ==> r == "NOT RECORDED"
    ensures d == InvalidLog ==> r == "INVALID LOG"
    ensures d.Formatted? ==> ',' !in r
    ensures d.Formatted? ==> IsSubsequence(r, Upper(format(d.ts)))
    ensures d.Formatted? ==>
      forall c :: multiset(r)[c] == if c == ',' then 0 else multiset(Upper(format(d.ts)))[c]
  {
    match d
    case NotRecorded => "NOT RECORDED"
    case InvalidLog => "INVALID LOG"
    case Formatted(ts) =>
      var up := Upper(format(ts));
      FilterMembers(up, NotComma);
      FilterIsSubsequence(up, NotComma);
      FilterCount(up, NotComma);
      Filter(up, NotComma)
  }

  predicate NotComma(c: char)
  {
    c != ','
  }

  /** `formatDateIST`, up to the call into `Intl.DateTimeFormat`. `parses` says whether
      `new Date(ts)` gives a valid time. */
  function FormatDate(v: DateInput, parses: DateInput -> bool): (r: DateText)
    ensures r == NotRecorded <==> !Truthy(Timestamp(v))
    ensures r == InvalidLog <==> Truthy(Timestamp(v)) && !parses(Timestamp(v))
    ensures r.Formatted? ==> r.ts == Timestamp(v) && Truthy(r.ts) && parses(r.ts)
  {
    var ts := Timestamp(v);
    if !Truthy(ts) then NotRecorded
    else if !parses(ts) then InvalidLog
    else Formatted(ts)
  }

  /** Wrapping a truthy plain value in `{ $date: ... }` does not change the outcome. */
  lemma FormatDateUnwraps(inner: DateInput, parses: DateInput -> bool)
    requires Truthy(inner) && !inner.Wrapped?
    ensures FormatDate(Wrapped(inner), parses) == FormatDate(inner, parses)
  {
  }

  /** A `{ $date }` object whose `$date` is falsy is handed to `Date` itself. */
  lemma FormatDateEmptyWrapper(inner: DateInput, parses: DateInput -> bool)
    requires !Truthy(inner)
    ensures FormatDate(Wrapped(inner), parses) != NotRecorded
  {
  }

  // ---------------------------------------------------------------------
  // Meal logs
  // ---------------------------------------------------------------------

  /** `members.find(m => m.email === email)`, as the index of the first match. */
  function FindByEmail(ms: seq<TeamMember>, email: string): (r: Option<nat>)
    ensures r.Some? ==> r.value < |ms| && ms[r.value].email == email
    ensures r.Some? ==> forall j :: 0 <= j < r.value ==> ms[j].email != email
    ensures r.None? ==> forall j :: 0 <= j < |ms| ==> ms[j].email != email
  {
    if ms == [] then None
    else if ms[0].email == email then Some(0)
    else
      match FindByEmail(ms[1..], email)
      case None => None
      case Some(k) => Some(k + 1)
  }

  /** The name shown for one served e-mail: the upper-cased name of the first member with
      that e-mail, or "UNKNOWN" when no member has it. */
  function NameFor(ms: seq<TeamMember>, email: string): (n: string)
    ensures (forall j :: 0 <= j < |ms| ==> ms[j].email != email) ==> n == "UNKNOWN"
    ensures forall j :: (0 <= j < |ms| && ms[j].email == email &&
      (forall k :: 0 <= k < j ==> ms[k].email != email)) ==> n == Upper(ms[j].fullName)
  {
    match FindByEmail(ms, email)
    case Some(i) =>
      assert forall j :: (0 <= j < |ms| && ms[j].email == email &&
        (forall k :: 0 <= k < j ==> ms[k].email != email)) ==> j == i;
      Upper(ms[i].fullName)
    case None => "UNKNOWN"
  }

  /** What the modal shows for one meal: "No logs recorded", the served names, or a render
      crash when names must be looked up in a missing `members` field. */
  datatype MealLog = NoLogs | Names(names: seq<string>) | Crashed

  function MealNames(t: Team, meal: string): (r: MealLog)
    ensures r == NoLogs <==> MealArray(t, meal) == []
    ensures r == Crashed <==> MealArray(t, meal) != [] && t.members.None?
    ensures r.Names? ==> |r.names| == |MealArray(t, meal)|
    ensures r.Names? ==> forall i :: 0 <= i < |r.names| ==> r.names[i] == NameFor(MembersOf(t), MealArray(t, meal)[i])
  {
    var emails := MealArray(t, meal);
    if |emails| == 0 then NoLogs
    else
      match t.members
      case None => Crashed
      case Some(ms) => Names(seq(|emails|, i requires 0 <= i < |emails| => NameFor(ms, emails[i])))
  }

  /** Only `members` is searched, so a lead who is not also listed as a member shows as
      "UNKNOWN" in the meal log, although the monitoring page's Served tab lists that same
      lead as served. */
  lemma LeadServedShowsUnknown(t: Team, meal: string, i: nat)
    requires MealNames(t, meal).Names? && i < |MealArray(t, meal)|
    requires MealArray(t, meal)[i] == t.lead.email
    requires forall m :: m in MembersOf(t) ==> m.email != t.lead.email
    ensures MealNames(t, meal).names[i] == "UNKNOWN"
    ensures LeaderFood(t) in TeamFoodRows(t, meal, true)
  {
    var ms := MembersOf(t);
    assert forall j :: 0 <= j < |ms| ==> ms[j] in ms;
    assert MealArray(t, meal)[i] in MealArray(t, meal);
    TeamFoodServed(t, meal, LeaderFood(t));
  }

  /** `people.find(p => p.email === email)` with the card's own crew list: the lead when the
      e-mail is theirs, otherwise the first member with it. */
  function CrewName(t: Team, email: string): (n: string)
    ensures (forall i :: 0 <= i < |People(t)| ==> People(t)[i].email != email) ==> n == "UNKNOWN"
    ensures forall i :: (0 <= i < |People(t)| && People(t)[i].email == email &&
      (forall k :: 0 <= k < i ==> People(t)[k].email != email)) ==> n == Upper(People(t)[i].name)
  {
    var ps, ms := People(t), MembersOf(t);
    assert ps[0].email == t.lead.email && ps[0].name == t.lead.name;
    assert forall j :: 0 <= j < |ms| ==> ps[j + 1].email == ms[j].email && ps[j + 1].name == ms[j].fullName;
    if t.lead.email == email then Upper(t.lead.name)
    else NameFor(ms, email)
  }

  /** The meal log with the lookup the rest of the console implies: over the whole crew,
      lead included, as the Served tab counts it. */
  function ServedNames(t: Team, meal: string): (r: MealLog)
    ensures r == NoLogs <==> MealArray(t, meal) == []
    ensures r != Crashed
    ensures r.Names? ==> |r.names| == |MealArray(t, meal)|
    ensures r.Names? ==> forall i :: 0 <= i < |r.names| ==> r.names[i] == CrewName(t, MealArray(t, meal)[i])
  {
    var emails := MealArray(t, meal);
    if |emails| == 0 then NoLogs
    else Names(seq(|emails|, i requires 0 <= i < |emails| => CrewName(t, emails[i])))
  }

  /** Every name the corrected log shows for an e-mail of someone in the crew is the
      upper-cased name of an entry of the Served tab with that e-mail; a served lead shows
      under their own name. */
  lemma ServedNamesMatchFoodTab(t: Team, meal: string, i: nat)
    requires i < |MealArray(t, meal)|
    requires exists p :: p in People(t) && p.email == MealArray(t, meal)[i]
    ensures exists f :: f in TeamFoodRows(t, meal, true) && f.email == MealArray(t, meal)[i]
                        && ServedNames(t, meal).names[i] == Upper(f.name)
    ensures MealArray(t, meal)[i] == t.lead.email ==> ServedNames(t, meal).names[i] == Upper(t.lead.name)
  {
    var e, ms := MealArray(t, meal)[i], MembersOf(t);
    assert e in MealArray(t, meal);
    var f: FoodEntry;
    if t.lead.email == e {
      f := LeaderFood(t);
    } else {
      var ps := People(t);
      var p :| p in ps && p.email == e;
      var k :| 0 <= k < |ps| && ps[k] == p;
      assert k > 0 && ms[k - 1].email == e;
      var j := FindByEmail(ms, e).value;
      MemberFoodAllAt(t, ms, j);
      assert MemberFoodAll(t, ms)[j] in MemberFoodAll(t, ms);
      f := MemberFood(t, ms[j]);
    }
    assert f in TeamFoodAll(t);
    TeamFoodServed(t, meal, f);
    assert f in TeamFoodRows(t, meal, true) && f.email == e;
  }

  // ---------------------------------------------------------------------
  // The card's request buttons
  // ---------------------------------------------------------------------

  class TeamCardState {
    const team: Team
    var qr: Option<string>
    var loading: bool
    var mailLoading: bool
    var showDetails: bool

    constructor (t: Team)
      ensures team == t && qr == None && !loading && !mailLoading && !showDetails
    {
      team := t;
      qr := None;
      loading := false;
      mailLoading := false;
      showDetails := false;
    }

    /** The image is shown while `qr` holds a non-empty string. */
    predicate ShowsQr()
      reads this
    {
      qr.Some? && qr.value != ""
    }

    /** GENERATE TEAM QR, disabled while a request is pending: the request starts. */
    method ClickGenerateQR()
      modifies this
      ensures loading
      ensures qr == old(qr) && mailLoading == old(mailLoading) && showDetails == old(showDetails)
    {
      if !loading {
        loading := true;
      }
    }

    /** The QR request settles: `reply` is None when the fetch or JSON decoding threw. A
        TypeError leaves `qr` as it was; `finally` clears `loading` in every case. */
    method QrSettled(reply: Option<QrResponse>)
      requires loading
      modifies this
      ensures !loading
      ensures qr == if reply.Some? && PickQr(reply.value).Picked? then PickQr(reply.value).value else old(qr)
      ensures mailLoading == old(mailLoading) && showDetails == old(showDetails)
    {
      if reply.Some? {
        match PickQr(reply.value)
        case Picked(v) => qr := v;
        case TypeError =>
      }
      loading := false;
    }

    /** SEND QR MAIL (TEST), disabled while a request is pending: the request starts. */
    method ClickSendTestMail()
      modifies this
      ensures mailLoading
      ensures qr == old(qr) && loading == old(loading) && showDetails == old(showDetails)
    {
      if !mailLoading {
        mailLoading := true;
      }
    }

    /** The mail request settles; `delivered` is false when `fetch` threw (the response status
        is never looked at). Returns the alert text; `finally` clears `mailLoading`. */
    method MailSettled(delivered: bool) returns (notice: string)
      requires mailLoading
      modifies this
      ensures !mailLoading
      ensures delivered ==> notice == "Radio check: Mail sent to " + team.lead.email
      ensures !delivered ==> notice == "Pit stop error: Mail failed"
      ensures qr == old(qr) && loading == old(loading) && showDetails == old(showDetails)
    {
      if delivered {
        notice := "Radio check: Mail sent to " + team.lead.email;
      } else {
        notice := "Pit stop error: Mail failed";
      }
      mailLoading := false;
    }

    method OpenDetails()
      modifies this
      ensures showDetails && qr == old(qr) && loading == old(loading) && mailLoading == old(mailLoading)
    {
      showDetails := true;
    }

    method CloseDetails()
      modifies this
      ensures !showDetails && qr == old(qr) && loading == old(loading) && mailLoading == old(mailLoading)
    {
      showDetails := false;
    }
  }
}
