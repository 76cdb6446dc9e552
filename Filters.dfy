/** The lists behind the monitoring page's four tabs (src/pages/Filters.tsx):
    the flattened participant list, the attendance, food, lead and member views. */
module Filters {
  import opened Teams
  import opened Seqs
  import opened Text

  // ---------------------------------------------------------------------
  // allParticipants
  // ---------------------------------------------------------------------

  /** One entry of `allParticipants`. `present` is already a boolean (`=== true`). */
  datatype Participant = Participant(
    role: Role, name: string, email: string, phone: string,
    present: bool, teamCode: string, teamName: string)

  function LeaderEntry(t: Team): Participant
  {
    Participant(Leader, t.lead.name, t.lead.email, t.lead.phone,
                t.attendance == Some(true), t.teamCode, t.teamName)
  }

  function MemberEntry(t: Team, m: TeamMember): Participant
  {
    Participant(Member, m.fullName, m.email, m.phone,
                m.present == Some(true), t.teamCode, t.teamName)
  }

  /** The member entries of team `t` for the members `ms`, one per member, in order. */
  function MemberEntries(t: Team, ms: seq<TeamMember>): (r: seq<Participant>)
    ensures |r| == |ms|
  {
    if ms == [] then []
    else MemberEntries(t, ms[..|ms| - 1]) + [MemberEntry(t, ms[|ms| - 1])]
  }

  lemma {:induction false} MemberEntriesAt(t: Team, ms: seq<TeamMember>, i: nat)
    requires i < |ms|
    ensures MemberEntries(t, ms)[i] == MemberEntry(t, ms[i])
  {
    if i < |ms| - 1 {
      MemberEntriesAt(t, ms[..|ms| - 1], i);
    }
  }

  /** What one team contributes: its leader, then its members. */
  function TeamEntries(t: Team): (r: seq<Participant>)
    ensures |r| == 1 + |MembersOf(t)|
    ensures r[0] == LeaderEntry(t) && r[0].role == Leader
  {
    [LeaderEntry(t)] + MemberEntries(t, MembersOf(t))
  }

  /** The participant list of a roster, team after team. */
  function Participants(ts: seq<Team>): seq<Participant>
  {
    if ts == [] then []
    else Participants(ts[..|ts| - 1]) + TeamEntries(ts[|ts| - 1])
  }

  /** `allParticipants`: a `forEach` over the teams pushing onto one list. */
  method AllParticipants(teams: seq<Team>) returns (list: seq<Participant>)
    ensures list == Participants(teams)
  {
    list := [];
    for i := 0 to |teams|
      invariant list == Participants(teams[..i])
    {
      list := PushTeam(list, teams[i]);
      ParticipantsSnoc(teams, i);
    }
    assert teams[..|teams|] == teams;
  }

  /** The `forEach` callback: pushes the team's leader, then each of its members. */
  method PushTeam(before: seq<Participant>, team: Team) returns (list: seq<Participant>)
    ensures list == before + TeamEntries(team)
  {
    list := before + [LeaderEntry(team)];
    var ms := MembersOf(team);
    for j := 0 to |ms|
      invariant list == before + [LeaderEntry(team)] + MemberEntries(team, ms[..j])
    {
      MemberEntriesSnoc(team, ms, j);
      list := list + [MemberEntry(team, ms[j])];
    }
    assert ms[..|ms|] == ms;
  }

  lemma MemberEntriesSnoc(t: Team, ms: seq<TeamMember>, j: nat)
    requires j < |ms|
    ensures MemberEntries(t, ms[..j + 1]) == MemberEntries(t, ms[..j]) + [MemberEntry(t, ms[j])]
  {
    assert ms[..j + 1][..j] == ms[..j];
  }

  lemma ParticipantsSnoc(ts: seq<Team>, i: nat)
    requires i < |ts|
    ensures Participants(ts[..i + 1]) == Participants(ts[..i]) + TeamEntries(ts[i])
  {
    assert ts[..i + 1][..i] == ts[..i];
  }

  /** The sum over the teams of 1 + the number of members. */
  function RosterSize(ts: seq<Team>): nat
  {
    if ts == [] then 0
    else RosterSize(ts[..|ts| - 1]) + 1 + |MembersOf(ts[|ts| - 1])|
  }

  predicate IsLeaderEntry(p: Participant) { p.role == Leader }
  predicate IsMemberEntry(p: Participant) { p.role == Member }

  /** One leader entry per team, in team order. */
  function Leaders(ts: seq<Team>): (r: seq<Participant>)
    ensures |r| == |ts|
    ensures forall i :: 0 <= i < |ts| ==> r[i] == LeaderEntry(ts[i])
  {
    if ts == [] then [] else Leaders(ts[..|ts| - 1]) + [LeaderEntry(ts[|ts| - 1])]
  }

  /** The list has one entry per leader and one per member, and its leader entries are
      the teams' leaders in team order. */
  lemma {:induction false} ParticipantsShape(ts: seq<Team>)
    ensures |Participants(ts)| == RosterSize(ts)
    ensures Filter(Participants(ts), IsLeaderEntry) == Leaders(ts)
  {
    if ts != [] {
      var init, last := ts[..|ts| - 1], ts[|ts| - 1];
      ParticipantsShape(init);
      FilterAppend(Participants(init), TeamEntries(last), IsLeaderEntry);
      FilterAppend([LeaderEntry(last)], MemberEntries(last, MembersOf(last)), IsLeaderEntry);
      var ms := MembersOf(last);
      forall i | 0 <= i < |ms| ensures !IsLeaderEntry(MemberEntries(last, ms)[i]) {
        MemberEntriesAt(last, ms, i);
      }
      FilterKeepsNone(MemberEntries(last, ms), IsLeaderEntry);
    }
  }

  /** A team without members contributes its leader alone. */
  lemma TeamWithoutMembers(t: Team)
    requires MembersOf(t) == []
    ensures TeamEntries(t) == [LeaderEntry(t)]
  {
  }

  // ---------------------------------------------------------------------
  // attendanceData
  // ---------------------------------------------------------------------

  /** The PRESENT / ABSENT selector shared by the attendance and lead tabs. */
  datatype PresenceFilter = Present | Absent

  predicate IsPresent(p: Participant) { p.present }
  predicate IsAbsent(p: Participant) { !p.present }

  /** `attendanceData`: every participant shown has the presence the filter asks for. */
  function AttendanceData(all: seq<Participant>, f: PresenceFilter): (r: seq<Participant>)
    ensures |r| <= |all|
    ensures forall i :: 0 <= i < |r| ==> r[i].present == (f == Present)
  {
    FilterMembers(all, if f == Present then IsPresent else IsAbsent);
    Filter(all, if f == Present then IsPresent else IsAbsent)
  }

  /** PRESENT and ABSENT split the participants between them, each in the original order. */
  lemma AttendancePartition(all: seq<Participant>)
    ensures multiset(AttendanceData(all, Present)) + multiset(AttendanceData(all, Absent)) == multiset(all)
    ensures forall p :: p in AttendanceData(all, Present) <==> p in all && p.present
    ensures forall p :: p in AttendanceData(all, Absent) <==> p in all && !p.present
    ensures IsSubsequence(AttendanceData(all, Present), all)
    ensures IsSubsequence(AttendanceData(all, Absent), all)
  {
    FilterPartition(all, IsPresent, IsAbsent);
    FilterMembers(all, IsPresent);
    FilterMembers(all, IsAbsent);
    FilterIsSubsequence(all, IsPresent);
    FilterIsSubsequence(all, IsAbsent);
  }

  // ---------------------------------------------------------------------
  // foodData
  // ---------------------------------------------------------------------

  /** One entry of `foodData`. */
  datatype FoodEntry = FoodEntry(role: Role, name: string, email: string, teamCode: string)

  function LeaderFood(t: Team): FoodEntry
  {
    FoodEntry(Leader, t.lead.name, t.lead.email, t.teamCode)
  }

  function MemberFood(t: Team, m: TeamMember): FoodEntry
  {
    FoodEntry(Member, m.fullName, m.email, t.teamCode)
  }

  /** Every person of the roster as a food entry, whatever was served. */
  function MemberFoodAll(t: Team, ms: seq<TeamMember>): seq<FoodEntry>
  {
    if ms == [] then [] else MemberFoodAll(t, ms[..|ms| - 1]) + [MemberFood(t, ms[|ms| - 1])]
  }

  lemma {:induction false} MemberFoodAllAt(t: Team, ms: seq<TeamMember>, i: nat)
    requires i < |ms|
    ensures |MemberFoodAll(t, ms)| == |ms|
    ensures MemberFoodAll(t, ms)[i] == MemberFood(t, ms[i])
  {
    if ms != [] {
      if i < |ms| - 1 {
        MemberFoodAllAt(t, ms[..|ms| - 1], i);
      } else if |ms| > 1 {
        MemberFoodAllAt(t, ms[..|ms| - 1], 0);
      }
    }
  }

  function TeamFoodAll(t: Team): seq<FoodEntry>
  {
    [LeaderFood(t)] + MemberFoodAll(t, MembersOf(t))
  }

  function FoodAll(ts: seq<Team>): seq<FoodEntry>
  {
    if ts == [] then [] else FoodAll(ts[..|ts| - 1]) + TeamFoodAll(ts[|ts| - 1])
  }

  /** `array.includes(x)` on an array of strings. */
  predicate ArrayIncludes(xs: seq<string>, x: string)
  {
    xs != [] && (xs[0] == x || ArrayIncludes(xs[1..], x))
  }

  lemma {:induction false} ArrayIncludesIsMembership(xs: seq<string>, x: string)
    ensures ArrayIncludes(xs, x) <==> x in xs
  {
    if xs != [] {
      ArrayIncludesIsMembership(xs[1..], x);
      assert xs == [xs[0]] + xs[1..];
    }
  }

  /** `foodReceived ? received : !received` */
  predicate Wanted(received: bool, served: bool)
  {
    if served then received else !received
  }

  function MemberFoodRows(t: Team, ms: seq<TeamMember>, meal: seq<string>, served: bool): seq<FoodEntry>
  {
    if ms == [] then []
    else
      var m := ms[|ms| - 1];
      MemberFoodRows(t, ms[..|ms| - 1], meal, served)
        + (if Wanted(ArrayIncludes(meal, m.email), served) then [MemberFood(t, m)] else [])
  }

  /** The entries one team contributes to `foodData`. */
  function TeamFoodRows(t: Team, mealType: string, served: bool): seq<FoodEntry>
  {
    var meal := MealArray(t, mealType);
    (if Wanted(ArrayIncludes(meal, t.lead.email), served) then [LeaderFood(t)] else [])
      + MemberFoodRows(t, MembersOf(t), meal, served)
  }

  function FoodRows(ts: seq<Team>, mealType: string, served: bool): seq<FoodEntry>
  {
    if ts == [] then []
    else FoodRows(ts[..|ts| - 1], mealType, served) + TeamFoodRows(ts[|ts| - 1], mealType, served)
  }

  /** `foodData`: a `flatMap` over the teams. */
  method FoodData(teams: seq<Team>, mealType: string, served: bool) returns (list: seq<FoodEntry>)
    ensures list == FoodRows(teams, mealType, served)
  {
    list := [];
    for i := 0 to |teams|
      invariant list == FoodRows(teams[..i], mealType, served)
    {
      var local := TeamFood(teams[i], mealType, served);
      FoodRowsSnoc(teams, i, mealType, served);
      list := list + local;
    }
    assert teams[..|teams|] == teams;
  }

  /** The `flatMap` callback: the team's wanted leader, then its wanted members. */
  method TeamFood(team: Team, mealType: string, served: bool) returns (local: seq<FoodEntry>)
    ensures local == TeamFoodRows(team, mealType, served)
  {
    var meal := MealArray(team, mealType);
    var leaderReceived := ArrayIncludes(meal, team.lead.email);
    local := if Wanted(leaderReceived, served) then [LeaderFood(team)] else [];
    ghost var head := local;
    var ms := MembersOf(team);
    for j := 0 to |ms|
      invariant local == head + MemberFoodRows(team, ms[..j], meal, served)
    {
      var received := ArrayIncludes(meal, ms[j].email);
      MemberFoodRowsStep(team, ms, j, meal, served, head, local);
      if Wanted(received, served) {
        local := local + [MemberFood(team, ms[j])];
      }
    }
    assert ms[..|ms|] == ms;
  }

  /** One turn of the member loop of TeamFood. */
  lemma MemberFoodRowsStep(t: Team, ms: seq<TeamMember>, j: nat, meal: seq<string>, served: bool,
                           head: seq<FoodEntry>, local: seq<FoodEntry>)
    requires j < |ms| && local == head + MemberFoodRows(t, ms[..j], meal, served)
    ensures head + MemberFoodRows(t, ms[..j + 1], meal, served)
            == if Wanted(ArrayIncludes(meal, ms[j].email), served) then local + [MemberFood(t, ms[j])] else local
  {
    assert ms[..j + 1][..j] == ms[..j];
  }

  lemma FoodRowsSnoc(ts: seq<Team>, i: nat, mealType: string, served: bool)
    requires i < |ts|
    ensures FoodRows(ts[..i + 1], mealType, served) == FoodRows(ts[..i], mealType, served) + TeamFoodRows(ts[i], mealType, served)
  {
    assert ts[..i + 1][..i] == ts[..i];
  }

  /** Every member lands in exactly one of Served and EMPTY. */
  lemma {:induction false} MemberFoodCount(t: Team, ms: seq<TeamMember>, meal: seq<string>)
    ensures multiset(MemberFoodRows(t, ms, meal, true)) + multiset(MemberFoodRows(t, ms, meal, false))
            == multiset(MemberFoodAll(t, ms))
  {
    if ms != [] {
      MemberFoodCount(t, ms[..|ms| - 1], meal);
    }
  }

  lemma {:induction false} MemberFoodServed(t: Team, ms: seq<TeamMember>, meal: seq<string>, e: FoodEntry)
    ensures e in MemberFoodRows(t, ms, meal, true) <==> e in MemberFoodAll(t, ms) && ArrayIncludes(meal, e.email)
    ensures e in MemberFoodRows(t, ms, meal, false) <==> e in MemberFoodAll(t, ms) && !ArrayIncludes(meal, e.email)
  {
    if ms != [] {
      MemberFoodServed(t, ms[..|ms| - 1], meal, e);
    }
  }

  /** Served and EMPTY split one team's people between them. */
  lemma TeamFoodCount(t: Team, mealType: string)
    ensures multiset(TeamFoodRows(t, mealType, true)) + multiset(TeamFoodRows(t, mealType, false))
            == multiset(TeamFoodAll(t))
  {
    MemberFoodCount(t, MembersOf(t), MealArray(t, mealType));
  }

  /** A person of a team is Served exactly when their e-mail is on the meal's list, and in
      EMPTY exactly when it is not. */
  lemma TeamFoodServed(t: Team, mealType: string, e: FoodEntry)
    ensures e in TeamFoodRows(t, mealType, true) <==> e in TeamFoodAll(t) && e.email in MealArray(t, mealType)
    ensures e in TeamFoodRows(t, mealType, false) <==> e in TeamFoodAll(t) && e.email !in MealArray(t, mealType)
  {
    var meal := MealArray(t, mealType);
    MemberFoodServed(t, MembersOf(t), meal, e);
    ArrayIncludesIsMembership(meal, e.email);
  }

  /** Served and EMPTY together hold every person of the roster exactly once. */
  lemma {:induction false} FoodPartition(ts: seq<Team>, mealType: string)
    ensures multiset(FoodRows(ts, mealType, true)) + multiset(FoodRows(ts, mealType, false))
            == multiset(FoodAll(ts))
  {
    if ts != [] {
      FoodPartition(ts[..|ts| - 1], mealType);
      TeamFoodCount(ts[|ts| - 1], mealType);
    }
  }

  lemma {:induction false} MemberFoodEmptyMeal(t: Team, ms: seq<TeamMember>)
    ensures MemberFoodRows(t, ms, [], true) == []
    ensures MemberFoodRows(t, ms, [], false) == MemberFoodAll(t, ms)
  {
    if ms != [] {
      MemberFoodEmptyMeal(t, ms[..|ms| - 1]);
    }
  }

  /** A meal no team has a list for leaves Served empty and everybody in EMPTY. */
  lemma {:induction false} FoodMissingMeal(ts: seq<Team>, mealType: string)
    requires forall i :: 0 <= i < |ts| ==> mealType !in ts[i].foodStatus
    ensures FoodRows(ts, mealType, true) == []
    ensures FoodRows(ts, mealType, false) == FoodAll(ts)
  {
    if ts != [] {
      FoodMissingMeal(ts[..|ts| - 1], mealType);
      MemberFoodEmptyMeal(ts[|ts| - 1], MembersOf(ts[|ts| - 1]));
    }
  }

  // ---------------------------------------------------------------------
  // leadData
  // ---------------------------------------------------------------------

  predicate MarkedPresent(t: Team) { t.attendance == Some(true) }
  predicate MarkedAbsent(t: Team) { t.attendance == Some(false) }
  predicate Unmarked(t: Team) { t.attendance.None? }

  /** `leadData`: every team shown has `attendance` set to the boolean the filter asks for. */
  function LeadData(ts: seq<Team>, f: PresenceFilter): (r: seq<Team>)
    ensures |r| <= |ts|
    ensures forall i :: 0 <= i < |r| ==> r[i].attendance == Some(f == Present)
  {
    FilterMembers(ts, if f == Present then MarkedPresent else MarkedAbsent);
    Filter(ts, if f == Present then MarkedPresent else MarkedAbsent)
  }

  /** Every team lands in PRESENT, in ABSENT, or in neither when its attendance is not a
      boolean; so the two lists do not always cover the roster. */
  lemma LeadDataSplit(ts: seq<Team>)
    ensures |LeadData(ts, Present)| + |LeadData(ts, Absent)| + |Filter(ts, Unmarked)| == |ts|
    ensures forall t :: t in LeadData(ts, Present) <==> t in ts && t.attendance == Some(true)
    ensures forall t :: t in LeadData(ts, Absent) <==> t in ts && t.attendance == Some(false)
    ensures IsSubsequence(LeadData(ts, Present), ts) && IsSubsequence(LeadData(ts, Absent), ts)
  {
    assert LeadData(ts, Present) == Filter(ts, MarkedPresent);
    assert LeadData(ts, Absent) == Filter(ts, MarkedAbsent);
    forall t: Team
      ensures (MarkedPresent(t) ==> !MarkedAbsent(t) && !Unmarked(t)) && (MarkedAbsent(t) ==> !Unmarked(t))
      ensures MarkedPresent(t) || MarkedAbsent(t) || Unmarked(t)
    {
      match t.attendance
      case None =>
      case Some(b) => assert b || !b;
    }
    FilterThreeWay(ts, MarkedPresent, MarkedAbsent, Unmarked);
    FilterIsSubsequence(ts, MarkedPresent);
    FilterIsSubsequence(ts, MarkedAbsent);
  }

  // ---------------------------------------------------------------------
  // memberData
  // ---------------------------------------------------------------------

  datatype RoleFilter = AllRoles | LeadersOnly | MembersOnly

  predicate AnyRole(p: Participant) { true }

  function RoleTest(f: RoleFilter): Participant -> bool
  {
    match f
    case AllRoles => AnyRole
    case LeadersOnly => IsLeaderEntry
    case MembersOnly => IsMemberEntry
  }

  ghost predicate SortedByCode(s: seq<Participant>)
  {
    forall i, j :: 0 <= i < j < |s| ==> LexLe(s[i].teamCode, s[j].teamCode)
  }

  /** Puts `x` in front of the first entry whose code is not smaller than its own. */
  function InsertByCode(x: Participant, s: seq<Participant>): (r: seq<Participant>)
    ensures multiset(r) == multiset(s) + multiset{x}
  {
    if s == [] || LexLe(x.teamCode, s[0].teamCode) then [x] + s
    else
      assert s == [s[0]] + s[1..];
      [s[0]] + InsertByCode(x, s[1..])
  }

  lemma {:induction false} InsertSorted(x: Participant, s: seq<Participant>)
    requires SortedByCode(s)
    ensures SortedByCode(InsertByCode(x, s))
  {
    if s == [] || LexLe(x.teamCode, s[0].teamCode) {
      forall i | 0 <= i < |s| ensures LexLe(x.teamCode, s[i].teamCode) {
        if i > 0 {
          LexLeTransitive(x.teamCode, s[0].teamCode, s[i].teamCode);
        }
      }
      ConsSorted(x, s);
    } else {
      var tail := InsertByCode(x, s[1..]);
      InsertSorted(x, s[1..]);
      LexLeTotal(x.teamCode, s[0].teamCode);
      assert forall i :: 0 <= i < |s[1..]| ==> LexLe(s[0].teamCode, s[1..][i].teamCode);
      InsertLowerBound(x, s[1..], s[0].teamCode);
      ConsSorted(s[0], tail);
    }
  }

  /** A sorted list stays sorted with an entry in front whose code is at most all of its codes. */
  lemma ConsSorted(x: Participant, s: seq<Participant>)
    requires SortedByCode(s)
    requires forall i :: 0 <= i < |s| ==> LexLe(x.teamCode, s[i].teamCode)
    ensures SortedByCode([x] + s)
  {
    var r := [x] + s;
    forall i, j | 0 <= i < j < |r| ensures LexLe(r[i].teamCode, r[j].teamCode) {
      assert r[j] == s[j - 1];
      if i > 0 {
        assert r[i] == s[i - 1];
      }
    }
  }

  /** Inserting keeps a lower bound that `x` and every entry of `s` meet. */
  lemma InsertLowerBound(x: Participant, s: seq<Participant>, lo: string)
    requires LexLe(lo, x.teamCode)
    requires forall i :: 0 <= i < |s| ==> LexLe(lo, s[i].teamCode)
    ensures forall j :: 0 <= j < |InsertByCode(x, s)| ==> LexLe(lo, InsertByCode(x, s)[j].teamCode)
  {
    var r := InsertByCode(x, s);
    forall j | 0 <= j < |r| ensures LexLe(lo, r[j].teamCode) {
      assert r[j] in multiset(r);
      if r[j] != x {
        assert r[j] in multiset(s);
        var m :| 0 <= m < |s| && s[m] == r[j];
      }
    }
  }

  /** `.sort((a, b) => a.teamCode.localeCompare(b.teamCode))`: a permutation of the input
      ordered by team code. */
  function SortByTeamCode(s: seq<Participant>): (r: seq<Participant>)
    ensures multiset(r) == multiset(s)
    ensures SortedByCode(r)
  {
    if s == [] then []
    else
      var rest := SortByTeamCode(s[1..]);
      InsertSorted(s[0], rest);
      assert s == [s[0]] + s[1..];
      InsertByCode(s[0], rest)
  }

  function HasCode(k: string): Participant -> bool
  {
    (p: Participant) => p.teamCode == k
  }

  lemma {:induction false} InsertStable(x: Participant, s: seq<Participant>, k: string)
    ensures Filter(InsertByCode(x, s), HasCode(k)) == (if x.teamCode == k then [x] else []) + Filter(s, HasCode(k))
  {
    if s == [] || LexLe(x.teamCode, s[0].teamCode) {
      assert InsertByCode(x, s) == [x] + s;
      FilterCons(x, s, HasCode(k));
    } else {
      InsertStable(x, s[1..], k);
      InsertStableStep(x, s, k);
    }
  }

  /** The step of InsertStable where `x` moves past the head of `s`. */
  lemma InsertStableStep(x: Participant, s: seq<Participant>, k: string)
    requires s != [] && !LexLe(x.teamCode, s[0].teamCode)
    requires Filter(InsertByCode(x, s[1..]), HasCode(k))
             == (if x.teamCode == k then [x] else []) + Filter(s[1..], HasCode(k))
    ensures Filter(InsertByCode(x, s), HasCode(k)) == (if x.teamCode == k then [x] else []) + Filter(s, HasCode(k))
  {
    assert InsertByCode(x, s) == [s[0]] + InsertByCode(x, s[1..]);
    assert s == [s[0]] + s[1..];
    if x.teamCode == k {
      LexLeReflexive(k);
    }
    FilterShift(s[0], InsertByCode(x, s[1..]), s[1..], if x.teamCode == k then [x] else [], HasCode(k));
  }

  /** A common head `h` can be put back on both lists when it and the extra prefix `xs` do not
      both pass the test. */
  lemma FilterShift(h: Participant, a: seq<Participant>, b: seq<Participant>, xs: seq<Participant>,
                    f: Participant -> bool)
    requires Filter(a, f) == xs + Filter(b, f)
    requires xs == [] || !f(h)
    ensures Filter([h] + a, f) == xs + Filter([h] + b, f)
  {
    FilterCons(h, a, f);
    FilterCons(h, b, f);
    if f(h) {
      assert xs + Filter([h] + b, f) == Filter([h] + b, f);
    }
  }

  /** Entries with equal team codes keep their relative order. */
  lemma {:induction false} SortStable(s: seq<Participant>, k: string)
    ensures Filter(SortByTeamCode(s), HasCode(k)) == Filter(s, HasCode(k))
  {
    if s != [] {
      SortStable(s[1..], k);
      InsertStable(s[0], SortByTeamCode(s[1..]), k);
    }
  }

  function MemberData(all: seq<Participant>, f: RoleFilter): seq<Participant>
  {
    SortByTeamCode(Filter(all, RoleTest(f)))
  }

  /** The MEMBERS tab: the entries of the chosen role (all of them for ALL), sorted by team
      code, with equal codes in list order. */
  lemma MemberDataSpec(all: seq<Participant>, f: RoleFilter, k: string)
    ensures SortedByCode(MemberData(all, f))
    ensures multiset(MemberData(all, f)) == multiset(Filter(all, RoleTest(f)))
    ensures f == AllRoles ==> multiset(MemberData(all, f)) == multiset(all)
    ensures forall p :: p in MemberData(all, f) <==>
              p in all && (f == LeadersOnly ==> p.role == Leader) && (f == MembersOnly ==> p.role == Member)
    ensures Filter(MemberData(all, f), HasCode(k)) == Filter(Filter(all, RoleTest(f)), HasCode(k))
  {
    SortStable(Filter(all, RoleTest(f)), k);
    if f == AllRoles {
      FilterKeepsAll(all, AnyRole);
    }
    MemberDataRoles(all, f);
  }

  lemma MemberDataRoles(all: seq<Participant>, f: RoleFilter)
    ensures forall p :: p in MemberData(all, f) <==>
              p in all && (f == LeadersOnly ==> p.role == Leader) && (f == MembersOnly ==> p.role == Member)
  {
    var g := Filter(all, RoleTest(f));
    FilterMembers(all, RoleTest(f));
    var r := MemberData(all, f);
    assert multiset(r) == multiset(g);
    forall p ensures p in r <==> p in g {
      assert p in r <==> p in multiset(r);
      assert p in g <==> p in multiset(g);
    }
  }
}
