/** The monitoring page's state (src/pages/Filters.tsx): which tab and filters are chosen,
    which page of twelve rows is shown, and how the page buttons move it. */
module Dashboard {
  import opened Teams
  import opened Filters

  // ---------------------------------------------------------------------
  // Pagination
  // ---------------------------------------------------------------------

  const PAGE_SIZE: nat := 12

  function Min(a: int, b: int): int { if a <= b then a else b }
  function Max(a: int, b: int): int { if a <= b then b else a }

  /** `Math.ceil(n / PAGE_SIZE)`: the fewest pages of PAGE_SIZE rows that hold `n` rows. */
  function TotalPages(n: nat): (k: nat)
    ensures n == 0 ==> k == 0
    ensures n > 0 ==> (k - 1) * 12 < n <= k * 12
  {
    (n + 11) / 12
  }

  /** Index of the first row of page `page` (pages count from 1). */
  function PageStart(page: nat): nat
    requires page >= 1
  {
    (page - 1) * 12
  }

  /** `activeData.slice(start, start + PAGE_SIZE)`; `slice` clamps both bounds to the length. */
  function PageSlice<T>(data: seq<T>, page: nat): (r: seq<T>)
    requires page >= 1
    ensures |r| <= PAGE_SIZE
    ensures |r| == Min(PAGE_SIZE, |data| - Min(PageStart(page), |data|))
    ensures forall i :: 0 <= i < |r| ==> PageStart(page) + i < |data| && r[i] == data[PageStart(page) + i]
  {
    var start := PageStart(page);
    if start >= |data| then [] else data[start..Min(start + 12, |data|)]
  }

  /** The number shown in front of row `i` of page `page`. */
  function Rank(page: nat, i: nat): (r: nat)
    requires page >= 1 && i < PAGE_SIZE
    ensures (page - 1) * PAGE_SIZE < r <= page * PAGE_SIZE
  {
    (page - 1) * 12 + i + 1
  }

  /** Row `i` of a page is the row whose 1-based position in the whole list is its rank. */
  lemma RankIsPosition<T>(data: seq<T>, page: nat, i: nat)
    requires page >= 1 && i < |PageSlice(data, page)|
    ensures 1 <= Rank(page, i) <= |data|
    ensures PageSlice(data, page)[i] == data[Rank(page, i) - 1]
  {
  }

  /** Pages 1 to k, one after the other. */
  function Pages<T>(data: seq<T>, k: nat): seq<T>
  {
    if k == 0 then [] else Pages(data, k - 1) + PageSlice(data, k)
  }

  lemma {:induction false} PagesPrefix<T>(data: seq<T>, k: nat)
    ensures Pages(data, k) == data[..Min(k * 12, |data|)]
  {
    if k > 0 {
      PagesPrefix(data, k - 1);
      var lo, hi := Min((k - 1) * 12, |data|), Min(k * 12, |data|);
      PageSliceBounds(data, k);
      assert data[..hi] == data[..lo] + data[lo..hi];
    }
  }

  lemma PageSliceBounds<T>(data: seq<T>, k: nat)
    requires k >= 1
    ensures Min((k - 1) * 12, |data|) <= Min(k * 12, |data|)
    ensures PageSlice(data, k) == data[Min((k - 1) * 12, |data|)..Min(k * 12, |data|)]
  {
  }

  /** Pages 1 to TotalPages, read in order, are exactly the whole list. */
  lemma PagesCover<T>(data: seq<T>)
    ensures Pages(data, TotalPages(|data|)) == data
  {
    PagesPrefix(data, TotalPages(|data|));
  }

  /** A page has rows exactly when its number is at most TotalPages. */
  lemma PageNonEmpty<T>(data: seq<T>, page: nat)
    requires page >= 1
    ensures PageSlice(data, page) != [] <==> page <= TotalPages(|data|)
  {
  }

  // ---------------------------------------------------------------------
  // The tab contents
  // ---------------------------------------------------------------------

  datatype Section = Attendance | Food | Leads | Members

  /** A row of whichever list the chosen tab shows. */
  datatype Row = PersonRow(person: Participant) | FoodRow(food: FoodEntry) | TeamRow(team: Team)

  /** The choices the page's tabs, selects and buttons hold. */
  datatype Settings = Settings(
    section: Section, attendanceFilter: PresenceFilter, foodReceived: bool,
    mealType: string, leadFilter: PresenceFilter, memberRoleFilter: RoleFilter)

  /** `activeData` */
  function ActiveData(teams: seq<Team>, s: Settings): seq<Row>
  {
    match s.section
    case Attendance =>
      var ps := AttendanceData(Participants(teams), s.attendanceFilter);
      seq(|ps|, i requires 0 <= i < |ps| => PersonRow(ps[i]))
    case Food =>
      var fs := FoodRows(teams, s.mealType, s.foodReceived);
      seq(|fs|, i requires 0 <= i < |fs| => FoodRow(fs[i]))
    case Leads =>
      var ts := LeadData(teams, s.leadFilter);
      seq(|ts|, i requires 0 <= i < |ts| => TeamRow(ts[i]))
    case Members =>
      var ps := MemberData(Participants(teams), s.memberRoleFilter);
      seq(|ps|, i requires 0 <= i < |ps| => PersonRow(ps[i]))
  }

  /** Before the roster arrives every tab is empty. */
  lemma ActiveDataOfNoTeams(s: Settings)
    ensures ActiveData([], s) == []
  {
    assert Participants([]) == [];
    assert FoodRows([], s.mealType, s.foodReceived) == [];
  }

  // ---------------------------------------------------------------------
  // The page component's state
  // ---------------------------------------------------------------------

  class AdminDashboard {
    var teams: seq<Team>
    var loading: bool
    var section: Section
    var attendanceFilter: PresenceFilter
    var foodReceived: bool
    var mealType: string
    var leadFilter: PresenceFilter
    var memberRoleFilter: RoleFilter
    var page: nat

    function Current(): Settings
      reads this
    {
      Settings(section, attendanceFilter, foodReceived, mealType, leadFilter, memberRoleFilter)
    }

    function Active(): seq<Row>
      reads this
    {
      ActiveData(teams, Current())
    }

    /** The page number the footer shows stays between 1 and `totalPages || 1`. */
    ghost predicate Valid()
      reads this
    {
      && 1 <= page <= Max(1, TotalPages(|Active()|))
      && (loading ==> teams == [])
    }

    /** `paginatedData`: at most PAGE_SIZE rows, and none only when the whole list is empty. */
    function Visible(): (r: seq<Row>)
      reads this
      requires Valid()
      ensures |r| <= PAGE_SIZE
      ensures r == [] <==> Active() == []
    {
      PageNonEmpty(Active(), page);
      PageSlice(Active(), page)
    }

    constructor ()
      ensures Valid()
      ensures teams == [] && loading && page == 1
      ensures Current() == Settings(Attendance, Present, true, "BREAKFAST", Present, AllRoles)
    {
      teams := [];
      loading := true;
      section := Attendance;
      attendanceFilter := Present;
      foodReceived := true;
      mealType := "BREAKFAST";
      leadFilter := Present;
      memberRoleFilter := AllRoles;
      page := 1;
      new;
      ActiveDataOfNoTeams(Current());
    }

    /** The roster fetch settles: `setTeams(data || [])` on success, nothing on failure;
        either way `loading` ends. `data` is None for a rejected or empty response. */
    method FetchSettled(data: Option<seq<Team>>)
      requires Valid() && loading
      modifies this
      ensures Valid()
      ensures !loading && teams == (if data.Some? then data.value else [])
      ensures page == 1 && Current() == old(Current())
    {
      ActiveDataOfNoTeams(Current());
      if data.Some? {
        teams := data.value;
      }
      loading := false;
    }

    /** A tab button: `setSection(tab.id); setPage(1)`. */
    method SelectTab(s: Section)
      requires Valid()
      modifies this
      ensures Valid()
      ensures Current() == old(Current()).(section := s) && page == 1
      ensures teams == old(teams) && loading == old(loading)
    {
      section := s;
      page := 1;
    }

    method SetAttendanceFilter(f: PresenceFilter)
      requires Valid()
      modifies this
      ensures Valid()
      ensures Current() == old(Current()).(attendanceFilter := f) && page == 1
      ensures teams == old(teams) && loading == old(loading)
    {
      attendanceFilter := f;
      page := 1;
    }

    /** The Served (true) and EMPTY (false) buttons. */
    method SetFoodReceived(b: bool)
      requires Valid()
      modifies this
      ensures Valid()
      ensures Current() == old(Current()).(foodReceived := b) && page == 1
      ensures teams == old(teams) && loading == old(loading)
    {
      foodReceived := b;
      page := 1;
    }

    method SetMealType(m: string)
      requires Valid()
      modifies this
      ensures Valid()
      ensures Current() == old(Current()).(mealType := m) && page == 1
      ensures teams == old(teams) && loading == old(loading)
    {
      mealType := m;
      page := 1;
    }

    method SetLeadFilter(f: PresenceFilter)
      requires Valid()
      modifies this
      ensures Valid()
      ensures Current() == old(Current()).(leadFilter := f) && page == 1
      ensures teams == old(teams) && loading == old(loading)
    {
      leadFilter := f;
      page := 1;
    }

    method SetMemberRoleFilter(f: RoleFilter)
      requires Valid()
      modifies this
      ensures Valid()
      ensures Current() == old(Current()).(memberRoleFilter := f) && page == 1
      ensures teams == old(teams) && loading == old(loading)
    {
      memberRoleFilter := f;
      page := 1;
    }

    /** The previous-page button, disabled on page 1. */
    method PrevPage()
      requires Valid()
      modifies this
      ensures Valid()
      ensures page == if old(page) == 1 then 1 else old(page) - 1
      ensures Current() == old(Current()) && teams == old(teams) && loading == old(loading)
    {
      if page != 1 {
        page := page - 1;
      }
    }

    /** The next-page button, disabled once `page >= totalPages`. */
    method NextPage()
      requires Valid()
      modifies this
      ensures Valid()
      ensures page == if old(page) >= TotalPages(|old(Active())|) then old(page) else old(page) + 1
      ensures Current() == old(Current()) && teams == old(teams) && loading == old(loading)
    {
      if !(page >= TotalPages(|Active()|)) {
        page := page + 1;
      }
    }
  }
}
