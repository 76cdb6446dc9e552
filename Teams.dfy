/** The team records the console receives from the backend's roster endpoint.
    Everything here is a value: the console never mutates a team. */
module Teams {

  datatype Option<+T> = None | Some(value: T)

  /** The role label the roster views attach to a person ("LEADER" or "MEMBER"). */
  datatype Role = Leader | Member

  datatype Lead = Lead(name: string, email: string, phone: string)

  /** `present` holds the raw JSON value: Some(b) for a boolean, None for anything else
      (missing, null, a string, ...). */
  datatype TeamMember = TeamMember(fullName: string, email: string, phone: string, present: Option<bool>)

  /** `members` is None when the field is missing from the record.
      `attendance` is Some(b) for a boolean and None for any other value.
      `foodStatus` maps a meal name to the e-mails of the people who were served; a missing
      `foodStatus` object is the empty map. */
  datatype Team = Team(
    teamName: string,
    teamCode: string,
    lead: Lead,
    members: Option<seq<TeamMember>>,
    attendance: Option<bool>,
    mailStatus: string,
    foodStatus: map<string, seq<string>>)

  /** `team.members ?? []` */
  function MembersOf(t: Team): seq<TeamMember>
  {
    match t.members
    case Some(ms) => ms
    case None => []
  }

  /** `team.foodStatus?.[meal] || []` */
  function MealArray(t: Team, meal: string): seq<string>
  {
    if meal in t.foodStatus then t.foodStatus[meal] else []
  }
}
