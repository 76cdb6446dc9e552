/** The admin home page (src/pages/Admin.tsx): mail-status counters, the team search, and
    the buttons that open the QR and mail dispatch terminals. */
module Admin {
  import opened Teams
  import opened Text
  import opened Seqs
  import opened Terminal

  // ---------------------------------------------------------------------
  // Mail counters
  // ---------------------------------------------------------------------

  predicate IsSent(t: Team) { t.mailStatus == "SENT" }
  predicate IsFailed(t: Team) { t.mailStatus == "FAILED" }
  predicate NotSent(t: Team) { t.mailStatus != "SENT" }

  datatype MailCounts = MailCounts(total: nat, sent: nat, failed: nat, pending: nat)

  /** `totalTeams`, `sentCount`, `failedCount` and `pendingCount`. Every team is either sent
      or pending, and a failed team is a pending one. */
  function Counts(teams: seq<Team>): (c: MailCounts)
    ensures teams == [] ==> c == MailCounts(0, 0, 0, 0)
    ensures c.total == |teams| && c.sent + c.pending == c.total
    ensures c.failed <= c.pending
    ensures c.pending > 0 <==> exists i :: 0 <= i < |teams| && NotSent(teams[i])
    ensures c.failed > 0 <==> exists i :: 0 <= i < |teams| && IsFailed(teams[i])
  {
    FilterPartition(teams, IsSent, NotSent);
    FilterMonotone(teams, IsFailed, NotSent);
    FilterNonEmpty(teams, NotSent);
    FilterNonEmpty(teams, IsFailed);
    MailCounts(|teams|, |Filter(teams, IsSent)|, |Filter(teams, IsFailed)|, |Filter(teams, NotSent)|)
  }

  /** The counters of a list with one more team: the total grows by one, and the sent, failed
      and pending counters each grow by one exactly when the new team is of that kind. */
  lemma CountsSnoc(teams: seq<Team>, t: Team)
    ensures Counts(teams + [t]) == MailCounts(
      Counts(teams).total + 1,
      Counts(teams).sent + (if IsSent(t) then 1 else 0),
      Counts(teams).failed + (if IsFailed(t) then 1 else 0),
      Counts(teams).pending + (if NotSent(t) then 1 else 0))
  {
    FilterSnoc(teams, t, IsSent);
    FilterSnoc(teams, t, IsFailed);
    FilterSnoc(teams, t, NotSent);
  }

  // ---------------------------------------------------------------------
  // Search
  // ---------------------------------------------------------------------

  /** The team mentions the (already lowercased) query `q`: in its name, code, lead name or
      lead e-mail after lowercasing, in the lead's phone as written, or the same way in the
      name, e-mail or phone of one of its members. */
  ghost predicate Mentions(t: Team, q: string)
  {
    || Occurs(Lower(t.teamName), q) || Occurs(Lower(t.teamCode), q)
    || Occurs(Lower(t.lead.name), q) || Occurs(Lower(t.lead.email), q) || Occurs(t.lead.phone, q)
    || (t.members.Some? &&
        exists i :: 0 <= i < |t.members.value| && MemberMentions(t.members.value[i], q))
  }

  ghost predicate MemberMentions(m: TeamMember, q: string)
  {
    Occurs(Lower(m.fullName), q) || Occurs(Lower(m.email), q) || Occurs(m.phone, q)
  }

  /** The test inside `team.members?.some(...)`. */
  function MemberMatches(m: TeamMember, q: string): (b: bool)
    ensures b <==> MemberMentions(m, q)
  {
    Includes(Lower(m.fullName), q) || Includes(Lower(m.email), q) || Includes(m.phone, q)
  }

  /** `members.some(...)` */
  function SomeMemberMatches(ms: seq<TeamMember>, q: string): (b: bool)
    ensures b <==> exists i :: 0 <= i < |ms| && MemberMentions(ms[i], q)
  {
    if ms == [] then false
    else
      var rest := SomeMemberMatches(ms[1..], q);
      assert rest <==> exists i :: 1 <= i < |ms| && MemberMentions(ms[i], q) by {
        if rest {
          var i :| 0 <= i < |ms[1..]| && MemberMentions(ms[1..][i], q);
          assert ms[i + 1] == ms[1..][i];
        }
        if exists i :: 1 <= i < |ms| && MemberMentions(ms[i], q) {
          var i :| 1 <= i < |ms| && MemberMentions(ms[i], q);
          assert ms[1..][i - 1] == ms[i];
        }
      }
      MemberMatches(ms[0], q) || rest
  }

  /** `teamMatch || leaderMatch || memberMatch` for the lowercased query `q`. */
  function TeamMatches(t: Team, q: string): (b: bool)
    ensures b <==> Mentions(t, q)
  {
    || Includes(Lower(t.teamName), q) || Includes(Lower(t.teamCode), q)
    || Includes(Lower(t.lead.name), q) || Includes(Lower(t.lead.email), q) || Includes(t.lead.phone, q)
    || (t.members.Some? && SomeMemberMatches(t.members.value, q))
  }

  function MatchesQuery(q: string): Team -> bool
  {
    (t: Team) => TeamMatches(t, q)
  }

  /** `filteredTeams`: a blank search keeps every team; otherwise the teams that mention the
      lowercased (but untrimmed) search text, in their original order. */
  function FilteredTeams(teams: seq<Team>, search: string): (r: seq<Team>)
    ensures IsBlank(search) ==> r == teams
    ensures !IsBlank(search) ==> forall t :: t in r <==> t in teams && Mentions(t, Lower(search))
    ensures !IsBlank(search) ==> IsSubsequence(r, teams)
    ensures !IsBlank(search) ==>
      forall t :: multiset(r)[t] == if Mentions(t, Lower(search)) then multiset(teams)[t] else 0
  {
    if IsBlank(search) then teams
    else
      FilterCount(teams, MatchesQuery(Lower(search)));
      FilterIsSubsequence(teams, MatchesQuery(Lower(search)));
      FilterMembers(teams, MatchesQuery(Lower(search)));
      Filter(teams, MatchesQuery(Lower(search)))
  }

  /** Typing the search in upper or lower case finds the same teams. */
  lemma SearchIgnoresCase(teams: seq<Team>, search: string)
    ensures FilteredTeams(teams, Lower(search)) == FilteredTeams(teams, search)
  {
    LowerKeepsBlank(search);
    LowerIdempotent(search);
  }

  /** When exactly one team mentions the query, the search shows that team alone. */
  lemma SearchSingleMatch(teams: seq<Team>, search: string, j: nat)
    requires !IsBlank(search) && j < |teams| && Mentions(teams[j], Lower(search))
    requires forall i :: 0 <= i < |teams| && i != j ==> !Mentions(teams[i], Lower(search))
    ensures FilteredTeams(teams, search) == [teams[j]]
  {
    FilterSingle(teams, MatchesQuery(Lower(search)), j);
  }

  // ---------------------------------------------------------------------
  // Dispatch terminals
  // ---------------------------------------------------------------------

  const API: string := "https://admin-panel-hackx-backend.onrender.com/api/admin/"
  const QR_URL: string := API + "generate-all-qrs/stream"
  const SEND_URL: string := API + "send-all-leader-mails/stream"
  const RETRY_URL: string := API + "retry-failed-mails/stream"

  /** The mail terminal's `url` prop. */
  function MailUrl(retryMode: bool): (u: string)
    ensures u == SEND_URL || u == RETRY_URL
  {
    if retryMode then RETRY_URL else SEND_URL
  }

  /** The mail terminal's `title` prop. */
  function MailTitle(retryMode: bool): string
  {
    if retryMode then "RETRY FAILED MAILS TERMINAL" else "MAIL DISPATCH TERMINAL"
  }

  /** The mode alone decides the mail stream, and the two modes use different streams. */
  lemma MailUrlByMode(a: bool, b: bool)
    ensures MailUrl(a) == MailUrl(b) <==> a == b
    ensures MailTitle(a) == MailTitle(b) <==> a == b
  {
    assert SEND_URL[|API|] == 's' && RETRY_URL[|API|] == 'r';
    assert MailTitle(true)[0] != MailTitle(false)[0];
  }

  class AdminHome {
    var teams: seq<Team>
    var loading: bool
    var showQR: bool
    var showMail: bool
    var retryMode: bool
    var search: string
    const qrTerminal: StreamTerminal
    const mailTerminal: StreamTerminal

    /** Each terminal last ran its effect with the props this page hands it, and retry mode
        is only ever on while the mail terminal is shown. */
    ghost predicate Valid()
      reads this, qrTerminal, mailTerminal
    {
      && qrTerminal != mailTerminal
      && qrTerminal.Valid() && mailTerminal.Valid()
      && qrTerminal.shown == showQR && qrTerminal.url == QR_URL
      && mailTerminal.shown == showMail && mailTerminal.url == MailUrl(retryMode)
      && (retryMode ==> showMail)
    }

    /** The Send Mail At Once button is enabled. */
    function SendEnabled(): (b: bool)
      reads this
      ensures b <==> exists i :: 0 <= i < |teams| && NotSent(teams[i])
    {
      Counts(teams).pending != 0
    }

    /** The Retry Failed button is enabled. */
    function RetryEnabled(): (b: bool)
      reads this
      ensures b <==> exists i :: 0 <= i < |teams| && IsFailed(teams[i])
    {
      Counts(teams).failed != 0
    }

    /** The cards shown: none while loading, else the search result. */
    function Cards(): Option<seq<Team>>
      reads this
    {
      if loading then None else Some(FilteredTeams(teams, search))
    }

    constructor ()
      ensures Valid()
      ensures teams == [] && loading && !showQR && !showMail && !retryMode && search == ""
      ensures qrTerminal.logs == [] && qrTerminal.streams == []
      ensures mailTerminal.logs == [] && mailTerminal.streams == []
    {
      teams := [];
      loading := true;
      showQR := false;
      showMail := false;
      retryMode := false;
      search := "";
      qrTerminal := new StreamTerminal(QR_URL);
      mailTerminal := new StreamTerminal(SEND_URL);
    }

    /** The first roster fetch settles: `setTeams(data)` when it resolves, and `loading`
        ends either way. */
    method FetchSettled(data: Option<seq<Team>>)
      requires Valid()
      modifies this
      ensures Valid()
      ensures !loading && teams == (if data.Some? then data.value else old(teams))
      ensures showQR == old(showQR) && showMail == old(showMail) && retryMode == old(retryMode)
      ensures search == old(search)
    {
      if data.Some? {
        teams := data.value;
      }
      loading := false;
    }

    /** A later fetch, issued when both terminals are hidden, resolves with `data`. */
    method Refreshed(data: seq<Team>)
      requires Valid()
      modifies this
      ensures Valid()
      ensures teams == data && loading == old(loading)
      ensures showQR == old(showQR) && showMail == old(showMail) && retryMode == old(retryMode)
      ensures search == old(search)
    {
      teams := data;
    }

    method SetSearch(s: string)
      requires Valid()
      modifies this
      ensures Valid()
      ensures search == s && teams == old(teams) && loading == old(loading)
      ensures showQR == old(showQR) && showMail == old(showMail) && retryMode == old(retryMode)
    {
      search := s;
    }

    /** Generate All QRs: shows the QR terminal; if it was hidden, its buffer starts empty with
        one open stream on the QR endpoint. */
    method ClickGenerateQRs()
      requires Valid()
      modifies this, qrTerminal
      ensures Valid()
      ensures showQR && showMail == old(showMail) && retryMode == old(retryMode)
      ensures teams == old(teams) && loading == old(loading) && search == old(search)
      ensures !old(showQR) ==>
        qrTerminal.logs == [] && qrTerminal.Live() && qrTerminal.streams[|qrTerminal.streams| - 1].url == QR_URL
      ensures old(showQR) ==>
        && qrTerminal.logs == old(qrTerminal.logs) && qrTerminal.streams == old(qrTerminal.streams)
        && qrTerminal.eventRef == old(qrTerminal.eventRef) && qrTerminal.cleanup == old(qrTerminal.cleanup)
    {
      showQR := true;
      qrTerminal.Render(showQR, QR_URL);
    }

    /** Send Mail At Once, disabled while no team is pending: leaves retry mode and shows the
        mail terminal on the send endpoint. */
    method ClickSendMail()
      requires Valid()
      modifies this, mailTerminal
      ensures Valid()
      ensures old(SendEnabled()) ==> showMail && !retryMode && mailTerminal.url == SEND_URL
      ensures old(SendEnabled()) && (!old(showMail) || old(retryMode)) ==>
        mailTerminal.logs == [] && mailTerminal.Live() && mailTerminal.streams[|mailTerminal.streams| - 1].url == SEND_URL
      ensures old(SendEnabled()) && old(showMail) && !old(retryMode) ==>
        && mailTerminal.logs == old(mailTerminal.logs) && mailTerminal.streams == old(mailTerminal.streams)
        && mailTerminal.eventRef == old(mailTerminal.eventRef) && mailTerminal.cleanup == old(mailTerminal.cleanup)
      ensures !old(SendEnabled()) ==>
        && showMail == old(showMail) && retryMode == old(retryMode) && mailTerminal.logs == old(mailTerminal.logs)
        && mailTerminal.streams == old(mailTerminal.streams)
        && mailTerminal.eventRef == old(mailTerminal.eventRef) && mailTerminal.cleanup == old(mailTerminal.cleanup)
      ensures showQR == old(showQR) && teams == old(teams) && loading == old(loading) && search == old(search)
    {
      if Counts(teams).pending != 0 {
        retryMode := false;
        showMail := true;
        mailTerminal.Render(showMail, MailUrl(retryMode));
      }
    }

    /** Retry Failed, disabled while no team has failed: enters retry mode and shows the mail
        terminal on the retry endpoint. */
    method ClickRetryFailed()
      requires Valid()
      modifies this, mailTerminal
      ensures Valid()
      ensures old(RetryEnabled()) ==> showMail && retryMode && mailTerminal.url == RETRY_URL
      ensures old(RetryEnabled()) && !old(retryMode) ==>
        mailTerminal.logs == [] && mailTerminal.Live() && mailTerminal.streams[|mailTerminal.streams| - 1].url == RETRY_URL
      ensures old(RetryEnabled()) && old(retryMode) ==>
        && mailTerminal.logs == old(mailTerminal.logs) && mailTerminal.streams == old(mailTerminal.streams)
        && mailTerminal.eventRef == old(mailTerminal.eventRef) && mailTerminal.cleanup == old(mailTerminal.cleanup)
      ensures !old(RetryEnabled()) ==>
        && showMail == old(showMail) && retryMode == old(retryMode) && mailTerminal.logs == old(mailTerminal.logs)
        && mailTerminal.streams == old(mailTerminal.streams)
        && mailTerminal.eventRef == old(mailTerminal.eventRef) && mailTerminal.cleanup == old(mailTerminal.cleanup)
      ensures showQR == old(showQR) && teams == old(teams) && loading == old(loading) && search == old(search)
    {
      if Counts(teams).failed != 0 {
        retryMode := true;
        showMail := true;
        mailTerminal.Render(showMail, MailUrl(retryMode));
      }
    }

    /** The QR terminal's CLOSE button: its stream is closed and its buffer kept. */
    method CloseQR()
      requires Valid()
      modifies this, qrTerminal
      ensures Valid()
      ensures !showQR && !qrTerminal.Live() && qrTerminal.logs == old(qrTerminal.logs)
      ensures qrTerminal.streams == CloseAll(old(qrTerminal.streams))
      ensures showMail == old(showMail) && retryMode == old(retryMode)
      ensures teams == old(teams) && loading == old(loading) && search == old(search)
    {
      if !showQR {
        CloseAllIdle(qrTerminal.streams);
      }
      showQR := false;
      qrTerminal.Render(showQR, QR_URL);
    }

    /** The mail terminal's CLOSE button, `setShowMail(false); setRetryMode(false)`: the stream
        is closed, the buffer kept, and the next dispatch starts in send mode. */
    method CloseMail()
      requires Valid()
      modifies this, mailTerminal
      ensures Valid()
      ensures !showMail && !retryMode && !mailTerminal.Live() && mailTerminal.logs == old(mailTerminal.logs)
      ensures mailTerminal.streams == CloseAll(old(mailTerminal.streams))
      ensures showQR == old(showQR)
      ensures teams == old(teams) && loading == old(loading) && search == old(search)
    {
      if !showMail {
        CloseAllIdle(mailTerminal.streams);
      }
      showMail := false;
      retryMode := false;
      mailTerminal.Render(showMail, MailUrl(retryMode));
    }
  }
}
