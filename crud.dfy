/** The backend's data operations (backend/crud.py) over an in-memory store of users and
    feedback records. Queries are functions over the stored sequences; a query without an
    `order_by` is taken to return rows in insertion order. The operations that write rows
    are methods of `Store`. */
module Crud {
  import opened Domain
  import opened Seqs
  import opened Recency

  /** How many records a dashboard's `recent_feedback` holds at most. */
  const RecentLimit: nat := 5

  // ---------------------------------------------------------------- queries

  /** `get_user`: the first user with the given id. */
  function FindUser(users: seq<User>, id: int): (r: Option<User>)
    ensures r.Some? ==> r.value in users && r.value.id == id
    ensures r.None? ==> forall u :: u in users ==> u.id != id
  {
    match FirstIndex(users, (u: User) => u.id == id)
    case None => None
    case Some(i) => Some(users[i])
  }

  /** `get_user_by_email`: the first user with the given email. */
  function FindUserByEmail(users: seq<User>, email: string): (r: Option<User>)
    ensures r.Some? ==> r.value in users && r.value.email == email
    ensures r.None? ==> forall u :: u in users ==> u.email != email
  {
    match FirstIndex(users, (u: User) => u.email == email)
    case None => None
    case Some(i) => Some(users[i])
  }

  /** `get_feedback`: the first feedback record with the given id. */
  function FindFeedback(fs: seq<Feedback>, id: int): (r: Option<Feedback>)
    ensures r.Some? ==> r.value in fs && r.value.id == id
    ensures r.None? ==> forall f :: f in fs ==> f.id != id
  {
    match FirstIndex(fs, (f: Feedback) => f.id == id)
    case None => None
    case Some(i) => Some(fs[i])
  }

  /** `get_users(skip, limit)`: at most `limit` users, starting at position `skip`. */
  function UsersPage(users: seq<User>, skip: nat, limit: nat): (r: seq<User>)
    ensures |r| <= limit
    ensures |r| == Min(limit, if skip <= |users| then |users| - skip else 0)
    ensures forall i :: 0 <= i < |r| ==> skip + i < |users| && r[i] == users[skip + i]
  {
    if skip >= |users| then [] else users[skip..][..Min(limit, |users| - skip)]
  }

  /** `get_team_members`: the users whose manager is `managerId`. */
  function TeamMembers(users: seq<User>, managerId: int): (r: seq<User>)
    ensures forall u :: u in r <==> u in users && u.managerId == Some(managerId)
  {
    Filter(users, (u: User) => u.managerId == Some(managerId))
  }

  /** `get_feedback_by_manager`: the records that `managerId` wrote. */
  function FeedbackByManager(fs: seq<Feedback>, managerId: int): (r: seq<Feedback>)
    ensures forall f :: f in r <==> f in fs && f.managerId == managerId
  {
    Filter(fs, (f: Feedback) => f.managerId == managerId)
  }

  /** `get_feedback_by_employee`: the records that `employeeId` received. */
  function FeedbackByEmployee(fs: seq<Feedback>, employeeId: int): (r: seq<Feedback>)
    ensures forall f :: f in r <==> f in fs && f.employeeId == employeeId
  {
    Filter(fs, (f: Feedback) => f.employeeId == employeeId)
  }

  /** The records not yet acknowledged, `[f for f in fs if not f.acknowledged]`. */
  function Unacknowledged(fs: seq<Feedback>): (r: seq<Feedback>)
    ensures |r| <= |fs|
    ensures forall f :: f in r <==> f in fs && !f.acknowledged
  {
    Filter(fs, (f: Feedback) => !f.acknowledged)
  }

  // ------------------------------------------------------- sentiment summary

  /** How many records of `fs` carry sentiment `s`. */
  function SentimentCount(fs: seq<Feedback>, s: Sentiment): nat
  {
    if fs == [] then 0
    else SentimentCount(fs[..|fs| - 1], s) + (if fs[|fs| - 1].sentiment == s then 1 else 0)
  }

  /** Every record carries exactly one sentiment, so the three counts add up to the number
      of records. */
  lemma {:induction false} SentimentCountsSumToLength(fs: seq<Feedback>)
    ensures SentimentCount(fs, Positive) + SentimentCount(fs, Neutral) + SentimentCount(fs, Negative) == |fs|
  {
    if fs != [] {
      SentimentCountsSumToLength(fs[..|fs| - 1]);
    }
  }

  /** The sentiment tri-count of a list of records: one count per sentiment, together
      accounting for every record. */
  function Tally(fs: seq<Feedback>): (t: SentimentSummary)
    ensures t.positive + t.neutral + t.negative == |fs|
  {
    SentimentCountsSumToLength(fs);
    SentimentSummary(SentimentCount(fs, Positive), SentimentCount(fs, Neutral), SentimentCount(fs, Negative))
  }

  /** The counting loop of both dashboards: start every sentiment at zero and add one per
      record. */
  method SummarizeSentiments(fs: seq<Feedback>) returns (summary: SentimentSummary)
    ensures summary == Tally(fs)
  {
    var positive, neutral, negative := 0, 0, 0;
    var i := 0;
    while i < |fs|
      invariant 0 <= i <= |fs|
      invariant positive == SentimentCount(fs[..i], Positive)
      invariant neutral == SentimentCount(fs[..i], Neutral)
      invariant negative == SentimentCount(fs[..i], Negative)
    {
      assert fs[..i + 1][..i] == fs[..i];
      match fs[i].sentiment {
        case Positive => positive := positive + 1;
        case Neutral => neutral := neutral + 1;
        case Negative => negative := negative + 1;
      }
      i := i + 1;
    }
    assert fs[..i] == fs;
    summary := SentimentSummary(positive, neutral, negative);
  }

  // ------------------------------------------------------------ dashboards

  /** What `get_manager_dashboard` computes for `managerId`. */
  function ManagerDashboardOf(users: seq<User>, fs: seq<Feedback>, managerId: int): (d: ManagerDashboard)
    ensures d.sentimentSummary.positive + d.sentimentSummary.neutral + d.sentimentSummary.negative == d.totalFeedback
    ensures |d.recentFeedback| <= RecentLimit && |d.recentFeedback| <= d.totalFeedback
    ensures NewestFirst(d.recentFeedback)
    ensures forall f :: f in d.recentFeedback ==> f in fs && f.managerId == managerId
  {
    var given := FeedbackByManager(fs, managerId);
    ManagerDashboard(|TeamMembers(users, managerId)|, |given|, MostRecent(given, RecentLimit), Tally(given))
  }

  /** What `get_employee_dashboard` computes for `employeeId`. */
  function EmployeeDashboardOf(fs: seq<Feedback>, employeeId: int): (d: EmployeeDashboard)
    ensures d.unacknowledgedFeedback <= d.totalFeedbackReceived
    ensures d.sentimentSummary.positive + d.sentimentSummary.neutral + d.sentimentSummary.negative == d.totalFeedbackReceived
    ensures |d.recentFeedback| <= RecentLimit && |d.recentFeedback| <= d.totalFeedbackReceived
    ensures NewestFirst(d.recentFeedback)
    ensures forall f :: f in d.recentFeedback ==> f in fs && f.employeeId == employeeId
  {
    var received := FeedbackByEmployee(fs, employeeId);
    EmployeeDashboard(|received|, |Unacknowledged(received)|, MostRecent(received, RecentLimit), Tally(received))
  }

  /** A record of the manager's that is not in the recent list is no newer than any that is. */
  lemma ManagerRecentAreNewest(users: seq<User>, fs: seq<Feedback>, managerId: int, kept: Feedback, dropped: Feedback)
    requires kept in ManagerDashboardOf(users, fs, managerId).recentFeedback
    requires dropped in multiset(FeedbackByManager(fs, managerId)) - multiset(ManagerDashboardOf(users, fs, managerId).recentFeedback)
    ensures dropped.createdAt <= kept.createdAt
  {
    MostRecentHoldsNewest(FeedbackByManager(fs, managerId), RecentLimit, kept, dropped);
  }

  /** A record of the employee's that is not in the recent list is no newer than any that is. */
  lemma EmployeeRecentAreNewest(fs: seq<Feedback>, employeeId: int, kept: Feedback, dropped: Feedback)
    requires kept in EmployeeDashboardOf(fs, employeeId).recentFeedback
    requires dropped in multiset(FeedbackByEmployee(fs, employeeId)) - multiset(EmployeeDashboardOf(fs, employeeId).recentFeedback)
    ensures dropped.createdAt <= kept.createdAt
  {
    MostRecentHoldsNewest(FeedbackByEmployee(fs, employeeId), RecentLimit, kept, dropped);
  }

  // ------------------------------------------------------ record rewriting

  /** A record after `update_feedback`: each field the update supplies is overwritten, the
      others are kept, and `updatedAt` is set to the time of the update. */
  function Patched(f: Feedback, upd: FeedbackUpdate, now: int): (g: Feedback)
    ensures g.id == f.id && g.managerId == f.managerId && g.employeeId == f.employeeId
    ensures g.createdAt == f.createdAt
    ensures g.acknowledged == f.acknowledged && g.acknowledgedAt == f.acknowledgedAt
    ensures g.strengths == (if upd.strengths.Some? then upd.strengths.value else f.strengths)
    ensures g.areasToImprove == (if upd.areasToImprove.Some? then upd.areasToImprove.value else f.areasToImprove)
    ensures g.sentiment == (if upd.sentiment.Some? then upd.sentiment.value else f.sentiment)
    ensures g.updatedAt == now
  {
    f.(
      strengths := if upd.strengths.Some? then upd.strengths.value else f.strengths,
      areasToImprove := if upd.areasToImprove.Some? then upd.areasToImprove.value else f.areasToImprove,
      sentiment := if upd.sentiment.Some? then upd.sentiment.value else f.sentiment,
      updatedAt := now)
  }

  /** An update that supplies nothing still moves `updatedAt`, and changes nothing else. */
  lemma EmptyUpdateTouchesOnlyTimestamp(f: Feedback, now: int)
    ensures Patched(f, FeedbackUpdate(None, None, None), now) == f.(updatedAt := now)
  {
  }

  /** Applying the same update twice at the same time is the same as applying it once. */
  lemma PatchedIdempotent(f: Feedback, upd: FeedbackUpdate, now: int)
    ensures Patched(Patched(f, upd, now), upd, now) == Patched(f, upd, now)
  {
  }

  /** A record after `acknowledge_feedback`: acknowledged, stamped with the time, and (through
      the `onupdate` default of the `updated_at` column) with `updatedAt` moved to that time. */
  function Acknowledged(f: Feedback, now: int): (g: Feedback)
    ensures g.acknowledged && g.acknowledgedAt == Some(now) && g.updatedAt == now
    ensures g.id == f.id && g.managerId == f.managerId && g.employeeId == f.employeeId
    ensures g.strengths == f.strengths && g.areasToImprove == f.areasToImprove
    ensures g.sentiment == f.sentiment && g.createdAt == f.createdAt
  {
    f.(acknowledged := true, acknowledgedAt := Some(now), updatedAt := now)
  }

  /** Nothing guards a second acknowledgement: it keeps the flag and overwrites the time. */
  lemma AcknowledgeTwiceOverwrites(f: Feedback, first: int, second: int)
    ensures Acknowledged(Acknowledged(f, first), second) == Acknowledged(f, second)
  {
  }

  /** The feedback list after rewriting, with `g`, the records whose id is `id`. */
  ghost predicate RewrittenById(before: seq<Feedback>, after: seq<Feedback>, id: int, g: Feedback -> Feedback)
  {
    && |after| == |before|
    && forall i :: 0 <= i < |before| ==> after[i] == if before[i].id == id then g(before[i]) else before[i]
  }

  // ----------------------------------------------------------------- store

  /** The database: users and feedback rows in insertion order, and the next primary keys. */
  class Store {
    var users: seq<User>
    var feedback: seq<Feedback>
    var nextUserId: int
    var nextFeedbackId: int

    /** Primary keys are positive, unique and below the next key to hand out. */
    ghost predicate Valid()
      reads this
    {
      && 0 < nextUserId && 0 < nextFeedbackId
      && (forall i :: 0 <= i < |users| ==> 0 < users[i].id < nextUserId)
      && (forall i, j :: 0 <= i < j < |users| ==> users[i].id != users[j].id)
      && (forall i :: 0 <= i < |feedback| ==> 0 < feedback[i].id < nextFeedbackId)
      && (forall i, j :: 0 <= i < j < |feedback| ==> feedback[i].id != feedback[j].id)
    }

    /** Every row has an acknowledgement time exactly when it is acknowledged. The database
        does not enforce this (a row can be written acknowledged with no time), but no
        operation here breaks it once it holds. */
    ghost predicate AcknowledgementsStamped()
      reads this
    {
      forall i :: 0 <= i < |feedback| ==> (feedback[i].acknowledged <==> feedback[i].acknowledgedAt.Some?)
    }

    constructor ()
      ensures Valid() && AcknowledgementsStamped() && users == [] && feedback == []
    {
      users, feedback := [], [];
      nextUserId, nextFeedbackId := 1, 1;
    }

    /** `create_user`: a new row with the next id, the request's fields and the time. */
    method CreateUser(input: UserCreate, now: int) returns (u: User)
      requires Valid()
      modifies this
      ensures Valid()
      ensures u == User(old(nextUserId), input.email, input.name, input.role, input.managerId, now)
      ensures forall v :: v in old(users) ==> v.id != u.id
      ensures users == old(users) + [u]
      ensures feedback == old(feedback) && nextFeedbackId == old(nextFeedbackId)
      ensures nextUserId == old(nextUserId) + 1
      ensures old(AcknowledgementsStamped()) ==> AcknowledgementsStamped()
    {
      u := User(nextUserId, input.email, input.name, input.role, input.managerId, now);
      users := users + [u];
      nextUserId := nextUserId + 1;
    }

    /** `create_feedback`: a new unacknowledged row written by `managerId`, carrying the
        request's four fields verbatim. The `created_at` and `updated_at` column defaults are
        two separate clock reads, `createdAt` and `updatedAt`. */
    method CreateFeedback(input: FeedbackCreate, managerId: int, createdAt: int, updatedAt: int) returns (f: Feedback)
      requires Valid()
      modifies this
      ensures Valid()
      ensures f.managerId == managerId && f.employeeId == input.employeeId
      ensures f.strengths == input.strengths && f.areasToImprove == input.areasToImprove
      ensures f.sentiment == input.sentiment
      ensures !f.acknowledged && f.acknowledgedAt == None
      ensures f.createdAt == createdAt && f.updatedAt == updatedAt
      ensures f.id == old(nextFeedbackId) && forall g :: g in old(feedback) ==> g.id != f.id
      ensures feedback == old(feedback) + [f]
      ensures users == old(users) && nextUserId == old(nextUserId)
      ensures nextFeedbackId == old(nextFeedbackId) + 1
      ensures old(AcknowledgementsStamped()) ==> AcknowledgementsStamped()
    {
      f := Feedback(nextFeedbackId, managerId, input.employeeId, input.strengths,
                    input.areasToImprove, input.sentiment, createdAt, updatedAt, false, None);
      feedback := feedback + [f];
      nextFeedbackId := nextFeedbackId + 1;
    }

    /** `update_feedback`: on an unknown id, None and no change; otherwise the record with
        that id (the only one) is patched and returned, and every other record is kept. */
    method UpdateFeedback(id: int, upd: FeedbackUpdate, now: int) returns (r: Option<Feedback>)
      requires Valid()
      modifies this
      ensures Valid()
      ensures FindFeedback(old(feedback), id).None? ==> r == None && feedback == old(feedback)
      ensures FindFeedback(old(feedback), id).Some? ==>
        r == Some(Patched(FindFeedback(old(feedback), id).value, upd, now))
      ensures RewrittenById(old(feedback), feedback, id, f => Patched(f, upd, now))
      ensures users == old(users)
      ensures nextUserId == old(nextUserId) && nextFeedbackId == old(nextFeedbackId)
      ensures old(AcknowledgementsStamped()) ==> AcknowledgementsStamped()
    {
      var found := FirstIndex(feedback, (f: Feedback) => f.id == id);
      if found.None? {
        r := None;
        return;
      }
      var i := found.value;
      var f := feedback[i];
      // the fields the request set, one assignment each
      if upd.strengths.Some? {
        f := f.(strengths := upd.strengths.value);
      }
      if upd.areasToImprove.Some? {
        f := f.(areasToImprove := upd.areasToImprove.value);
      }
      if upd.sentiment.Some? {
        f := f.(sentiment := upd.sentiment.value);
      }
      f := f.(updatedAt := now);
      assert f == Patched(feedback[i], upd, now);
      feedback := feedback[i := f];
      r := Some(f);
    }

    /** `acknowledge_feedback`: on an unknown id, None and no change; otherwise the record
        with that id is acknowledged at `now` and returned, and every other record is kept. */
    method AcknowledgeFeedback(id: int, now: int) returns (r: Option<Feedback>)
      requires Valid()
      modifies this
      ensures Valid()
      ensures FindFeedback(old(feedback), id).None? ==> r == None && feedback == old(feedback)
      ensures FindFeedback(old(feedback), id).Some? ==>
        r == Some(Acknowledged(FindFeedback(old(feedback), id).value, now))
      ensures RewrittenById(old(feedback), feedback, id, f => Acknowledged(f, now))
      ensures users == old(users)
      ensures nextUserId == old(nextUserId) && nextFeedbackId == old(nextFeedbackId)
      ensures old(AcknowledgementsStamped()) ==> AcknowledgementsStamped()
    {
      var found := FirstIndex(feedback, (f: Feedback) => f.id == id);
      if found.None? {
        r := None;
        return;
      }
      var i := found.value;
      var f := feedback[i];
      f := f.(acknowledged := true);
      f := f.(acknowledgedAt := Some(now));
      f := f.(updatedAt := now);
      assert f == Acknowledged(feedback[i], now);
      feedback := feedback[i := f];
      r := Some(f);
    }

    /** `get_manager_dashboard`, read from the current rows. */
    method GetManagerDashboard(managerId: int) returns (d: ManagerDashboard)
      ensures d == ManagerDashboardOf(users, feedback, managerId)
    {
      var team := TeamMembers(users, managerId);
      var given := FeedbackByManager(feedback, managerId);
      var recent := MostRecent(given, RecentLimit);
      var summary := SummarizeSentiments(given);
      d := ManagerDashboard(|team|, |given|, recent, summary);
    }

    /** `get_employee_dashboard`, read from the current rows. */
    method GetEmployeeDashboard(employeeId: int) returns (d: EmployeeDashboard)
      ensures d == EmployeeDashboardOf(feedback, employeeId)
    {
      var received := FeedbackByEmployee(feedback, employeeId);
      var pending := Unacknowledged(received);
      var recent := MostRecent(received, RecentLimit);
      var summary := SummarizeSentiments(received);
      d := EmployeeDashboard(|received|, |pending|, recent, summary);
    }
  }
}
