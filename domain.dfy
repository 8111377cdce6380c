/** The entities exchanged between the feedback backend and its browser client.
    Timestamps are integers (seconds since the Unix epoch); clock reads are parameters. */
module Domain {

  datatype Option<+T> = None | Some(value: T)

  /** A user's role: a manager gives feedback, an employee receives it. */
  datatype Role = Manager | Employee

  datatype Sentiment = Positive | Neutral | Negative

  /** The wire name of a role, as the enum values spell it. */
  function RoleName(r: Role): string
  {
    match r
    case Manager => "manager"
    case Employee => "employee"
  }

  /** The wire name of a sentiment. */
  function SentimentName(s: Sentiment): string
  {
    match s
    case Positive => "positive"
    case Neutral => "neutral"
    case Negative => "negative"
  }

  /** Reading a sentiment back from its wire name; anything else is not a sentiment. */
  function ParseSentiment(text: string): (r: Option<Sentiment>)
    ensures r.Some? ==> SentimentName(r.value) == text
  {
    if text == "positive" then Some(Positive)
    else if text == "neutral" then Some(Neutral)
    else if text == "negative" then Some(Negative)
    else None
  }

  lemma SentimentNameRoundTrip(s: Sentiment)
    ensures ParseSentiment(SentimentName(s)) == Some(s)
  {
  }

  /** A stored user. The password hash is not part of this model. */
  datatype User = User(
    id: int,
    email: string,
    name: string,
    role: Role,
    managerId: Option<int>,
    createdAt: int)

  /** A stored feedback record, without the manager/employee snapshots the ORM joins in. */
  datatype Feedback = Feedback(
    id: int,
    managerId: int,
    employeeId: int,
    strengths: string,
    areasToImprove: string,
    sentiment: Sentiment,
    createdAt: int,
    updatedAt: int,
    acknowledged: bool,
    acknowledgedAt: Option<int>)

  /** The body of a registration request (the password goes to the hashing module). */
  datatype UserCreate = UserCreate(email: string, name: string, role: Role, managerId: Option<int>)

  /** ASCII lower case of one character; every other character is kept. */
  function LowerAscii(c: char): (d: char)
    ensures 'A' <= c <= 'Z' ==> d as int == c as int + 32
    ensures !('A' <= c <= 'Z') ==> d == c
  {
    if 'A' <= c <= 'Z' then (c as int + 32) as char else c
  }

  /** The position of the last '@' in an address, -1 when there is none. */
  function LastAt(email: string): (k: int)
    ensures -1 <= k < |email|
    ensures k >= 0 ==> email[k] == '@'
    ensures forall j :: k < j < |email| ==> email[j] != '@'
  {
    if email == [] then -1
    else if email[|email| - 1] == '@' then |email| - 1
    else LastAt(email[..|email| - 1])
  }

  /** The address an `EmailStr` field (backend/schemas.py:16) hands on: the domain, the part
      after the last '@', in lower case; the local part and the '@' as given. */
  function NormalizeEmail(email: string): (r: string)
    ensures |r| == |email|
    ensures forall i :: 0 <= i <= LastAt(email) ==> r[i] == email[i]
    ensures forall i :: LastAt(email) < i < |email| ==> r[i] == LowerAscii(email[i])
  {
    if email == [] || email[|email| - 1] == '@' then email
    else NormalizeEmail(email[..|email| - 1]) + [LowerAscii(email[|email| - 1])]
  }

  /** Normalising twice is normalising once. */
  lemma {:induction false} NormalizeEmailIdempotent(email: string)
    ensures NormalizeEmail(NormalizeEmail(email)) == NormalizeEmail(email)
    decreases |email|
  {
    if email != [] && email[|email| - 1] != '@' {
      var front := email[..|email| - 1];
      var r := NormalizeEmail(email);
      assert r == NormalizeEmail(front) + [LowerAscii(email[|email| - 1])];
      assert r[..|r| - 1] == NormalizeEmail(front);
      NormalizeEmailIdempotent(front);
    }
  }

  /** Two addresses that differ only in the case of the domain normalise alike. */
  lemma DomainCaseIgnored(a: string, b: string)
    requires |a| == |b| && LastAt(a) == LastAt(b)
    requires forall i :: 0 <= i <= LastAt(a) ==> a[i] == b[i]
    requires forall i :: LastAt(a) < i < |a| ==> LowerAscii(a[i]) == LowerAscii(b[i])
    ensures NormalizeEmail(a) == NormalizeEmail(b)
  {
  }

  /** The local part keeps its case: addresses that differ anywhere up to the last '@'
      normalise differently. */
  lemma LocalCaseKept(a: string, b: string, i: int)
    requires 0 <= i <= LastAt(a) && i < |b| && a[i] != b[i]
    ensures NormalizeEmail(a) != NormalizeEmail(b)
  {
  }

  /** For instance, "a@B" and "a@b" are one address, and "A@b" is another. */
  lemma DomainCaseExample()
    ensures NormalizeEmail("a@B") == NormalizeEmail("a@b") == "a@b"
    ensures NormalizeEmail("A@b") != NormalizeEmail("a@b")
  {
    assert LastAt("a@B") == 1 && LastAt("a@b") == 1 && LastAt("A@b") == 1;
    assert NormalizeEmail("a@B")[2] == 'b' && NormalizeEmail("a@b")[2] == 'b';
    assert NormalizeEmail("A@b")[0] == 'A' && NormalizeEmail("a@b")[0] == 'a';
  }

  /** The body of a feedback creation request. */
  datatype FeedbackCreate = FeedbackCreate(
    employeeId: int,
    strengths: string,
    areasToImprove: string,
    sentiment: Sentiment)

  /** A partial update: None is a field the request left unset. */
  datatype FeedbackUpdate = FeedbackUpdate(
    strengths: Option<string>,
    areasToImprove: Option<string>,
    sentiment: Option<Sentiment>)

  datatype SentimentSummary = SentimentSummary(positive: nat, neutral: nat, negative: nat)

  datatype ManagerDashboard = ManagerDashboard(
    teamSize: nat,
    totalFeedback: nat,
    recentFeedback: seq<Feedback>,
    sentimentSummary: SentimentSummary)

  datatype EmployeeDashboard = EmployeeDashboard(
    totalFeedbackReceived: nat,
    unacknowledgedFeedback: nat,
    recentFeedback: seq<Feedback>,
    sentimentSummary: SentimentSummary)

  /** A bearer token as the token endpoint returns it. */
  datatype Token = Token(accessToken: string, tokenType: string)

  const BearerType := "bearer"
}
