/**
 * The role-based access API of backend/rbac_api.py with its database
 * abstracted away: the mock user table, the demonstration identity every
 * request receives, and the way each endpoint shapes the rows its query
 * returns into a response.
 */
module RbacApi {
  import opened Wrappers
  import Session

  // ---------------------------------------------------------------------
  // Users

  /** A user dictionary seen as a value; `userId` is the "user_id" key, which only the current-user copy carries. */
  datatype UserEntry = UserEntry(role: string, permissions: seq<string>, classIds: seq<string>, userId: Option<string>)

  const AdminUserId := "admin_001"

  /** `MOCK_USERS`, as values. */
  const MockUserRecords: map<string, UserEntry> := map[
    "teacher_123" := UserEntry("teacher", ["view_class_data", "view_student_progress", "modify_settings"], ["CLASS_A", "CLASS_B"], None),
    "admin_001" := UserEntry("administrator",
      ["view_all_data", "modify_settings", "export_data", "manage_users", "view_audit_logs", "manage_privacy"], ["*"], None),
    "dpo_001" := UserEntry("dpo", ["view_audit_logs", "export_data", "manage_privacy"], ["*"], None),
    "teacher_456" := UserEntry("teacher", ["view_class_data", "view_student_progress"], ["CLASS_C"], None)
  ]

  /** A mutable user dictionary. */
  class UserInfo {
    var role: string
    var permissions: seq<string>
    var classIds: seq<string>
    var userId: Option<string>

    constructor (entry: UserEntry)
      ensures Entry() == entry
    {
      role := entry.role;
      permissions := entry.permissions;
      classIds := entry.classIds;
      userId := entry.userId;
    }

    function Entry(): (e: UserEntry)
      reads this
      ensures e.role == role && e.permissions == permissions && e.classIds == classIds && e.userId == userId
    {
      UserEntry(role, permissions, classIds, userId)
    }

    /** `dict.copy()`: a new dictionary with the same entries. */
    method Copy() returns (c: UserInfo)
      ensures fresh(c) && c.Entry() == Entry()
    {
      c := new UserInfo(Entry());
    }

    /** `user_info["user_id"] = id`. */
    method SetUserId(id: string)
      modifies this
      ensures Entry() == old(Entry()).(userId := Some(id))
    {
      userId := Some(id);
    }
  }

  /** The `MOCK_USERS` dictionary: user ids to user dictionaries. */
  class UserTable {
    var users: map<string, UserInfo>

    /** A table holding one new dictionary per record; the application builds it from MockUserRecords. */
    constructor (records: map<string, UserEntry>)
      ensures Snapshot() == records
    {
      var u: map<string, UserInfo> := map[];
      var remaining := records.Keys;
      while remaining != {}
        invariant remaining <= records.Keys
        invariant u.Keys == records.Keys - remaining
        invariant forall id :: id in u ==> u[id].Entry() == records[id]
        decreases remaining
      {
        var id :| id in remaining;
        var info := new UserInfo(records[id]);
        u := u[id := info];
        remaining := remaining - {id};
      }
      users := u;
    }

    /** The table's contents as values. */
    function Snapshot(): (s: map<string, UserEntry>)
      reads this, users.Values
      ensures s.Keys == users.Keys
      ensures forall id :: id in users ==> s[id] == users[id].Entry()
    {
      map id | id in users :: users[id].Entry()
    }
  }

  /**
   * `get_current_user`: whatever the authorization header says, a copy of the
   * administrator's dictionary with "user_id" set; the table itself is left
   * as it was.
   */
  method GetCurrentUser(table: UserTable, authorization: Option<string>) returns (user: UserInfo)
    requires AdminUserId in table.users
    ensures fresh(user)
    ensures user.Entry() == table.users[AdminUserId].Entry().(userId := Some(AdminUserId))
    ensures table.Snapshot() == old(table.Snapshot())
  {
    var admin := table.users[AdminUserId];
    user := admin.Copy();
    user.SetUserId(AdminUserId);
  }

  /** The administrator record the current user is copied from. */
  lemma AdminRecord()
    ensures AdminUserId in MockUserRecords
    ensures MockUserRecords[AdminUserId].role == "administrator"
    ensures MockUserRecords[AdminUserId].classIds == ["*"]
    ensures MockUserRecords[AdminUserId].userId == None
  {
  }

  /**
   * The token table of the login action and the user table agree: every
   * token names a user whose role is the role that yields the token. The
   * fourth user, teacher_456, is reachable by no token.
   */
  lemma TokensNameTheirUsers()
    ensures forall role :: role in Session.MockTokens ==>
      Session.MockTokens[role] in MockUserRecords && MockUserRecords[Session.MockTokens[role]].role == role
    ensures "teacher_456" in MockUserRecords
    ensures forall role :: role in Session.MockTokens ==> Session.MockTokens[role] != "teacher_456"
  {
    Session.MockTokenValues();
  }

  // ---------------------------------------------------------------------
  // Rounding averages
  //
  // The scores are integers, so PostgreSQL's AVG is a numeric, which
  // arrives as a Decimal; `round(d, 1)` on a Decimal is exact and rounds
  // half to even.

  /** The integer nearest to y, a tie going to the even one. */
  function RoundHalfEven(y: real): (k: int)
    ensures -0.5 <= k as real - y <= 0.5
    ensures (k as real - y == 0.5 || y - k as real == 0.5) ==> k % 2 == 0
  {
    var n := y.Floor;
    assert n as real <= y < n as real + 1.0;
    if y - n as real < 0.5 then n else if y - n as real > 0.5 then n + 1 else if n % 2 == 0 then n else n + 1
  }

  /** No integer is nearer to y than its rounding. */
  lemma RoundHalfEvenIsNearest(y: real, m: int)
    ensures var k := RoundHalfEven(y);
      (if k as real >= y then k as real - y else y - k as real) <= (if m as real >= y then m as real - y else y - m as real)
  {
    var k := RoundHalfEven(y);
    if m < k {
      assert m as real <= k as real - 1.0;
    } else if m > k {
      assert m as real >= k as real + 1.0;
    }
  }

  /** A whole number of tenths. */
  ghost predicate IsTenths(x: real) {
    (x * 10.0).Floor as real == x * 10.0
  }

  /** `round(d, 1)`: a whole number of tenths within half a tenth of d, the even one on a tie. */
  function RoundTenth(x: real): (r: real)
    ensures r * 10.0 == RoundHalfEven(x * 10.0) as real
    ensures IsTenths(r)
    ensures -0.05 <= r - x <= 0.05
  {
    var k := RoundHalfEven(x * 10.0);
    var r := k as real / 10.0;
    assert r * 10.0 == k as real;
    assert (k as real).Floor == k;
    r
  }

  /** No whole number of tenths is nearer to x than its rounding. */
  lemma RoundTenthIsNearest(x: real, t: real)
    requires IsTenths(t)
    ensures (if RoundTenth(x) >= x then RoundTenth(x) - x else x - RoundTenth(x)) <= (if t >= x then t - x else x - t)
  {
    RoundHalfEvenIsNearest(x * 10.0, (t * 10.0).Floor);
  }

  /** Rounding leaves a whole number of tenths alone. */
  lemma RoundTenthOfTenths(x: real)
    requires IsTenths(x)
    ensures RoundTenth(x) == x
  {
  }

  /** Halves go to the even tenth; anything else to the nearer one. */
  lemma RoundTenthHalves()
    ensures RoundTenth(0.25) == 0.2 && RoundTenth(0.35) == 0.4 && RoundTenth(72.36) == 72.4
  {
  }

  // ---------------------------------------------------------------------
  // Result rows and the responses built from them

  /** A date-time value from the database, represented by its ISO 8601 text. */
  datatype DateTime = DateTime(iso: string)

  /** A JSON value as stored in a `jsonb` column or posted by a client. */
  datatype Json = JNull | JBool(b: bool) | JNumber(n: real) | JString(s: string) | JArray(items: seq<Json>) | JObject(fields: seq<(string, Json)>)

  datatype HttpError = HttpError(statusCode: int, detail: string)

  /** One group of the class-radar query; an aggregate over no non-null scores is NULL. */
  datatype RadarRow = RadarRow(
    topic: string, concept: string, uncertainty: string, studentCount: int,
    avgScore: Option<real>, minScore: Option<real>, maxScore: Option<real>)

  datatype RadarItem = RadarItem(
    topic: string, concept: string, uncertainty: string, students: int,
    avgScore: real, minScore: Option<real>, maxScore: Option<real>)

  datatype RadarResponse = RadarResponse(data: seq<RadarItem>, userRole: string, permissions: seq<string>, timestamp: string)

  /** One radar item: the average rounded to a tenth, a NULL one (or a zero one, which is falsy) reported as 0; everything else is passed through. */
  function RadarItemOf(row: RadarRow): (item: RadarItem)
    ensures item.avgScore == RoundTenth(row.avgScore.GetOr(0.0))
    ensures item.topic == row.topic && item.concept == row.concept && item.uncertainty == row.uncertainty
    ensures item.students == row.studentCount && item.minScore == row.minScore && item.maxScore == row.maxScore
  {
    var avg := if row.avgScore.Some? && row.avgScore.value != 0.0 then RoundTenth(row.avgScore.value) else 0.0;
    RadarItem(row.topic, row.concept, row.uncertainty, row.studentCount, avg, row.minScore, row.maxScore)
  }

  /** `get_class_radar`: one item per group, in query order, with the current user's role and permissions. */
  method GetClassRadar(user: UserInfo, rows: seq<RadarRow>, now: string) returns (response: RadarResponse)
    ensures |response.data| == |rows|
    ensures forall i :: 0 <= i < |rows| ==> response.data[i] == RadarItemOf(rows[i])
    ensures response.userRole == user.role && response.permissions == user.permissions
    ensures response.timestamp == now
  {
    var radarData: seq<RadarItem> := [];
    for i := 0 to |rows|
      invariant |radarData| == i
      invariant forall k :: 0 <= k < i ==> radarData[k] == RadarItemOf(rows[k])
    {
      radarData := radarData + [RadarItemOf(rows[i])];
    }
    response := RadarResponse(radarData, user.role, user.permissions, now);
  }

  /** One interaction of the student-timeline query. */
  datatype TimelineRow = TimelineRow(
    pseudonym: string, topic: string, concept: string, score: Option<real>, uncertainty: string,
    interactionType: string, timestamp: Option<DateTime>, consentProvenance: string, rationaleDetails: Json)

  datatype TimelineEvent = TimelineEvent(
    pseudonym: string, topic: string, concept: string, score: Option<real>, uncertainty: string,
    interactionType: string, timestamp: Option<string>, consentProvenance: string, rationale: Json)

  /** One group of the mastery query; the average is NULL when every score of the group is. */
  datatype MasteryRow = MasteryRow(topic: string, avgScore: Option<real>, interactionCount: int)

  datatype Mastery = Mastery(topic: string, averageScore: real, interactionCount: int)

  datatype StudentResponse = StudentResponse(
    studentName: string, studentId: string, timelineEvents: seq<TimelineEvent>,
    masterySummary: seq<Mastery>, userRole: string, accessLevel: string)

  const StudentNotFound := "Student not found or no interactions recorded"

  /** The detail of the 500 for an exception other than a database error. */
  const UnexpectedError := "An unexpected error occurred: "

  /** The text of the TypeError `round(None, 1)` raises. */
  const RoundOfNone := "type NoneType doesn't define __round__ method"

  /** One timeline event: the timestamp in ISO 8601 form when there is one; everything else is passed through. */
  function TimelineEventOf(row: TimelineRow): (e: TimelineEvent)
    ensures e.timestamp.Some? <==> row.timestamp.Some?
    ensures e.timestamp.Some? ==> e.timestamp.value == row.timestamp.value.iso
    ensures e.pseudonym == row.pseudonym && e.topic == row.topic && e.concept == row.concept && e.score == row.score
    ensures e.uncertainty == row.uncertainty && e.interactionType == row.interactionType
    ensures e.consentProvenance == row.consentProvenance && e.rationale == row.rationaleDetails
  {
    TimelineEvent(row.pseudonym, row.topic, row.concept, row.score, row.uncertainty, row.interactionType,
      match row.timestamp case Some(t) => Some(t.iso) case None => None,
      row.consentProvenance, row.rationaleDetails)
  }

  /** One mastery summary, its average rounded to a tenth; a NULL average cannot be rounded, so there is no summary for it. */
  function MasteryOf(row: MasteryRow): (m: Option<Mastery>)
    ensures m.None? <==> row.avgScore.None?
    ensures m.Some? ==> (m.value.topic == row.topic && m.value.averageScore == RoundTenth(row.avgScore.value)
                         && m.value.interactionCount == row.interactionCount)
  {
    match row.avgScore
    case None => None
    case Some(avg) => Some(Mastery(row.topic, RoundTenth(avg), row.interactionCount))
  }

  /** Python's `s[:n]` for n >= 0: the first n characters, or all of s when it is shorter. */
  function Head(s: string, n: nat): (r: string)
    ensures |r| == if |s| < n then |s| else n
    ensures r == s[..|r|]
  {
    if |s| < n then s else s[..n]
  }

  /** The displayed name: "Student ", at most eight characters of the pseudonym, and an ellipsis. */
  function StudentName(pseudonym: string): (name: string)
    ensures |name| == 11 + |Head(pseudonym, 8)| && |name| <= 19
    ensures name[..8] == "Student " && name[|name| - 3..] == "..."
    ensures name[8..|name| - 3] == Head(pseudonym, 8)
  {
    "Student " + Head(pseudonym, 8) + "..."
  }

  /** Two pseudonyms get the same name exactly when their first eight characters agree. */
  lemma StudentNameIdentifiesPrefix(p: string, q: string)
    ensures StudentName(p) == StudentName(q) <==> Head(p, 8) == Head(q, 8)
  {
    if StudentName(p) == StudentName(q) {
      var n := StudentName(p);
      assert Head(p, 8) == n[8..|n| - 3] == Head(q, 8);
    }
  }

  /**
   * `get_student_data`: 404 when the pseudonym has no interactions; a 500
   * when a mastery group's average is NULL (rounding it raises a TypeError,
   * which the catch-all handler reports); otherwise one event per timeline
   * row and one summary per mastery row, both in query order, under the
   * abbreviated name.
   */
  method GetStudentData(pseudonym: string, user: UserInfo, timelineRows: seq<TimelineRow>, masteryRows: seq<MasteryRow>)
    returns (result: Result<StudentResponse, HttpError>)
    ensures result.Failure? <==> timelineRows == [] || exists i :: 0 <= i < |masteryRows| && masteryRows[i].avgScore.None?
    ensures timelineRows == [] ==> result == Failure(HttpError(404, StudentNotFound))
    ensures timelineRows != [] && result.Failure? ==> result.error == HttpError(500, UnexpectedError + RoundOfNone)
    ensures result.Success? ==>
      var r := result.value;
      r.studentName == StudentName(pseudonym) && r.studentId == pseudonym
      && |r.timelineEvents| == |timelineRows|
      && (forall i :: 0 <= i < |timelineRows| ==> r.timelineEvents[i] == TimelineEventOf(timelineRows[i]))
      && |r.masterySummary| == |masteryRows|
      && (forall i :: 0 <= i < |masteryRows| ==> MasteryOf(masteryRows[i]) == Some(r.masterySummary[i]))
      && r.userRole == user.role && r.accessLevel == "full"
  {
    if timelineRows == [] {
      return Failure(HttpError(404, StudentNotFound));
    }
    var timeline: seq<TimelineEvent> := [];
    for i := 0 to |timelineRows|
      invariant |timeline| == i
      invariant forall k :: 0 <= k < i ==> timeline[k] == TimelineEventOf(timelineRows[k])
    {
      timeline := timeline + [TimelineEventOf(timelineRows[i])];
    }
    var mastery: seq<Mastery> := [];
    for i := 0 to |masteryRows|
      invariant |mastery| == i
      invariant forall k :: 0 <= k < i ==> MasteryOf(masteryRows[k]) == Some(mastery[k])
    {
      var m := MasteryOf(masteryRows[i]);
      if m.None? {
        return Failure(HttpError(500, UnexpectedError + RoundOfNone));
      }
      mastery := mastery + [m.value];
    }
    result := Success(StudentResponse(StudentName(pseudonym), pseudonym, timeline, mastery, user.role, "full"));
  }

  /** One row of the audit-log query. */
  datatype AuditRow = AuditRow(id: int, timestamp: Option<DateTime>, userId: string, role: string, actionType: string, details: Json)

  datatype AuditLogOut = AuditLogOut(id: int, timestamp: Option<string>, userId: string, role: string, action: string, details: Json)

  datatype AuditLogsResponse = AuditLogsResponse(auditLogs: seq<AuditLogOut>, userRole: string, totalLogs: int)

  /** One audit record, renamed to the viewer's field names. */
  function AuditLogOf(row: AuditRow): (log: AuditLogOut)
    ensures log.timestamp.Some? <==> row.timestamp.Some?
    ensures log.timestamp.Some? ==> log.timestamp.value == row.timestamp.value.iso
    ensures log.id == row.id && log.userId == row.userId && log.role == row.role
    ensures log.action == row.actionType && log.details == row.details
  {
    AuditLogOut(row.id, match row.timestamp case Some(t) => Some(t.iso) case None => None,
      row.userId, row.role, row.actionType, row.details)
  }

  /** `get_audit_logs`: one record per row, in query order, and a count that is the number of records. */
  method GetAuditLogs(user: UserInfo, rows: seq<AuditRow>) returns (response: AuditLogsResponse)
    ensures response.totalLogs == |response.auditLogs| == |rows|
    ensures forall i :: 0 <= i < |rows| ==> response.auditLogs[i] == AuditLogOf(rows[i])
    ensures response.userRole == user.role
  {
    var auditLogs: seq<AuditLogOut> := [];
    for i := 0 to |rows|
      invariant |auditLogs| == i
      invariant forall k :: 0 <= k < i ==> auditLogs[k] == AuditLogOf(rows[k])
    {
      auditLogs := auditLogs + [AuditLogOf(rows[i])];
    }
    response := AuditLogsResponse(auditLogs, user.role, |auditLogs|);
  }

  datatype UserInfoResponse = UserInfoResponse(role: string, permissions: seq<string>, classIds: seq<string>)

  /** `get_user_info`: the role, permissions and classes of the user, and nothing else (no user id). */
  function GetUserInfo(user: UserEntry): (r: UserInfoResponse)
    ensures r.role == user.role && r.permissions == user.permissions && r.classIds == user.classIds
  {
    UserInfoResponse(user.role, user.permissions, user.classIds)
  }

  /** What the user-info endpoint reports whatever the caller sends: the administrator. */
  method UserInfoEndpoint(table: UserTable, authorization: Option<string>) returns (info: UserInfoResponse)
    requires table.Snapshot() == MockUserRecords
    ensures info == UserInfoResponse("administrator",
      ["view_all_data", "modify_settings", "export_data", "manage_users", "view_audit_logs", "manage_privacy"], ["*"])
  {
    assert AdminUserId in table.Snapshot();
    var user := GetCurrentUser(table, authorization);
    info := GetUserInfo(user.Entry());
  }

  // ---------------------------------------------------------------------
  // Logging an action

  /** The values inserted into the audit-log table. */
  datatype AuditInsert = AuditInsert(userId: string, role: string, actionType: Json, details: Json)

  /** `dict.get(key, default)` over a posted JSON object; for a repeated key the last one counts. */
  function Lookup(entry: map<string, Json>, key: string, default: Json): (v: Json)
    ensures key in entry ==> v == entry[key]
    ensures key !in entry ==> v == default
  {
    if key in entry then entry[key] else default
  }

  const UnknownUser := "unknown"
  const UnknownAction := JString("UNKNOWN_ACTION")
  const EmptyDetails := JObject([])

  /**
   * `log_action`'s insert: the user's id, or "unknown" when the user
   * dictionary has none; the posted action type, or "UNKNOWN_ACTION"; the
   * posted details, or an empty object.
   */
  function LogAction(user: UserEntry, logEntry: map<string, Json>): (row: AuditInsert)
    ensures row.userId == user.userId.GetOr(UnknownUser)
    ensures row.role == user.role
    ensures row.actionType == (if "action_type" in logEntry then logEntry["action_type"] else UnknownAction)
    ensures row.details == (if "details" in logEntry then logEntry["details"] else EmptyDetails)
  {
    AuditInsert(
      match user.userId case Some(id) => id case None => UnknownUser,
      user.role,
      Lookup(logEntry, "action_type", UnknownAction),
      Lookup(logEntry, "details", EmptyDetails))
  }

  const LogActionReply := ("success", "Action logged successfully")

  /**
   * A logged action is attributed to the administrator, never to "unknown",
   * whatever the caller sends, since the current user always carries a user id.
   */
  method LogActionEndpoint(table: UserTable, authorization: Option<string>, logEntry: map<string, Json>)
    returns (row: AuditInsert, reply: (string, string))
    requires table.Snapshot() == MockUserRecords
    ensures row.userId == AdminUserId && row.role == "administrator"
    ensures row.actionType == Lookup(logEntry, "action_type", UnknownAction)
    ensures reply == LogActionReply
  {
    assert AdminUserId in table.Snapshot();
    var user := GetCurrentUser(table, authorization);
    row := LogAction(user.Entry(), logEntry);
    reply := LogActionReply;
  }

  /**
   * Whatever token the front end sends, the class radar reports the
   * administrator's role, because the header is never looked at.
   */
  method RadarRoleIgnoresToken(table: UserTable, token: string, rows: seq<RadarRow>, now: string) returns (role: string)
    requires table.Snapshot() == MockUserRecords
    ensures role == "administrator"
  {
    assert AdminUserId in table.Snapshot();
    var user := GetCurrentUser(table, Some("Bearer " + token));
    var response := GetClassRadar(user, rows, now);
    role := response.userRole;
  }
}
