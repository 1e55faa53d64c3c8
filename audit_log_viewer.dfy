/**
 * The record filter of frontend/components/audit-log-viewer.tsx: a log is
 * shown when the search term occurs, ignoring case, in its action, user id or
 * log id, and its role equals the selected role ("all" selects every role).
 */
module AuditLogViewer {
  import opened Strings
  import opened Seqs

  datatype AuditLog = AuditLog(
    id: string,
    timestamp: string,
    userId: string,
    role: string,
    action: string,
    details: seq<(string, string)>)

  /** The records the viewer shows. */
  const AuditLogs: seq<AuditLog> := [
    AuditLog("log_001", "2025-06-21 09:30:00", "teacher_123", "Teacher",
             "Accessed Student Drill-Down for STU-4567",
             [("studentId", "STU-4567"), ("view", "Student Drill-Down")]),
    AuditLog("log_002", "2025-06-21 10:15:30", "admin_001", "Administrator",
             "Modified Override Panel: Hint Strictness to 70%",
             [("panel", "Override Panel"), ("setting", "Hint Strictness"), ("oldValue", "50%"), ("newValue", "70%")]),
    AuditLog("log_003", "2025-06-21 11:00:10", "teacher_123", "Teacher",
             "Viewed Class Radar",
             [("view", "Class Radar")]),
    AuditLog("log_004", "2025-06-21 11:45:00", "dpo_001", "DPO",
             "Exported Audit Log Data",
             [("format", "JSON"), ("dateRange", "2025-06-01 to 2025-06-21")]),
    AuditLog("log_005", "2025-06-21 13:20:05", "teacher_456", "Teacher",
             "Accessed Student Drill-Down for STU-1234",
             [("studentId", "STU-1234"), ("view", "Student Drill-Down")])
  ]

  /** The value of the role selector that lets every role through. */
  const AllRoles := "all"

  /** The search term occurs, after lower-casing both sides, in the action, the user id or the log id. */
  predicate MatchesSearch(log: AuditLog, searchTerm: string)
    ensures searchTerm == "" ==> MatchesSearch(log, searchTerm)
  {
    var term := Lower(searchTerm);
    EmptyIsContained(Lower(log.action));
    Contains(Lower(log.action), term) || Contains(Lower(log.userId), term) || Contains(Lower(log.id), term)
  }

  /** Exact, case-sensitive role comparison, unless every role is selected. */
  predicate MatchesRole(log: AuditLog, filterRole: string) {
    filterRole == AllRoles || log.role == filterRole
  }

  predicate Shown(log: AuditLog, searchTerm: string, filterRole: string) {
    MatchesSearch(log, searchTerm) && MatchesRole(log, filterRole)
  }

  /** `filteredLogs`: the records passing both tests, in their original order. */
  function FilteredLogs(logs: seq<AuditLog>, searchTerm: string, filterRole: string): (r: seq<AuditLog>)
    ensures IsSubsequence(r, logs)
    ensures forall i :: 0 <= i < |r| ==> r[i] in logs && MatchesSearch(r[i], searchTerm) && MatchesRole(r[i], filterRole)
    ensures forall i :: 0 <= i < |logs| && MatchesSearch(logs[i], searchTerm) && MatchesRole(logs[i], filterRole) ==> logs[i] in r
    ensures forall log :: multiset(r)[log] == if MatchesSearch(log, searchTerm) && MatchesRole(log, filterRole) then multiset(logs)[log] else 0
  {
    var p := (log: AuditLog) => Shown(log, searchTerm, filterRole);
    FilterIsSubsequence(logs, p);
    FilterMultiplicity(logs, p);
    Filter(logs, p)
  }

  /** The search matches exactly when the lower-cased term occurs at some position of one of the three lower-cased fields. */
  lemma MatchesSearchIffOccurs(log: AuditLog, searchTerm: string)
    ensures MatchesSearch(log, searchTerm) <==>
      (exists i :: OccursAt(Lower(log.action), Lower(searchTerm), i))
      || (exists i :: OccursAt(Lower(log.userId), Lower(searchTerm), i))
      || (exists i :: OccursAt(Lower(log.id), Lower(searchTerm), i))
  {
    ContainsIffOccurs(Lower(log.action), Lower(searchTerm));
    ContainsIffOccurs(Lower(log.userId), Lower(searchTerm));
    ContainsIffOccurs(Lower(log.id), Lower(searchTerm));
  }

  /** Upper and lower case in the search term make no difference. */
  lemma SearchIgnoresCase(log: AuditLog, searchTerm: string)
    ensures MatchesSearch(log, Lower(searchTerm)) == MatchesSearch(log, searchTerm)
  {
    LowerIdempotent(searchTerm);
  }

  /** With an empty search and every role selected, every record is shown. */
  lemma NoFilterShowsAll(logs: seq<AuditLog>)
    ensures FilteredLogs(logs, "", AllRoles) == logs
  {
    assert Lower("") == "";
    forall log | log in logs ensures Shown(log, "", AllRoles) {
      EmptyIsContained(Lower(log.action));
    }
    FilterKeepsAll(logs, (log: AuditLog) => Shown(log, "", AllRoles));
  }

  /** Selecting a role shows a subsequence of what selecting every role shows. */
  lemma RoleFilterNarrows(logs: seq<AuditLog>, searchTerm: string, filterRole: string)
    ensures IsSubsequence(FilteredLogs(logs, searchTerm, filterRole), FilteredLogs(logs, searchTerm, AllRoles))
  {
    FilterMonotone(logs, (log: AuditLog) => Shown(log, searchTerm, filterRole),
                         (log: AuditLog) => Shown(log, searchTerm, AllRoles));
  }

  /** A role that no record carries shows nothing, whatever the search term. */
  lemma UnknownRoleShowsNothing(logs: seq<AuditLog>, searchTerm: string, filterRole: string)
    requires filterRole != AllRoles
    requires forall i :: 0 <= i < |logs| ==> logs[i].role != filterRole
    ensures FilteredLogs(logs, searchTerm, filterRole) == []
  {
  }

  /** The role filter is case-sensitive: the records carry "Teacher", so selecting "teacher" shows none of them. */
  lemma RoleFilterIsCaseSensitive(searchTerm: string)
    ensures FilteredLogs(AuditLogs, searchTerm, "teacher") == []
  {
    var teacher := "teacher";
    assert forall i :: 0 <= i < |AuditLogs| ==> AuditLogs[i].role != teacher by {
      assert AuditLogs[0].role[0] == 'T' && AuditLogs[2].role[0] == 'T' && AuditLogs[4].role[0] == 'T';
    }
    UnknownRoleShowsNothing(AuditLogs, searchTerm, teacher);
  }
}
