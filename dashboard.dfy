/** The hospital dashboard's report list and bed statistics: the mock
    initial data, the accept and reject handlers, the filter/search view,
    the two summary counters and the "time ago" label. Rendering is not
    modelled; the clock and the random ward number are parameters. */
module Dashboard {
  import opened Wrappers
  import opened Seqs
  import opened Text

  datatype Coordinates = Coordinates(lat: real, lng: real)
  datatype Location = Location(address: string, coordinates: Coordinates)
  datatype Victim = Victim(name: string, age: nat, gender: string, contact: string, bloodType: string)
  /** `kind` is the field the dashboard calls `type` (a Dafny keyword);
      `time` is a timestamp in milliseconds. */
  datatype Incident = Incident(kind: string, severity: string, description: string,
                               injuries: seq<string>, time: int)
  datatype Ambulance = Ambulance(name: string, eta: string, status: string)

  /** One accident report. `acceptedAt` is absent until the report is accepted. */
  datatype Report = Report(id: string, location: Location, victim: Victim, incident: Incident,
                           ambulance: Ambulance, status: string,
                           assignedDoctor: Option<string>, ward: Option<string>,
                           acceptedAt: Option<int>)

  datatype Stats = Stats(totalBeds: int, availableBeds: int, occupiedBeds: int,
                         emergencyCasesToday: int, activeDoctors: int,
                         averageResponseTime: string, monthlyAdmissions: int)

  /** The signed-in user, as far as the dashboard reads it. */
  datatype SessionUser = SessionUser(fullName: Option<string>)

  // ---------------------------------------------------------------------
  // Initial state

  /** The four mock reports, with incident times relative to `now`. */
  function MockAccidentReports(now: int): (reports: seq<Report>)
    ensures |reports| == 4 && UniqueIds(reports)
  {
    [ Report("REQ001",
             Location("Ringroad, Kalanki, Kathmandu", Coordinates(27.6942, 85.2866)),
             Victim("Rajesh Thapa", 32, "Male", "+977-9851234567", "O+"),
             Incident("Two-vehicle collision", "High", "Head-on collision between car and motorcycle",
                      ["Head trauma", "Broken leg", "Internal bleeding"], now - 25 * 60000),
             Ambulance("Nepal Ambulance Service", "12 minutes", "En Route"),
             "pending", None, None, None),
      Report("REQ002",
             Location("Maitighar, Kathmandu", Coordinates(27.7000, 85.3200)),
             Victim("Sunita Rai", 45, "Female", "+977-9849876543", "A-"),
             Incident("Motorcycle accident", "Medium", "Single rider fell from bike",
                      ["Fractured arm", "Lacerations"], now - 42 * 60000),
             Ambulance("Medi-Rescue Ambulance", "8 minutes", "En Route"),
             "pending", None, None, None),
      Report("REQ003",
             Location("Balaju Bypass, Kathmandu", Coordinates(27.7350, 85.3000)),
             Victim("Bikram Shah", 28, "Male", "+977-9812345678", "B+"),
             Incident("Minor collision", "Low", "Car rear-ended another vehicle",
                      ["Whiplash", "Minor bruises"], now - 58 * 60000),
             Ambulance("City Emergency Services", "15 minutes", "En Route"),
             "pending", None, None, None),
      Report("REQ004",
             Location("Boudha, Kathmandu", Coordinates(27.7172, 85.3624)),
             Victim("Anita Gurung", 62, "Female", "+977-9865432198", "AB+"),
             Incident("Pedestrian accident", "Critical", "Pedestrian hit by speeding vehicle",
                      ["Multiple fractures", "Head injury", "Chest trauma"], now - 15 * 60000),
             Ambulance("Nepal Ambulance Service", "5 minutes", "Arriving"),
             "accepted", Some("Dr. Santosh Poudel"), Some("Emergency ICU"),
             Some(now - 10 * 60000)) ]
  }

  /** The mock hospital statistics. */
  function HospitalStats(): (s: Stats)
    ensures s.availableBeds + s.occupiedBeds == s.totalBeds
  {
    Stats(150, 42, 108, 8, 28, "14 min", 356)
  }

  // ---------------------------------------------------------------------
  // Time-ago label

  /** The label for a report received at `date`, seen at `now` (both in
      milliseconds). The minute count is the floor of the elapsed time
      over a minute; for a positive divisor Dafny's `/` is that floor,
      also for a negative elapsed time. */
  function FormatTimeAgo(now: int, date: int): (ago: string)
    ensures ago == "Just now" <==> now - date < 60000
  {
    var minutes := (now - date) / 60000;
    if minutes < 1 then "Just now"
    else
      var ago := if minutes < 60 then NatToString(minutes) + " min ago"
                 else NatToString(minutes / 60) + " hr ago";
      assert IsDigit(ago[0]) && !IsDigit("Just now"[0]);
      ago
  }

  /** From one to fifty-nine whole minutes, the label counts minutes. */
  lemma FormatTimeAgoMinutes(now: int, date: int, n: nat)
    requires 1 <= n < 60
    requires n * 60000 <= now - date < (n + 1) * 60000
    ensures FormatTimeAgo(now, date) == NatToString(n) + " min ago"
  {
    assert (now - date) / 60000 == n;
  }

  /** From one whole hour on, the label counts whole hours (without limit:
      a day-old report reads "24 hr ago"). */
  lemma FormatTimeAgoHours(now: int, date: int, n: nat)
    requires n >= 1
    requires n * 3600000 <= now - date < (n + 1) * 3600000
    ensures FormatTimeAgo(now, date) == NatToString(n) + " hr ago"
  {
    var m := (now - date) / 60000;
    assert n * 60 <= m < (n + 1) * 60;
    assert m / 60 == n;
  }

  // ---------------------------------------------------------------------
  // Accepting a report

  /** The larger of two numbers. */
  function Max(a: int, b: int): int { if a >= b then a else b }

  /** The assigned doctor: "Dr. " and the first word of the user's full
      name, falling back to "Hospital Staff" when there is no such word. */
  function DoctorName(user: Option<SessionUser>): (name: string)
    ensures |name| > 4 && name[..4] == "Dr. "
    ensures user.None? || user.value.fullName.None? ==> name[4..] == "Hospital Staff"
    ensures user.Some? && user.value.fullName.Some? ==>
              var full := user.value.fullName.value;
              var w := name[4..];
              if full == [] || full[0] == ' ' then w == "Hospital Staff"
              else 0 < |w| <= |full| && w == full[..|w|] && ' ' !in w && (|w| == |full| || full[|w|] == ' ')
  {
    var first := if user.Some? && user.value.fullName.Some? then FirstWord(user.value.fullName.value) else "";
    "Dr. " + (if first != "" then first else "Hospital Staff")
  }

  /** The ward label. `pick` stands for the random draw, a whole number
      from 0 to 4; the ward number is one more. */
  function WardName(pick: int): (ward: string)
    requires 0 <= pick < 5
    ensures |ward| == 16 && ward[..15] == "Emergency Ward "
    ensures '1' <= ward[15] <= '5' && DigitValue(ward[15]) == pick + 1
  {
    "Emergency Ward " + NatToString(pick + 1)
  }

  /** The accepted copy of `report`: the spread `{...report, status,
      assignedDoctor, ward, acceptedAt}`. */
  function AcceptedCopy(report: Report, user: Option<SessionUser>, pick: int, now: int): (u: Report)
    requires 0 <= pick < 5
    ensures u.status == "accepted" && u.assignedDoctor == Some(DoctorName(user))
    ensures u.ward == Some(WardName(pick)) && u.acceptedAt == Some(now)
    ensures u.(status := report.status, assignedDoctor := report.assignedDoctor,
               ward := report.ward, acceptedAt := report.acceptedAt) == report
  {
    report.(status := "accepted", assignedDoctor := Some(DoctorName(user)),
            ward := Some(WardName(pick)), acceptedAt := Some(now))
  }

  function ReplaceIfId(id: string, updated: Report): Report -> Report
  {
    (r: Report) => if r.id == id then updated else r
  }

  /** The report list after accepting `report`: each entry with its id
      becomes the accepted copy built from `report`. */
  function AcceptReports(prev: seq<Report>, report: Report, user: Option<SessionUser>,
                         pick: int, now: int): (next: seq<Report>)
    requires 0 <= pick < 5
    ensures |next| == |prev|
    ensures forall i :: 0 <= i < |prev| ==>
              next[i] == if prev[i].id == report.id then AcceptedCopy(report, user, pick, now) else prev[i]
  {
    Map(prev, ReplaceIfId(report.id, AcceptedCopy(report, user, pick, now)))
  }

  /** The stats update on accept: one more case and occupied bed, one
      fewer available bed but never below zero. */
  function AcceptStats(prev: Stats): (next: Stats)
    ensures next.emergencyCasesToday == prev.emergencyCasesToday + 1
    ensures next.occupiedBeds == prev.occupiedBeds + 1
    ensures next.availableBeds == if prev.availableBeds >= 1 then prev.availableBeds - 1 else 0
    ensures next.(emergencyCasesToday := prev.emergencyCasesToday, occupiedBeds := prev.occupiedBeds,
                  availableBeds := prev.availableBeds) == prev
    ensures prev.availableBeds >= 1 ==>
              next.availableBeds + next.occupiedBeds == prev.availableBeds + prev.occupiedBeds
  {
    prev.(emergencyCasesToday := prev.emergencyCasesToday + 1,
          availableBeds := Max(0, prev.availableBeds - 1),
          occupiedBeds := prev.occupiedBeds + 1)
  }

  // ---------------------------------------------------------------------
  // Rejecting a report

  function OtherId(id: string): Report -> bool
  {
    (r: Report) => r.id != id
  }

  /** The report list after rejecting `reportId`: every report with that
      id is gone, every other one stays, with its multiplicity and in order. */
  function RejectReports(prev: seq<Report>, reportId: string): (next: seq<Report>)
    ensures Sublist(next, prev)
    ensures forall x :: x in next <==> x in prev && x.id != reportId
    ensures forall x: Report :: x.id != reportId ==> multiset(next)[x] == multiset(prev)[x]
  {
    FilterSublist(prev, OtherId(reportId));
    FilterMembership(prev, OtherId(reportId));
    FilterMultiplicity(prev, OtherId(reportId));
    Filter(prev, OtherId(reportId))
  }

  // ---------------------------------------------------------------------
  // Filter and search

  /** The status filter: 'all' passes everything, 'pending' and 'accepted'
      pass that status, 'critical' passes severity "Critical". */
  predicate MatchesFilter(filter: string, r: Report): (ok: bool)
    ensures filter == "all" ==> ok
    ensures filter == "pending" ==> (ok <==> IsPending(r))
    ensures filter == "accepted" ==> (ok <==> r.status == "accepted")
    ensures filter == "critical" ==> (ok <==> IsCritical(r))
    ensures ok ==> filter in {"all", "pending", "accepted", "critical"}
  {
    || filter == "all"
    || (filter == "pending" && r.status == "pending")
    || (filter == "accepted" && r.status == "accepted")
    || (filter == "critical" && r.incident.severity == "Critical")
  }

  /** An empty term, or the lower-cased term inside the lower-cased victim
      name, address or incident type. */
  predicate MatchesSearch(term: string, r: Report): (ok: bool)
    ensures term == "" ==> ok
    ensures ok && term != "" ==>
              |term| <= |r.victim.name| || |term| <= |r.location.address| || |term| <= |r.incident.kind|
  {
    || term == ""
    || Includes(Lower(r.victim.name), Lower(term))
    || Includes(Lower(r.location.address), Lower(term))
    || Includes(Lower(r.incident.kind), Lower(term))
  }

  function Shown(filter: string, term: string): Report -> bool
  {
    (r: Report) => MatchesFilter(filter, r) && MatchesSearch(term, r)
  }

  /** The `filteredReports` view. */
  function FilterReports(reports: seq<Report>, filter: string, term: string): (view: seq<Report>)
    ensures Sublist(view, reports)
    ensures forall x :: x in view <==> x in reports && MatchesFilter(filter, x) && MatchesSearch(term, x)
    ensures forall x :: MatchesFilter(filter, x) && MatchesSearch(term, x) ==>
              multiset(view)[x] == multiset(reports)[x]
    ensures filter == "all" && term == "" ==> view == reports
    ensures filter !in {"all", "pending", "accepted", "critical"} ==> view == []
  {
    FilterSublist(reports, Shown(filter, term));
    FilterMembership(reports, Shown(filter, term));
    FilterMultiplicity(reports, Shown(filter, term));
    if filter == "all" && term == "" then
      FilterAllPass(reports, Shown(filter, term));
      Filter(reports, Shown(filter, term))
    else if filter !in {"all", "pending", "accepted", "critical"} then
      FilterNonePass(reports, Shown(filter, term));
      Filter(reports, Shown(filter, term))
    else
      Filter(reports, Shown(filter, term))
  }

  /** The search in plain terms: substring containment after lower-casing. */
  lemma SearchMeaning(term: string, r: Report)
    ensures MatchesSearch(term, r) <==>
              || term == ""
              || IsSubstring(Lower(term), Lower(r.victim.name))
              || IsSubstring(Lower(term), Lower(r.location.address))
              || IsSubstring(Lower(term), Lower(r.incident.kind))
  {
    IncludesIff(Lower(r.victim.name), Lower(term));
    IncludesIff(Lower(r.location.address), Lower(term));
    IncludesIff(Lower(r.incident.kind), Lower(term));
  }

  /** The search ignores the case of the term. */
  lemma SearchIgnoresCase(term: string, r: Report)
    ensures MatchesSearch(Lower(term), r) == MatchesSearch(term, r)
  {
    LowerIdempotent(term);
  }

  // ---------------------------------------------------------------------
  // Counters

  predicate IsPending(r: Report) { r.status == "pending" }
  predicate IsCritical(r: Report) { r.incident.severity == "Critical" }

  /** The pending-reports counter. */
  function PendingCount(reports: seq<Report>): (n: nat)
    ensures n <= |reports|
    ensures n == 0 <==> forall i :: 0 <= i < |reports| ==> !IsPending(reports[i])
    ensures n == |reports| <==> forall i :: 0 <= i < |reports| ==> IsPending(reports[i])
  {
    CountExtremes(reports, IsPending);
    Count(reports, IsPending)
  }

  /** The critical-cases counter. */
  function CriticalCount(reports: seq<Report>): (n: nat)
    ensures n <= |reports|
    ensures n == 0 <==> forall i :: 0 <= i < |reports| ==> !IsCritical(reports[i])
    ensures n == |reports| <==> forall i :: 0 <= i < |reports| ==> IsCritical(reports[i])
  {
    CountExtremes(reports, IsCritical);
    Count(reports, IsCritical)
  }

  ghost predicate UniqueIds(reports: seq<Report>)
  {
    forall i, j :: 0 <= i < j < |reports| ==> reports[i].id != reports[j].id
  }

  /** On the mock data, three reports are pending and one is critical. */
  lemma InitialCounts(now: int)
    ensures PendingCount(MockAccidentReports(now)) == 3
    ensures CriticalCount(MockAccidentReports(now)) == 1
  {
    var s := MockAccidentReports(now);
    assert Filter(s[3..], IsPending) == [];
    assert Filter(s[2..], IsPending) == [s[2]];
    assert Filter(s[1..], IsPending) == [s[1], s[2]];
    assert Filter(s[3..], IsCritical) == [s[3]];
    assert Filter(s[2..], IsCritical) == [s[3]];
    assert Filter(s[1..], IsCritical) == [s[3]];
  }

  /** With unique ids, no report other than `report` carries its id. */
  lemma UniqueIdOwner(reports: seq<Report>, report: Report, i: int)
    requires UniqueIds(reports) && report in reports
    requires 0 <= i < |reports| && reports[i].id == report.id
    ensures reports[i] == report
  {
  }

  /** Accepting a pending report of a list with unique ids lowers the
      pending counter by exactly one. */
  lemma {:induction false} AcceptLowersPending(reports: seq<Report>, report: Report,
                                               user: Option<SessionUser>, pick: int, now: int)
    requires 0 <= pick < 5
    requires UniqueIds(reports) && report in reports && IsPending(report)
    ensures PendingCount(AcceptReports(reports, report, user, pick, now)) == PendingCount(reports) - 1
    decreases |reports|
  {
    var u := AcceptedCopy(report, user, pick, now);
    var next := AcceptReports(reports, report, user, pick, now);
    var rest := reports[1..];
    assert next[1..] == AcceptReports(rest, report, user, pick, now);
    if reports[0] == report {
      assert forall i :: 0 <= i < |rest| ==> rest[i].id != report.id by {
        forall i | 0 <= i < |rest| ensures rest[i].id != report.id {
          assert rest[i] == reports[i + 1];
        }
      }
      assert AcceptReports(rest, report, user, pick, now) == rest;
    } else {
      assert reports[0].id != report.id;
      assert report in rest;
      AcceptLowersPending(rest, report, user, pick, now);
    }
  }

  /** Accepting a report of a list with unique ids leaves the critical
      counter alone: the accepted copy keeps the incident. */
  lemma AcceptKeepsCritical(reports: seq<Report>, report: Report,
                            user: Option<SessionUser>, pick: int, now: int)
    requires 0 <= pick < 5
    requires UniqueIds(reports) && report in reports
    ensures CriticalCount(AcceptReports(reports, report, user, pick, now)) == CriticalCount(reports)
  {
    var f := ReplaceIfId(report.id, AcceptedCopy(report, user, pick, now));
    forall i | 0 <= i < |reports| ensures IsCritical(f(reports[i])) == IsCritical(reports[i]) {
      if reports[i].id == report.id {
        UniqueIdOwner(reports, report, i);
      }
    }
    CountMapInvariant(reports, f, IsCritical, IsCritical);
  }

  /** Accepting keeps every id where it was, so ids stay unique. */
  lemma AcceptKeepsUniqueIds(reports: seq<Report>, report: Report,
                             user: Option<SessionUser>, pick: int, now: int)
    requires 0 <= pick < 5
    requires UniqueIds(reports)
    ensures UniqueIds(AcceptReports(reports, report, user, pick, now))
  {
  }

  /** Helper: putting a report with a fresh id in front keeps ids unique. */
  lemma UniqueIdsCons(r: Report, tail: seq<Report>)
    requires UniqueIds(tail)
    requires forall k :: 0 <= k < |tail| ==> tail[k].id != r.id
    ensures UniqueIds([r] + tail)
  {
    var s := [r] + tail;
    forall i, j | 0 <= i < j < |s| ensures s[i].id != s[j].id {
      assert s[j] == tail[j - 1];
      if i > 0 {
        assert s[i] == tail[i - 1];
      }
    }
  }

  /** Rejecting removes reports, so ids stay unique. */
  lemma {:induction false} RejectKeepsUniqueIds(reports: seq<Report>, reportId: string)
    requires UniqueIds(reports)
    ensures UniqueIds(RejectReports(reports, reportId))
    decreases |reports|
  {
    if reports != [] {
      var head, rest := reports[0], reports[1..];
      assert UniqueIds(rest) by {
        forall i, j | 0 <= i < j < |rest| ensures rest[i].id != rest[j].id {
          assert rest[i] == reports[i + 1] && rest[j] == reports[j + 1];
        }
      }
      RejectKeepsUniqueIds(rest, reportId);
      var tail := RejectReports(rest, reportId);
      if head.id != reportId {
        forall k | 0 <= k < |tail| ensures tail[k].id != head.id {
          assert tail[k] in rest;
          var j :| 0 <= j < |rest| && rest[j] == tail[k];
          assert reports[j + 1] == tail[k];
        }
        UniqueIdsCons(head, tail);
        assert RejectReports(reports, reportId) == [head] + tail;
      } else {
        assert RejectReports(reports, reportId) == tail;
      }
    }
  }

  /** Rejecting the same id twice is rejecting it once. */
  lemma RejectIdempotent(reports: seq<Report>, reportId: string)
    ensures RejectReports(RejectReports(reports, reportId), reportId) == RejectReports(reports, reportId)
  {
    FilterIdempotent(reports, OtherId(reportId));
  }

  /** A report accepted and then rejected leaves the list as rejecting
      it straight away would. */
  lemma {:induction false} RejectAfterAccept(reports: seq<Report>, report: Report,
                                             user: Option<SessionUser>, pick: int, now: int)
    requires 0 <= pick < 5
    ensures RejectReports(AcceptReports(reports, report, user, pick, now), report.id)
         == RejectReports(reports, report.id)
    decreases |reports|
  {
    if reports != [] {
      var next := AcceptReports(reports, report, user, pick, now);
      assert next[1..] == AcceptReports(reports[1..], report, user, pick, now);
      RejectAfterAccept(reports[1..], report, user, pick, now);
    }
  }

  // ---------------------------------------------------------------------
  // The component's state

  /** The dashboard component: its `useState` cells and the two handlers
      that update them. The signed-in user, the clock and the random ward
      pick are passed in. */
  class HospitalDashboard {
    var reports: seq<Report>
    var stats: Stats
    var filter: string
    var searchTerm: string

    /** Ids stay unique and the available-bed figure never goes negative. */
    ghost predicate Valid()
      reads this
    {
      UniqueIds(reports) && stats.availableBeds >= 0
    }

    constructor (now: int)
      ensures Valid()
      ensures reports == MockAccidentReports(now) && stats == HospitalStats()
      ensures filter == "all" && searchTerm == ""
    {
      reports := MockAccidentReports(now);
      stats := HospitalStats();
      filter := "all";
      searchTerm := "";
    }

    /** `handleAcceptReport`. */
    method AcceptReport(report: Report, user: Option<SessionUser>, pick: int, now: int)
      requires Valid() && 0 <= pick < 5
      modifies this
      ensures Valid()
      ensures reports == AcceptReports(old(reports), report, user, pick, now)
      ensures stats == AcceptStats(old(stats))
      ensures filter == old(filter) && searchTerm == old(searchTerm)
      ensures old(report in reports && IsPending(report)) ==> PendingReports() == old(PendingReports()) - 1
      ensures old(report in reports) ==> CriticalCases() == old(CriticalCases())
    {
      AcceptKeepsUniqueIds(reports, report, user, pick, now);
      if report in reports {
        AcceptKeepsCritical(reports, report, user, pick, now);
        if IsPending(report) {
          AcceptLowersPending(reports, report, user, pick, now);
        }
      }
      reports := AcceptReports(reports, report, user, pick, now);
      stats := AcceptStats(stats);
    }

    /** `handleRejectReport`. */
    method RejectReport(reportId: string)
      requires Valid()
      modifies this
      ensures Valid()
      ensures reports == RejectReports(old(reports), reportId)
      ensures stats == old(stats) && filter == old(filter) && searchTerm == old(searchTerm)
    {
      RejectKeepsUniqueIds(reports, reportId);
      reports := RejectReports(reports, reportId);
    }

    /** The filter drop-down's `onChange`. */
    method SetFilter(value: string)
      requires Valid()
      modifies this
      ensures Valid()
      ensures filter == value
      ensures reports == old(reports) && stats == old(stats) && searchTerm == old(searchTerm)
    {
      filter := value;
    }

    /** The search box's `onChange`. */
    method SetSearchTerm(value: string)
      requires Valid()
      modifies this
      ensures Valid()
      ensures searchTerm == value
      ensures reports == old(reports) && stats == old(stats) && filter == old(filter)
    {
      searchTerm := value;
    }

    /** `filteredReports`: the reports the current filter and search show. */
    function FilteredReports(): (view: seq<Report>)
      reads this
      ensures Sublist(view, reports)
      ensures forall x :: x in view <==> x in reports && MatchesFilter(filter, x) && MatchesSearch(searchTerm, x)
      ensures filter == "all" && searchTerm == "" ==> view == reports
    {
      FilterReports(reports, filter, searchTerm)
    }

    /** `pendingReports`: how many reports of the list are pending. */
    function PendingReports(): (n: nat)
      reads this
      ensures n <= |reports|
      ensures n == 0 <==> forall i :: 0 <= i < |reports| ==> !IsPending(reports[i])
    {
      PendingCount(reports)
    }

    /** `criticalCases`: how many reports of the list are critical. */
    function CriticalCases(): (n: nat)
      reads this
      ensures n <= |reports|
      ensures n == 0 <==> forall i :: 0 <= i < |reports| ==> !IsCritical(reports[i])
    {
      CriticalCount(reports)
    }
  }
}
