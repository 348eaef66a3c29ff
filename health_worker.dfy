/**
 * The health-worker dashboard: a fixed patient queue, the urgency badge and
 * status icon mappings, triage buttons that change nothing, and a three-way
 * tab selector that decides which one panel is shown.
 */
module HealthWorker {
  import opened Wrappers
  import opened Text

  datatype Urgency = High | Medium | Low
  datatype Status = Waiting | InProgress | Completed

  /** The string each urgency value has in the record. */
  function UrgencyName(u: Urgency): string {
    match u
    case High => "high"
    case Medium => "medium"
    case Low => "low"
  }

  /** The string each status value has in the record. */
  function StatusName(s: Status): string {
    match s
    case Waiting => "waiting"
    case InProgress => "in-progress"
    case Completed => "completed"
  }

  datatype Patient = Patient(
    id: int,
    name: string,
    age: int,
    gender: string,
    urgency: Urgency,
    symptoms: string,
    waitTime: string,
    village: string,
    status: Status)

  /** The hard-coded queue. */
  function Patients(): (ps: seq<Patient>)
    ensures |ps| == 3
    ensures forall i, j :: 0 <= i < j < |ps| ==> ps[i].id != ps[j].id
  {
    [ Patient(1, "Rajesh Kumar", 45, "Male", High, "Chest pain, difficulty breathing", "5 min", "Khalsa Nagar", Waiting),
      Patient(2, "Sunita Devi", 32, "Female", Medium, "Fever, headache for 3 days", "15 min", "Ram Nagar", InProgress),
      Patient(3, "Amit Singh", 28, "Male", Low, "Routine checkup", "25 min", "Green Valley", Waiting) ]
  }

  // ---------------------------------------------------------------- badges and icons

  datatype UrgencyBadge = HighBadge | MediumBadge | LowBadge

  function UrgencyBadgeLabel(b: UrgencyBadge): string {
    match b
    case HighBadge => "High"
    case MediumBadge => "Medium"
    case LowBadge => "Low"
  }

  /** `getUrgencyBadge`: the three urgency strings get their badge; any other string gets none. */
  function UrgencyBadgeOf(urgency: string): (b: Option<UrgencyBadge>)
    ensures b == Some(HighBadge) <==> urgency == "high"
    ensures b == Some(MediumBadge) <==> urgency == "medium"
    ensures b == Some(LowBadge) <==> urgency == "low"
    ensures b == None <==> urgency !in {"high", "medium", "low"}
  {
    match urgency
    case "high" => Some(HighBadge)
    case "medium" => Some(MediumBadge)
    case "low" => Some(LowBadge)
    case _ => None
  }

  /** Every urgency a record can hold gets a badge, whose label lower-cased is the urgency's name. */
  lemma UrgencyAlwaysBadged(u: Urgency)
    ensures UrgencyBadgeOf(UrgencyName(u)).Some?
    ensures Lower(UrgencyBadgeLabel(UrgencyBadgeOf(UrgencyName(u)).value)) == UrgencyName(u)
  {
  }

  datatype StatusIcon = Hourglass | Cycle | CheckMark

  /** `getStatusIcon`: 🔄 for "in-progress", ✅ for "completed", ⏳ for "waiting" and for any other string. */
  function StatusIconOf(status: string): (icon: StatusIcon)
    ensures icon == Cycle <==> status == "in-progress"
    ensures icon == CheckMark <==> status == "completed"
    ensures icon == Hourglass <==> status != "in-progress" && status != "completed"
  {
    match status
    case "waiting" => Hourglass
    case "in-progress" => Cycle
    case "completed" => CheckMark
    case _ => Hourglass
  }

  /** On the statuses a record can hold, the icon tells them apart. */
  lemma StatusIconDistinguishesStatuses(s: Status, t: Status)
    ensures StatusIconOf(StatusName(s)) == StatusIconOf(StatusName(t)) <==> s == t
  {
  }

  // ---------------------------------------------------------------- triage

  datatype TriageAction = Escalate | Treat | Refer

  /** The page state: the selected tab (set from a string list, hence a string) and the queue. */
  datatype Dashboard = Dashboard(activeTab: string, patients: seq<Patient>)

  /** The tab buttons, in display order. */
  const TabNames: seq<string> := ["queue", "analytics", "resources"]

  /** The caption of a tab button. */
  function TabLabel(tab: string): string {
    if tab == "queue" then "Patient Queue" else if tab == "analytics" then "Analytics" else "Resources"
  }

  /** The three tab buttons carry three different captions. */
  lemma TabLabelsDistinct(i: nat, j: nat)
    requires i < |TabNames| && j < |TabNames|
    ensures TabLabel(TabNames[i]) == TabLabel(TabNames[j]) <==> i == j
  {
  }

  /** Every tab the dashboard can hold is one of the three. */
  predicate ValidTab(d: Dashboard) {
    d.activeTab in TabNames
  }

  function InitialDashboard(): (d: Dashboard)
    ensures ValidTab(d) && d.activeTab == "queue" && d.patients == Patients()
  {
    Dashboard("queue", Patients())
  }

  /** Clicking tab button `i`: that tab becomes active, which is always one of the three. */
  function SelectTab(d: Dashboard, i: nat): (r: Dashboard)
    requires i < |TabNames|
    ensures ValidTab(r) && r.activeTab == TabNames[i] && r.patients == d.patients
  {
    d.(activeTab := TabNames[i])
  }

  /** `handleTriageAction`: only a log line, which is not modelled; the dashboard is left as it was. */
  function Triage(d: Dashboard, patientId: int, action: TriageAction): (r: Dashboard)
    ensures r.patients == d.patients && r.activeTab == d.activeTab
  {
    d
  }

  /** Any sequence of triage clicks leaves the queue and every patient's fields as they were. */
  lemma {:induction false} TriageSequenceChangesNothing(d: Dashboard, clicks: seq<(int, TriageAction)>)
    ensures RunTriage(d, clicks) == d
    decreases |clicks|
  {
    if clicks != [] {
      TriageSequenceChangesNothing(Triage(d, clicks[0].0, clicks[0].1), clicks[1..]);
    }
  }

  function RunTriage(d: Dashboard, clicks: seq<(int, TriageAction)>): Dashboard
    decreases |clicks|
  {
    if clicks == [] then d else RunTriage(Triage(d, clicks[0].0, clicks[0].1), clicks[1..])
  }

  // ---------------------------------------------------------------- panels

  /** What a queue card shows. */
  datatype QueueRow = QueueRow(
    patientId: int,
    name: string,
    icon: StatusIcon,
    badge: Option<UrgencyBadge>,
    age: int,
    gender: string,
    village: string,
    waitTime: string,
    symptoms: string)

  function RowFor(p: Patient): (row: QueueRow)
    ensures row.patientId == p.id && row.name == p.name
    ensures row.badge == UrgencyBadgeOf(UrgencyName(p.urgency)) && row.badge.Some?
    ensures row.icon == StatusIconOf(StatusName(p.status))
    ensures row.age == p.age && row.gender == p.gender && row.village == p.village
    ensures row.waitTime == p.waitTime && row.symptoms == p.symptoms
  {
    QueueRow(p.id, p.name, StatusIconOf(StatusName(p.status)), UrgencyBadgeOf(UrgencyName(p.urgency)),
             p.age, p.gender, p.village, p.waitTime, p.symptoms)
  }

  /** `patients.map(...)`: one card per patient, in queue order. */
  function QueueRows(ps: seq<Patient>): (rows: seq<QueueRow>)
    ensures |rows| == |ps|
    ensures forall i :: 0 <= i < |ps| ==> rows[i] == RowFor(ps[i])
  {
    if ps == [] then [] else [RowFor(ps[0])] + QueueRows(ps[1..])
  }

  datatype Panel = QueuePanel(rows: seq<QueueRow>) | AnalyticsPanel | ResourcesPanel

  /** The three independent `activeTab === ...` blocks, in page order. */
  function Panels(d: Dashboard): seq<Panel> {
    (if d.activeTab == "queue" then [QueuePanel(QueueRows(d.patients))] else [])
    + (if d.activeTab == "analytics" then [AnalyticsPanel] else [])
    + (if d.activeTab == "resources" then [ResourcesPanel] else [])
  }

  /** A valid tab shows exactly one panel, the one it names; any other string would show none. */
  lemma ExactlyOnePanel(d: Dashboard)
    ensures ValidTab(d) <==> |Panels(d)| == 1
    ensures ValidTab(d) ==>
      && (Panels(d)[0].QueuePanel? <==> d.activeTab == "queue")
      && (Panels(d)[0] == AnalyticsPanel <==> d.activeTab == "analytics")
      && (Panels(d)[0] == ResourcesPanel <==> d.activeTab == "resources")
    ensures !ValidTab(d) ==> Panels(d) == []
  {
  }

  /** The queue panel lists every patient once, in queue order. */
  lemma QueuePanelListsEveryPatient(d: Dashboard)
    requires d.activeTab == "queue"
    ensures Panels(d) == [QueuePanel(QueueRows(d.patients))]
    ensures forall i :: 0 <= i < |d.patients| ==> Panels(d)[0].rows[i].patientId == d.patients[i].id
  {
  }

  /** The tab buttons drawn highlighted: those equal to the active tab. */
  function HighlightedTabs(d: Dashboard): (hs: seq<nat>)
    ensures forall k :: k in hs ==> k < |TabNames| && TabNames[k] == d.activeTab
    ensures forall k :: 0 <= k < |TabNames| && TabNames[k] == d.activeTab ==> k in hs
  {
    (if TabNames[0] == d.activeTab then [0] else [])
    + (if TabNames[1] == d.activeTab then [1] else [])
    + (if TabNames[2] == d.activeTab then [2] else [])
  }

  /** With a valid tab exactly one button is highlighted, the selected one. */
  lemma OneTabHighlighted(d: Dashboard, i: nat)
    requires i < |TabNames|
    ensures HighlightedTabs(SelectTab(d, i)) == [i]
  {
  }
}
