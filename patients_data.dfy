/** The patient record and the seed list the patient pages start from. */
module PatientsData {
  import opened Wrappers

  /** A patient's interest in treatment: one of three values. */
  datatype Status = Interested | NotInterested | Pending

  /** The string the record stores for each status. */
  function StatusLabel(s: Status): (text: string)
    ensures ParseStatus(text) == Some(s)
  {
    match s
    case Interested => "interested"
    case NotInterested => "not interested"
    case Pending => "pending"
  }

  /** The status a stored string stands for, if any. */
  function ParseStatus(text: string): Option<Status> {
    if text == "interested" then Some(Interested)
    else if text == "not interested" then Some(NotInterested)
    else if text == "pending" then Some(Pending)
    else None
  }

  /** Every status is stored as exactly one of the three strings, and reads back as itself. */
  lemma StatusLabelRoundTrip(s: Status)
    ensures StatusLabel(s) in {"interested", "not interested", "pending"}
    ensures ParseStatus(StatusLabel(s)) == Some(s)
  {
  }

  /** A string reads as a status exactly when it is that status's text. */
  lemma ParseStatusExact(text: string, s: Status)
    ensures ParseStatus(text) == Some(s) <==> text == StatusLabel(s)
  {
  }

  datatype Patient = Patient(
    id: int,
    name: string,
    initials: string,
    email: string,
    phone: string,
    status: Status,
    lastContact: string,
    color: string)

  /** The seven records every patient list starts from. */
  const InitialPatients: seq<Patient> := [
    Patient(1, "Sarah Johnson", "SJ", "sarah.j@email.com", "+1 (555) 123-4567", Interested, "2 hours ago", "bg-blue-500"),
    Patient(2, "Mike Chen", "MC", "mike.c@email.com", "+1 (555) 234-5678", NotInterested, "1 day ago", "bg-blue-500"),
    Patient(3, "Emily Davis", "ED", "emily.d@email.com", "+1 (555) 345-6789", Pending, "3 days ago", "bg-blue-500"),
    Patient(4, "John Smith", "JS", "john.s@email.com", "+1 (555) 456-7890", Interested, "5 days ago", "bg-blue-500"),
    Patient(5, "Lisa Wang", "LW", "lisa.w@email.com", "+1 (555) 567-8901", Interested, "1 week ago", "bg-blue-500"),
    Patient(6, "David Martinez", "DM", "david.m@email.com", "+1 (555) 678-9012", Pending, "4 hours ago", "bg-blue-500"),
    Patient(7, "Rachel Green", "RG", "rachel.g@email.com", "+1 (555) 789-0123", Interested, "6 hours ago", "bg-blue-500")
  ]

  /** No two records of `ps` share an id. */
  predicate IdsDistinct(ps: seq<Patient>) {
    forall i, j :: 0 <= i < j < |ps| ==> ps[i].id != ps[j].id
  }

  /** The seed list is non-empty and its ids are 1, 2, ..., 7 in order, hence distinct. */
  lemma InitialIds()
    ensures |InitialPatients| == 7
    ensures forall i :: 0 <= i < |InitialPatients| ==> InitialPatients[i].id == i + 1
    ensures IdsDistinct(InitialPatients)
  {
  }
}
