/**
 * The patient list page: the initials rule, the add / edit / delete
 * operations on the list, and the add/edit form.
 */
module PatientList {
  import opened Wrappers
  import opened Strings
  import opened PatientsData

  // ---------------------------------------------------------------------
  // Initials

  /** `words.map(n => n[0]).join('')`: an empty word has no first character and adds nothing. */
  function FirstChars(words: seq<string>): string {
    if words == [] then []
    else (if words[0] == [] then [] else [words[0][0]]) + FirstChars(words[1..])
  }

  /** `name.split(' ').map(n => n[0]).join('').toUpperCase()`. */
  function GetInitials(name: string): string {
    ToUpper(FirstChars(SplitOnSpace(name)))
  }

  /** The non-empty words, in order. */
  function NonEmptyWords(words: seq<string>): (r: seq<string>)
    ensures forall k :: 0 <= k < |r| ==> r[k] != []
  {
    if words == [] then []
    else (if words[0] == [] then [] else [words[0]]) + NonEmptyWords(words[1..])
  }

  lemma {:induction false} FirstCharsOfNonEmpty(words: seq<string>)
    ensures |FirstChars(words)| == |NonEmptyWords(words)|
    ensures forall k :: 0 <= k < |FirstChars(words)| ==> FirstChars(words)[k] == NonEmptyWords(words)[k][0]
  {
    if words != [] {
      FirstCharsOfNonEmpty(words[1..]);
    }
  }

  /**
   * The initials have one character per non-empty space-separated word:
   * the word's first character, upper-cased.
   */
  lemma InitialsPerWord(name: string)
    ensures var words := NonEmptyWords(SplitOnSpace(name));
      && |GetInitials(name)| == |words|
      && forall k :: 0 <= k < |words| ==> GetInitials(name)[k] == UpperChar(words[k][0])
  {
    FirstCharsOfNonEmpty(SplitOnSpace(name));
  }

  /**
   * An independent reading of the rule, scanning characters: a character
   * counts when it is not a space and stands at the start or after a space.
   */
  function WordStarts(s: string, afterSpace: bool): string {
    if s == [] then []
    else (if s[0] != ' ' && afterSpace then [s[0]] else []) + WordStarts(s[1..], s[0] == ' ')
  }

  lemma {:induction false} FirstCharsOfSplit(s: string)
    ensures FirstChars(SplitOnSpace(s)) == WordStarts(s, true)
    ensures FirstChars(SplitOnSpace(s)[1..]) == WordStarts(s, false)
  {
    if s != [] {
      FirstCharsOfSplit(s[1..]);
      var rest := SplitOnSpace(s[1..]);
      if s[0] == ' ' {
        assert SplitOnSpace(s) == [[]] + rest;
        assert SplitOnSpace(s)[1..] == rest;
      } else {
        assert SplitOnSpace(s) == [[s[0]] + rest[0]] + rest[1..];
        assert SplitOnSpace(s)[1..] == rest[1..];
      }
    }
  }

  /** The split-based initials agree with the character scan. */
  lemma InitialsByScan(name: string)
    ensures GetInitials(name) == ToUpper(WordStarts(name, true))
  {
    FirstCharsOfSplit(name);
  }

  lemma {:induction false} WordStartsDoubleSpace(a: string, b: string, afterSpace: bool)
    ensures WordStarts(a + "  " + b, afterSpace) == WordStarts(a + " " + b, afterSpace)
  {
    if a == [] {
      assert (a + "  " + b)[1..] == " " + b;
      assert (a + " " + b)[1..] == b;
      assert (" " + b)[1..] == b;
    } else {
      assert (a + "  " + b)[1..] == a[1..] + "  " + b;
      assert (a + " " + b)[1..] == a[1..] + " " + b;
      WordStartsDoubleSpace(a[1..], b, a[0] == ' ');
    }
  }

  /** A repeated space adds nothing to the initials. */
  lemma RepeatedSpaceAddsNothing(a: string, b: string)
    ensures GetInitials(a + "  " + b) == GetInitials(a + " " + b)
  {
    InitialsByScan(a + "  " + b);
    InitialsByScan(a + " " + b);
    WordStartsDoubleSpace(a, b, true);
  }

  /** Every record's initials are the ones its name gives. */
  predicate InitialsConsistent(ps: seq<Patient>) {
    forall i :: 0 <= i < |ps| ==> ps[i].initials == GetInitials(ps[i].name)
  }

  /** A two-word name gives the upper-cased first characters of both words. */
  lemma TwoWordInitials(first: string, last: string)
    requires first != [] && last != []
    requires ' ' !in first && ' ' !in last
    ensures GetInitials(first + " " + last) == [UpperChar(first[0]), UpperChar(last[0])]
  {
    assert JoinWithSpace([first, last]) == first + " " + last;
    SplitJoin([first, last]);
    assert [first, last][1..] == [last];
    assert FirstChars([last]) == [last[0]];
    assert FirstChars([first, last]) == [first[0], last[0]];
  }

  /** Record k of the seed list has the initials of its two-word name. */
  lemma SeedRecordInitials(k: int, first: string, last: string)
    requires 0 <= k < |InitialPatients|
    requires first != [] && last != [] && ' ' !in first && ' ' !in last
    requires InitialPatients[k].name == first + " " + last
    requires InitialPatients[k].initials == [UpperChar(first[0]), UpperChar(last[0])]
    ensures InitialPatients[k].initials == GetInitials(InitialPatients[k].name)
  {
    TwoWordInitials(first, last);
  }

  /** The seed records' initials agree with their names ('Sarah Johnson' gives 'SJ', ...). */
  lemma InitialPatientsInitials()
    ensures InitialsConsistent(InitialPatients)
  {
    forall i | 0 <= i < |InitialPatients|
      ensures InitialPatients[i].initials == GetInitials(InitialPatients[i].name)
    {
      if i == 0 { SeedRecordInitials(0, "Sarah", "Johnson"); }
      else if i == 1 { SeedRecordInitials(1, "Mike", "Chen"); }
      else if i == 2 { SeedRecordInitials(2, "Emily", "Davis"); }
      else if i == 3 { SeedRecordInitials(3, "John", "Smith"); }
      else if i == 4 { SeedRecordInitials(4, "Lisa", "Wang"); }
      else if i == 5 { SeedRecordInitials(5, "David", "Martinez"); }
      else { SeedRecordInitials(6, "Rachel", "Green"); }
    }
  }

  // ---------------------------------------------------------------------
  // The add/edit form

  datatype FormData = FormData(name: string, email: string, phone: string, status: Status)

  /** The form after a save or a cancel: empty fields, status pending. */
  const EmptyForm := FormData("", "", "", Pending)

  /** The message the page shows when a required field is empty. */
  const FillInAllFields := "Please fill in all fields"

  /** Name, email and phone are all filled in (an empty string is falsy). */
  predicate FormComplete(f: FormData) {
    f.name != "" && f.email != "" && f.phone != ""
  }

  /** The form `openEditModal` fills in from a record. */
  function FormOf(p: Patient): FormData {
    FormData(p.name, p.email, p.phone, p.status)
  }

  // ---------------------------------------------------------------------
  // Adding: the new id is one more than the largest id

  /** `Math.max(...ps.map(p => p.id))` on a non-empty list. */
  function MaxId(ps: seq<Patient>): (m: int)
    requires ps != []
    ensures forall i :: 0 <= i < |ps| ==> ps[i].id <= m
    ensures exists i :: 0 <= i < |ps| && ps[i].id == m
  {
    if |ps| == 1 then ps[0].id
    else
      var rest := MaxId(ps[1..]);
      assert exists i :: 1 <= i < |ps| && ps[i].id == rest by {
        var j :| 0 <= j < |ps[1..]| && ps[1..][j].id == rest;
        assert ps[j + 1].id == rest;
      }
      if ps[0].id > rest then ps[0].id else rest
  }

  /**
   * The corrected id rule: one more than the largest id, and 1 when the
   * list is empty. The page as written computes -Infinity on an empty list
   * (see `IdAllocation.AsWrittenNextId`); the model's add operation uses
   * this rule instead.
   */
  function NextId(ps: seq<Patient>): (id: int)
    ensures forall i :: 0 <= i < |ps| ==> ps[i].id < id
  {
    if ps == [] then 1 else MaxId(ps) + 1
  }

  /** The first id allocated from the seed list is 8. */
  lemma InitialNextId()
    ensures NextId(InitialPatients) == 8
  {
    InitialIds();
    var m := MaxId(InitialPatients);
    assert InitialPatients[6].id == 7;
  }

  /** The record the add operation appends for form `f`. */
  function NewPatient(ps: seq<Patient>, f: FormData): Patient {
    Patient(NextId(ps), f.name, GetInitials(f.name), f.email, f.phone, f.status, "Just now", "bg-blue-500")
  }

  /** Appending the new record keeps ids distinct and initials consistent. */
  lemma AddKeepsInvariants(ps: seq<Patient>, f: FormData)
    requires IdsDistinct(ps) && InitialsConsistent(ps)
    ensures var r := ps + [NewPatient(ps, f)];
      IdsDistinct(r) && InitialsConsistent(r) && r[..|ps|] == ps
  {
    var r := ps + [NewPatient(ps, f)];
    forall i, j | 0 <= i < j < |r| ensures r[i].id != r[j].id {
      if j == |ps| {
        assert r[i] == ps[i];
      } else {
        assert r[i] == ps[i] && r[j] == ps[j];
      }
    }
  }

  // ---------------------------------------------------------------------
  // Editing

  /** The record after saving form `f` over `p`: five fields replaced, id, lastContact and color kept. */
  function EditRecord(p: Patient, f: FormData): Patient {
    p.(name := f.name, initials := GetInitials(f.name), email := f.email, phone := f.phone, status := f.status)
  }

  /** `ps.map(p => p.id === id ? EditRecord(p, f) : p)`. */
  function EditedList(ps: seq<Patient>, id: int, f: FormData): (r: seq<Patient>)
    ensures |r| == |ps|
  {
    if ps == [] then []
    else [if ps[0].id == id then EditRecord(ps[0], f) else ps[0]] + EditedList(ps[1..], id, f)
  }

  /** The edited list has the same length, and each record is edited exactly when its id matches. */
  lemma {:induction false} EditedListAt(ps: seq<Patient>, id: int, f: FormData)
    ensures |EditedList(ps, id, f)| == |ps|
    ensures forall i :: 0 <= i < |ps| ==>
      EditedList(ps, id, f)[i] == if ps[i].id == id then EditRecord(ps[i], f) else ps[i]
  {
    if ps != [] {
      EditedListAt(ps[1..], id, f);
    }
  }

  /** An edited record keeps its id, lastContact and color, and reads back as the saved form. */
  lemma EditRecordFields(p: Patient, f: FormData)
    ensures var q := EditRecord(p, f);
      q.id == p.id && q.lastContact == p.lastContact && q.color == p.color
      && FormOf(q) == f && q.initials == GetInitials(f.name)
  {
  }

  /** Saving a record's own form gives it back exactly when its initials agree with its name. */
  lemma EditRecordOwnForm(p: Patient)
    ensures EditRecord(p, FormOf(p)) == p <==> p.initials == GetInitials(p.name)
  {
  }

  /** With distinct ids, editing record k replaces that record and nothing else. */
  lemma EditTouchesOnlyTarget(ps: seq<Patient>, k: int, f: FormData)
    requires IdsDistinct(ps) && 0 <= k < |ps|
    ensures EditedList(ps, ps[k].id, f) == ps[k := EditRecord(ps[k], f)]
  {
    EditedListAt(ps, ps[k].id, f);
  }

  /** Editing an id no record has changes nothing. */
  lemma EditAbsentId(ps: seq<Patient>, id: int, f: FormData)
    requires forall i :: 0 <= i < |ps| ==> ps[i].id != id
    ensures EditedList(ps, id, f) == ps
  {
    EditedListAt(ps, id, f);
  }

  /** Opening the edit form on a record and saving it unchanged leaves the list as it was. */
  lemma SaveUnchangedForm(ps: seq<Patient>, k: int)
    requires IdsDistinct(ps) && InitialsConsistent(ps) && 0 <= k < |ps|
    ensures EditedList(ps, ps[k].id, FormOf(ps[k])) == ps
  {
    EditTouchesOnlyTarget(ps, k, FormOf(ps[k]));
    EditRecordOwnForm(ps[k]);
  }

  /** Editing keeps ids distinct and initials consistent. */
  lemma EditKeepsInvariants(ps: seq<Patient>, id: int, f: FormData)
    requires IdsDistinct(ps) && InitialsConsistent(ps)
    ensures IdsDistinct(EditedList(ps, id, f)) && InitialsConsistent(EditedList(ps, id, f))
  {
    EditedListAt(ps, id, f);
  }

  // ---------------------------------------------------------------------
  // Deleting

  /** `ps.filter(p => p.id !== id)`. */
  function WithoutId(ps: seq<Patient>, id: int): (r: seq<Patient>)
    ensures |r| <= |ps|
  {
    if ps == [] then []
    else (if ps[0].id == id then [] else [ps[0]]) + WithoutId(ps[1..], id)
  }

  /** The remaining records are exactly those whose id differs, and there are no more of them. */
  lemma {:induction false} WithoutIdMembers(ps: seq<Patient>, id: int)
    ensures |WithoutId(ps, id)| <= |ps|
    ensures forall p :: p in WithoutId(ps, id) <==> p in ps && p.id != id
  {
    if ps != [] {
      WithoutIdMembers(ps[1..], id);
      assert ps == [ps[0]] + ps[1..];
    }
  }

  /** Deleting an id no record has changes nothing. */
  lemma {:induction false} WithoutAbsentId(ps: seq<Patient>, id: int)
    requires forall i :: 0 <= i < |ps| ==> ps[i].id != id
    ensures WithoutId(ps, id) == ps
  {
    if ps != [] {
      WithoutAbsentId(ps[1..], id);
    }
  }

  /**
   * With distinct ids, deleting the id of record k removes that record and
   * keeps all the others in their original order.
   */
  lemma {:induction false} DeleteExactlyOne(ps: seq<Patient>, k: int)
    requires IdsDistinct(ps) && 0 <= k < |ps|
    ensures WithoutId(ps, ps[k].id) == ps[..k] + ps[k + 1..]
  {
    var id, tail := ps[k].id, ps[1..];
    assert IdsDistinct(tail) by {
      forall i, j | 0 <= i < j < |tail| ensures tail[i].id != tail[j].id {
        assert tail[i] == ps[i + 1] && tail[j] == ps[j + 1];
      }
    }
    if k == 0 {
      forall i | 0 <= i < |tail| ensures tail[i].id != id {
        assert tail[i] == ps[i + 1];
      }
      WithoutAbsentId(tail, id);
      assert ps[..0] + ps[1..] == tail;
    } else {
      DeleteExactlyOne(tail, k - 1);
      assert tail[k - 1] == ps[k];
      assert WithoutId(ps, id) == [ps[0]] + (tail[..k - 1] + tail[k..]);
      assert tail[..k - 1] == ps[1..k] && tail[k..] == ps[k + 1..];
      assert [ps[0]] + ps[1..k] == ps[..k];
    }
  }

  /** Putting a record with a fresh id and consistent initials in front keeps both invariants. */
  lemma ConsKeepsInvariants(x: Patient, rest: seq<Patient>)
    requires IdsDistinct(rest) && InitialsConsistent(rest)
    requires x.initials == GetInitials(x.name)
    requires forall j :: 0 <= j < |rest| ==> rest[j].id != x.id
    ensures IdsDistinct([x] + rest) && InitialsConsistent([x] + rest)
  {
    var r := [x] + rest;
    forall i, j | 0 <= i < j < |r| ensures r[i].id != r[j].id {
      assert r[j] == rest[j - 1];
      if i > 0 {
        assert r[i] == rest[i - 1];
      }
    }
    forall i | 0 <= i < |r| ensures r[i].initials == GetInitials(r[i].name) {
      if i > 0 {
        assert r[i] == rest[i - 1];
      }
    }
  }

  /** Dropping the first record keeps both invariants. */
  lemma TailKeepsInvariants(ps: seq<Patient>)
    requires ps != [] && IdsDistinct(ps) && InitialsConsistent(ps)
    ensures IdsDistinct(ps[1..]) && InitialsConsistent(ps[1..])
  {
    var tail := ps[1..];
    forall i, j | 0 <= i < j < |tail| ensures tail[i].id != tail[j].id {
      assert tail[i] == ps[i + 1] && tail[j] == ps[j + 1];
    }
    forall i | 0 <= i < |tail| ensures tail[i].initials == GetInitials(tail[i].name) {
      assert tail[i] == ps[i + 1];
    }
  }

  /** Deleting keeps ids distinct and initials consistent. */
  lemma {:induction false} DeleteKeepsInvariants(ps: seq<Patient>, id: int)
    requires IdsDistinct(ps) && InitialsConsistent(ps)
    ensures IdsDistinct(WithoutId(ps, id)) && InitialsConsistent(WithoutId(ps, id))
  {
    if ps != [] {
      var tail := ps[1..];
      TailKeepsInvariants(ps);
      DeleteKeepsInvariants(tail, id);
      var rest := WithoutId(tail, id);
      if ps[0].id != id {
        WithoutIdMembers(tail, id);
        forall j | 0 <= j < |rest| ensures rest[j].id != ps[0].id {
          assert rest[j] in rest;
          var i :| 0 <= i < |tail| && tail[i] == rest[j];
          assert ps[i + 1] == rest[j];
        }
        ConsKeepsInvariants(ps[0], rest);
      }
    }
  }

  // ---------------------------------------------------------------------
  // The page's state

  class PatientsPage {
    var patients: seq<Patient>
    var showAddModal: bool
    var editingPatient: Option<Patient>
    var formData: FormData

    /** Ids stay distinct and initials stay derived from names. */
    predicate Valid()
      reads this
    {
      IdsDistinct(patients) && InitialsConsistent(patients)
    }

    /** The add/edit dialog is shown. */
    predicate ModalOpen()
      reads this
    {
      showAddModal || editingPatient.Some?
    }

    constructor ()
      ensures Valid()
      ensures patients == InitialPatients && !showAddModal && editingPatient == None && formData == EmptyForm
    {
      patients := InitialPatients;
      showAddModal := false;
      editingPatient := None;
      formData := EmptyForm;
      InitialIds();
      InitialPatientsInitials();
    }

    /** Add the form as a new record; with a required field empty, only alert. */
    method HandleAddPatient() returns (alert: Option<string>)
      requires Valid()
      modifies this
      ensures Valid()
      ensures editingPatient == old(editingPatient)
      ensures !FormComplete(old(formData)) ==>
        && alert == Some(FillInAllFields)
        && patients == old(patients) && formData == old(formData) && showAddModal == old(showAddModal)
      ensures FormComplete(old(formData)) ==>
        && alert == None
        && patients == old(patients) + [NewPatient(old(patients), old(formData))]
        && !showAddModal && formData == EmptyForm
    {
      if !FormComplete(formData) {
        return Some(FillInAllFields);
      }
      AddKeepsInvariants(patients, formData);
      patients := patients + [NewPatient(patients, formData)];
      showAddModal := false;
      formData := EmptyForm;
      alert := None;
    }

    /** Save the form over the record being edited; with none, or a required field empty, only alert. */
    method HandleEditPatient() returns (alert: Option<string>)
      requires Valid()
      modifies this
      ensures Valid()
      ensures showAddModal == old(showAddModal)
      ensures (old(editingPatient).None? || !FormComplete(old(formData))) ==>
        && alert == Some(FillInAllFields)
        && patients == old(patients) && formData == old(formData) && editingPatient == old(editingPatient)
      ensures (old(editingPatient).Some? && FormComplete(old(formData))) ==>
        && alert == None
        && patients == EditedList(old(patients), old(editingPatient).value.id, old(formData))
        && editingPatient == None && formData == EmptyForm
    {
      if editingPatient.None? || !FormComplete(formData) {
        return Some(FillInAllFields);
      }
      EditKeepsInvariants(patients, editingPatient.value.id, formData);
      patients := EditedList(patients, editingPatient.value.id, formData);
      editingPatient := None;
      formData := EmptyForm;
      alert := None;
    }

    /** Delete every record with this id when the user confirms; otherwise nothing. */
    method HandleDeletePatient(id: int, confirmed: bool)
      requires Valid()
      modifies this
      ensures Valid()
      ensures patients == if confirmed then WithoutId(old(patients), id) else old(patients)
      ensures showAddModal == old(showAddModal) && editingPatient == old(editingPatient) && formData == old(formData)
    {
      if confirmed {
        DeleteKeepsInvariants(patients, id);
        patients := WithoutId(patients, id);
      }
    }

    /** Start editing `p`: the form gets its name, email, phone and status. */
    method OpenEditModal(p: Patient)
      requires Valid()
      modifies this
      ensures Valid()
      ensures editingPatient == Some(p) && formData == FormOf(p)
      ensures patients == old(patients) && showAddModal == old(showAddModal)
    {
      editingPatient := Some(p);
      formData := FormOf(p);
    }

    /** The Cancel button: close the dialog and reset the form. */
    method Cancel()
      requires Valid()
      modifies this
      ensures Valid()
      ensures !showAddModal && editingPatient == None && formData == EmptyForm
      ensures !ModalOpen()
      ensures patients == old(patients)
    {
      showAddModal := false;
      editingPatient := None;
      formData := EmptyForm;
    }

    /** The form inputs: each replaces one field of the form. */
    method SetName(v: string)
      requires Valid()
      modifies this
      ensures Valid()
      ensures formData == old(formData).(name := v)
      ensures patients == old(patients) && showAddModal == old(showAddModal) && editingPatient == old(editingPatient)
    {
      formData := formData.(name := v);
    }

    method SetEmail(v: string)
      requires Valid()
      modifies this
      ensures Valid()
      ensures formData == old(formData).(email := v)
      ensures patients == old(patients) && showAddModal == old(showAddModal) && editingPatient == old(editingPatient)
    {
      formData := formData.(email := v);
    }

    method SetPhone(v: string)
      requires Valid()
      modifies this
      ensures Valid()
      ensures formData == old(formData).(phone := v)
      ensures patients == old(patients) && showAddModal == old(showAddModal) && editingPatient == old(editingPatient)
    {
      formData := formData.(phone := v);
    }

    method SetStatus(v: Status)
      requires Valid()
      modifies this
      ensures Valid()
      ensures formData == old(formData).(status := v)
      ensures patients == old(patients) && showAddModal == old(showAddModal) && editingPatient == old(editingPatient)
    {
      formData := formData.(status := v);
    }
  }
}
