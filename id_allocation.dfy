/**
 * The new-id rule of the patient list page as written:
 * `Math.max(...patients.map(p => p.id)) + 1` on JavaScript numbers,
 * where the maximum of no numbers is -Infinity and -Infinity + 1 is
 * -Infinity again.
 */
module IdAllocation {
  import opened PatientsData
  import PatientList

  /** The JavaScript numbers this rule can produce from integer ids. */
  datatype JsNumber = Finite(value: int) | NegativeInfinity

  /** `Math.max(a, b)`. */
  function JsMax2(a: JsNumber, b: JsNumber): JsNumber {
    match (a, b)
    case (NegativeInfinity, _) => b
    case (_, NegativeInfinity) => a
    case (Finite(x), Finite(y)) => if x >= y then a else b
  }

  /** `Math.max(...xs)`: -Infinity when `xs` is empty. */
  function JsMax(xs: seq<JsNumber>): JsNumber {
    if xs == [] then NegativeInfinity else JsMax2(xs[0], JsMax(xs[1..]))
  }

  /** `x + 1`. */
  function JsPlusOne(x: JsNumber): JsNumber {
    match x
    case Finite(v) => Finite(v + 1)
    case NegativeInfinity => NegativeInfinity
  }

  /** The ids of `ps` as JavaScript numbers. */
  function JsIds(ps: seq<Patient>): (r: seq<JsNumber>)
    ensures |r| == |ps|
  {
    if ps == [] then [] else [Finite(ps[0].id)] + JsIds(ps[1..])
  }

  /** The id `handleAddPatient` gives the new record, as written. */
  function AsWrittenNextId(ids: seq<JsNumber>): JsNumber {
    JsPlusOne(JsMax(ids))
  }

  lemma {:induction false} JsMaxOfIds(ps: seq<Patient>)
    requires ps != []
    ensures JsMax(JsIds(ps)) == Finite(PatientList.MaxId(ps))
  {
    if |ps| == 1 {
      assert JsIds(ps) == [Finite(ps[0].id)];
      assert JsIds(ps)[1..] == [];
    } else {
      JsMaxOfIds(ps[1..]);
      assert JsIds(ps)[1..] == JsIds(ps[1..]);
    }
  }

  /** On a non-empty list the rule as written agrees with `PatientList.NextId`. */
  lemma AsWrittenAgreesOnNonEmpty(ps: seq<Patient>)
    requires ps != []
    ensures AsWrittenNextId(JsIds(ps)) == Finite(PatientList.NextId(ps))
  {
    JsMaxOfIds(ps);
  }

  /**
   * Once every patient has been deleted, two adds in a row both get the id
   * -Infinity: the ids are no longer distinct. `PatientList.NextId` gives 1
   * and then 2.
   */
  lemma AsWrittenDuplicateIds()
    ensures var first := AsWrittenNextId([]);
      && first == NegativeInfinity
      && AsWrittenNextId([first]) == first
    ensures PatientList.NextId([]) == 1
  {
  }
}
