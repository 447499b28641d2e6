/** The vocabularies shared by the Supvisors components (supvisors/ttypes.py), and the
    order of nick identifiers used by the Master election. */
module SupvisorsTypes {

  /** The identifier of a Supvisors instance. */
  datatype Identifier = Id(name: string)

  datatype Option<+T> = None | Some(value: T)

  /** State of a remote Supvisors instance, as seen locally. */
  datatype InstanceState = Stopped | Checking | Checked | Running | Failed | Isolated

  /** State of the Supvisors state machine. */
  datatype FsmState =
    | Off | Synchronization | Election | Distribution | Operation | Conciliation
    | Restarting | ShuttingDown | Final

  /** The string order of Python, on code points. */
  predicate StrLess(a: string, b: string) {
    if b == [] then false
    else if a == [] then true
    else a[0] < b[0] || (a[0] == b[0] && StrLess(a[1..], b[1..]))
  }

  lemma {:induction false} StrLessIrreflexive(a: string)
    ensures !StrLess(a, a)
  {
    if a != [] {
      StrLessIrreflexive(a[1..]);
    }
  }

  lemma {:induction false} StrLessTransitive(a: string, b: string, c: string)
    requires StrLess(a, b) && StrLess(b, c)
    ensures StrLess(a, c)
  {
    if a != [] && a[0] == b[0] && b[0] == c[0] {
      StrLessTransitive(a[1..], b[1..], c[1..]);
    }
  }

  lemma {:induction false} StrLessTotal(a: string, b: string)
    ensures a == b || StrLess(a, b) || StrLess(b, a)
  {
    if a != [] && b != [] && a[0] == b[0] {
      StrLessTotal(a[1..], b[1..]);
      assert a == [a[0]] + a[1..];
      assert b == [b[0]] + b[1..];
    }
  }
}
