/** The status formula of an application (ApplicationStatus.evaluate and update_status_formula in
    supvisors/application.py). */
module StatusFormula {
  import opened ProcessStates

  /** The syntax trees of formulas; `Other` is any unsupported node. */
  datatype Expr =
    | Leaf(text: string)
    | Call(function_: string, arg: Expr)
    | And(values: Exprs)
    | Or(values: Exprs)
    | Not(operand: Expr)
    | Other

  datatype Exprs = Nil | Cons(head: Expr, tail: Exprs)

  datatype Value = Bool(b: bool) | List(bs: seq<bool>) | ParseError

  /** The names of the processes, and those that match a pattern. */
  datatype Names = Names(processes: set<string>, matches: string -> seq<string>)

  type Status = string -> bool

  function Statuses(names: seq<string>, st: Status): (r: seq<bool>)
    ensures |r| == |names| && forall i :: 0 <= i < |names| ==> r[i] == st(names[i])
    decreases |names|
  {
    if names == [] then [] else Statuses(names[..|names| - 1], st) + [st(names[|names| - 1])]
  }

  function All(bs: seq<bool>): bool {
    forall i :: 0 <= i < |bs| ==> bs[i]
  }

  function Any(bs: seq<bool>): bool {
    exists i :: 0 <= i < |bs| && bs[i]
  }

  // ---- Evaluation ----

  function Evaluate(n: Names, st: Status, e: Expr): Value
    decreases e
  {
    match e
    case Leaf(text) =>
      if text in n.processes then Bool(st(text))
      else
        var names := n.matches(text);
        if |names| == 1 then Bool(st(names[0]))
        else if names != [] then List(Statuses(names, st))
        else ParseError
    case Call(f, arg) =>
      if f != "all" && f != "any" then ParseError
      else
        (match Evaluate(n, st, arg)
         case Bool(b) => Bool(if f == "all" then All([b]) else Any([b]))
         case List(bs) => Bool(if f == "all" then All(bs) else Any(bs))
         case ParseError => ParseError)
    case And(values) =>
      var r := EvaluateAll(n, st, values);
      if r.Bools? then Bool(All(r.bs)) else ParseError
    case Or(values) =>
      var r := EvaluateAll(n, st, values);
      if r.Bools? then Bool(Any(r.bs)) else ParseError
    case Not(operand) =>
      (match Evaluate(n, st, operand)
       case Bool(b) => Bool(!b)
       case _ => ParseError)
    case Other => ParseError
  }

  datatype Operands = Bools(bs: seq<bool>) | NotBools

  /** The operands of a Boolean operator, which must all be Booleans. */
  function EvaluateAll(n: Names, st: Status, es: Exprs): Operands
    decreases es
  {
    match es
    case Nil => Bools([])
    case Cons(head, tail) =>
      match Evaluate(n, st, head)
      case Bool(b) =>
        var r := EvaluateAll(n, st, tail);
        if r.Bools? then Bools([b] + r.bs) else NotBools
      case _ => NotBools
  }

  // ---- What a formula is, and what it means ----

  datatype Kind = IsBool | IsList(names: seq<string>) | IsError

  /** Whether a formula is a Boolean, a list or an error only depends on the names. */
  function KindOf(n: Names, e: Expr): Kind
    decreases e
  {
    match e
    case Leaf(text) =>
      if text in n.processes || |n.matches(text)| == 1 then IsBool
      else if n.matches(text) != [] then IsList(n.matches(text))
      else IsError
    case Call(f, arg) => if (f == "all" || f == "any") && !KindOf(n, arg).IsError? then IsBool else IsError
    case And(values) => if AllBool(n, values) then IsBool else IsError
    case Or(values) => if AllBool(n, values) then IsBool else IsError
    case Not(operand) => if KindOf(n, operand).IsBool? then IsBool else IsError
    case Other => IsError
  }

  predicate AllBool(n: Names, es: Exprs)
    decreases es
  {
    es.Cons? ==> KindOf(n, es.head).IsBool? && AllBool(n, es.tail)
  }

  /** The standard Boolean meaning of a formula that is a Boolean. */
  ghost predicate Holds(n: Names, st: Status, e: Expr)
    decreases e
  {
    match e
    case Leaf(text) => if text in n.processes then st(text) else |n.matches(text)| == 1 && st(n.matches(text)[0])
    case Call(f, arg) =>
      (match KindOf(n, arg)
       case IsList(names) => if f == "all" then (forall x :: x in names ==> st(x)) else (exists x :: x in names && st(x))
       case _ => Holds(n, st, arg))
    case And(values) => AllHold(n, st, values)
    case Or(values) => SomeHolds(n, st, values)
    case Not(operand) => !Holds(n, st, operand)
    case Other => false
  }

  ghost predicate AllHold(n: Names, st: Status, es: Exprs)
    decreases es
  {
    es.Cons? ==> Holds(n, st, es.head) && AllHold(n, st, es.tail)
  }

  ghost predicate SomeHolds(n: Names, st: Status, es: Exprs)
    decreases es
  {
    es.Cons? && (Holds(n, st, es.head) || SomeHolds(n, st, es.tail))
  }

  /** The value that the meaning of a formula gives. */
  ghost function Meaning(n: Names, st: Status, e: Expr): Value {
    match KindOf(n, e)
    case IsBool => Bool(Holds(n, st, e))
    case IsList(names) => List(Statuses(names, st))
    case IsError => ParseError
  }

  lemma {:induction false} AllOfCons(b: bool, bs: seq<bool>)
    ensures All([b] + bs) <==> b && All(bs)
    ensures Any([b] + bs) <==> b || Any(bs)
  {
    var r := [b] + bs;
    assert r[0] == b;
    assert forall i :: 0 <= i < |bs| ==> r[i + 1] == bs[i];
    if Any(bs) {
      var i :| 0 <= i < |bs| && bs[i];
      assert r[i + 1];
    }
    if Any(r) && !b {
      var i :| 0 <= i < |r| && r[i];
      assert bs[i - 1];
    }
    if All(r) {
      forall i | 0 <= i < |bs| ensures bs[i] {
        assert r[i + 1];
      }
    }
    if b && All(bs) {
      forall i | 0 <= i < |r| ensures r[i] {
        assert i > 0 ==> bs[i - 1];
      }
    }
  }

  /** Evaluation gives the meaning: the kind of the result does not depend on the states of the
      processes, and a Boolean result is the standard one. */
  lemma {:induction false} EvaluationIsMeaning(n: Names, st: Status, e: Expr)
    ensures Evaluate(n, st, e) == Meaning(n, st, e)
    decreases e
  {
    match e
    case Leaf(_) =>
    case Call(f, arg) =>
      EvaluationIsMeaning(n, st, arg);
      match KindOf(n, arg) {
        case IsList(names) =>
        case IsBool =>
          AllOfCons(Holds(n, st, arg), []);
          assert [Holds(n, st, arg)] + [] == [Holds(n, st, arg)];
        case IsError =>
      }
    case And(values) => OperandsAreMeaning(n, st, values);
    case Or(values) => OperandsAreMeaning(n, st, values);
    case Not(operand) => EvaluationIsMeaning(n, st, operand);
    case Other =>
  }

  lemma {:induction false} OperandsAreMeaning(n: Names, st: Status, es: Exprs)
    ensures var r := EvaluateAll(n, st, es);
            && (r.Bools? <==> AllBool(n, es))
            && (r.Bools? ==> (All(r.bs) <==> AllHold(n, st, es)) && (Any(r.bs) <==> SomeHolds(n, st, es)))
    decreases es
  {
    if es.Cons? {
      EvaluationIsMeaning(n, st, es.head);
      OperandsAreMeaning(n, st, es.tail);
      var r := EvaluateAll(n, st, es.tail);
      if r.Bools? {
        AllOfCons(Holds(n, st, es.head), r.bs);
      }
    }
  }

  // ---- Monotonicity ----

  predicate NotFree(e: Expr)
    decreases e
  {
    match e
    case Not(_) => false
    case Call(_, arg) => NotFree(arg)
    case And(values) => AllNotFree(values)
    case Or(values) => AllNotFree(values)
    case _ => true
  }

  predicate AllNotFree(es: Exprs)
    decreases es
  {
    es.Cons? ==> NotFree(es.head) && AllNotFree(es.tail)
  }

  ghost predicate Better(st: Status, st': Status) {
    forall x :: st(x) ==> st'(x)
  }

  /** A formula without `not` that holds still holds when more processes are good. */
  lemma {:induction false} Monotone(n: Names, st: Status, st': Status, e: Expr)
    requires NotFree(e) && Better(st, st')
    ensures Holds(n, st, e) ==> Holds(n, st', e)
    decreases e
  {
    match e
    case Leaf(_) =>
    case Call(_, arg) => Monotone(n, st, st', arg);
    case And(values) => MonotoneAll(n, st, st', values);
    case Or(values) => MonotoneAll(n, st, st', values);
    case Other =>
  }

  lemma {:induction false} MonotoneAll(n: Names, st: Status, st': Status, es: Exprs)
    requires AllNotFree(es) && Better(st, st')
    ensures AllHold(n, st, es) ==> AllHold(n, st', es)
    ensures SomeHolds(n, st, es) ==> SomeHolds(n, st', es)
    decreases es
  {
    if es.Cons? {
      Monotone(n, st, st', es.head);
      MonotoneAll(n, st, st', es.tail);
    }
  }

  // ---- Failures of the application ----

  datatype Info = Info(displayed: ProcessState, expectedExit: bool)

  predicate IsGood(i: Info) {
    InRunningStates(i.displayed) || (i.displayed.Exited? && i.expectedExit)
  }

  predicate IsCrashed(i: Info) {
    i.displayed.Fatal? || i.displayed.Unknown? || (i.displayed.Exited? && !i.expectedExit)
  }

  /** Every process is in one of three cases: good, crashed, or stopped (or stopping) on request. */
  lemma {:induction false} GoodOrCrashed(i: Info)
    ensures IsGood(i) ==> !IsCrashed(i)
    ensures !IsGood(i) && !IsCrashed(i) <==> i.displayed.Stopped? || i.displayed.Stopping?
    ensures i.displayed.Running? || i.displayed.Starting? || i.displayed.Backoff? ==> IsGood(i)
    ensures i.displayed.Exited? ==> (IsGood(i) <==> i.expectedExit)
  {
  }

  /** A formula that is the name of a process fails exactly when this process is not good, and the
      expected exit of a process counts as good. */
  lemma {:induction false} SingleProcessFormula(n: Names, infos: string -> Info, name: string)
    requires name in n.processes
    ensures MajorFailure(n, infos, Leaf(name)) <==>
            infos(name).displayed in {ProcessState.Stopped, ProcessState.Stopping, Fatal, Unknown}
            || (infos(name).displayed.Exited? && !infos(name).expectedExit)
  {
  }

  function StatusOf(infos: string -> Info): Status {
    (x: string) => IsGood(infos(x))
  }

  ghost predicate MajorFailure(n: Names, infos: string -> Info, formula: Expr) {
    !(KindOf(n, formula).IsBool? && Holds(n, StatusOf(infos), formula))
  }

  /** update_status_formula: the formula decides on the major failure; without major failure, a
      crashed process of the start sequence is a minor failure. */
  method UpdateStatusFormula(n: Names, infos: string -> Info, formula: Expr, sequenced: seq<string>)
    returns (major: bool, minor: bool)
    ensures major <==> MajorFailure(n, infos, formula)
    ensures minor <==> !major && exists x :: x in sequenced && IsCrashed(infos(x))
  {
    EvaluationIsMeaning(n, StatusOf(infos), formula);
    var result := Evaluate(n, StatusOf(infos), formula);
    major := result != Bool(true);
    minor := false;
    if !major {
      var i := 0;
      while i < |sequenced|
        invariant 0 <= i <= |sequenced|
        invariant minor <==> exists l :: 0 <= l < i && IsCrashed(infos(sequenced[l]))
      {
        if IsCrashed(infos(sequenced[i])) {
          minor := true;
        }
        i := i + 1;
      }
    }
  }

  /** A process that becomes good never raises a major failure, unless the formula uses `not`. */
  lemma {:induction false} RecoveryRaisesNoFailure(n: Names, infos: string -> Info, infos': string -> Info, formula: Expr)
    requires NotFree(formula) && forall x :: IsGood(infos(x)) ==> IsGood(infos'(x))
    ensures MajorFailure(n, infos', formula) ==> MajorFailure(n, infos, formula)
  {
    Monotone(n, StatusOf(infos), StatusOf(infos'), formula);
  }
}
