/** The repair loop's bookkeeping: which attempts were made, and what to do next. `Ledger` is the
    value, which a replay can rebuild and a theorem can speak of; `RepairLedger` is the mutable object,
    each method of which is proved to do to it what the value's function says. */
module Repair {
  import opened Options
  import opened LoopDetect

  datatype Outcome = Fixed | Improved | NoChange | Regressed

  datatype Attempt = Attempt(number: nat, fingerprint: Fingerprint, summary: string, outcome: Outcome)

  datatype Decision =
    | Continue
    | EscalateStrategy
    | SwitchRole
    | AskUser
    | GiveUp

  datatype Ledger = Ledger(attempts: seq<Attempt>, maxAttempts: nat, escalated: bool, switchedRole: bool) {
    /** How many attempts were made on one diagnosis, whatever was attempted in between. */
    function CountFor(fp: Fingerprint): (n: nat)
      ensures n == |Positions(attempts, fp)|
    {
      CountIsSize(attempts, fp);
      CountAttempts(attempts, fp)
    }

    /** Two different attempts were made on this diagnosis. */
    predicate TriedTwice(fp: Fingerprint) {
      exists i, j :: 0 <= i < j < |attempts| && attempts[i].fingerprint == fp && attempts[j].fingerprint == fp
    }

    function EscalateOrAsk(): Decision {
      if !escalated then EscalateStrategy
      else if !switchedRole then SwitchRole
      else AskUser
    }

    /** The last attempt made things worse. */
    predicate MadeWorse() {
      attempts != [] && attempts[|attempts| - 1].outcome.Regressed?
    }

    /** There is a reason to change course, and it is not that the repair swings between two states. */
    predicate Troubled(fp: Fingerprint, finding: Option<Finding>) {
      MadeWorse() || (finding.Some? && !finding.value.Oscillation?) || (finding.None? && TriedTwice(fp))
    }

    /** The budget comes first. With budget left trouble escalates, switches the role, or asks the user,
        each when those before it are used up; an oscillation asks at once; otherwise it goes on. */
    function Decide(fp: Fingerprint, finding: Option<Finding>): (d: Decision)
      ensures d == GiveUp <==> |attempts| >= maxAttempts
      ensures d == EscalateStrategy <==> |attempts| < maxAttempts && Troubled(fp, finding) && !escalated
      ensures d == SwitchRole <==> |attempts| < maxAttempts && Troubled(fp, finding) && escalated && !switchedRole
      ensures d == AskUser <==>
        |attempts| < maxAttempts && (Troubled(fp, finding) ==> escalated && switchedRole)
        && (Troubled(fp, finding) || finding.Some?)
      ensures d == Continue <==> |attempts| < maxAttempts && !Troubled(fp, finding) && finding.None?
    {
      TwiceIsTwo(attempts, fp);
      if |attempts| >= maxAttempts then GiveUp
      else if attempts != [] && attempts[|attempts| - 1].outcome == Regressed then EscalateOrAsk()
      else match finding
           case Some(Oscillation(_)) => AskUser
           case Some(_) => EscalateOrAsk()
           case None => if CountFor(fp) <= 1 then Continue else EscalateOrAsk()
    }

    function Record(a: Attempt): Ledger {
      this.(attempts := attempts + [a.(number := |attempts| + 1)])
    }
  }

  function CountAttempts(attempts: seq<Attempt>, fp: Fingerprint): nat {
    if attempts == [] then 0
    else CountAttempts(attempts[..|attempts| - 1], fp)
         + (if attempts[|attempts| - 1].fingerprint == fp then 1 else 0)
  }

  /** The places in the list at which an attempt was made on this diagnosis. */
  ghost function Positions(attempts: seq<Attempt>, fp: Fingerprint): set<nat> {
    set i: nat | i < |attempts| && attempts[i].fingerprint == fp
  }

  lemma {:induction false} CountIsSize(attempts: seq<Attempt>, fp: Fingerprint)
    ensures CountAttempts(attempts, fp) == |Positions(attempts, fp)|
  {
    if attempts != [] {
      var before, last := attempts[..|attempts| - 1], |attempts| - 1;
      CountIsSize(before, fp);
      assert Positions(attempts, fp) ==
        Positions(before, fp) + if attempts[last].fingerprint == fp then {last} else {};
    }
  }

  lemma {:induction false} TwiceIsTwo(attempts: seq<Attempt>, fp: Fingerprint)
    ensures CountAttempts(attempts, fp) >= 2 <==>
      exists i, j :: 0 <= i < j < |attempts| && attempts[i].fingerprint == fp && attempts[j].fingerprint == fp
    ensures CountAttempts(attempts, fp) >= 1 <==> exists i :: 0 <= i < |attempts| && attempts[i].fingerprint == fp
  {
    if attempts != [] {
      var before := attempts[..|attempts| - 1];
      TwiceIsTwo(before, fp);
      assert forall i :: 0 <= i < |before| ==> before[i] == attempts[i];
    }
  }

  function NewLedger(maxAttempts: nat): Ledger {
    Ledger([], maxAttempts, false, false)
  }

  class RepairLedger {
    var attempts: seq<Attempt>
    const maxAttempts: nat
    var escalated: bool
    var switchedRole: bool

    function Value(): Ledger
      reads this
    {
      Ledger(attempts, maxAttempts, escalated, switchedRole)
    }

    constructor (l: Ledger)
      ensures Value() == l
    {
      attempts, maxAttempts, escalated, switchedRole := l.attempts, l.maxAttempts, l.escalated, l.switchedRole;
    }

    method MarkEscalated()
      modifies this
      ensures Value() == old(Value()).(escalated := true)
    {
      escalated := true;
    }

    method MarkSwitchedRole()
      modifies this
      ensures Value() == old(Value()).(switchedRole := true)
    {
      switchedRole := true;
    }

    method Record(a: Attempt)
      modifies this
      ensures Value() == old(Value()).Record(a)
    {
      attempts := attempts + [a.(number := |attempts| + 1)];
    }

    method CountFor(fp: Fingerprint) returns (n: nat)
      ensures n == Value().CountFor(fp)
    {
      n := 0;
      for i := 0 to |attempts|
        invariant n == CountAttempts(attempts[..i], fp)
      {
        assert attempts[..i + 1][..i] == attempts[..i];
        if attempts[i].fingerprint == fp {
          n := n + 1;
        }
      }
      assert attempts[..|attempts|] == attempts;
    }

    method Decide(fp: Fingerprint, finding: Option<Finding>) returns (d: Decision)
      ensures d == Value().Decide(fp, finding)
    {
      if |attempts| >= maxAttempts {
        return GiveUp;
      }
      if attempts != [] && attempts[|attempts| - 1].outcome == Regressed {
        return Value().EscalateOrAsk();
      }
      match finding
      case Some(Oscillation(_)) =>
        return AskUser;
      case Some(_) =>
        return Value().EscalateOrAsk();
      case None =>
        var n := CountFor(fp);
        d := if n <= 1 then Continue else Value().EscalateOrAsk();
    }
  }
}
