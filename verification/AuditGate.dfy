/** The dependency audit gate: which blocking findings a set of temporary exceptions covers. The
    findings form a graph that may have cycles and may name packages it does not describe. */
module AuditGate {
  import opened Collections
  import opened CodeUnits

  /** Why a package is affected: another affected package, an advisory, or something unreadable. */
  datatype Via = Named(name: string) | Advisory(id: Option<string>) | Unreadable

  datatype Vias = NotAList | List(items: seq<Via>)

  /** An entry of the report; the severity is missing when it is not a string. */
  datatype Finding = Finding(severity: Option<string>, via: Vias) | NotAnObject

  type Findings = map<string, Finding>

  datatype Exception = Exception(
    projectId: string, package: string, advisory: string, reason: Text, expiresAt: Option<int>)

  datatype Options = Options(projectId: string, exceptions: seq<Exception>, now: int)

  /** What the report says of one level: a whole number, or something else. */
  datatype Count = Whole(n: int) | NotWhole

  datatype Counts = Counts(low: Count, moderate: Count, high: Count, critical: Count)

  datatype Report =
    | Malformed
    | Null
    | Report(error: bool, counts: Option<Counts>, findings: Findings)

  datatype Failure = InvalidReport | NoReport | Unavailable | Blocked(high: nat, critical: nat)

  datatype Outcome =
    | Passed(low: nat, moderate: nat)
    | Excepted(low: nat, moderate: nat, exceptedHigh: nat, exceptedCritical: nat)
    | Failed(failure: Failure)

  // ---- Exceptions ----

  /** An exception for this project, that package and that advisory, with a reason and unexpired. */
  predicate Applies(o: Options, e: Exception, package: string, id: string) {
    && e.projectId == o.projectId && e.package == package && e.advisory == id
    && Trimmed(e.reason) != [] && e.expiresAt.Some? && e.expiresAt.value > o.now
  }

  /** The position of the first exception that applies, counting from `from`. */
  function FirstFrom(o: Options, package: string, id: string, from: nat): (found: Option<nat>)
    requires from <= |o.exceptions|
    ensures found.None? ==> forall e | e in o.exceptions[from..] :: !Applies(o, e, package, id)
    ensures found.Some? ==> from <= found.value < |o.exceptions| && Applies(o, o.exceptions[found.value], package, id)
    ensures found.Some? ==> forall e | e in o.exceptions[from..found.value] :: !Applies(o, e, package, id)
    decreases |o.exceptions| - from
  {
    if from == |o.exceptions| then None
    else if Applies(o, o.exceptions[from], package, id) then Some(from)
    else FirstFrom(o, package, id, from + 1)
  }

  /** The exception the gate uses for an advisory on a package. */
  function Excuse(o: Options, package: string, via: Via): (found: Option<nat>)
    ensures found.Some? ==> found.value < |o.exceptions|
  {
    if via.Advisory? && via.id.Some? then FirstFrom(o, package, via.id.value, 0) else None
  }

  // ---- The graph ----

  predicate Described(f: Findings, name: string) {
    name in f && f[name].Finding? && f[name].via.List? && f[name].via.items != []
  }

  function ViasOf(f: Findings, name: string): seq<Via> {
    if Described(f, name) then f[name].via.items else []
  }

  predicate Inherits(f: Findings, name: string, from: string) {
    Named(from) in ViasOf(f, name)
  }

  /** A package is settled here when it is described and each advisory on it has an exception. */
  ghost predicate Settled(f: Findings, o: Options, name: string) {
    && Described(f, name)
    && forall via | via in ViasOf(f, name) :: via.Named? || Excuse(o, name, via).Some?
  }

  ghost predicate Walk(f: Findings, p: seq<string>) {
    p != [] && forall i | 0 < i < |p| :: Inherits(f, p[i - 1], p[i])
  }

  ghost predicate WalkFrom(f: Findings, name: string, p: seq<string>) {
    Walk(f, p) && p[0] == name
  }

  function Last(p: seq<string>): string
    requires p != []
  {
    p[|p| - 1]
  }

  ghost predicate Reaches(f: Findings, name: string, target: string) {
    exists p :: WalkFrom(f, name, p) && Last(p) == target
  }

  /** Some chain of inherited findings comes back to a package it went through. */
  ghost predicate ReachesCycle(f: Findings, name: string) {
    exists p :: WalkFrom(f, name, p) && Last(p) in p[..|p| - 1]
  }

  /** Everything the finding is inherited from is settled, and no chain of inheritance is a cycle. */
  ghost predicate Exempt(f: Findings, o: Options, name: string) {
    && (forall m | Reaches(f, name, m) :: Settled(f, o, m))
    && !ReachesCycle(f, name)
  }

  /** The exceptions used for packages the finding is inherited from. */
  ghost function UsedFor(f: Findings, o: Options, name: string): set<nat> {
    set i | 0 <= i < |o.exceptions| && Uses(f, o, name, i)
  }

  ghost predicate Uses(f: Findings, o: Options, name: string, i: nat) {
    exists m, via :: Reaches(f, name, m) && via in ViasOf(f, m) && Excuse(o, m, via) == Some(i)
  }

  // ---- In terms of the report and the list of exceptions ----

  /** The report lists the package at that level. */
  ghost predicate IsAt(f: Findings, name: string, severity: string) {
    name in f && f[name].Finding? && f[name].severity == Some(severity)
  }

  /** The exception is for this project, that package and that advisory, says why, and has not expired. */
  ghost predicate IsFor(o: Options, e: Exception, package: string, via: Via) {
    && e.projectId == o.projectId && e.package == package && via == Advisory(Some(e.advisory))
    && (exists c :: c in e.reason && !IsSpace(c))
    && exists t :: e.expiresAt == Some(t) && t > o.now
  }

  /** The audit ran to its end, says how many packages there are at each level and means the ones it lists, some
      of them blocking and all of those exempt. */
  ghost predicate Excusable(r: Report, code: int, o: Options) {
    && r.Report? && !r.error && code == 1
    && (exists low: nat, moderate: nat ::
          r.counts == Some(Counts(Whole(low), Whole(moderate),
                                  Whole(|set name | name in r.findings && IsAt(r.findings, name, "high")|),
                                  Whole(|set name | name in r.findings && IsAt(r.findings, name, "critical")|))))
    && (exists name :: IsAt(r.findings, name, "high") || IsAt(r.findings, name, "critical"))
    && (forall name | IsAt(r.findings, name, "high") || IsAt(r.findings, name, "critical") :: Exempt(r.findings, o, name))
  }

  /** The gate uses the first exception for an advisory. */
  lemma ExcuseIsFirst(o: Options, package: string, via: Via)
    ensures Excuse(o, package, via).Some? <==> exists e :: e in o.exceptions && IsFor(o, e, package, via)
    ensures forall i :: Excuse(o, package, via) == Some(i) <==>
      0 <= i < |o.exceptions| && IsFor(o, o.exceptions[i], package, via) &&
      forall k | 0 <= k < i :: !IsFor(o, o.exceptions[k], package, via)
  {
    forall e, id | via == Advisory(Some(id))
      ensures Applies(o, e, package, id) <==> IsFor(o, e, package, via)
    {
      TrimmedIsNothing(e.reason);
      if Applies(o, e, package, id) { assert e.expiresAt == Some(e.expiresAt.value); }
    }
    if via.Advisory? && via.id.Some? {
      assert o.exceptions[0..] == o.exceptions;
      var found := FirstFrom(o, package, via.id.value, 0);
      if found.Some? {
        assert forall k | 0 <= k < found.value :: o.exceptions[k] in o.exceptions[0..found.value];
        assert o.exceptions[found.value] in o.exceptions;
      }
      assert forall k | 0 <= k < |o.exceptions| :: o.exceptions[k] in o.exceptions;
    }
  }

  /** One finding is inherited from another when the report lists it among the reasons. */
  lemma InheritsMeansListed(f: Findings, name: string, from: string)
    ensures Inherits(f, name, from) <==>
      name in f && f[name].Finding? && f[name].via.List? && Named(from) in f[name].via.items
  {
  }

  /** Exempt is what the report describes completely, with an exception for every advisory it comes down to. */
  lemma ExemptInFull(f: Findings, o: Options, name: string)
    ensures Exempt(f, o, name) <==>
      && !ReachesCycle(f, name)
      && forall m | Reaches(f, name, m) ::
           && m in f && f[m].Finding? && f[m].via.List? && |f[m].via.items| > 0
           && forall via | via in f[m].via.items ::
                via.Named? || exists e :: e in o.exceptions && IsFor(o, e, m, via)
  {
    forall m, via
      ensures Excuse(o, m, via).Some? <==> exists e :: e in o.exceptions && IsFor(o, e, m, via)
    {
      ExcuseIsFirst(o, m, via);
    }
  }

  // ---- The recursive walk ----

  /** What `covered` answers. */
  predicate Covers(f: Findings, o: Options, name: string, trail: set<string>)
    decreases f.Keys - trail
  {
    && Described(f, name) && name !in trail
    && forall via | via in ViasOf(f, name) ::
         if via.Named? then Covers(f, o, via.name, trail + {name}) else Excuse(o, name, via).Some?
  }

  /** A walk that ends well: at a settled package not met before. */
  ghost predicate EndsWell(f: Findings, o: Options, p: seq<string>, trail: set<string>)
    requires p != []
  {
    Settled(f, o, Last(p)) && Last(p) !in trail && Last(p) !in p[..|p| - 1]
  }

  lemma {:induction false} CoveredWalksEndWell(f: Findings, o: Options, name: string, trail: set<string>, p: seq<string>)
    requires Covers(f, o, name, trail) && WalkFrom(f, name, p)
    ensures EndsWell(f, o, p, trail)
    decreases |p|
  {
    if |p| > 1 {
      assert Inherits(f, p[0], p[1]);
      var rest := p[1..];
      assert forall i | 0 < i < |rest| :: Inherits(f, rest[i - 1], rest[i]) by {
        assert forall i | 0 < i < |rest| :: rest[i - 1] == p[i] && rest[i] == p[i + 1];
      }
      CoveredWalksEndWell(f, o, p[1], trail + {name}, rest);
      assert p[..|p| - 1] == [name] + rest[..|rest| - 1];
    }
  }

  lemma Prepend(f: Findings, name: string, next: string, p: seq<string>)
    requires Inherits(f, name, next) && WalkFrom(f, next, p)
    ensures WalkFrom(f, name, [name] + p) && Last([name] + p) == Last(p)
  {
    var q := [name] + p;
    forall i | 0 < i < |q|
      ensures Inherits(f, q[i - 1], q[i])
    {
      if i > 1 { assert Inherits(f, p[i - 2], p[i - 1]); }
    }
  }

  lemma {:induction false} WalksEndingWellCover(f: Findings, o: Options, name: string, trail: set<string>)
    requires forall p | WalkFrom(f, name, p) :: EndsWell(f, o, p, trail)
    ensures Covers(f, o, name, trail)
    decreases f.Keys - trail
  {
    assert WalkFrom(f, name, [name]);
    assert EndsWell(f, o, [name], trail);
    forall via | via in ViasOf(f, name) && via.Named?
      ensures Covers(f, o, via.name, trail + {name})
    {
      forall p | WalkFrom(f, via.name, p)
        ensures EndsWell(f, o, p, trail + {name})
      {
        Prepend(f, name, via.name, p);
        assert EndsWell(f, o, [name] + p, trail);
        assert ([name] + p)[..|p|] == [name] + p[..|p| - 1];
      }
      WalksEndingWellCover(f, o, via.name, trail + {name});
    }
  }

  /** The recursive walk answers yes exactly when every package reached is described and settled and no
      cycle is reached. */
  lemma CoversExactlyTheExempt(f: Findings, o: Options, name: string)
    ensures Covers(f, o, name, {}) <==> Exempt(f, o, name)
  {
    if Covers(f, o, name, {}) {
      forall p | WalkFrom(f, name, p)
        ensures EndsWell(f, o, p, {})
      {
        CoveredWalksEndWell(f, o, name, {}, p);
      }
    }
    if Exempt(f, o, name) {
      forall p | WalkFrom(f, name, p)
        ensures EndsWell(f, o, p, {})
      {
        assert Reaches(f, name, Last(p));
      }
      WalksEndingWellCover(f, o, name, {});
    }
  }

  /** What is reached is reached through one of the vias. */
  lemma ReachesThroughVias(f: Findings, name: string, target: string)
    ensures Reaches(f, name, target) <==>
      target == name || exists next :: Inherits(f, name, next) && Reaches(f, next, target)
  {
    if target == name {
      assert WalkFrom(f, name, [name]);
    } else if Reaches(f, name, target) {
      var p :| WalkFrom(f, name, p) && Last(p) == target;
      var rest := p[1..];
      forall i | 0 < i < |rest|
        ensures Inherits(f, rest[i - 1], rest[i])
      {
        assert Inherits(f, p[i], p[i + 1]);
      }
      assert Inherits(f, p[0], p[1]) && WalkFrom(f, p[1], rest) && Last(rest) == target;
    } else if next :| Inherits(f, name, next) && Reaches(f, next, target) {
      var p :| WalkFrom(f, next, p) && Last(p) == target;
      Prepend(f, name, next, p);
    }
  }

  lemma UsesThroughVia(f: Findings, o: Options, name: string, via: Via)
    requires via in ViasOf(f, name)
    ensures via.Named? ==> UsedFor(f, o, via.name) <= UsedFor(f, o, name)
    ensures Excuse(o, name, via).Some? ==> Excuse(o, name, via).value in UsedFor(f, o, name)
  {
    ReachesThroughVias(f, name, name);
    if via.Named? {
      assert Inherits(f, name, via.name);
      forall i | i in UsedFor(f, o, via.name)
        ensures Uses(f, o, name, i)
      {
        var m, v :| Reaches(f, via.name, m) && v in ViasOf(f, m) && Excuse(o, m, v) == Some(i);
        ReachesThroughVias(f, name, m);
      }
    } else if Excuse(o, name, via).Some? {
      assert Uses(f, o, name, Excuse(o, name, via).value);
    }
  }

  /** The exceptions a via brings in. */
  ghost function Brings(f: Findings, o: Options, name: string, via: Via): set<nat> {
    if via.Named? then UsedFor(f, o, via.name)
    else if Excuse(o, name, via).Some? then {Excuse(o, name, via).value}
    else {}
  }

  lemma AllViasBringAll(f: Findings, o: Options, name: string, accepted: set<nat>)
    requires forall via | via in ViasOf(f, name) :: Brings(f, o, name, via) <= accepted
    ensures UsedFor(f, o, name) <= accepted
  {
    forall i | i in UsedFor(f, o, name)
      ensures i in accepted
    {
      var m, via :| Reaches(f, name, m) && via in ViasOf(f, m) && Excuse(o, m, via) == Some(i);
      ReachesThroughVias(f, name, m);
      if m == name {
        assert i in Brings(f, o, name, via);
      } else {
        var next :| Inherits(f, name, next) && Reaches(f, next, m);
        assert Uses(f, o, next, i);
        assert i in Brings(f, o, name, Named(next));
      }
    }
  }

  /** A via is dealt with: it is covered, and what it brings in is accepted. */
  ghost predicate Accounted(f: Findings, o: Options, name: string, trail: set<string>, via: Via, accepted: set<nat>) {
    && Brings(f, o, name, via) <= accepted
    && if via.Named? then Covers(f, o, via.name, trail + {name}) else Excuse(o, name, via).Some?
  }

  lemma StillAccounted(
    f: Findings, o: Options, name: string, trail: set<string>, vias: seq<Via>, before: set<nat>, after: set<nat>)
    requires before <= after
    requires forall k | 0 <= k < |vias| :: Accounted(f, o, name, trail, vias[k], before)
    ensures forall via | via in vias :: Accounted(f, o, name, trail, via, after)
  {
  }

  lemma EveryViaAccounted(f: Findings, o: Options, name: string, trail: set<string>, accepted: set<nat>)
    requires Described(f, name) && name !in trail
    requires forall k | 0 <= k < |ViasOf(f, name)| :: Accounted(f, o, name, trail, ViasOf(f, name)[k], accepted)
    ensures Covers(f, o, name, trail) && UsedFor(f, o, name) <= accepted
  {
    hide UsedFor;
    forall via | via in ViasOf(f, name)
      ensures Accounted(f, o, name, trail, via, accepted)
    {
    }
    AllViasBringAll(f, o, name, accepted);
  }

  class Gate {
    const findings: Findings
    const options: Options
    /** The exceptions relied on so far. */
    var accepted: set<nat>

    constructor (f: Findings, o: Options)
      ensures findings == f && options == o && accepted == {}
    {
      findings, options, accepted := f, o, {};
    }

    method Covered(name: string, trail: set<string>) returns (covered: bool)
      modifies this
      ensures covered == Covers(findings, options, name, trail)
      ensures old(accepted) <= accepted <= old(accepted) + UsedFor(findings, options, name)
      ensures covered ==> UsedFor(findings, options, name) <= accepted
      decreases findings.Keys - trail, 2
    {
      if !Described(findings, name) || name in trail { return false; }
      covered := Every(name, trail);
    }

    /** The vias of one package in turn, up to the first that is not covered. */
    method Every(name: string, trail: set<string>) returns (covered: bool)
      requires Described(findings, name) && name !in trail
      modifies this
      ensures covered == Covers(findings, options, name, trail)
      ensures old(accepted) <= accepted <= old(accepted) + UsedFor(findings, options, name)
      ensures covered ==> UsedFor(findings, options, name) <= accepted
      decreases findings.Keys - trail, 1
    {
      var vias := ViasOf(findings, name);
      for n := 0 to |vias|
        invariant old(accepted) <= accepted <= old(accepted) + UsedFor(findings, options, name)
        invariant forall k | 0 <= k < n :: Accounted(findings, options, name, trail, vias[k], accepted)
      {
        hide Accounted, Covers, UsedFor, ViasOf, Described;
        ghost var before := accepted;
        var ok := Account(name, trail, vias[n]);
        if !ok { return false; }
        StillAccounted(findings, options, name, trail, vias[..n], before, accepted);
        assert forall k | 0 <= k < n :: vias[k] == vias[..n][k] && vias[k] in vias[..n];
      }
      EveryViaAccounted(findings, options, name, trail, accepted);
      covered := true;
    }

    /** One via: another package, which must be covered, or an advisory, which needs an exception. */
    method Account(name: string, trail: set<string>, via: Via) returns (ok: bool)
      requires Described(findings, name) && name !in trail && via in ViasOf(findings, name)
      modifies this
      ensures old(accepted) <= accepted <= old(accepted) + UsedFor(findings, options, name)
      ensures if ok then Accounted(findings, options, name, trail, via, accepted) else !Covers(findings, options, name, trail)
      decreases findings.Keys - trail, 0
    {
      UsesThroughVia(findings, options, name, via);
      hide UsedFor, Excuse;
      if via.Named? {
        ok := Covered(via.name, trail + {name});
      } else {
        var excuse := Excuse(options, name, via);
        ok := excuse.Some?;
        if ok { accepted := accepted + {excuse.value}; }
      }
    }
  }

  // ---- The gate ----

  function WithSeverity(f: Findings, severity: string): set<string> {
    set name | name in f && f[name].Finding? && f[name].severity == Some(severity)
  }

  function Blockers(f: Findings): set<string> {
    WithSeverity(f, "high") + WithSeverity(f, "critical")
  }

  lemma LevelsAreListed(f: Findings)
    ensures forall severity :: WithSeverity(f, severity) == set name | name in f && IsAt(f, name, severity)
    ensures forall name :: name in Blockers(f) <==> IsAt(f, name, "high") || IsAt(f, name, "critical")
  {
  }

  predicate Natural(c: Count) {
    c.Whole? && c.n >= 0
  }

  predicate Usable(r: Report) {
    && r.Report? && !r.error && r.counts.Some?
    && Natural(r.counts.value.low) && Natural(r.counts.value.moderate)
    && Natural(r.counts.value.high) && Natural(r.counts.value.critical)
  }

  /** The report is about a finding the exceptions could be for: the audit itself ran, and the packages
      it lists account for the numbers it reports. */
  predicate Consistent(r: Report, code: int)
    requires Usable(r)
  {
    && code == 1 && Blockers(r.findings) != {}
    && |WithSeverity(r.findings, "high")| == r.counts.value.high.n
    && |WithSeverity(r.findings, "critical")| == r.counts.value.critical.n
  }

  ghost predicate AllExempt(f: Findings, o: Options) {
    forall name | name in Blockers(f) :: Exempt(f, o, name)
  }

  ghost function UsedForBlockers(f: Findings, o: Options): set<nat> {
    set i | 0 <= i < |o.exceptions| && UsesForBlockers(f, o, i)
  }

  ghost predicate UsesForBlockers(f: Findings, o: Options, i: nat) {
    exists name :: name in Blockers(f) && Uses(f, o, name, i)
  }

  predicate Quiet(r: Report, code: int)
    requires Usable(r)
  {
    r.counts.value.high.n == 0 && r.counts.value.critical.n == 0 && code == 0
  }

  /** The checks of the gate come to what an excusable report is. */
  lemma TheChecksMeanExcusable(r: Report, code: int, o: Options)
    ensures Usable(r) && !Quiet(r, code) && Consistent(r, code) && AllExempt(r.findings, o) <==> Excusable(r, code, o)
    ensures Excusable(r, code, o) ==>
              r.counts.value.high.n == |set name | name in r.findings && IsAt(r.findings, name, "high")|
              && r.counts.value.critical.n == |set name | name in r.findings && IsAt(r.findings, name, "critical")|
  {
    hide Exempt;
    if r.Report? { LevelsAreListed(r.findings); }
    if Usable(r) && Consistent(r, code) {
      var c := r.counts.value;
      assert r.counts == Some(Counts(Whole(c.low.n), Whole(c.moderate.n), Whole(c.high.n), Whole(c.critical.n)));
    }
  }

  /** Whether every blocking package is covered, looking at them in some order and stopping at the first
      that is not. */
  method CoverBlockers(f: Findings, o: Options) returns (all: bool, used: set<nat>)
    ensures all <==> AllExempt(f, o)
    ensures all ==> used == UsedForBlockers(f, o)
  {
    var gate := new Gate(f, o);
    var left := Blockers(f);
    while left != {}
      invariant left <= Blockers(f) && gate.findings == f && gate.options == o
      invariant forall name | name in Blockers(f) - left :: Exempt(f, o, name) && UsedFor(f, o, name) <= gate.accepted
      invariant gate.accepted <= UsedForBlockers(f, o)
      decreases |left|
    {
      var name :| name in left;
      var covered := gate.Covered(name, {});
      CoversExactlyTheExempt(f, o, name);
      if !covered { return false, {}; }
      assert UsedFor(f, o, name) <= UsedForBlockers(f, o);
      left := left - {name};
    }
    assert forall i | i in UsedForBlockers(f, o) :: exists name :: name in Blockers(f) && i in UsedFor(f, o, name);
    return true, gate.accepted;
  }

  /** The gate lets a release through with blocking findings only when the audit ran, the report accounts
      for them, and every one of them is exempt; it then reports the exceptions it relied on, no more and
      no fewer, and counts nothing as blocking. */
  method AssertAuditPassed(r: Report, code: int, options: Option<Options>) returns (outcome: Outcome, used: set<nat>)
    ensures r.Malformed? ==> outcome == Failed(InvalidReport)
    ensures r.Null? ==> outcome == Failed(NoReport)
    ensures r.Report? && !Usable(r) ==> outcome == Failed(Unavailable)
    ensures Usable(r) && Quiet(r, code) ==> outcome == Passed(r.counts.value.low.n, r.counts.value.moderate.n)
    ensures outcome.Passed? ==> Usable(r) && Quiet(r, code)
    ensures outcome.Excepted? <==>
      Usable(r) && !Quiet(r, code) && options.Some? && Consistent(r, code) && AllExempt(r.findings, options.value)
    ensures outcome.Excepted? ==> used == UsedForBlockers(r.findings, options.value)
    ensures outcome.Excepted? ==> outcome.exceptedHigh == |WithSeverity(r.findings, "high")|
    ensures outcome.Excepted? ==> outcome.exceptedCritical == |WithSeverity(r.findings, "critical")|
    ensures outcome.Excepted? ==> outcome.low == r.counts.value.low.n && outcome.moderate == r.counts.value.moderate.n
    ensures !outcome.Excepted? ==> used == {}
    ensures outcome.Failed? && Usable(r) ==> outcome.failure == Blocked(r.counts.value.high.n, r.counts.value.critical.n)
    ensures outcome.Passed? ==>
              r.Report? && !r.error && code == 0 &&
              r.counts == Some(Counts(Whole(outcome.low), Whole(outcome.moderate), Whole(0), Whole(0)))
    ensures outcome.Excepted? ==>
              r.counts == Some(Counts(Whole(outcome.low), Whole(outcome.moderate), Whole(outcome.exceptedHigh), Whole(outcome.exceptedCritical)))
    ensures outcome.Excepted? ==> outcome.exceptedHigh == |set name | name in r.findings && IsAt(r.findings, name, "high")|
    ensures outcome.Excepted? ==> outcome.exceptedCritical == |set name | name in r.findings && IsAt(r.findings, name, "critical")|
    ensures outcome.Excepted? <==> options.Some? && Excusable(r, code, options.value)
    ensures outcome.Excepted? ==>
              forall i | 0 <= i < |options.value.exceptions| :: i in used <==>
                exists name :: (IsAt(r.findings, name, "high") || IsAt(r.findings, name, "critical")) && Uses(r.findings, options.value, name, i)
    ensures outcome.Excepted? ==> forall i | i in used :: i < |options.value.exceptions|
    ensures forall low: nat, moderate: nat ::
              r.Report? && r == Report(false, Some(Counts(Whole(low), Whole(moderate), Whole(0), Whole(0))), r.findings) && code == 0 ==>
                outcome == Passed(low, moderate)
  {
    used := {};
    hide IsAt, Exempt;
    if r.Report? { LevelsAreListed(r.findings); }
    if options.Some? { TheChecksMeanExcusable(r, code, options.value); }
    hide Excusable, Consistent, AllExempt;
    if r.Malformed? { return Failed(InvalidReport), {}; }
    if r.Null? { return Failed(NoReport), {}; }
    if !Usable(r) { return Failed(Unavailable), {}; }
    var counts := r.counts.value;
    if counts.high.n == 0 && counts.critical.n == 0 && code == 0 {
      return Passed(counts.low.n, counts.moderate.n), {};
    }
    if options.Some? && Consistent(r, code) {
      var all, relied := CoverBlockers(r.findings, options.value);
      if all {
        return Excepted(counts.low.n, counts.moderate.n, counts.high.n, counts.critical.n), relied;
      }
    }
    outcome := Failed(Blocked(counts.high.n, counts.critical.n));
  }

  // ---- What the gate refuses whatever the exceptions say ----

  /** A blocking finding on a cycle, or one inherited from a package the report does not describe, is
      never exempt. */
  lemma NeverExempt(f: Findings, o: Options, name: string, target: string)
    requires Reaches(f, name, target)
    requires !Described(f, target) || (exists next :: Inherits(f, target, next) && Reaches(f, next, target))
    ensures !Exempt(f, o, name)
  {
    if Described(f, target) {
      var p :| WalkFrom(f, name, p) && Last(p) == target;
      var next :| Inherits(f, target, next) && Reaches(f, next, target);
      var q :| WalkFrom(f, next, q) && Last(q) == target;
      var whole := p + q;
      forall i | 0 < i < |whole|
        ensures Inherits(f, whole[i - 1], whole[i])
      {
        if i < |p| {
          assert Inherits(f, p[i - 1], p[i]);
        } else if i > |p| {
          assert Inherits(f, q[i - 1 - |p|], q[i - |p|]);
        }
      }
      assert WalkFrom(f, name, whole) && Last(whole) == target;
      assert whole[..|whole| - 1][|p| - 1] == target;
    }
  }

  /** Adding exceptions never takes an exemption away. */
  lemma MoreExceptionsKeepExemptions(f: Findings, o: Options, more: seq<Exception>, name: string)
    requires Exempt(f, o, name)
    ensures Exempt(f, o.(exceptions := o.exceptions + more), name)
  {
    var o' := o.(exceptions := o.exceptions + more);
    forall m | Reaches(f, name, m)
      ensures Settled(f, o', m)
    {
      assert Settled(f, o, m);
      forall via | via in ViasOf(f, m)
        ensures via.Named? || Excuse(o', m, via).Some?
      {
        if !via.Named? {
          var n := Excuse(o, m, via).value;
          assert o'.exceptions[0..] == o'.exceptions && o'.exceptions[n] == o.exceptions[n];
          assert o.exceptions[n] in o'.exceptions;
        }
      }
    }
  }
}
