/** The checks that a program description passes before it is simulated or served. */
module Programs {
  import opened Sequences
  import opened Dag

  datatype CallSpec = CallSpec(callId: string, programId: string, parents: seq<string>, thinkTime: real)

  datatype Program = Program(programId: string, calls: seq<CallSpec>, arrival: real)

  datatype Verdict =
    Accepted | NegativeArrival | NoCalls | DuplicateIds | ForeignCall | MissingParents | Cycle |
    DuplicateProgram | NegativeThinkTime | NoPrograms

  function Ids(calls: seq<CallSpec>): (ids: seq<string>)
    ensures |ids| == |calls| && forall i :: 0 <= i < |calls| ==> ids[i] == calls[i].callId
  {
    seq(|calls|, i requires 0 <= i < |calls| => calls[i].callId)
  }

  predicate KnownParents(calls: seq<CallSpec>, call: CallSpec) {
    forall k :: 0 <= k < |call.parents| ==> call.parents[k] in Ids(calls)
  }

  /** The dependency graph; of calls that share an id, the last one counts. */
  function GraphOf(calls: seq<CallSpec>): (g: Graph<string>)
    ensures forall id :: id in g <==> id in Ids(calls)
  {
    if calls == [] then map[]
    else
      var n := |calls| - 1;
      var g := GraphOf(calls[..n]);
      assert forall id :: id in Ids(calls) <==> id in Ids(calls[..n]) || id == calls[n].callId by {
        assert Ids(calls) == Ids(calls[..n]) + [calls[n].callId];
      }
      g[calls[n].callId := calls[n].parents]
  }

  lemma {:induction false} GraphParents(calls: seq<CallSpec>, i: nat)
    requires NoDup(Ids(calls)) && i < |calls|
    ensures calls[i].callId in GraphOf(calls) && GraphOf(calls)[calls[i].callId] == calls[i].parents
  {
    var n := |calls| - 1;
    assert Ids(calls)[i] in Ids(calls);
    if i < n {
      assert Ids(calls[..n]) == Ids(calls)[..n];
      GraphParents(calls[..n], i);
      assert Ids(calls)[i] != Ids(calls)[n];
    }
  }

  /** With unique ids and known parents the graph is closed. */
  lemma GraphClosed(calls: seq<CallSpec>)
    requires NoDup(Ids(calls)) && forall i :: 0 <= i < |calls| ==> KnownParents(calls, calls[i])
    ensures Closed(GraphOf(calls))
  {
    hide GraphOf, Ids, KnownParents, NoDup;
    forall id, k | id in GraphOf(calls) && 0 <= k < |GraphOf(calls)[id]|
      ensures GraphOf(calls)[id][k] in GraphOf(calls) {
      ParentIn(calls, id, k);
    }
  }

  lemma ParentIn(calls: seq<CallSpec>, id: string, k: nat)
    requires NoDup(Ids(calls)) && forall i :: 0 <= i < |calls| ==> KnownParents(calls, calls[i])
    requires id in GraphOf(calls) && k < |GraphOf(calls)[id]|
    ensures GraphOf(calls)[id][k] in GraphOf(calls)
  {
    hide GraphOf, Ids, KnownParents, NoDup;
    var i :| 0 <= i < |calls| && Ids(calls)[i] == id;
    GraphParents(calls, i);
    KnownParent(calls, calls[i], k);
  }

  lemma KnownParent(calls: seq<CallSpec>, call: CallSpec, k: nat)
    requires KnownParents(calls, call) && k < |call.parents|
    ensures call.parents[k] in GraphOf(calls)
  {
    hide GraphOf, Ids;
  }

  // ---- The constructor's check -------------------------------------------------------

  /** What is wrong with one call. */
  function CallFault(p: Program, call: CallSpec): Option<Verdict> {
    if call.programId != p.programId then Some(ForeignCall)
    else if !KnownParents(p.calls, call) then Some(MissingParents)
    else None
  }

  /** The fault of the first faulty call. */
  function FirstFault(p: Program, k: nat): Option<Verdict>
    requires k <= |p.calls|
  {
    if k == 0 then None
    else if FirstFault(p, k - 1).Some? then FirstFault(p, k - 1)
    else CallFault(p, p.calls[k - 1])
  }

  lemma {:induction false} NoFault(p: Program, k: nat)
    requires k <= |p.calls|
    ensures FirstFault(p, k).None? <==> forall i :: 0 <= i < k ==> CallFault(p, p.calls[i]).None?
  {
    if k > 0 {
      NoFault(p, k - 1);
    }
  }

  /** What the constructor of a program promises. */
  ghost function Judge(p: Program): Verdict {
    if p.arrival < 0.0 then NegativeArrival
    else if p.calls == [] then NoCalls
    else if !NoDup(Ids(p.calls)) then DuplicateIds
    else if FirstFault(p, |p.calls|).Some? then FirstFault(p, |p.calls|).value
    else if !Acyclic(GraphOf(p.calls)) then Cycle
    else Accepted
  }

  /** `len(set(ids)) != len(ids)`. */
  method HasDuplicates(ids: seq<string>) returns (duplicates: bool)
    ensures duplicates <==> !NoDup(ids)
  {
    var seen: set<string> := {};
    for i := 0 to |ids|
      invariant seen == set k | 0 <= k < i :: ids[k]
      invariant NoDup(ids[..i])
    {
      if ids[i] in seen {
        return true;
      }
      seen := seen + {ids[i]};
    }
    assert ids[..|ids|] == ids;
    return false;
  }

  /** The first `k` calls belong to the program and have known parents. */
  predicate CleanUpTo(p: Program, k: nat)
    requires k <= |p.calls|
  {
    forall i :: 0 <= i < k ==> p.calls[i].programId == p.programId && KnownParents(p.calls, p.calls[i])
  }

  /** What each verdict says about the program. No two of them can be said of the same program. */
  ghost predicate Tells(p: Program, v: Verdict) {
    var n := |p.calls|;
    match v
    case NegativeArrival => p.arrival < 0.0
    case NoCalls => p.arrival >= 0.0 && n == 0
    case DuplicateIds => p.arrival >= 0.0 && n > 0 && !NoDup(Ids(p.calls))
    case ForeignCall => p.arrival >= 0.0 && NoDup(Ids(p.calls)) &&
      exists i :: 0 <= i < n && CleanUpTo(p, i) && p.calls[i].programId != p.programId
    case MissingParents => p.arrival >= 0.0 && NoDup(Ids(p.calls)) &&
      exists i :: 0 <= i < n && CleanUpTo(p, i) && p.calls[i].programId == p.programId &&
        !KnownParents(p.calls, p.calls[i])
    case Cycle => p.arrival >= 0.0 && n > 0 && NoDup(Ids(p.calls)) && CleanUpTo(p, n) && !Acyclic(GraphOf(p.calls))
    case Accepted => p.arrival >= 0.0 && n > 0 && NoDup(Ids(p.calls)) && CleanUpTo(p, n) && Acyclic(GraphOf(p.calls))
    case _ => false
  }

  /** The fault that is found is that of the first call that has one. */
  lemma {:induction false} FirstFaultFound(p: Program, k: nat) returns (i: nat)
    requires k <= |p.calls|
    ensures i <= k && CleanUpTo(p, i)
    ensures FirstFault(p, k).None? ==> i == k
    ensures FirstFault(p, k).Some? ==> i < k
    ensures FirstFault(p, k) == Some(ForeignCall) ==> p.calls[i].programId != p.programId
    ensures FirstFault(p, k) == Some(MissingParents) ==>
      p.calls[i].programId == p.programId && !KnownParents(p.calls, p.calls[i])
    ensures FirstFault(p, k) in {None, Some(ForeignCall), Some(MissingParents)}
  {
    hide KnownParents;
    i := 0;
    if k > 0 {
      i := FirstFaultFound(p, k - 1);
      if FirstFault(p, k - 1).None? && FirstFault(p, k).None? {
        i := k;
      }
    }
  }

  /** The constructor's verdict is always a true one, and the only true one. */
  lemma VerdictTells(p: Program, v: Verdict)
    ensures Tells(p, v) <==> v == Judge(p)
  {
    hide KnownParents, Acyclic, GraphOf, Ids, NoDup;
    var i := FirstFaultFound(p, |p.calls|);
    assert FirstFault(p, |p.calls|).Some? ==> Judge(p) in {NegativeArrival, NoCalls, DuplicateIds, ForeignCall,
      MissingParents};
    assert Tells(p, Judge(p));
  }

  method CheckProgram(p: Program) returns (v: Verdict)
    ensures v == Judge(p) && Tells(p, v)
  {
    VerdictTells(p, Judge(p));
    if p.arrival < 0.0 { return NegativeArrival; }
    if p.calls == [] { return NoCalls; }
    var duplicates := HasDuplicates(Ids(p.calls));
    if duplicates { return DuplicateIds; }
    for i := 0 to |p.calls|
      invariant FirstFault(p, i).None?
    {
      if CallFault(p, p.calls[i]).Some? {
        FaultStays(p, i + 1, |p.calls|);
        return CallFault(p, p.calls[i]).value;
      }
    }
    NoFault(p, |p.calls|);
    GraphClosed(p.calls);
    var visited := Kahn(Ids(p.calls), GraphOf(p.calls));
    v := if visited != |p.calls| then Cycle else Accepted;
  }

  lemma {:induction false} FaultStays(p: Program, k: nat, n: nat)
    requires k <= n <= |p.calls| && FirstFault(p, k).Some?
    ensures FirstFault(p, n) == FirstFault(p, k)
  {
    if k < n {
      FaultStays(p, k, n - 1);
    }
  }

  // ---- The workload check --------------------------------------------------------------

  /** Everything the workload check asks of one program short of acyclicity. */
  ghost predicate WellNamed(p: Program) {
    && p.arrival >= 0.0 && p.calls != [] && NoDup(Ids(p.calls))
    && (forall i :: 0 <= i < |p.calls| ==> p.calls[i].thinkTime >= 0.0 && KnownParents(p.calls, p.calls[i]))
  }

  ghost predicate Sound(p: Program) { WellNamed(p) && Acyclic(GraphOf(p.calls)) }

  method ValidateProgram(p: Program) returns (v: Verdict)
    ensures v == Accepted <==> Sound(p)
    ensures v == Cycle <==> WellNamed(p) && !Acyclic(GraphOf(p.calls))
  {
    hide Acyclic, GraphOf, Ids, KnownParents, NoDup, Closed;
    if p.arrival < 0.0 { return NegativeArrival; }
    var duplicates := HasDuplicates(Ids(p.calls));
    if p.calls == [] || duplicates { return DuplicateIds; }
    for i := 0 to |p.calls|
      invariant forall j :: 0 <= j < i ==> p.calls[j].thinkTime >= 0.0 && KnownParents(p.calls, p.calls[j])
    {
      if p.calls[i].thinkTime < 0.0 { return NegativeThinkTime; }
      if !KnownParents(p.calls, p.calls[i]) { return MissingParents; }
    }
    GraphClosed(p.calls);
    var accepted := ReadyRounds(Ids(p.calls), GraphOf(p.calls));
    v := if accepted then Accepted else Cycle;
  }

  /** Whole workloads: unique program ids, at least one program, and every program sound. */
  method ValidateWorkload(programs: seq<Program>) returns (v: Verdict)
    ensures v == Accepted <==>
      && programs != []
      && (forall i :: 0 <= i < |programs| ==> Sound(programs[i]))
      && (forall i, j :: 0 <= i < j < |programs| ==> programs[i].programId != programs[j].programId)
  {
    hide Sound;
    var names: set<string> := {};
    for k := 0 to |programs|
      invariant names == set i | 0 <= i < k :: programs[i].programId
      invariant forall i :: 0 <= i < k ==> Sound(programs[i])
      invariant forall i, j :: 0 <= i < j < k ==> programs[i].programId != programs[j].programId
    {
      if programs[k].arrival < 0.0 {
        NegativeIsUnsound(programs[k]);
        return NegativeArrival;
      }
      if programs[k].programId in names { return DuplicateProgram; }
      names := names + {programs[k].programId};
      var one := ValidateProgram(programs[k]);
      if one != Accepted { return one; }
    }
    v := if programs == [] then NoPrograms else Accepted;
  }

  lemma NegativeIsUnsound(p: Program)
    requires p.arrival < 0.0
    ensures !Sound(p)
  {
  }

  predicate OwnCalls(p: Program) { forall i :: 0 <= i < |p.calls| ==> p.calls[i].programId == p.programId }

  predicate NoNegativeThinkTime(p: Program) { forall i :: 0 <= i < |p.calls| ==> p.calls[i].thinkTime >= 0.0 }

  /** The two checks accept the same programs, those with a topological order, except for what only one of them looks
      at: the constructor at the calls' program ids, the workload check at the think times. */
  lemma ChecksAgree(p: Program)
    ensures Sound(p) && OwnCalls(p) <==> Judge(p) == Accepted && NoNegativeThinkTime(p)
    ensures Sound(p) ==> Closed(GraphOf(p.calls)) && exists rank :: Ranked(GraphOf(p.calls), rank)
  {
    hide GraphOf, Ids, KnownParents;
    NoFault(p, |p.calls|);
    assert FirstFault(p, |p.calls|).None? <==> OwnCalls(p) && forall i :: 0 <= i < |p.calls| ==>
      KnownParents(p.calls, p.calls[i]) by {
      forall i | 0 <= i < |p.calls| ensures
        CallFault(p, p.calls[i]).None? <==> p.calls[i].programId == p.programId && KnownParents(p.calls, p.calls[i]) {}
    }
    var _ := FirstFaultFound(p, |p.calls|);
    if Sound(p) {
      GraphClosed(p.calls);
    }
  }

  /** The critical-path loop of the benchmark, on every workload that passed the check: it ends, and gives every call
      the weight of the heaviest dependency path that ends there. */
  method CriticalPaths(p: Program, weight: map<string, int>) returns (critical: map<string, int>)
    requires Sound(p) && weight.Keys == GraphOf(p.calls).Keys && forall id :: id in weight ==> weight[id] >= 0
    ensures critical.Keys == GraphOf(p.calls).Keys
    ensures forall path :: IsPath(GraphOf(p.calls), path) ==> PathWeight(weight, path) <= critical[path[|path| - 1]]
    ensures forall id :: id in critical ==>
      exists path :: IsPath(GraphOf(p.calls), path) && path[|path| - 1] == id && PathWeight(weight,
        path) == critical[id]
  {
    var g := GraphOf(p.calls);
    GraphClosed(p.calls);
    ghost var rank :| Ranked(g, rank);
    critical := ResolvePaths(Ids(p.calls), g, weight, rank);
    forall path | IsPath(g, path) ensures PathWeight(weight, path) <= critical[path[|path| - 1]] {
      LongestBounds(g, rank, weight, path);
    }
    forall id | id in critical
      ensures exists path :: IsPath(g, path) && path[|path| - 1] == id && PathWeight(weight, path) == critical[id]
    {
      var path := LongestAttained(g, rank, weight, id);
    }
  }
}
