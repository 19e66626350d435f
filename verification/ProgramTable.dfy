/** The shared program table: one atomic transaction per operation, whatever process issues it. */
module ProgramTables {
  import opened Sequences

  datatype PolicyKind = Fcfs | Mlfq | Plas | Atlas

  datatype Row = Row(service: real, wait: real, active: int, closing: bool)

  datatype Table = Table(programs: map<string, Row>, requests: map<string, string>)

  datatype Failure = EmptyId | DuplicateProgram | NotOpen | DuplicateRequest

  datatype Result<+T> = Ok(value: T) | Err(failure: Failure)

  function MaxReal(a: real, b: real): real { if a <= b then b else a }

  // ---- The transactions --------------------------------------------------------------

  function Opened(t: Table, pid: string): Result<Table> {
    if pid == "" then Err(EmptyId)
    else if pid in t.programs then Err(DuplicateProgram)
    else Ok(t.(programs := t.programs[pid := Row(0.0, 0.0, 0, false)]))
  }

  function Admitted(t: Table, pid: string, rid: string): Result<Table> {
    if pid !in t.programs || t.programs[pid].closing then Err(NotOpen)
    else if rid in t.requests then Err(DuplicateRequest)
    else Ok(Table(t.programs[pid := t.programs[pid].(active := t.programs[pid].active + 1)], t.requests[rid := pid]))
  }

  /** What a new call takes over from its program. */
  function Inherits(kind: PolicyKind, service: real): real { if kind == Plas || kind == Atlas then service else 0.0 }

  /** The service of a program after one of its calls finished. */
  function Served(kind: PolicyKind, service: real, inherited: real, executed: real): real {
    if kind == Atlas then MaxReal(service, inherited + executed) else service + executed
  }

  /** Delete a program row that is closing and has no active call. */
  function Swept(programs: map<string, Row>, pid: string): map<string, Row> {
    if pid in programs && programs[pid].closing && programs[pid].active == 0 then programs - {pid} else programs
  }

  predicate Requested(t: Table, pid: string, rid: string) { rid in t.requests && t.requests[rid] == pid }

  function Finished(t: Table, pid: string, rid: string, inherited: real, executed: real, waited: real,
                    kind: PolicyKind): Table {
    if !Requested(t, pid, rid) then t
    else if pid !in t.programs then t.(requests := t.requests - {rid})
    else
      var row := t.programs[pid];
      var row' := Row(Served(kind, row.service, inherited, executed), row.wait + waited, row.active - 1, row.closing);
      Table(Swept(t.programs[pid := row'], pid), t.requests - {rid})
  }

  function Ended(t: Table, pid: string): Table {
    if pid !in t.programs then t
    else if t.programs[pid].active == 0 then t.(programs := t.programs - {pid})
    else t.(programs := t.programs[pid := t.programs[pid].(closing := true)])
  }

  // ---- What every transaction keeps ----------------------------------------------------

  function RequestsOf(t: Table, pid: string): (r: set<string>)
    ensures forall rid :: rid in r <==> Requested(t, pid, rid)
  {
    set rid | rid in t.requests && t.requests[rid] == pid
  }

  /** Every request belongs to a program, `active` counts the requests of a program, and no closing program is idle. */
  ghost predicate TableOk(t: Table) {
    && (forall rid :: rid in t.requests ==> t.requests[rid] in t.programs)
    && (forall pid :: pid in t.programs ==> t.programs[pid].active == |RequestsOf(t, pid)|)
    && (forall pid :: pid in t.programs ==> t.programs[pid].closing ==> t.programs[pid].active > 0)
    && (forall pid :: pid in t.programs ==> t.programs[pid].service >= 0.0)
  }

  lemma OpenKeeps(t: Table, pid: string)
    requires TableOk(t)
    ensures Opened(t, pid).Ok? ==> TableOk(Opened(t, pid).value)
  {
    if Opened(t, pid).Ok? {
      var t' := Opened(t, pid).value;
      forall q | q in t'.programs ensures t'.programs[q].active == |RequestsOf(t', q)| {
        assert RequestsOf(t', q) == RequestsOf(t, q);
        if q == pid { assert RequestsOf(t, pid) == {}; }
      }
    }
  }

  lemma AdmitKeeps(t: Table, pid: string, rid: string)
    requires TableOk(t)
    ensures Admitted(t, pid, rid).Ok? ==> TableOk(Admitted(t, pid, rid).value)
  {
    hide RequestsOf, Requested;
    if Admitted(t, pid, rid).Ok? {
      AdmitCounts(t, pid, rid);
    }
  }

  lemma AdmitCounts(t: Table, pid: string, rid: string)
    requires Admitted(t, pid, rid).Ok?
    ensures var t' := Admitted(t, pid, rid).value;
      forall q :: |RequestsOf(t', q)| == |RequestsOf(t, q)| + if q == pid then 1 else 0
  {
    var t' := Admitted(t, pid, rid).value;
    forall q ensures |RequestsOf(t', q)| == |RequestsOf(t, q)| + if q == pid then 1 else 0 {
      assert rid !in RequestsOf(t, q);
      assert RequestsOf(t', q) == if q == pid then RequestsOf(t, q) + {rid} else RequestsOf(t, q);
    }
  }

  lemma RequestsDrop(t: Table, rid: string, programs: map<string, Row>)
    requires rid in t.requests
    ensures var t' := Table(programs, t.requests - {rid});
      forall q :: RequestsOf(t', q) == RequestsOf(t, q) - {rid}
  {
  }

  lemma FinishCounts(t: Table, rid: string, programs: map<string, Row>)
    requires rid in t.requests
    ensures var t' := Table(programs, t.requests - {rid});
      forall q :: |RequestsOf(t', q)| == |RequestsOf(t, q)| - if q == t.requests[rid] then 1 else 0
  {
    var t' := Table(programs, t.requests - {rid});
    RequestsDrop(t, rid, programs);
    forall q ensures |RequestsOf(t', q)| == |RequestsOf(t, q)| - if q == t.requests[rid] then 1 else 0 {
      if q == t.requests[rid] {
        assert rid in RequestsOf(t, q);
      } else {
        assert RequestsOf(t, q) - {rid} == RequestsOf(t, q);
      }
    }
  }

  lemma NoneLeft(t: Table, pid: string)
    requires |RequestsOf(t, pid)| == 0
    ensures forall rid :: rid in t.requests ==> t.requests[rid] != pid
  {
    forall rid | rid in t.requests ensures t.requests[rid] != pid {
      assert rid !in RequestsOf(t, pid);
    }
  }

  lemma FinishKeeps(t: Table, pid: string, rid: string, inherited: real, executed: real, waited: real, kind: PolicyKind)
    requires TableOk(t) && executed >= 0.0
    ensures TableOk(Finished(t, pid, rid, inherited, executed, waited, kind))
  {
    hide RequestsOf;
    var t' := Finished(t, pid, rid, inherited, executed, waited, kind);
    if Requested(t, pid, rid) {
      FinishCounts(t, rid, t'.programs);
      if pid !in t'.programs {
        NoneLeft(t', pid);
      }
    }
  }

  lemma EndKeeps(t: Table, pid: string)
    requires TableOk(t)
    ensures TableOk(Ended(t, pid))
  {
    var t' := Ended(t, pid);
    forall q ensures RequestsOf(t', q) == RequestsOf(t, q) {
    }
    if pid !in t'.programs && pid in t.programs {
      NoneLeft(t', pid);
    }
  }

  // ---- Repetition and order --------------------------------------------------------------

  /** A second finish of the same request changes nothing. */
  lemma FinishTwice(t: Table, pid: string, rid: string, a: real, x: real, w: real, b: real, y: real, v: real,
                    kind: PolicyKind)
    ensures var once := Finished(t, pid, rid, a, x, w, kind); Finished(once, pid, rid, b, y, v, kind) == once
  {
  }

  /** A finish with zero values, as after an error, gives the request back and leaves service and waiting time alone. */
  lemma ErrorFinish(t: Table, pid: string, rid: string, kind: PolicyKind)
    requires TableOk(t)
    ensures var t' := Finished(t, pid, rid, 0.0, 0.0, 0.0, kind);
      forall q :: q in t'.programs ==>
        q in t.programs && t'.programs[q].service == t.programs[q].service && t'.programs[q].wait == t.programs[q].wait
  {
  }

  lemma ServedCommutes(kind: PolicyKind, service: real, a: real, x: real, b: real, y: real)
    ensures Served(kind, Served(kind, service, a, x), b, y) == Served(kind, Served(kind, service, b, y), a, x)
  {
  }

  /** Two calls may finish in either order: the table is the same. */
  lemma FinishCommutes(t: Table, p: string, r: string, a: real, x: real, w: real, q: string, s: string, b: real,
                       y: real, v: real, kind: PolicyKind)
    requires TableOk(t) && r != s
    ensures Finished(Finished(t, p, r, a, x, w, kind), q, s, b, y, v, kind)
      == Finished(Finished(t, q, s, b, y, v, kind), p, r, a, x, w, kind)
  {
    if Requested(t, p, r) && Requested(t, q, s) {
      assert (t.requests - {r}) - {s} == (t.requests - {s}) - {r};
      if p == q {
        BothActive(t, p, r, s);
        SameProgram(t, p, r, a, x, w, s, b, y, v, kind);
      } else {
        OtherPrograms(t, p, r, a, x, w, q, s, b, y, v, kind);
      }
    }
  }

  lemma BothActive(t: Table, p: string, r: string, s: string)
    requires TableOk(t) && r != s && Requested(t, p, r) && Requested(t, p, s)
    ensures p in t.programs && t.programs[p].active >= 2
  {
    assert {r, s} <= RequestsOf(t, p);
    SubsetCard({r, s}, RequestsOf(t, p));
  }

  lemma SameProgram(t: Table, p: string, r: string, a: real, x: real, w: real, s: string, b: real, y: real, v: real,
                    kind: PolicyKind)
    requires TableOk(t) && r != s && Requested(t, p, r) && Requested(t, p, s) && p in t.programs
      && t.programs[p].active >= 2
    ensures Finished(Finished(t, p, r, a, x, w, kind), p, s, b, y, v, kind).programs
      == Finished(Finished(t, p, s, b, y, v, kind), p, r, a, x, w, kind).programs
  {
    ServedCommutes(kind, t.programs[p].service, a, x, b, y);
  }

  lemma OtherPrograms(t: Table, p: string, r: string, a: real, x: real, w: real, q: string, s: string, b: real, y: real,
                      v: real, kind: PolicyKind)
    requires TableOk(t) && r != s && p != q && Requested(t, p, r) && Requested(t, q, s)
    ensures Finished(Finished(t, p, r, a, x, w, kind), q, s, b, y, v, kind).programs
      == Finished(Finished(t, q, s, b, y, v, kind), p, r, a, x, w, kind).programs
  {
    hide Finished, Requested, TableOk;
    var tp, tq := Finished(t, p, r, a, x, w, kind), Finished(t, q, s, b, y, v, kind);
    StillRequested(t, p, r, a, x, w, kind, q, s);
    StillRequested(t, q, s, b, y, v, kind, p, r);
    forall k ensures SameAt(Finished(tp, q, s, b, y, v, kind).programs, Finished(tq, p, r, a, x, w, kind).programs, k) {
      RowAt(t, p, r, a, x, w, kind, k);
      RowAt(t, q, s, b, y, v, kind, k);
      RowAt(tp, q, s, b, y, v, kind, k);
      RowAt(tq, p, r, a, x, w, kind, k);
      if k == p {
        OwnRow(t, tq, p, r, a, x, w, kind);
      } else if k == q {
        OwnRow(t, tp, q, s, b, y, v, kind);
      }
    }
    SameEverywhere(Finished(tp, q, s, b, y, v, kind).programs, Finished(tq, p, r, a, x, w, kind).programs);
  }

  /** Two programs tables agree on one program. */
  predicate SameAt(a: map<string, Row>, b: map<string, Row>, k: string) {
    (k in a <==> k in b) && (k in a && k in b ==> a[k] == b[k])
  }

  lemma SameEverywhere(a: map<string, Row>, b: map<string, Row>)
    requires forall k :: SameAt(a, b, k)
    ensures a == b
  {
    forall k ensures k in a <==> k in b {
      assert SameAt(a, b, k);
    }
    assert a.Keys == b.Keys;
    forall k | k in a ensures a[k] == b[k] {
      assert SameAt(a, b, k);
    }
  }

  /** Finishing a request leaves the rows of the other programs alone. */
  lemma RowAt(t: Table, p: string, r: string, a: real, x: real, w: real, kind: PolicyKind, k: string)
    ensures k != p ==> SameAt(t.programs, Finished(t, p, r, a, x, w, kind).programs, k)
  {
    hide Served;
  }

  lemma StillRequested(t: Table, p: string, r: string, a: real, x: real, w: real, kind: PolicyKind, q: string,
                       s: string)
    requires r != s && Requested(t, q, s)
    ensures Requested(Finished(t, p, r, a, x, w, kind), q, s)
  {
    hide Served;
  }

  /** What finishing does to a program's row depends on that row alone. */
  lemma OwnRow(t: Table, t': Table, p: string, r: string, a: real, x: real, w: real, kind: PolicyKind)
    requires SameAt(t.programs, t'.programs, p) && Requested(t, p, r) && Requested(t', p, r)
    ensures SameAt(Finished(t, p, r, a, x, w, kind).programs, Finished(t', p, r, a, x, w, kind).programs, p)
  {
  }

  // ---- The table object --------------------------------------------------------------------

  class ProgramTable {
    var programs: map<string, Row>
    var requests: map<string, string>

    function Contents(): Table
      reads this
    {
      Table(programs, requests)
    }

    constructor ()
      ensures Contents() == Table(map[], map[])
    {
      programs, requests := map[], map[];
    }

    method Open(pid: string) returns (failure: Option<Failure>)
      modifies this
      ensures match Opened(old(Contents()), pid)
              case Ok(t) => failure == None && Contents() == t
              case Err(e) => failure == Some(e) && Contents() == old(Contents())
      ensures failure == None <==> pid != "" && pid !in old(programs)
      ensures failure == None ==> programs == old(programs)[pid := Row(0.0, 0.0, 0, false)] && requests == old(requests)
    {
      if pid == "" { return Some(EmptyId); }
      if pid in programs { return Some(DuplicateProgram); }
      programs := programs[pid := Row(0.0, 0.0, 0, false)];
      return None;
    }

    /** Service and waiting time of the program as the call finds them. */
    method Admit(pid: string, rid: string) returns (found: Result<(real, real)>)
      modifies this
      ensures match Admitted(old(Contents()), pid, rid)
              case Ok(t) => found == Ok((old(programs)[pid].service, old(programs)[pid].wait)) && Contents() == t
              case Err(e) => found == Err(e) && Contents() == old(Contents())
      ensures found.Ok? <==> pid in old(programs) && !old(programs)[pid].closing && rid !in old(requests)
      ensures found.Ok? ==>
        var row := old(programs)[pid];
        && programs == old(programs)[pid := Row(row.service, row.wait, row.active + 1, row.closing)]
        && requests == old(requests)[rid := pid]
    {
      if pid !in programs || programs[pid].closing { return Err(NotOpen); }
      if rid in requests { return Err(DuplicateRequest); }
      requests := requests[rid := pid];
      programs := programs[pid := programs[pid].(active := programs[pid].active + 1)];
      return Ok((programs[pid].service, programs[pid].wait));
    }

    method Finish(pid: string, rid: string, inherited: real, executed: real, waited: real, kind: PolicyKind)
      modifies this
      ensures Contents() == Finished(old(Contents()), pid, rid, inherited, executed, waited, kind)
      ensures rid !in old(requests) || old(requests)[rid] != pid ==> Contents() == old(Contents())
      ensures rid in old(requests) && old(requests)[rid] == pid ==> requests == old(requests) - {rid}
      ensures rid in old(requests) && old(requests)[rid] == pid && pid in old(programs) ==>
        var row, path := old(programs)[pid], inherited + executed;
        var service :=
          if kind != Atlas then row.service + executed else if row.service < path then path else row.service;
        programs == if row.closing && row.active == 1 then old(programs) - {pid}
          else old(programs)[pid := Row(service, row.wait + waited, row.active - 1, row.closing)]
    {
      var removed := rid in requests && requests[rid] == pid;
      if removed {
        requests := requests - {rid};
        if pid in programs {
          var row := programs[pid];
          var service := if kind == Atlas then MaxReal(row.service, inherited + executed) else row.service + executed;
          programs := programs[pid := Row(service, row.wait + waited, row.active - 1, row.closing)];
          if programs[pid].closing && programs[pid].active == 0 {
            programs := programs - {pid};
          }
        }
      }
    }

    method End(pid: string)
      modifies this
      ensures Contents() == Ended(old(Contents()), pid)
      ensures requests == old(requests) && programs ==
        if pid !in old(programs) then old(programs)
        else if old(programs)[pid].active == 0 then old(programs) - {pid}
        else old(programs)[pid := old(programs)[pid].(closing := true)]
    {
      if pid in programs {
        programs := programs[pid := programs[pid].(closing := true)];
        if programs[pid].active == 0 {
          programs := programs - {pid};
        }
      }
      assert pid in old(programs) && old(programs)[pid].active == 0 ==> programs == old(programs) - {pid};
    }
  }
}
