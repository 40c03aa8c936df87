/** Connection accounting: the counter and two hash tables of the main process, the limit check
    each child makes on the copy fork() gave it, and all runs of the accept loop with its
    SIGCHLD handler. */
module Accounting {
  import opened Base

  type Ip = nat
  type Pid = nat

  /** client_count, ip2conncount and pid2ip. */
  datatype Tables = Tables(count: int, perIp: map<Ip, int>, owner: map<Pid, Ip>)

  const EMPTY := Tables(0, map[], map[])

  datatype Limits = Limits(clients: nat, perIp: nat)

  function PerIp(t: Tables, ip: Ip): int {
    if ip in t.perIp then t.perIp[ip] else 0
  }

  function Increased(t: Tables, ip: Ip): Tables {
    t.(count := t.count + 1, perIp := t.perIp[ip := PerIp(t, ip) + 1])
  }

  function Recorded(t: Tables, pid: Pid, ip: Ip): Tables {
    t.(owner := t.owner[pid := ip])
  }

  /** decrease_connection; None is the dereference of end() when the pid is unknown. */
  function Decreased(t: Tables, pid: Pid): Option<Tables> {
    if pid !in t.owner then None
    else
      var ip := t.owner[pid];
      var perIp := if ip !in t.perIp || t.perIp[ip] <= 0 then t.perIp
                   else if t.perIp[ip] == 1 then t.perIp - {ip}
                   else t.perIp[ip := t.perIp[ip] - 1];
      Some(Tables(t.count - 1, perIp, t.owner - {pid}))
  }

  /** check_connection_limit lets the child go on. */
  predicate Admits(t: Tables, ip: Ip, limits: Limits) {
    && !(limits.clients > 0 && t.count > limits.clients)
    && !(limits.perIp > 0 && PerIp(t, ip) > limits.perIp)
  }

  /** The globals of connection_limit.cpp in one process's memory. */
  class ConnectionTables {
    var clientCount: int
    var ip2conncount: map<Ip, int>
    var pid2ip: map<Pid, Ip>

    ghost function View(): Tables
      reads this
    {
      Tables(clientCount, ip2conncount, pid2ip)
    }

    constructor ()
      ensures View() == EMPTY
    {
      clientCount, ip2conncount, pid2ip := 0, map[], map[];
    }

    method IncreaseConnection(ip: Ip)
      modifies this
      ensures View() == Increased(old(View()), ip)
    {
      clientCount := clientCount + 1;
      var n := if ip in ip2conncount then ip2conncount[ip] else 0;  // operator[] inserts 0
      ip2conncount := ip2conncount[ip := n + 1];
    }

    /** `defined` is false when decrease_connection dereferences end(). */
    method DecreaseConnection(pid: Pid) returns (defined: bool)
      modifies this
      ensures defined <==> Decreased(old(View()), pid).Some?
      ensures if defined then Some(View()) == Decreased(old(View()), pid) else View() == old(View())
    {
      if pid !in pid2ip { return false; }
      var ip := pid2ip[pid];
      if ip !in ip2conncount || ip2conncount[ip] <= 0 {
      } else if ip2conncount[ip] == 1 {
        ip2conncount := ip2conncount - {ip};
      } else {
        ip2conncount := ip2conncount[ip := ip2conncount[ip] - 1];
      }
      pid2ip := pid2ip - {pid};
      clientCount := clientCount - 1;
      return true;
    }

    /** Runs in the child, on its own copy. The lookup may insert a zero there. */
    method CheckConnectionLimit(ip: Ip, limits: Limits) returns (admitted: bool)
      modifies this
      ensures admitted <==>
                && (limits.clients > 0 ==> old(clientCount) <= limits.clients)
                && (limits.perIp > 0 && ip in old(ip2conncount) ==> old(ip2conncount)[ip] <= limits.perIp)
      ensures admitted <==> Admits(old(View()), ip, limits)
      ensures View().(perIp := map[]) == old(View()).(perIp := map[])
      ensures forall i :: PerIp(View(), i) == PerIp(old(View()), i)
    {
      if limits.clients > 0 && clientCount > limits.clients { return false; }
      if limits.perIp > 0 {
        if ip !in ip2conncount { ip2conncount := ip2conncount[ip := 0]; }
        if ip2conncount[ip] > limits.perIp { return false; }
      }
      return true;
    }
  }

  // ---- all runs of the main process and its children ----

  datatype Status = Unchecked | Admitted | Rejected

  /** A child not yet reaped: its client, the tables copied by fork, its place in fork order. */
  datatype Child = Child(ip: Ip, copy: Tables, order: nat, status: Status, exited: bool)

  /** Where the accept loop is. */
  datatype Loop = AtAccept | Counted(ip: Ip) | Forked(ip: Ip, pid: Pid)

  datatype State = Crashed | State(tables: Tables, loop: Loop, children: map<Pid, Child>, forks: nat)

  datatype Event =
    | Accept(ip: Ip)              // accept, then increase_connection
    | Fork(pid: Pid)
    | Record                      // pid2ip[pid] = ip in the parent
    | Check(pid: Pid)             // the child's check_connection_limit
    | Exit(pid: Pid)
    | Reap(pid: Pid)              // one round of the handler's waitpid loop

  function Step(s: State, limits: Limits, e: Event): Option<State> {
    if s.Crashed? then None else
    match e
    case Accept(ip) =>
      if s.loop.AtAccept? then Some(s.(tables := Increased(s.tables, ip), loop := Counted(ip))) else None
    case Fork(pid) =>
      if s.loop.Counted? && pid !in s.children
      then Some(s.(loop := Forked(s.loop.ip, pid), forks := s.forks + 1,
                   children := s.children[pid := Child(s.loop.ip, s.tables, s.forks, Unchecked, false)]))
      else None
    case Record =>
      if s.loop.Forked?
      then Some(s.(tables := Recorded(s.tables, s.loop.pid, s.loop.ip), loop := AtAccept)) else None
    case Check(pid) =>
      if pid in s.children && s.children[pid].status.Unchecked? && !s.children[pid].exited
      then
        var c := s.children[pid];
        var ok := Admits(c.copy, c.ip, limits);
        Some(s.(children := s.children[pid := c.(status := if ok then Admitted else Rejected, exited := !ok)]))
      else None
    case Exit(pid) =>
      if pid in s.children && !s.children[pid].exited
      then Some(s.(children := s.children[pid := s.children[pid].(exited := true)])) else None
    case Reap(pid) =>
      if pid in s.children && s.children[pid].exited
      then
        var t := Decreased(s.tables, pid);
        Some(if t.None? then Crashed else s.(tables := t.value, children := s.children - {pid}))
      else None
  }

  function Run(limits: Limits, es: seq<Event>): Option<State> {
    if es == [] then Some(State(EMPTY, AtAccept, map[], 0))
    else
      var s := Run(limits, es[..|es| - 1]);
      if s.None? then None else Step(s.value, limits, es[|es| - 1])
  }

  // ---- the accounting invariant ----

  /** Clients counted for `ip`: its children not yet reaped, and the one being set up. */
  function Clients(s: State, ip: Ip): set<Pid>
    requires s.State?
  {
    set pid | pid in s.children && s.children[pid].ip == ip
  }

  function Pending(s: State, ip: Ip): nat
    requires s.State?
  {
    if s.loop == Counted(ip) then 1 else 0
  }

  ghost predicate TablesAgree(s: State)
    requires s.State?
  {
    && s.tables.count == |s.children| + (if s.loop.Counted? then 1 else 0)
    && (forall ip :: PerIp(s.tables, ip) == |Clients(s, ip)| + Pending(s, ip))
    && (forall ip :: ip in s.tables.perIp <==> |Clients(s, ip)| + Pending(s, ip) > 0)
  }

  ghost predicate OwnersAgree(s: State)
    requires s.State?
  {
    && (s.loop.Forked? ==> s.loop.pid in s.children && s.children[s.loop.pid].ip == s.loop.ip)
    && (forall pid :: pid in s.tables.owner <==> pid in s.children && s.loop != Forked(s.children[pid].ip, pid))
    && (forall pid :: pid in s.tables.owner ==> s.tables.owner[pid] == s.children[pid].ip)
  }

  /** Children alive that were forked no later than `order`, of one client or of all. */
  function Older(s: State, order: nat): set<Pid>
    requires s.State?
  {
    set pid | pid in s.children && s.children[pid].order <= order
  }

  function OlderOf(s: State, order: nat, ip: Ip): set<Pid>
    requires s.State?
  {
    set pid | pid in s.children && s.children[pid].order <= order && s.children[pid].ip == ip
  }

  /** The copy a child decides on counted at least every older child that is still there. */
  ghost predicate CopiesCover(s: State, limits: Limits)
    requires s.State?
  {
    forall pid :: pid in s.children ==>
      var c := s.children[pid];
      && c.order < s.forks
      && |Older(s, c.order)| <= c.copy.count
      && |OlderOf(s, c.order, c.ip)| <= PerIp(c.copy, c.ip)
      && (c.status.Admitted? ==> Admits(c.copy, c.ip, limits))
  }

  ghost predicate Inv(s: State, limits: Limits) {
    s.State? ==> TablesAgree(s) && OwnersAgree(s) && CopiesCover(s, limits)
  }

  /** Nothing that is counted has changed: the same children, of the same clients. */
  ghost predicate SameChildren(s: State, t: State)
    requires s.State? && t.State?
  {
    && t.children.Keys == s.children.Keys
    && forall p :: p in s.children ==>
         t.children[p].ip == s.children[p].ip && t.children[p].order == s.children[p].order
         && t.children[p].copy == s.children[p].copy
  }

  lemma TablesKept(s: State, t: State)
    requires s.State? && t.State? && SameChildren(s, t) && TablesAgree(s)
    requires s.loop == t.loop || (!s.loop.Counted? && !t.loop.Counted?)
    requires t.tables.count == s.tables.count && t.tables.perIp == s.tables.perIp
    ensures TablesAgree(t)
  {
    assert |t.children.Keys| == |s.children.Keys|;
    forall i ensures Clients(t, i) == Clients(s, i) && Pending(t, i) == Pending(s, i) {}
  }

  lemma CopiesKept(s: State, t: State, limits: Limits)
    requires s.State? && t.State? && SameChildren(s, t) && CopiesCover(s, limits) && t.forks == s.forks
    requires forall p :: p in t.children && t.children[p].status.Admitted? ==>
               Admits(t.children[p].copy, t.children[p].ip, limits)
    ensures CopiesCover(t, limits)
  {
    hide Admits;
    forall p | p in t.children
      ensures Older(t, t.children[p].order) == Older(s, s.children[p].order)
      ensures OlderOf(t, t.children[p].order, t.children[p].ip) == OlderOf(s, s.children[p].order, s.children[p].ip)
    {
      OlderSame(s, t, t.children[p].order, t.children[p].ip);
    }
    hide Older, OlderOf;
  }

  lemma OlderSame(s: State, t: State, order: nat, ip: Ip)
    requires s.State? && t.State? && SameChildren(s, t)
    ensures Older(t, order) == Older(s, order) && OlderOf(t, order, ip) == OlderOf(s, order, ip)
  {
  }

  lemma AcceptState(s: State, limits: Limits, ip: Ip)
    requires s.State? && Step(s, limits, Accept(ip)).Some?
    ensures s.loop.AtAccept?
    ensures Step(s, limits, Accept(ip)).value == s.(tables := Increased(s.tables, ip), loop := Counted(ip))
  {
  }

  lemma TablesAccept(s: State, t: State, ip: Ip)
    requires s.State? && TablesAgree(s) && s.loop.AtAccept?
    requires t == s.(tables := Increased(s.tables, ip), loop := Counted(ip))
    ensures TablesAgree(t)
  {
    forall i ensures Clients(t, i) == Clients(s, i) {}
  }

  lemma InvAccept(s: State, limits: Limits, ip: Ip)
    requires s.State? && Inv(s, limits) && Step(s, limits, Accept(ip)).Some?
    ensures Inv(Step(s, limits, Accept(ip)).value, limits)
  {
    AcceptState(s, limits, ip);
    var t := Step(s, limits, Accept(ip)).value;
    TablesAccept(s, t, ip);
    hide Step, TablesAgree;
    CopiesKept(s, t, limits);
  }

  lemma RecordState(s: State, limits: Limits)
    requires s.State? && Step(s, limits, Record).Some?
    ensures s.loop.Forked?
    ensures Step(s, limits, Record).value
            == s.(tables := Recorded(s.tables, s.loop.pid, s.loop.ip), loop := AtAccept)
  {
  }

  lemma OwnersRecord(s: State, t: State)
    requires s.State? && OwnersAgree(s) && s.loop.Forked?
    requires t == s.(tables := Recorded(s.tables, s.loop.pid, s.loop.ip), loop := AtAccept)
    ensures OwnersAgree(t)
  {
  }

  lemma InvRecord(s: State, limits: Limits)
    requires s.State? && Inv(s, limits) && Step(s, limits, Record).Some?
    ensures Inv(Step(s, limits, Record).value, limits)
  {
    RecordState(s, limits);
    var t := Step(s, limits, Record).value;
    OwnersRecord(s, t);
    hide Step, TablesAgree, OwnersAgree, CopiesCover;
    TablesKept(s, t);
    AdmittedOk(s, limits);
    CopiesKept(s, t, limits);
  }

  lemma AdmittedOk(s: State, limits: Limits)
    requires s.State? && CopiesCover(s, limits)
    ensures forall p :: p in s.children && s.children[p].status.Admitted? ==>
              Admits(s.children[p].copy, s.children[p].ip, limits)
  {
  }

  /** What Check and Exit do to the state: one child's status, and why it is admitted. */
  lemma ChildState(s: State, limits: Limits, e: Event) returns (c: Child)
    requires e.Check? || e.Exit?
    requires s.State? && Step(s, limits, e).Some?
    ensures e.pid in s.children && Step(s, limits, e).value == s.(children := s.children[e.pid := c])
    ensures c.ip == s.children[e.pid].ip && c.copy == s.children[e.pid].copy && c.order == s.children[e.pid].order
    ensures c.status.Admitted? ==> s.children[e.pid].status.Admitted? || Admits(c.copy, c.ip, limits)
  {
    hide Admits;
    c := Step(s, limits, e).value.children[e.pid];
  }

  lemma OwnersChild(s: State, t: State)
    requires s.State? && t.State? && OwnersAgree(s) && SameChildren(s, t)
    requires t.tables == s.tables && t.loop == s.loop
    ensures OwnersAgree(t)
  {
  }

  /** `t` is `s` with child `pid` in another status. */
  ghost predicate ChildMoved(s: State, t: State, limits: Limits, pid: Pid, c: Child)
    requires s.State?
  {
    && pid in s.children && t == s.(children := s.children[pid := c])
    && c.ip == s.children[pid].ip && c.copy == s.children[pid].copy && c.order == s.children[pid].order
    && (c.status.Admitted? ==> s.children[pid].status.Admitted? || Admits(c.copy, c.ip, limits))
  }

  lemma ChildSame(s: State, t: State, limits: Limits, pid: Pid, c: Child)
    requires s.State? && ChildMoved(s, t, limits, pid, c)
    ensures t.State? && SameChildren(s, t) && t.loop == s.loop && t.tables == s.tables && t.forks == s.forks
  {
    hide Admits;
  }

  lemma ChildAdmitted(s: State, t: State, limits: Limits, pid: Pid, c: Child)
    requires s.State? && ChildMoved(s, t, limits, pid, c) && CopiesCover(s, limits)
    ensures forall p :: p in t.children && t.children[p].status.Admitted? ==>
              Admits(t.children[p].copy, t.children[p].ip, limits)
  {
    AdmittedOk(s, limits);
    hide Admits, CopiesCover;
  }

  lemma ChildKept(s: State, t: State, limits: Limits, pid: Pid, c: Child)
    requires s.State? && Inv(s, limits) && ChildMoved(s, t, limits, pid, c)
    ensures Inv(t, limits)
  {
    ChildSame(s, t, limits, pid, c);
    ChildAdmitted(s, t, limits, pid, c);
    hide Admits, TablesAgree, OwnersAgree, CopiesCover, ChildMoved, SameChildren;
    TablesKept(s, t);
    OwnersChild(s, t);
    CopiesKept(s, t, limits);
  }

  /** Check and Exit change a child's status and nothing that is counted. */
  lemma InvChild(s: State, limits: Limits, e: Event)
    requires e.Check? || e.Exit?
    requires s.State? && Inv(s, limits) && Step(s, limits, e).Some?
    ensures Inv(Step(s, limits, e).value, limits)
  {
    var c := ChildState(s, limits, e);
    hide Step, Inv, Admits;
    ChildKept(s, Step(s, limits, e).value, limits, e.pid, c);
  }

  lemma ClientsFork(s: State, t: State, pid: Pid, c: Child, i: Ip)
    requires s.State? && t.State? && pid !in s.children && t.children == s.children[pid := c]
    ensures |Clients(t, i)| == |Clients(s, i)| + (if i == c.ip then 1 else 0)
  {
    assert Clients(t, i) == Clients(s, i) + (if i == c.ip then {pid} else {});
    assert pid !in Clients(s, i);
  }

  lemma TablesFork(s: State, t: State, pid: Pid, c: Child)
    requires s.State? && t.State? && TablesAgree(s) && s.loop == Counted(c.ip) && t.loop.Forked?
    requires pid !in s.children && t.children == s.children[pid := c] && t.tables == s.tables
    ensures TablesAgree(t)
    ensures |t.children| == t.tables.count && PerIp(t.tables, c.ip) == |Clients(t, c.ip)|
  {
    assert |t.children| == |s.children| + 1;
    forall i ensures |Clients(t, i)| + Pending(t, i) == |Clients(s, i)| + Pending(s, i) {
      ClientsFork(s, t, pid, c, i);
    }
  }

  lemma OlderFork(s: State, t: State, pid: Pid, c: Child, o: nat, i: Ip)
    requires s.State? && t.State? && pid !in s.children && t.children == s.children[pid := c] && o < c.order
    ensures Older(t, o) == Older(s, o) && OlderOf(t, o, i) == OlderOf(s, o, i)
  {
  }

  lemma CopiesFork(s: State, t: State, pid: Pid, c: Child, limits: Limits)
    requires s.State? && t.State? && CopiesCover(s, limits)
    requires pid !in s.children && t.children == s.children[pid := c]
    requires c.order == s.forks && t.forks == s.forks + 1 && c.status.Unchecked?
    requires |t.children| <= c.copy.count && |Clients(t, c.ip)| <= PerIp(c.copy, c.ip)
    ensures CopiesCover(t, limits)
  {
    forall p | p in s.children
      ensures |Older(t, s.children[p].order)| <= s.children[p].copy.count
      ensures |OlderOf(t, s.children[p].order, s.children[p].ip)| <= PerIp(s.children[p].copy, s.children[p].ip)
    {
      OlderFork(s, t, pid, c, s.children[p].order, s.children[p].ip);
    }
    SubsetSize(Older(t, c.order), t.children.Keys);
    SubsetSize(OlderOf(t, c.order, c.ip), Clients(t, c.ip));
  }

  lemma InvFork(s: State, limits: Limits, pid: Pid)
    requires s.State? && Inv(s, limits) && Step(s, limits, Fork(pid)).Some?
    ensures Inv(Step(s, limits, Fork(pid)).value, limits)
  {
    var t := Step(s, limits, Fork(pid)).value;
    TablesFork(s, t, pid, t.children[pid]);
    CopiesFork(s, t, pid, t.children[pid], limits);
  }

  lemma PerIpReap(t: Tables, pid: Pid, i: Ip)
    requires pid in t.owner && PerIp(t, t.owner[pid]) >= 1
    ensures var r := Decreased(t, pid).value;
            && r.count == t.count - 1 && PerIp(r, i) == PerIp(t, i) - (if i == t.owner[pid] then 1 else 0)
            && (i in r.perIp <==> i in t.perIp && (i == t.owner[pid] ==> PerIp(t, i) > 1))
  {
  }

  lemma ChildrenReap(s: State, t: State, pid: Pid)
    requires s.State? && t.State? && pid in s.children && t.children == s.children - {pid}
    ensures |t.children| == |s.children| - 1
  {
    assert t.children.Keys == s.children.Keys - {pid};
  }

  /** One address after a reap. */
  lemma IpReap(s: State, t: State, pid: Pid, i: Ip)
    requires s.State? && t.State? && pid in s.children && pid in s.tables.owner && t.loop == s.loop
    requires s.tables.owner[pid] == s.children[pid].ip
    requires t.children == s.children - {pid} && Decreased(s.tables, pid) == Some(t.tables)
    requires PerIp(s.tables, i) == |Clients(s, i)| + Pending(s, i)
    requires i in s.tables.perIp <==> |Clients(s, i)| + Pending(s, i) > 0
    requires PerIp(s.tables, s.children[pid].ip) >= 1
    ensures PerIp(t.tables, i) == |Clients(t, i)| + Pending(t, i)
    ensures i in t.tables.perIp <==> |Clients(t, i)| + Pending(t, i) > 0
  {
    hide Clients, PerIp, Decreased;
    ClientsReap(s, t, pid, i);
    PerIpReap(s.tables, pid, i);
  }

  lemma OwnIp(s: State, pid: Pid)
    requires s.State? && TablesAgree(s) && OwnersAgree(s) && pid in s.tables.owner
    ensures pid in s.children && s.tables.owner[pid] == s.children[pid].ip && PerIp(s.tables, s.children[pid].ip) >= 1
  {
    assert pid in Clients(s, s.children[pid].ip);
  }

  lemma TablesReap(s: State, t: State, pid: Pid)
    requires s.State? && t.State? && TablesAgree(s) && OwnersAgree(s) && pid in s.tables.owner && t.loop == s.loop
    requires t.children == s.children - {pid} && Decreased(s.tables, pid) == Some(t.tables)
    ensures TablesAgree(t)
  {
    OwnIp(s, pid);
    assert t.tables.count == s.tables.count - 1;
    ChildrenReap(s, t, pid);
    hide Clients, PerIp, Decreased, OwnersAgree;
    forall i
      ensures PerIp(t.tables, i) == |Clients(t, i)| + Pending(t, i)
      ensures i in t.tables.perIp <==> |Clients(t, i)| + Pending(t, i) > 0
    {
      IpReap(s, t, pid, i);
    }
  }

  lemma ClientsReap(s: State, t: State, pid: Pid, i: Ip)
    requires s.State? && t.State? && pid in s.children && t.children == s.children - {pid}
    ensures |Clients(t, i)| == |Clients(s, i)| - (if i == s.children[pid].ip then 1 else 0)
  {
    assert Clients(t, i) == Clients(s, i) - {pid};
    assert pid in Clients(s, i) <==> i == s.children[pid].ip;
  }

  lemma CopiesReap(s: State, t: State, pid: Pid, limits: Limits)
    requires s.State? && t.State? && CopiesCover(s, limits)
    requires t.children == s.children - {pid} && t.forks == s.forks
    ensures CopiesCover(t, limits)
  {
    forall p | p in t.children
      ensures |Older(t, t.children[p].order)| <= t.children[p].copy.count
      ensures |OlderOf(t, t.children[p].order, t.children[p].ip)| <= PerIp(t.children[p].copy, t.children[p].ip)
    {
      var c := s.children[p];
      SubsetSize(Older(t, c.order), Older(s, c.order));
      SubsetSize(OlderOf(t, c.order, c.ip), OlderOf(s, c.order, c.ip));
    }
  }

  lemma OwnersReap(s: State, pid: Pid)
    requires s.State? && OwnersAgree(s) && pid in s.children
    ensures pid in s.tables.owner <==> s.loop != Forked(s.children[pid].ip, pid)
    ensures Decreased(s.tables, pid).Some? ==>
              OwnersAgree(s.(tables := Decreased(s.tables, pid).value, children := s.children - {pid}))
  {
  }

  lemma ReapKept(s: State, t: State, limits: Limits, pid: Pid)
    requires s.State? && Inv(s, limits) && t.State? && pid in s.children
    requires Decreased(s.tables, pid).Some?
    requires t == s.(tables := Decreased(s.tables, pid).value, children := s.children - {pid})
    ensures Inv(t, limits)
  {
    OwnersReap(s, pid);
    TablesReap(s, t, pid);
    CopiesReap(s, t, pid, limits);
  }

  lemma ReapCrashes(s: State, limits: Limits, pid: Pid)
    requires s.State? && OwnersAgree(s) && Step(s, limits, Reap(pid)).Some?
    ensures Step(s, limits, Reap(pid)).value.Crashed? <==> s.loop == Forked(s.children[pid].ip, pid)
  {
  }

  lemma ReapState(s: State, limits: Limits, pid: Pid)
    requires Step(s, limits, Reap(pid)).Some? && Step(s, limits, Reap(pid)).value.State?
    ensures s.State? && pid in s.children && Decreased(s.tables, pid).Some?
    ensures Step(s, limits, Reap(pid)).value
            == s.(tables := Decreased(s.tables, pid).value, children := s.children - {pid})
  {
  }

  lemma InvReap(s: State, limits: Limits, pid: Pid)
    requires s.State? && Inv(s, limits) && Step(s, limits, Reap(pid)).Some?
    ensures Inv(Step(s, limits, Reap(pid)).value, limits)
  {
    var t := Step(s, limits, Reap(pid)).value;
    if t.State? {
      ReapState(s, limits, pid);
      ReapKept(s, t, limits, pid);
    }
  }

  lemma SubsetSize<T>(a: set<T>, b: set<T>)
    requires a <= b
    ensures |a| <= |b|
  {
    assert b == a + (b - a);
  }

  lemma InvStep(s: State, limits: Limits, e: Event)
    requires s.State? && Inv(s, limits) && Step(s, limits, e).Some?
    ensures Inv(Step(s, limits, e).value, limits)
  {
    match e
    case Accept(ip) => InvAccept(s, limits, ip);
    case Fork(pid) => InvFork(s, limits, pid);
    case Record => InvRecord(s, limits);
    case Check(_) => InvChild(s, limits, e);
    case Exit(_) => InvChild(s, limits, e);
    case Reap(pid) => InvReap(s, limits, pid);
  }

  lemma {:induction false} Reachable(limits: Limits, es: seq<Event>)
    requires Run(limits, es).Some?
    ensures Inv(Run(limits, es).value, limits)
  {
    if es == [] {
      forall i ensures Clients(State(EMPTY, AtAccept, map[], 0), i) == {} {}
    } else {
      var before := es[..|es| - 1];
      Reachable(limits, before);
      InvStep(Run(limits, before).value, limits, es[|es| - 1]);
    }
  }

  // ---- main results ----

  /** In every run that has not crashed the counter is the number of children not yet reaped plus
      the one being set up, each per-address count is the number of that address's, an address has
      an entry exactly when that is not zero, and pid2ip is who they are, the last fork excepted. */
  lemma Accounted(limits: Limits, es: seq<Event>)
    requires Run(limits, es).Some? && Run(limits, es).value.State?
    ensures var s := Run(limits, es).value; TablesAgree(s) && OwnersAgree(s)
  {
    Reachable(limits, es);
  }

  function Live(s: State, ip: Option<Ip>): set<Pid>
    requires s.State?
  {
    set pid | pid in s.children && s.children[pid].status.Admitted? && (ip.Some? ==> s.children[pid].ip == ip.value)
  }

  /** The youngest of some children. */
  lemma Youngest(s: State, pids: set<Pid>) returns (top: Pid)
    requires s.State? && pids != {} && pids <= s.children.Keys
    ensures top in pids && forall p :: p in pids ==> s.children[p].order <= s.children[top].order
  {
    var one :| one in pids;
    var rest := pids - {one};
    top := one;
    if rest != {} {
      var other := Youngest(s, rest);
      if s.children[other].order > s.children[one].order { top := other; }
      forall p | p in pids ensures s.children[p].order <= s.children[top].order {
        assert p == one || p in rest;
      }
    } else {
      assert pids == {one};
    }
  }

  /** Admission bound: although every child decides on the snapshot taken at its own fork, the
      admitted children never exceed the limits, in all or from one address. */
  lemma AdmissionBound(limits: Limits, es: seq<Event>, ip: Ip)
    requires Run(limits, es).Some? && Run(limits, es).value.State?
    ensures limits.clients > 0 ==> |Live(Run(limits, es).value, None)| <= limits.clients
    ensures limits.perIp > 0 ==> |Live(Run(limits, es).value, Some(ip))| <= limits.perIp
  {
    Reachable(limits, es);
    var s := Run(limits, es).value;
    if limits.clients > 0 && Live(s, None) != {} {
      var top := Youngest(s, Live(s, None));
      SubsetSize(Live(s, None), Older(s, s.children[top].order));
    }
    if limits.perIp > 0 && Live(s, Some(ip)) != {} {
      var top := Youngest(s, Live(s, Some(ip)));
      SubsetSize(Live(s, Some(ip)), OlderOf(s, s.children[top].order, ip));
    }
  }

  lemma {:induction false} RunSplit(limits: Limits, es: seq<Event>, e: Event)
    requires Run(limits, es + [e]).Some?
    ensures Run(limits, es).Some? && Run(limits, es + [e]) == Step(Run(limits, es).value, limits, e)
  {
    assert (es + [e])[..|es + [e]| - 1] == es;
  }

  /** What a run goes through has not crashed. */
  lemma {:induction false} StartOf(limits: Limits, first: seq<Event>, after: seq<Event>, e: Event)
    requires Run(limits, first + after + [e]).Some?
    ensures Run(limits, first).Some? && Run(limits, first).value.State?
  {
    RunSplit(limits, first + after, e);
    if after == [] {
      assert first + after == first;
    } else {
      var n := |after| - 1;
      assert first + after == first + after[..n] + [after[n]];
      hide Run;
      StartOf(limits, first, after[..n], after[n]);
    }
  }

  /** What fork copied: the tables, which counted exactly the children there were, the new one included. */
  lemma {:induction false} CopyAtFork(limits: Limits, before: seq<Event>, pid: Pid)
    requires Run(limits, before + [Fork(pid)]).Some? && Run(limits, before + [Fork(pid)]).value.State?
    ensures var s := Run(limits, before + [Fork(pid)]).value;
            && pid in s.children && s.children[pid].status.Unchecked?
            && s.children[pid].copy.count == |s.children|
            && PerIp(s.children[pid].copy, s.children[pid].ip)
               == |set p | p in s.children && s.children[p].ip == s.children[pid].ip|
  {
    RunSplit(limits, before, Fork(pid));
    var es := before + [Fork(pid)];
    Accounted(limits, es);
    var s := Run(limits, es).value;
    assert s.children[pid].copy == s.tables && s.loop.Forked?;
    assert Clients(s, s.children[pid].ip) == set p | p in s.children && s.children[p].ip == s.children[pid].ip;
    hide Run;
  }

  /** A child's address and copy are what they were at its fork. */
  lemma {:induction false} CopyStays(limits: Limits, first: seq<Event>, pid: Pid, after: seq<Event>)
    requires Run(limits, first).Some? && Run(limits, first).value.State? && pid in Run(limits, first).value.children
    requires Run(limits, first + after).Some? && Run(limits, first + after).value.State?
    requires pid in Run(limits, first + after).value.children && Fork(pid) !in after
    ensures var (s, t) := (Run(limits, first).value, Run(limits, first + after).value);
            t.children[pid].ip == s.children[pid].ip && t.children[pid].copy == s.children[pid].copy
  {
    if after == [] {
      assert first + after == first;
    } else {
      var n := |after| - 1;
      var e := after[n];
      assert first + after == (first + after[..n]) + [e];
      RunSplit(limits, first + after[..n], e);
      hide Run, Admits;
      ChildStays(limits, Run(limits, first + after[..n]).value, e, pid);
      CopyStays(limits, first, pid, after[..n]);
    }
  }

  lemma ChildStays(limits: Limits, s: State, e: Event, pid: Pid)
    requires Step(s, limits, e).Some? && Step(s, limits, e).value.State? && pid in Step(s, limits, e).value.children
    requires e != Fork(pid)
    ensures s.State? && pid in s.children
    ensures var c := Step(s, limits, e).value.children[pid]; c.ip == s.children[pid].ip && c.copy == s.children[pid].copy
  {
    hide Admits, Increased, Decreased, Recorded;
  }

  /** Admission, exactly: a child that checks is rejected, and exits, if and only if at its own fork the
      children not yet reaped, itself included, were more than maximum_clients, or those of its own address
      more than max_conns_per_ip. So clients are admitted up to either limit. */
  lemma {:induction false} AdmittedIffWithin(limits: Limits, before: seq<Event>, pid: Pid, after: seq<Event>)
    requires Run(limits, before + [Fork(pid)] + after + [Check(pid)]).Some? && Fork(pid) !in after
    ensures Run(limits, before + [Fork(pid)]).Some? && Run(limits, before + [Fork(pid)]).value.State?
    ensures Run(limits, before + [Fork(pid)] + after + [Check(pid)]).value.State?
    ensures var s := Run(limits, before + [Fork(pid)]).value;
            var t := Run(limits, before + [Fork(pid)] + after + [Check(pid)]).value;
            && pid in s.children && pid in t.children
            && var over := || (limits.clients > 0 && |s.children| > limits.clients)
                           || (limits.perIp > 0
                               && |set p | p in s.children && s.children[p].ip == s.children[pid].ip| > limits.perIp);
            (t.children[pid].status.Rejected? <==> over) && (t.children[pid].status.Admitted? <==> !over)
            && (t.children[pid].exited <==> over)
  {
    var first := before + [Fork(pid)];
    StartOf(limits, first, after, Check(pid));
    CopyAtFork(limits, before, pid);
    RunSplit(limits, first + after, Check(pid));
    hide Run;
    CopyStays(limits, first, pid, after);
    CheckIs(limits, Run(limits, first + after).value, pid);
  }

  lemma CheckIs(limits: Limits, s: State, pid: Pid)
    requires Step(s, limits, Check(pid)).Some?
    ensures s.State? && pid in s.children && Step(s, limits, Check(pid)).value.State?
    ensures var (c, d) := (s.children[pid], Step(s, limits, Check(pid)).value.children[pid]);
            var over := (limits.clients > 0 && c.copy.count > limits.clients)
                        || (limits.perIp > 0 && PerIp(c.copy, c.ip) > limits.perIp);
            pid in Step(s, limits, Check(pid)).value.children
            && d.status == (if over then Rejected else Admitted) && (d.exited <==> over)
  {
  }

  /** Somewhere in the run a child was reaped before its pid was recorded: after its fork and
      with no Record in between. */
  ghost predicate ReapedEarly(es: seq<Event>) {
    exists i, j :: 0 <= i < j < |es| && es[i].Fork? && es[j] == Reap(es[i].pid)
                   && forall k :: i < k < j ==> es[k] != Record
  }

  /** The accept loop still has to record the pid of the last fork. */
  lemma {:induction false} UnrecordedSince(limits: Limits, es: seq<Event>) returns (i: nat)
    requires Run(limits, es).Some? && Run(limits, es).value.State? && Run(limits, es).value.loop.Forked?
    ensures i < |es| && es[i] == Fork(Run(limits, es).value.loop.pid)
    ensures forall k :: i < k < |es| ==> es[k] != Record && !es[k].Fork?
  {
    var before, e := es[..|es| - 1], es[|es| - 1];
    if e.Fork? {
      i := |es| - 1;
    } else {
      i := UnrecordedSince(limits, before);
      assert forall k :: 0 <= k < |before| ==> es[k] == before[k];
    }
  }

  /** A fork with no Record after it leaves the loop waiting to record that pid. */
  lemma {:induction false} StillForked(limits: Limits, es: seq<Event>, i: nat)
    requires Run(limits, es).Some? && Run(limits, es).value.State?
    requires i < |es| && es[i].Fork? && forall k :: i < k < |es| ==> es[k] != Record
    ensures Run(limits, es).value.loop.Forked? && Run(limits, es).value.loop.pid == es[i].pid
  {
    var before, e := es[..|es| - 1], es[|es| - 1];
    if i < |es| - 1 {
      assert before[i] == es[i] && forall k :: i < k < |before| ==> before[k] == es[k];
      StillForked(limits, before, i);
    }
  }

  lemma EarlyIfCrash(limits: Limits, before: seq<Event>, e: Event)
    requires Run(limits, before).Some? && Run(limits, before).value.State?
    requires Step(Run(limits, before).value, limits, e) == Some(Crashed)
    ensures ReapedEarly(before + [e])
  {
    var es, n, s := before + [e], |before|, Run(limits, before).value;
    Reachable(limits, before);
    ReapCrashes(s, limits, e.pid);
    var i := UnrecordedSince(limits, before);
    assert es[i].Fork? && es[n] == Reap(es[i].pid);
  }

  /** An early reap in the longer run was there before, or is the last event. */
  lemma EarlyCases(before: seq<Event>, e: Event) returns (i: nat)
    requires ReapedEarly(before + [e]) && !ReapedEarly(before)
    ensures i < |before| && before[i].Fork? && e == Reap(before[i].pid)
    ensures forall k :: i < k < |before| ==> before[k] != Record
  {
    var es, n := before + [e], |before|;
    var a, j :| 0 <= a < j < |es| && es[a].Fork? && es[j] == Reap(es[a].pid)
                && forall k :: a < k < j ==> es[k] != Record;
    assert forall k :: 0 <= k < n ==> es[k] == before[k];
    assert j == n;
    i := a;
  }

  lemma CrashIfEarly(limits: Limits, before: seq<Event>, e: Event)
    requires Run(limits, before).Some? && Run(limits, before).value.State? && !ReapedEarly(before)
    requires Step(Run(limits, before).value, limits, e).Some? && ReapedEarly(before + [e])
    ensures Step(Run(limits, before).value, limits, e).value.Crashed?
  {
    var i := EarlyCases(before, e);
    Reachable(limits, before);
    StillForked(limits, before, i);
    ReapCrashes(Run(limits, before).value, limits, e.pid);
  }

  /** The server dereferences a missing entry exactly in the runs in which SIGCHLD is handled for
      a child between its fork and the recording of its pid. */
  lemma {:induction false} CrashIffReapedEarly(limits: Limits, es: seq<Event>)
    requires Run(limits, es).Some?
    ensures Run(limits, es).value.Crashed? <==> ReapedEarly(es)
  {
    if es != [] {
      var before, e := es[..|es| - 1], es[|es| - 1];
      assert es == before + [e];
      CrashIffReapedEarly(limits, before);
      if Run(limits, es).value.Crashed? { EarlyIfCrash(limits, before, e); }
      if ReapedEarly(es) { CrashIfEarly(limits, before, e); }
    }
  }

  lemma RunAppend(limits: Limits, es: seq<Event>, e: Event)
    requires Run(limits, es).Some?
    ensures Run(limits, es + [e]) == Step(Run(limits, es).value, limits, e)
  {
    assert (es + [e])[..|es + [e]| - 1] == es;
  }

  /** Such a run exists: the first child exits and is reaped before main records it. */
  lemma EarlyReapHappens(limits: Limits, ip: Ip, pid: Pid)
    ensures Run(limits, [Accept(ip), Fork(pid), Exit(pid), Reap(pid)]) == Some(Crashed)
  {
    var e1 := [Accept(ip)];
    var e2 := e1 + [Fork(pid)];
    var e3 := e2 + [Exit(pid)];
    RunAppend(limits, [], Accept(ip));
    assert [] + e1 == e1;
    RunAppend(limits, e1, Fork(pid));
    RunAppend(limits, e2, Exit(pid));
    RunAppend(limits, e3, Reap(pid));
    assert e3 + [Reap(pid)] == [Accept(ip), Fork(pid), Exit(pid), Reap(pid)];
  }

  lemma Steps(limits: Limits, s: State, ip: Ip, pid: Pid)
    requires s.State?
    ensures s.loop.AtAccept? ==>
              var t := Step(s, limits, Accept(ip));
              t.Some? && t.value.State? && t.value.loop == Counted(ip) && t.value.children == s.children
    ensures s.loop == Counted(ip) && pid !in s.children ==>
              var t := Step(s, limits, Fork(pid));
              && t.Some? && t.value.State? && t.value.loop.Forked? && t.value.children.Keys == s.children.Keys + {pid}
              && t.value.children[pid].ip == ip && t.value.children[pid].status.Unchecked? && !t.value.children[pid].exited
    ensures s.loop.Forked? ==>
              var t := Step(s, limits, Record);
              t.Some? && t.value.State? && t.value.loop.AtAccept? && t.value.children == s.children
    ensures pid in s.children && s.children[pid].status.Unchecked? && !s.children[pid].exited ==>
              var t := Step(s, limits, Check(pid));
              && t.Some? && t.value.State? && t.value.loop == s.loop && t.value.children.Keys == s.children.Keys
              && t.value.children[pid].ip == s.children[pid].ip && !t.value.children[pid].status.Unchecked?
  {
    hide Increased, Recorded, Admits, Decreased;
  }

  /** From every state at the accept loop the next client can be taken, and its child decides for itself. */
  lemma NextClient(limits: Limits, es: seq<Event>, ip: Ip, pid: Pid)
    requires Run(limits, es).Some? && Run(limits, es).value.State?
    requires Run(limits, es).value.loop.AtAccept? && pid !in Run(limits, es).value.children
    ensures var t := Run(limits, es + [Accept(ip)] + [Fork(pid)] + [Record] + [Check(pid)]);
            && t.Some? && t.value.State? && t.value.loop.AtAccept?
            && t.value.children.Keys == Run(limits, es).value.children.Keys + {pid}
            && t.value.children[pid].ip == ip && !t.value.children[pid].status.Unchecked?
  {
    hide *;
    var e1 := es + [Accept(ip)];
    var e2 := e1 + [Fork(pid)];
    var e3 := e2 + [Record];
    Steps(limits, Run(limits, es).value, ip, pid);
    RunAppend(limits, es, Accept(ip));
    Steps(limits, Run(limits, e1).value, ip, pid);
    RunAppend(limits, e1, Fork(pid));
    Steps(limits, Run(limits, e2).value, ip, pid);
    RunAppend(limits, e2, Record);
    Steps(limits, Run(limits, e3).value, ip, pid);
    RunAppend(limits, e3, Check(pid));
  }
}
