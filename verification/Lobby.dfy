/** The lobby's bookkeeping of tables: who leads one, and who sits at one. */
module Lobby {

  /** One slot a connection; slot 0 is not used. `serv` is the head count of the table the slot
      leads, 0 when it leads none; `join` is the leader's slot, 0 when the player sits nowhere. */
  datatype State = State(login: seq<int>, serv: seq<int>, join: seq<int>, name: seq<string>)

  datatype Event =
    | Connect(p: nat)
    | SetName(p: nat, text: string)
    | Welcome(p: nat)
    | Join(p: nat, leader: string, allowed: bool)
    | Open(p: nat, allowed: bool)
    | Leave(p: nat)
    | Close(p: nat)

  function CountJoin(join: seq<int>, t: int): nat {
    if join == [] then 0
    else CountJoin(join[..|join| - 1], t) + if join[|join| - 1] == t then 1 else 0
  }

  ghost predicate Sized(s: State) {
    && |s.login| == |s.serv| == |s.join| == |s.name| > 0
    && s.join[0] == 0 && s.serv[0] == 0
    && forall p :: 0 <= p < |s.join| ==> 0 <= s.join[p] < |s.join| && 0 <= s.serv[p]
  }

  ghost predicate TableCounted(s: State, t: nat)
    requires Sized(s) && t < |s.serv|
  {
    s.serv[t] > 0 ==> s.serv[t] == 1 + CountJoin(s.join, t) && s.serv[t] <= 4 && s.join[t] == 0
  }

  /** Every open table counts its leader and the players who joined it, at most four. */
  ghost predicate Counted(s: State) {
    Sized(s) && forall t :: 0 <= t < |s.serv| ==> TableCounted(s, t)
  }

  // ----- The updates -----

  /** Takes a player off the head count of the table it sits at. */
  function Detach(s: State, p: nat): State
    requires Sized(s) && p < |s.join|
  {
    var t := s.join[p];
    if t != 0 && s.serv[t] > 0 then s.(serv := s.serv[t := s.serv[t] - 1], join := s.join[p := 0])
    else s.(join := s.join[p := 0])
  }

  /** Sends everyone at a table away. */
  function Dismiss(join: seq<int>, t: int): (r: seq<int>)
    ensures |r| == |join|
    ensures forall k :: 0 <= k < |join| ==> r[k] == if join[k] == t then 0 else join[k]
  {
    if join == [] then []
    else
      var k := |join| - 1;
      Dismiss(join[..k], t) + [if join[k] == t then 0 else join[k]]
  }

  function OpenTable(s: State, p: nat): State
    requires Sized(s) && 0 < p < |s.join|
  {
    var d := Detach(s, p);
    d.(serv := d.serv[p := 1], join := Dismiss(d.join, p))
  }

  function JoinTable(s: State, p: nat, t: nat): State
    requires Sized(s) && p < |s.join| && t < |s.join|
  {
    var serv := s.serv[p := 0];
    s.(join := s.join[p := t], serv := serv[t := serv[t] + 1])
  }

  function LeaveTable(s: State, p: nat): State
    requires Sized(s) && 0 < p < |s.join|
  {
    if s.serv[p] > 0 then s.(serv := s.serv[p := 0], join := Dismiss(s.join, p)[p := 0])
    else if s.join[p] != 0 then Detach(s, p)
    else s
  }

  function CloseConnection(s: State, p: nat): State
    requires Sized(s) && 0 < p < |s.join|
  {
    var d := Detach(s, p);
    d.(login := d.login[p := 0], serv := d.serv[p := 0], name := d.name[p := ""])
  }

  /** The first open table from slot `i` on led by a player of this name, or the number of slots. */
  function FindTable(s: State, leader: string, i: nat): (t: nat)
    requires Sized(s) && i <= |s.serv|
    ensures i <= t <= |s.serv|
    ensures t < |s.serv| ==> s.login[t] == 2 && s.serv[t] > 0 && s.name[t] == leader
    decreases |s.serv| - i
  {
    if i == |s.serv| then i
    else if s.login[i] == 2 && s.serv[i] > 0 && s.name[i] == leader then i
    else FindTable(s, leader, i + 1)
  }

  function Handle(s: State, e: Event): State
    requires Sized(s) && 0 < e.p < |s.join|
  {
    match e
    case Connect(p) => s.(login := s.login[p := 1])
    case SetName(p, text) => s.(name := s.name[p := text])
    case Welcome(p) => s.(login := s.login[p := 2])
    case Join(p, leader, allowed) =>
      var t := FindTable(s, leader, 1);
      if !allowed || t == |s.serv| || s.serv[t] >= 4 then s else JoinTable(s, p, t)
    case Open(p, allowed) => if allowed then OpenTable(s, p) else s
    case Leave(p) => LeaveTable(s, p)
    case Close(p) => CloseConnection(s, p)
  }

  // ----- Counting -----

  lemma {:induction false} CountMove(join: seq<int>, p: nat, v: int, t: int)
    requires p < |join|
    ensures CountJoin(join[p := v], t)
            == CountJoin(join, t) - (if join[p] == t then 1 else 0) + (if v == t then 1 else 0)
    ensures join[p] == t ==> CountJoin(join, t) > 0
  {
    var k := |join| - 1;
    if p < k {
      assert join[p := v][..k] == join[..k][p := v];
      CountMove(join[..k], p, v, t);
    } else {
      assert join[p := v][..k] == join[..k];
    }
  }

  lemma {:induction false} CountDismissed(join: seq<int>, gone: int, t: int)
    requires t != 0
    ensures CountJoin(Dismiss(join, gone), t) == if t == gone then 0 else CountJoin(join, t)
  {
    if join != [] {
      var k := |join| - 1;
      CountDismissed(join[..k], gone, t);
      assert Dismiss(join, gone)[..k] == Dismiss(join[..k], gone);
    }
  }

  // ----- The invariant -----

  lemma DetachCounted(s: State, p: nat)
    requires Counted(s) && p < |s.join|
    ensures Counted(Detach(s, p)) && Detach(s, p).join[p] == 0
    ensures forall t :: 0 <= t < |s.serv| ==> (Detach(s, p).serv[t] > 0 <==> s.serv[t] > 0)
  {
    var d := Detach(s, p);
    forall t | 0 <= t < |s.serv| ensures TableCounted(d, t) {
      assert TableCounted(s, t);
      CountMove(s.join, p, 0, t);
    }
    if s.serv[s.join[p]] > 0 {
      assert TableCounted(s, s.join[p]);
      CountMove(s.join, p, 0, s.join[p]);
    }
  }

  lemma OpenCounted(s: State, p: nat)
    requires Counted(s) && 0 < p < |s.join|
    ensures Counted(OpenTable(s, p))
  {
    var d, o := Detach(s, p), OpenTable(s, p);
    DetachCounted(s, p);
    forall t | 0 <= t < |s.serv| ensures TableCounted(o, t) {
      assert TableCounted(d, t);
      if t != 0 { CountDismissed(d.join, p, t); }
    }
  }

  lemma LeaveCounted(s: State, p: nat)
    requires Counted(s) && 0 < p < |s.join|
    ensures Counted(LeaveTable(s, p))
  {
    if s.serv[p] > 0 {
      var o := LeaveTable(s, p);
      var away := Dismiss(s.join, p);
      assert TableCounted(s, p);
      assert away[p := 0] == away;
      forall t | 0 <= t < |s.serv| ensures TableCounted(o, t) {
        assert TableCounted(s, t);
        if t != 0 { CountDismissed(s.join, p, t); }
      }
    } else if s.join[p] != 0 {
      DetachCounted(s, p);
    }
  }

  /** A closed slot may leave players whose `join` still names it; its own table is gone. */
  lemma CloseCounted(s: State, p: nat)
    requires Counted(s) && 0 < p < |s.join|
    ensures Counted(CloseConnection(s, p))
  {
    var d, o := Detach(s, p), CloseConnection(s, p);
    DetachCounted(s, p);
    forall t | 0 <= t < |s.serv| ensures TableCounted(o, t) {
      assert TableCounted(d, t);
    }
  }

  /** The player sits at no open table: what a client checks before it asks to join. */
  predicate Free(s: State, p: nat)
    requires Sized(s) && p < |s.join|
  {
    s.join[p] == 0 || s.serv[s.join[p]] == 0
  }

  /** Joining keeps the counts right exactly when the player sits at no open table and does not
      join a table of its own. */
  lemma JoinCountedExactly(s: State, p: nat, t: nat)
    requires Counted(s) && 0 < p < |s.join| && 0 < t < |s.join| && 0 < s.serv[t] < 4
    ensures Counted(JoinTable(s, p, t)) <==> Free(s, p) && p != t
  {
    var o, was := JoinTable(s, p, t), s.join[p];
    assert TableCounted(s, t) && TableCounted(s, was);
    CountMove(s.join, p, t, t);
    CountMove(s.join, p, t, was);
    if Free(s, p) && p != t {
      forall u | 0 <= u < |s.serv| ensures TableCounted(o, u) {
        assert TableCounted(s, u);
        CountMove(s.join, p, t, u);
      }
    } else {
      assert !TableCounted(o, if p == t then t else was);
    }
  }

  /** A client asks to join only when it leads no table and sits at none. */
  ghost predicate Obeys(s: State, e: Event)
    requires Sized(s)
  {
    && 0 < e.p < |s.join|
    && (e.Join? ==> Free(s, e.p) && s.serv[e.p] == 0)
  }

  lemma HandleCounted(s: State, e: Event)
    requires Counted(s) && Obeys(s, e)
    ensures Counted(Handle(s, e)) && |Handle(s, e).join| == |s.join|
  {
    var o := Handle(s, e);
    match e
    case Join(p, leader, allowed) =>
      var t := FindTable(s, leader, 1);
      if o != s { JoinCountedExactly(s, p, t); }
    case Open(p, allowed) => if allowed { OpenCounted(s, p); }
    case Leave(p) => LeaveCounted(s, p);
    case Close(p) => CloseCounted(s, p);
    case _ =>
      forall t | 0 <= t < |s.serv| ensures TableCounted(o, t) { assert TableCounted(s, t); }
  }

  /** The server as it starts up. */
  lemma StartCounted(s: State)
    requires |s.login| == |s.serv| == |s.join| == |s.name| > 0
    requires forall k :: 0 <= k < |s.serv| ==> s.serv[k] == 0 && s.join[k] == 0
    ensures Counted(s)
  {
  }

  /** `r` is reached from `s` by events of clients that ask to join only when they may. */
  ghost predicate Reaches(s: State, es: seq<Event>, r: State)
    decreases |es|
  {
    if es == [] then r == s
    else Sized(s) && Obeys(s, es[0]) && Reaches(Handle(s, es[0]), es[1..], r)
  }

  /** Over any run the counts are right, and no head count leaves 0 to 4. */
  lemma {:induction false} RunCounted(s: State, es: seq<Event>, r: State)
    requires Counted(s) && Reaches(s, es, r)
    ensures Counted(r) && forall t :: 0 <= t < |r.serv| ==> 0 <= r.serv[t] <= 4
    decreases |es|
  {
    if es == [] {
      forall t | 0 <= t < |r.serv| ensures 0 <= r.serv[t] <= 4 { assert TableCounted(r, t); }
    } else {
      HandleCounted(s, es[0]);
      RunCounted(Handle(s, es[0]), es[1..], r);
    }
  }

  // ----- The server -----

  class Gps {
    const login: array<int>
    const serv: array<int>
    const join: array<int>
    const name: array<string>

    ghost function Value(): State
      reads login, serv, join, name
    {
      State(login[..], serv[..], join[..], name[..])
    }

    /** The three tables are separate arrays of the same size. */
    ghost predicate Valid()
      reads login, serv, join, name
    {
      && login != serv && login != join && serv != join
      && login.Length == serv.Length == join.Length == name.Length
      && Sized(Value())
    }

    constructor (n: nat)
      requires n > 0
      ensures Valid() && Counted(Value()) && |Value().join| == n
      ensures fresh(login) && fresh(serv) && fresh(join) && fresh(name)
    {
      login := new int[n](_ => 0);
      serv := new int[n](_ => 0);
      join := new int[n](_ => 0);
      name := new string[n](_ => "");
      new;
      StartCounted(Value());
    }

    method DetachPlayer(p: nat)
      requires Valid() && p < join.Length
      modifies serv, join
      ensures Value() == old(Detach(Value(), p)) && Valid()
      ensures join[p] == 0 && forall k :: 0 <= k < join.Length && k != p ==> join[k] == old(join[k])
      ensures forall k :: 0 <= k < serv.Length ==>
                serv[k] == if k == old(join[p]) && k != 0 && old(serv[k]) > 0 then old(serv[k]) - 1 else old(serv[k])
    {
      if join[p] != 0 && serv[join[p]] > 0 {
        serv[join[p]] := serv[join[p]] - 1;
      }
      join[p] := 0;
    }

    /** Clears the `join` of every player at a table. */
    method DismissAll(t: nat)
      requires Valid() && 0 < t < join.Length
      modifies join
      ensures join[..] == Dismiss(old(join[..]), t) && Valid()
    {
      var i := 1;
      while i < join.Length
        invariant 1 <= i <= join.Length
        invariant forall k :: 0 <= k < i ==> join[k] == if old(join[k]) == t then 0 else old(join[k])
        invariant forall k :: i <= k < join.Length ==> join[k] == old(join[k])
      {
        if join[i] == t { join[i] := 0; }
        i := i + 1;
      }
      assert join[..] == Dismiss(old(join[..]), t);
    }

    method HandleOpen(p: nat, allowed: bool)
      requires Valid() && 0 < p < join.Length
      modifies serv, join
      ensures Value() == old(Handle(Value(), Open(p, allowed)))
      ensures !allowed ==> join[..] == old(join[..]) && serv[..] == old(serv[..])
      ensures allowed ==> serv[p] == 1 && forall k :: 0 <= k < join.Length ==>
                join[k] == if k == p || old(join[k]) == p then 0 else old(join[k])
      ensures allowed ==> forall k :: 0 <= k < serv.Length && k != p ==>
                serv[k] == if k == old(join[p]) && k != 0 && old(serv[k]) > 0 then old(serv[k]) - 1 else old(serv[k])
    {
      if !allowed { return; }
      DetachPlayer(p);
      DismissAll(p);
      serv[p] := 1;
    }

    method HandleLeave(p: nat)
      requires Valid() && 0 < p < join.Length
      modifies serv, join
      ensures Value() == old(Handle(Value(), Leave(p)))
      ensures join[p] == 0
      ensures old(serv[p]) > 0 ==>
                && serv[p] == 0 && (forall k :: 0 <= k < serv.Length && k != p ==> serv[k] == old(serv[k]))
                && forall k :: 0 <= k < join.Length && k != p ==> join[k] == if old(join[k]) == p then 0 else old(join[k])
      ensures old(serv[p]) == 0 ==>
                && (forall k :: 0 <= k < join.Length && k != p ==> join[k] == old(join[k]))
                && forall k :: 0 <= k < serv.Length ==>
                     serv[k] == if k == old(join[p]) && k != 0 && old(serv[k]) > 0 then old(serv[k]) - 1 else old(serv[k])
    {
      if serv[p] > 0 {
        DismissAll(p);
        serv[p] := 0;
        join[p] := 0;
      } else if join[p] != 0 {
        DetachPlayer(p);
      }
    }

    method HandleClose(p: nat)
      requires Valid() && 0 < p < join.Length
      modifies login, serv, join, name
      ensures Value() == old(Handle(Value(), Close(p)))
      ensures login[p] == 0 && serv[p] == 0 && join[p] == 0 && name[p] == ""
      ensures forall k :: 0 <= k < join.Length && k != p ==>
                login[k] == old(login[k]) && join[k] == old(join[k]) && name[k] == old(name[k])
      ensures forall k :: 0 <= k < serv.Length && k != p ==>
                serv[k] == if k == old(join[p]) && k != 0 && old(serv[k]) > 0 then old(serv[k]) - 1 else old(serv[k])
    {
      DetachPlayer(p);
      login[p] := 0;
      serv[p] := 0;
      join[p] := 0;
      name[p] := "";
    }

    /** The first open table led by a player of this name; refused when it is full. The result is its slot,
        and the number of slots when there is none. */
    method HandleJoin(p: nat, leader: string, allowed: bool) returns (i: nat)
      requires Valid() && 0 < p < join.Length
      modifies serv, join
      ensures Value() == old(Handle(Value(), Join(p, leader, allowed)))
      ensures 0 < i <= join.Length
      ensures allowed ==> forall k :: 0 < k < i ==> !(login[k] == 2 && old(serv[k]) > 0 && name[k] == leader)
      ensures allowed && i < join.Length ==> login[i] == 2 && old(serv[i]) > 0 && name[i] == leader
      ensures allowed && i < join.Length && old(serv[i]) < 4 ==>
                && join[p] == i && serv[i] == (if p == i then 1 else old(serv[i]) + 1) && (p != i ==> serv[p] == 0)
                && (forall k :: 0 <= k < join.Length && k != p ==> join[k] == old(join[k]))
                && forall k :: 0 <= k < serv.Length && k != p && k != i ==> serv[k] == old(serv[k])
      ensures !allowed || i == join.Length || old(serv[i]) >= 4 ==> join[..] == old(join[..]) && serv[..] == old(serv[..])
    {
      i := 1;
      if !allowed { return; }
      ghost var was := Value();
      while i < join.Length
        invariant 1 <= i <= join.Length && join[..] == old(join[..]) && serv[..] == old(serv[..])
        invariant forall k :: 0 < k < i ==> !(login[k] == 2 && old(serv[k]) > 0 && name[k] == leader)
        invariant FindTable(was, leader, i) == FindTable(was, leader, 1)
      {
        if login[i] == 2 && serv[i] > 0 && name[i] == leader {
          if serv[i] < 4 { SitDown(p, i); }
          return;
        }
        i := i + 1;
      }
    }

    method SitDown(p: nat, t: nat)
      requires Valid() && 0 < p < join.Length && 0 < t < join.Length
      modifies serv, join
      ensures Value() == old(JoinTable(Value(), p, t))
      ensures join[p] == t && forall k :: 0 <= k < join.Length && k != p ==> join[k] == old(join[k])
      ensures serv[t] == if p == t then 1 else old(serv[t]) + 1
      ensures forall k :: 0 <= k < serv.Length && k != t ==> serv[k] == if k == p then 0 else old(serv[k])
    {
      join[p] := t;
      serv[p] := 0;
      serv[t] := serv[t] + 1;
    }

    /** Lists the open tables; the branch for a head count above four is never taken. */
    method ListTable(onlyFree: bool) returns (tables: seq<nat>, failed: bool)
      requires Valid() && Counted(Value())
      ensures !failed
      ensures forall t :: t in tables <==> 0 < t < join.Length && login[t] != 0 && serv[t] > 0 && (onlyFree ==> serv[t] < 4)
      ensures forall i, j :: 0 <= i < j < |tables| ==> tables[i] < tables[j]
    {
      tables, failed := [], false;
      var i := 1;
      while i < join.Length
        invariant 1 <= i <= join.Length && !failed && forall j :: 0 <= j < |tables| ==> tables[j] < i
        invariant forall j, k :: 0 <= j < k < |tables| ==> tables[j] < tables[k]
        invariant forall t :: t in tables <==> 0 < t < i && login[t] != 0 && serv[t] > 0 && (onlyFree ==> serv[t] < 4)
      {
        if login[i] != 0 && serv[i] > 0 {
          assert TableCounted(Value(), i);
          if serv[i] > 4 { failed := true; }
          if !(onlyFree && serv[i] >= 4) {
            tables := tables + [i];
          }
        }
        i := i + 1;
      }
    }
  }
}
