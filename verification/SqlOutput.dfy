/**
  What the translator writes: pieces of SQL/MP text, the placeholders among them,
  and the parameter slots their indices are stored in.
 */
module SqlOutput {

  /** The k-th placeholder ":p<name>": the declared parameter it stands for, the
      index stored for it, and which SELECT activation (0: the statement itself,
      when it is no SELECT) emitted it. */
  datatype Host = Host(name: string, param: nat, index: nat, act: nat)

  /** Open and Close are the translator's own parentheses; those inside a quoted
      literal are part of its text. */
  datatype Piece =
    | Word(text: string)
    | Quoted(text: string, tick: bool)
    | Open
    | Close
    | Bound(host: Host)
    | Unbound(name: string)

  function Render(p: Piece): string {
    match p
    case Word(text) => text
    case Quoted(text, tick) => "'" + text + (if tick then "`" else "") + "'"
    case Open => "("
    case Close => ")"
    case Bound(h) => ":p" + h.name
    case Unbound(name) => ":p" + name
  }

  function RenderAll(ps: seq<Piece>): string {
    if ps == [] then "" else RenderAll(ps[..|ps| - 1]) + Render(ps[|ps| - 1])
  }

  lemma {:induction false} RenderConcat(a: seq<Piece>, b: seq<Piece>)
    ensures RenderAll(a + b) == RenderAll(a) + RenderAll(b)
  {
    hide Render;
    if b == [] {
      assert a + b == a;
    } else {
      var front, p := b[..|b| - 1], Render(b[|b| - 1]);
      RenderConcat(a, front);
      assert (a + b)[..|a + b| - 1] == a + front;
      assert (RenderAll(a) + RenderAll(front)) + p == RenderAll(a) + (RenderAll(front) + p);
    }
  }

  lemma RenderNone()
    ensures RenderAll([]) == ""
  {
  }

  lemma RenderOne(p: Piece)
    ensures RenderAll([p]) == Render(p)
  {
    hide Render;
    assert [p][..0] == [];
  }

  // ---------------------------------------------------------------- parentheses

  function Weight(p: Piece): int {
    if p.Open? then 1 else if p.Close? then -1 else 0
  }

  /** Opened minus closed. */
  function Balance(ps: seq<Piece>): int {
    if ps == [] then 0 else Balance(ps[..|ps| - 1]) + Weight(ps[|ps| - 1])
  }

  lemma BalanceNone()
    ensures Balance([]) == 0
  {
  }

  /** Every Close matches an earlier Open: no prefix closes more than it opened. */
  predicate NeverOverClosed(ps: seq<Piece>) {
    forall k :: 0 <= k <= |ps| ==> Balance(ps[..k]) >= 0
  }

  lemma {:induction false} BalanceConcat(a: seq<Piece>, b: seq<Piece>)
    ensures Balance(a + b) == Balance(a) + Balance(b)
  {
    if b == [] {
      assert a + b == a;
    } else {
      assert (a + b)[..|a + b| - 1] == a + b[..|b| - 1];
      BalanceConcat(a, b[..|b| - 1]);
    }
  }

  /** No parentheses. */
  predicate Flat(ps: seq<Piece>) {
    forall k :: 0 <= k < |ps| ==> !ps[k].Open? && !ps[k].Close?
  }

  lemma {:induction false} BalanceFlat(ps: seq<Piece>)
    requires Flat(ps)
    ensures Balance(ps) == 0
  {
    if ps != [] {
      BalanceFlat(ps[..|ps| - 1]);
    }
  }

  /** One more piece keeps every Close matched exactly when it finds enough open. */
  lemma NeverOverClosedSnoc(ps: seq<Piece>, p: Piece)
    ensures Balance(ps + [p]) == Balance(ps) + Weight(p)
    ensures NeverOverClosed(ps + [p]) <==> NeverOverClosed(ps) && Balance(ps) + Weight(p) >= 0
  {
    var all := ps + [p];
    assert all[..|ps|] == ps && all[..|all|] == all;
    assert forall k :: 0 <= k <= |ps| ==> all[..k] == ps[..k];
    if NeverOverClosed(all) {
      forall k | 0 <= k <= |ps|
        ensures Balance(ps[..k]) >= 0
      {
        assert Balance(all[..k]) >= 0;
      }
      assert Balance(all[..|all|]) >= 0;
    }
  }

  // ---------------------------------------------------------------- placeholders

  /** The placeholders in order of emission. */
  function HostsOf(ps: seq<Piece>): seq<Host> {
    if ps == [] then []
    else
      var p := ps[|ps| - 1];
      HostsOf(ps[..|ps| - 1]) + if p.Bound? then [p.host] else []
  }

  lemma HostsOfSnoc(ps: seq<Piece>, p: Piece)
    ensures HostsOf(ps + [p]) == HostsOf(ps) + if p.Bound? then [p.host] else []
  {
    assert (ps + [p])[..|ps|] == ps;
  }

  /** Placeholders that are given no index (those of SET and VALUES). */
  function UnboundIn(ps: seq<Piece>): nat {
    if ps == [] then 0 else UnboundIn(ps[..|ps| - 1]) + if ps[|ps| - 1].Unbound? then 1 else 0
  }

  lemma UnboundInSnoc(ps: seq<Piece>, p: Piece)
    ensures UnboundIn(ps + [p]) == UnboundIn(ps) + if p.Unbound? then 1 else 0
  {
    assert (ps + [p])[..|ps|] == ps;
  }

  /** How many placeholders one activation has emitted. */
  function Placed(hosts: seq<Host>, act: nat): nat {
    if hosts == [] then 0
    else Placed(hosts[..|hosts| - 1], act) + if hosts[|hosts| - 1].act == act then 1 else 0
  }

  lemma PlacedSnoc(hosts: seq<Host>, h: Host, act: nat)
    ensures Placed(hosts + [h], act) == Placed(hosts, act) + if h.act == act then 1 else 0
  {
    assert (hosts + [h])[..|hosts|] == hosts;
  }

  lemma {:induction false} PlacedNone(hosts: seq<Host>, act: nat)
    requires forall k :: 0 <= k < |hosts| ==> hosts[k].act != act
    ensures Placed(hosts, act) == 0
  {
    if hosts != [] {
      PlacedNone(hosts[..|hosts| - 1], act);
    }
  }

  /** The placeholders of the activations before one. */
  function Outer(hosts: seq<Host>, act: nat): seq<Host> {
    if hosts == [] then []
    else
      var h := hosts[|hosts| - 1];
      Outer(hosts[..|hosts| - 1], act) + if h.act < act then [h] else []
  }

  lemma OuterSnoc(hosts: seq<Host>, h: Host, act: nat)
    ensures Outer(hosts + [h], act) == Outer(hosts, act) + if h.act < act then [h] else []
  {
    assert (hosts + [h])[..|hosts|] == hosts;
  }

  /** An activation's count is settled by what comes before a later one. */
  lemma {:induction false} OuterPlaced(hosts: seq<Host>, act: nat, a: nat)
    requires a < act
    ensures Placed(hosts, a) == Placed(Outer(hosts, act), a)
  {
    if hosts != [] {
      var front, h := hosts[..|hosts| - 1], hosts[|hosts| - 1];
      OuterPlaced(front, act, a);
      assert Outer(hosts, act) == if h.act < act then Outer(front, act) + [h] else Outer(front, act);
      PlacedSnoc(Outer(front, act), h, a);
    }
  }

  lemma {:induction false} OuterOuter(hosts: seq<Host>, act: nat, a: nat)
    requires a <= act
    ensures Outer(hosts, a) == Outer(Outer(hosts, act), a)
  {
    if hosts != [] {
      var front, h := hosts[..|hosts| - 1], hosts[|hosts| - 1];
      OuterOuter(front, act, a);
      assert Outer(hosts, act) == if h.act < act then Outer(front, act) + [h] else Outer(front, act);
      OuterSnoc(Outer(front, act), h, a);
    }
  }

  /** What keeps the placeholders before one activation keeps those of an earlier one. */
  lemma OuterKept(hosts: seq<Host>, more: seq<Host>, act: nat, a: nat)
    requires Outer(hosts, act) == Outer(more, act) && a < act
    ensures Outer(hosts, a) == Outer(more, a) && Placed(hosts, a) == Placed(more, a)
  {
    OuterOuter(hosts, act, a);
    OuterOuter(more, act, a);
    OuterPlaced(hosts, act, a);
    OuterPlaced(more, act, a);
  }

  /** The index of every placeholder counts the earlier ones of its activation. */
  predicate Numbered(hosts: seq<Host>) {
    forall k :: 0 <= k < |hosts| ==> hosts[k].index == Placed(hosts[..k], hosts[k].act)
  }

  lemma NumberedSnoc(hosts: seq<Host>, h: Host)
    requires Numbered(hosts) && h.index == Placed(hosts, h.act)
    ensures Numbered(hosts + [h])
  {
    forall k | 0 <= k < |hosts| + 1
      ensures (hosts + [h])[k].index == Placed((hosts + [h])[..k], (hosts + [h])[k].act)
    {
      assert (hosts + [h])[..k] == if k <= |hosts| then hosts[..k] else hosts;
    }
  }

  // ---------------------------------------------------------------- parameter slots

  const PRMIDXLEN: nat := 10

  /** A declared procedure parameter; -1 marks a free slot of idxs. */
  datatype Param = Param(name: string, idxs: seq<int>, likepattern: bool)

  /** The indices of the placeholders of parameter i, in order of emission. */
  function IndicesOf(hosts: seq<Host>, i: nat): seq<int> {
    if hosts == [] then []
    else
      var h := hosts[|hosts| - 1];
      IndicesOf(hosts[..|hosts| - 1], i) + if h.param == i then [h.index] else []
  }

  lemma IndicesOfSnoc(hosts: seq<Host>, h: Host, i: nat)
    ensures IndicesOf(hosts + [h], i) == IndicesOf(hosts, i) + if h.param == i then [h.index] else []
  {
    assert (hosts + [h])[..|hosts|] == hosts;
  }

  lemma {:induction false} IndicesNatural(hosts: seq<Host>, i: nat)
    ensures forall x :: 0 <= x < |IndicesOf(hosts, i)| ==> IndicesOf(hosts, i)[x] >= 0
  {
    if hosts != [] {
      IndicesNatural(hosts[..|hosts| - 1], i);
    }
  }

  function Free(n: int): (s: seq<int>) {
    seq(if n < 0 then 0 else n, _ => -1)
  }

  /** The slots of parameter i hold exactly those indices, then -1. */
  predicate Stored(p: Param, hosts: seq<Host>, i: nat) {
    var used := IndicesOf(hosts, i);
    |used| <= PRMIDXLEN && p.idxs == used + Free(PRMIDXLEN - |used|)
  }

  predicate AllStored(params: seq<Param>, hosts: seq<Host>) {
    && (forall i :: 0 <= i < |params| ==> Stored(params[i], hosts, i))
    && (forall k :: 0 <= k < |hosts| ==> hosts[k].param < |params|)
  }

  lemma NamedAt(params: seq<Param>, hosts: seq<Host>, lookup: map<string, nat>, v: string)
    requires Named(params, hosts, lookup) && v in lookup
    ensures lookup[v] < |params| && params[lookup[v]].name == v
  {
  }

  lemma NamedSnoc(params: seq<Param>, hosts: seq<Host>, lookup: map<string, nat>, h: Host, idxs: seq<int>)
    requires Named(params, hosts, lookup) && h.param < |params| && h.name == VarName(params[h.param].name)
    ensures Named(params[h.param := params[h.param].(idxs := idxs)], hosts + [h], lookup)
  {
  }

  predicate FirstFree(idxs: seq<int>, x: int) {
    0 <= x < |idxs| && idxs[x] == -1 && forall j :: 0 <= j < x ==> idxs[j] != -1
  }

  /** A variable name without its '@'. */
  function VarName(v: string): string {
    if v == "" then "" else v[1..]
  }

  /** Every placeholder is spelled like the parameter it stands for. */
  predicate Named(params: seq<Param>, hosts: seq<Host>, lookup: map<string, nat>) {
    && (forall n :: n in lookup ==> lookup[n] < |params| && params[lookup[n]].name == n)
    && (forall k :: 0 <= k < |hosts| ==>
          hosts[k].param < |params| && hosts[k].name == VarName(params[hosts[k].param].name))
  }

  /** setPrmIdx: fills the first free slot, if there is one. */
  method SetPrmIdx(idxs: seq<int>, pos: int) returns (ok: bool, result: seq<int>, next: int)
    requires |idxs| == PRMIDXLEN
    ensures ok <==> -1 in idxs
    ensures !ok ==> result == idxs && next == pos
    ensures ok ==> next == pos + 1
    ensures ok ==> exists x :: FirstFree(idxs, x) && result == idxs[x := pos]
  {
    for x := 0 to PRMIDXLEN
      invariant forall j :: 0 <= j < x ==> idxs[j] != -1
    {
      if idxs[x] == -1 {
        assert FirstFree(idxs, x);
        return true, idxs[x := pos], pos + 1;
      }
    }
    return false, idxs, pos;
  }

  /** Filling the first free slot is appending the index. */
  lemma FillsFree(used: seq<int>, x: nat, v: int)
    requires |used| <= PRMIDXLEN && forall j :: 0 <= j < |used| ==> used[j] >= 0
    requires FirstFree(used + Free(PRMIDXLEN - |used|), x)
    ensures |used| < PRMIDXLEN
    ensures (used + Free(PRMIDXLEN - |used|))[x := v] == (used + [v]) + Free(PRMIDXLEN - |used| - 1)
  {
    var free := Free(PRMIDXLEN - |used|);
    assert (used + free)[|used|] == free[0] == -1;
  }

  /** A full parameter has no free slot. */
  lemma NoneFree(used: seq<int>)
    requires |used| <= PRMIDXLEN && forall j :: 0 <= j < |used| ==> used[j] >= 0
    ensures -1 in used + Free(PRMIDXLEN - |used|) <==> |used| < PRMIDXLEN
  {
    if |used| < PRMIDXLEN {
      assert (used + Free(PRMIDXLEN - |used|))[|used|] == -1;
    }
  }

  /** The first free slot of a parameter is the one behind those used, and there is one
      exactly when fewer than ten are. */
  lemma FreeSlot(p: Param, hosts: seq<Host>, i: nat)
    requires Stored(p, hosts, i)
    ensures |p.idxs| == 10 && (-1 in p.idxs <==> |IndicesOf(hosts, i)| < 10)
    ensures forall x :: FirstFree(p.idxs, x) <==> x == |IndicesOf(hosts, i)| < 10
  {
    IndicesNatural(hosts, i);
    NoneFree(IndicesOf(hosts, i));
    var used := IndicesOf(hosts, i);
    assert |used| < PRMIDXLEN ==> p.idxs[|used|] == -1;
    assert forall j :: 0 <= j < |used| ==> p.idxs[j] == used[j];
  }

  /** What setPrmIdx stores is the index of the placeholder about to be emitted. */
  lemma StoresNext(p: Param, hosts: seq<Host>, h: Host, x: nat)
    requires Stored(p, hosts, h.param) && FirstFree(p.idxs, x)
    ensures Stored(p.(idxs := p.idxs[x := h.index]), hosts + [h], h.param)
  {
    IndicesNatural(hosts, h.param);
    FillsFree(IndicesOf(hosts, h.param), x, h.index);
    IndicesOfSnoc(hosts, h, h.param);
  }

  lemma AllStoredSnoc(params: seq<Param>, hosts: seq<Host>, h: Host, p: Param)
    requires AllStored(params, hosts) && h.param < |params|
    requires Stored(p, hosts + [h], h.param)
    ensures AllStored(params[h.param := p], hosts + [h])
  {
    var ps := params[h.param := p];
    forall i | 0 <= i < |ps|
      ensures Stored(ps[i], hosts + [h], i)
    {
      IndicesOfSnoc(hosts, h, i);
      assert i != h.param ==> Stored(params[i], hosts, i);
    }
  }

  // ---------------------------------------------------------------- a run of placeholders

  function ParamOf(lookup: map<string, nat>, v: string): nat {
    if v in lookup then lookup[v] else 0
  }

  /** The placeholders of the variables vs, numbered from n on. */
  function HostsFor(vs: seq<string>, lookup: map<string, nat>, n: nat, act: nat): (hs: seq<Host>)
    ensures |hs| == |vs|
  {
    seq(|vs|, k requires 0 <= k < |vs| => Host(VarName(vs[k]), ParamOf(lookup, vs[k]), n + k, act))
  }

  lemma HostsForConcat(a: seq<string>, b: seq<string>, lookup: map<string, nat>, n: nat, act: nat)
    ensures HostsFor(a + b, lookup, n, act) == HostsFor(a, lookup, n, act) + HostsFor(b, lookup, n + |a|, act)
  {
  }

  /** How many of the variables stand for parameter i. */
  function Count(vs: seq<string>, lookup: map<string, nat>, i: nat): nat {
    if vs == [] then 0
    else Count(vs[..|vs| - 1], lookup, i) + if ParamOf(lookup, vs[|vs| - 1]) == i then 1 else 0
  }

  lemma {:induction false} CountConcat(a: seq<string>, b: seq<string>, lookup: map<string, nat>, i: nat)
    ensures Count(a + b, lookup, i) == Count(a, lookup, i) + Count(b, lookup, i)
  {
    if b == [] {
      assert a + b == a;
    } else {
      assert (a + b)[..|a + b| - 1] == a + b[..|b| - 1];
      CountConcat(a, b[..|b| - 1], lookup, i);
    }
  }

  lemma {:induction false} IndicesFor(
    hosts: seq<Host>, vs: seq<string>, lookup: map<string, nat>, n: nat, act: nat, i: nat)
    ensures |IndicesOf(hosts + HostsFor(vs, lookup, n, act), i)| == |IndicesOf(hosts, i)| + Count(vs, lookup, i)
  {
    var all := hosts + HostsFor(vs, lookup, n, act);
    if vs == [] {
      assert all == hosts;
    } else {
      var front := vs[..|vs| - 1];
      IndicesFor(hosts, front, lookup, n, act, i);
      assert all[..|all| - 1] == hosts + HostsFor(front, lookup, n, act);
    }
  }

  /** All variables are declared, and their placeholders find a free slot each. */
  predicate Room(vs: seq<string>, lookup: map<string, nat>, hosts: seq<Host>) {
    && (forall k :: 0 <= k < |vs| ==> vs[k] in lookup)
    && (forall i: nat :: i in lookup.Values && Count(vs, lookup, i) > 0 ==>
          |IndicesOf(hosts, i)| + Count(vs, lookup, i) <= PRMIDXLEN)
  }

  lemma RoomNone(lookup: map<string, nat>, hosts: seq<Host>)
    ensures Room([], lookup, hosts)
  {
  }

  /** There is room for all exactly when there is for a part and then for the others. */
  lemma RoomSplit(
    a: seq<string>, b: seq<string>, lookup: map<string, nat>, hosts: seq<Host>, n: nat, act: nat)
    ensures Room(a + b, lookup, hosts) <==>
              Room(a, lookup, hosts) && Room(b, lookup, hosts + HostsFor(a, lookup, n, act))
  {
    hide IndicesOf, Count;
    assert forall k :: 0 <= k < |a| ==> (a + b)[k] == a[k];
    assert forall k :: 0 <= k < |b| ==> (a + b)[|a| + k] == b[k];
    forall i: nat
      ensures Count(a + b, lookup, i) == Count(a, lookup, i) + Count(b, lookup, i)
      ensures |IndicesOf(hosts + HostsFor(a, lookup, n, act), i)| == |IndicesOf(hosts, i)| + Count(a, lookup, i)
    {
      CountConcat(a, b, lookup, i);
      IndicesFor(hosts, a, lookup, n, act, i);
    }
  }

  /** There is room for one variable exactly when it is declared and used less than ten times. */
  lemma RoomOne(v: string, lookup: map<string, nat>, hosts: seq<Host>)
    ensures Room([v], lookup, hosts) <==> v in lookup && |IndicesOf(hosts, lookup[v])| < PRMIDXLEN
  {
    assert [v][0] == v && [v][..0] == [];
    assert forall i: nat :: Count([v], lookup, i) == if ParamOf(lookup, v) == i then 1 else 0;
    if v in lookup {
      assert lookup[v] in lookup.Values;
    }
  }
}
