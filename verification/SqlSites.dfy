/**
  Where the condition chains of a statement stand: every ON, WHERE and HAVING, the
  index its placeholders begin with, and what its parentheses leave open.
 */
module SqlSites {

  import opened Common
  import opened SqlOutput
  import opened SqlChain
  import opened SqlStatement

  datatype Site = Site(chain: Chain<Operand>, n: nat, act: nat)

  function JoinSites(js: seq<Joining>, n: nat, act: nat): seq<Site> {
    if js == [] then []
    else [Site(js[0].on, n, act)] + JoinSites(js[1..], n + |ChainVars(js[0].on)|, act)
  }

  function ClauseSites(w: Option<Chain<Operand>>, n: nat, act: nat): seq<Site> {
    if w.None? then [] else [Site(w.value, n, act)]
  }

  function BodySites(b: Body, n: nat, act: nat): seq<Site> {
    JoinSites(b.from.joins, n, act) + ClauseSites(b.where, n + |JoinsVars(b.from.joins)|, act)
  }

  function SelectSites(q: Query, act: nat): seq<Site> {
    BodySites(q.body, 0, act) + ClauseSites(q.having, |BodyVars(q.body)|, act)
  }

  function UnionSites(u: Option<Query>, act: nat): seq<Site>
    decreases u, 0
  {
    if u.None? then [] else QuerySites(u.value, act + 1)
  }

  function QuerySites(q: Query, act: nat): seq<Site>
    decreases q, 1
  {
    SelectSites(q, act) + UnionSites(q.union, act)
  }

  function StatementSites(s: Statement): seq<Site> {
    match s
    case Select(q) => QuerySites(q, 1)
    case Delete(b) => BodySites(b, 0, 0)
    case Update(u) => ClauseSites(u.where, 0, 0)
    case Insert(_) => []
  }

  // ---------------------------------------------------------------- every chain is written

  ghost predicate PartAt<T>(a: seq<T>, s: seq<T>, i: int) {
    0 <= i <= |s| - |a| && s[i..i + |a|] == a
  }

  ghost predicate Part<T>(a: seq<T>, s: seq<T>) {
    exists i :: PartAt(a, s, i)
  }

  lemma PartSelf<T>(a: seq<T>)
    ensures Part(a, a)
  {
    assert PartAt(a, a, 0);
  }

  lemma PartLeft<T>(a: seq<T>, s: seq<T>, t: seq<T>)
    requires Part(a, s)
    ensures Part(a, s + t)
  {
    var i :| PartAt(a, s, i);
    assert PartAt(a, s + t, i);
  }

  lemma PartRight<T>(a: seq<T>, s: seq<T>, t: seq<T>)
    requires Part(a, t)
    ensures Part(a, s + t)
  {
    var i :| PartAt(a, t, i);
    assert (s + t)[|s| + i..|s| + i + |a|] == t[i..i + |a|];
    assert PartAt(a, s + t, |s| + i);
  }

  function SitePieces(x: Site, lookup: map<string, nat>): seq<Piece> {
    ChainPieces(Translate(x.chain, lookup, x.n, x.act))
  }

  function SiteHosts(x: Site, lookup: map<string, nat>): seq<Host> {
    HostsFor(ChainVars(x.chain), lookup, x.n, x.act)
  }

  /** The translation of the chain is in the text, its placeholders in the account. */
  ghost predicate Present(x: Site, ps: seq<Piece>, hs: seq<Host>, lookup: map<string, nat>) {
    Part(SitePieces(x, lookup), ps) && Part(SiteHosts(x, lookup), hs)
  }

  ghost predicate AllPresent(xs: seq<Site>, ps: seq<Piece>, hs: seq<Host>, lookup: map<string, nat>) {
    forall k :: 0 <= k < |xs| ==> Present(xs[k], ps, hs, lookup)
  }

  lemma PresentOne(x: Site, lookup: map<string, nat>)
    ensures AllPresent([x], SitePieces(x, lookup), SiteHosts(x, lookup), lookup)
  {
    PartSelf(SitePieces(x, lookup));
    PartSelf(SiteHosts(x, lookup));
  }

  lemma PresentAround(
    xs: seq<Site>, a: seq<Piece>, ps: seq<Piece>, b: seq<Piece>, hs: seq<Host>, lookup: map<string, nat>)
    requires AllPresent(xs, ps, hs, lookup)
    ensures AllPresent(xs, a + ps, hs, lookup) && AllPresent(xs, ps + b, hs, lookup)
  {
    hide SitePieces, SiteHosts, Part;
    forall k | 0 <= k < |xs|
      ensures Present(xs[k], a + ps, hs, lookup) && Present(xs[k], ps + b, hs, lookup)
    {
      assert Present(xs[k], ps, hs, lookup);
      PartRight(SitePieces(xs[k], lookup), a, ps);
      PartLeft(SitePieces(xs[k], lookup), ps, b);
    }
  }

  lemma PresentJoin(
    xs: seq<Site>, ys: seq<Site>, a: seq<Piece>, b: seq<Piece>, h: seq<Host>, i: seq<Host>, lookup: map<string, nat>)
    requires AllPresent(xs, a, h, lookup) && AllPresent(ys, b, i, lookup)
    ensures AllPresent(xs + ys, a + b, h + i, lookup)
  {
    hide SitePieces, SiteHosts, Part;
    forall k | 0 <= k < |xs + ys|
      ensures Present((xs + ys)[k], a + b, h + i, lookup)
    {
      var x := (xs + ys)[k];
      if k < |xs| {
        assert Present(xs[k], a, h, lookup);
        PartLeft(SitePieces(x, lookup), a, b);
        PartLeft(SiteHosts(x, lookup), h, i);
      } else {
        assert Present(ys[k - |xs|], b, i, lookup);
        PartRight(SitePieces(x, lookup), a, b);
        PartRight(SiteHosts(x, lookup), h, i);
      }
    }
  }

  lemma {:induction false} JoinsPresent(js: seq<Joining>, lookup: map<string, nat>, n: nat, act: nat)
    ensures AllPresent(JoinSites(js, n, act), JoinsPieces(js, lookup, n, act),
              HostsFor(JoinsVars(js), lookup, n, act), lookup)
  {
    hide AllPresent, ChainVars, HostsFor, JoinHeadPieces, ChainPieces, Translate;
    if js == [] {
      NonePresent([], HostsFor([], lookup, n, act), lookup);
    } else {
      var x, m := Site(js[0].on, n, act), n + |ChainVars(js[0].on)|;
      var head := JoinHeadPieces(js[0]);
      PresentOne(x, lookup);
      PresentAround([x], head, SitePieces(x, lookup), [], SiteHosts(x, lookup), lookup);
      PresentAround([x], [], head + SitePieces(x, lookup), [Close, Word(" ")], SiteHosts(x, lookup), lookup);
      JoinsPresent(js[1..], lookup, m, act);
      HostsForConcat(ChainVars(js[0].on), JoinsVars(js[1..]), lookup, n, act);
      PresentJoin([x], JoinSites(js[1..], m, act), JoinPieces(js[0], lookup, n, act),
        JoinsPieces(js[1..], lookup, m, act),
                  SiteHosts(x, lookup), HostsFor(JoinsVars(js[1..]), lookup, m, act), lookup);
    }
  }

  lemma NonePresent(ps: seq<Piece>, hs: seq<Host>, lookup: map<string, nat>)
    ensures AllPresent([], ps, hs, lookup)
  {
  }

  lemma ClausePresent(text: string, w: Option<Chain<Operand>>, lookup: map<string, nat>, n: nat, act: nat)
    ensures AllPresent(ClauseSites(w, n, act), ClausePieces(text, w, lookup, n, act),
                       HostsFor(ClauseVars(w), lookup, n, act), lookup)
  {
    hide AllPresent, ChainVars, HostsFor, ChainPieces, Translate;
    if w.None? {
      NonePresent([], HostsFor([], lookup, n, act), lookup);
    } else {
      var x := Site(w.value, n, act);
      PresentOne(x, lookup);
      PresentAround([x], [Word(text)], SitePieces(x, lookup), [], SiteHosts(x, lookup), lookup);
    }
  }

  lemma BodyPresent(b: Body, lookup: map<string, nat>, n: nat, act: nat)
    ensures AllPresent(BodySites(b, n, act), BodyPieces(b, lookup, n, act), HostsFor(BodyVars(b), lookup, n, act),
              lookup)
  {
    hide AllPresent, JoinSites, ClauseSites, JoinsVars, ClauseVars, HostsFor, TablesPieces, JoinsPieces, ClausePieces;
    var va, vb := JoinsVars(b.from.joins), ClauseVars(b.where);
    var xs, ys := JoinSites(b.from.joins, n, act), ClauseSites(b.where, n + |va|, act);
    var joins, where := JoinsPieces(b.from.joins, lookup, n, act),
      ClausePieces(" WHERE ", b.where, lookup, n + |va|, act);
    var tables := TablesPieces(b.from.tables);
    var h := HostsFor(va, lookup, n, act);
    JoinsPresent(b.from.joins, lookup, n, act);
    PresentAround(xs, tables, joins, [], h, lookup);
    PresentAround(xs, [Word("FROM ")], tables + joins, [], h, lookup);
    ClausePresent(" WHERE ", b.where, lookup, n + |va|, act);
    HostsForConcat(va, vb, lookup, n, act);
    PresentJoin(xs, ys, FromPieces(b.from, lookup, n, act), where, h, HostsFor(vb, lookup, n + |va|, act), lookup);
  }

  /** The fields and clauses of one SELECT. */
  lemma SelectPresent(q: Query, lookup: map<string, nat>, act: nat)
    ensures AllPresent(SelectSites(q, act), SelectBodyPieces(q, lookup, act),
              HostsFor(SelectVars(q), lookup, 0, act), lookup)
  {
    hide AllPresent, BodySites, ClauseSites, BodyVars, ClauseVars, HostsFor, BodyPieces, ClausePieces;
    hide OrderPieces, FieldsPieces;
    var va, vb := BodyVars(q.body), ClauseVars(q.having);
    var xs, ys := BodySites(q.body, 0, act), ClauseSites(q.having, |va|, act);
    var having, order := ClausePieces(" HAVING ", q.having, lookup, |va|, act), OrderPieces(q.order);
    var h, i := HostsFor(va, lookup, 0, act), HostsFor(vb, lookup, |va|, act);
    BodyPresent(q.body, lookup, 0, act);
    ClausePresent(" HAVING ", q.having, lookup, |va|, act);
    PresentAround(ys, [], having, order, i, lookup);
    HostsForConcat(va, vb, lookup, 0, act);
    PresentJoin(xs, ys, BodyPieces(q.body, lookup, 0, act), TrailPieces(q, lookup, |va|, act), h, i, lookup);
    PresentAround(xs + ys, FieldsPieces(q.items), ClausesPieces(q, lookup, act), [], h + i, lookup);
  }

  lemma {:induction false} QueryPresent(q: Query, lookup: map<string, nat>, act: nat)
    ensures AllPresent(QuerySites(q, act), QueryPieces(q, lookup, act), QueryHosts(q, lookup, act), lookup)
    decreases q
  {
    hide AllPresent, SelectSites, SelectVars, HostsFor, SelectBodyPieces, SelectHeadPieces;
    var xs, ys := SelectSites(q, act), UnionSites(q.union, act);
    var ps, us := SelectBodyPieces(q, lookup, act), UnionPieces(q.union, lookup, act);
    var h, i := HostsFor(SelectVars(q), lookup, 0, act), UnionHosts(q.union, lookup, act);
    var browse := [Word(" FOR BROWSE ACCESS ")];
    SelectPresent(q, lookup, act);
    if q.union.None? {
      NonePresent(us, i, lookup);
    } else {
      var text := QueryPieces(q.union.value, lookup, act + 1);
      QueryPresent(q.union.value, lookup, act + 1);
      PresentAround(ys, [Word(" UNION ")], text, [], i, lookup);
      PresentAround(ys, browse, [Word(" UNION ")] + text, [], i, lookup);
    }
    PresentJoin(xs, ys, ps, us, h, i, lookup);
    PresentAround(xs + ys, SelectHeadPieces(q.distinct), ps + us, [], h + i, lookup);
  }

  /** Every chain of a statement is in the text written for it, translated, and its
      placeholders follow each other in the account. */
  lemma StatementPresent(s: Statement, lookup: map<string, nat>)
    ensures AllPresent(StatementSites(s), StatementPieces(s, lookup), StatementHosts(s, lookup), lookup)
  {
    hide AllPresent, QuerySites, BodySites, ClauseSites, QueryPieces, BodyPieces, UpdateHeadPieces, SettingsPieces;
    hide ClausePieces, InsertPieces, QueryHosts, HostsFor, BodyVars, ClauseVars;
    match s
    case Select(q) => QueryPresent(q, lookup, 1);
    case Delete(b) =>
      BodyPresent(b, lookup, 0, 0);
      PresentAround(BodySites(b, 0, 0), [Word("DELETE ")], BodyPieces(b, lookup, 0, 0), [],
        HostsFor(BodyVars(b), lookup, 0, 0), lookup);
    case Update(u) =>
      var xs, h := ClauseSites(u.where, 0, 0), HostsFor(ClauseVars(u.where), lookup, 0, 0);
      var where := ClausePieces(" WHERE ", u.where, lookup, 0, 0);
      ClausePresent(" WHERE ", u.where, lookup, 0, 0);
      PresentAround(xs, SettingsPieces(u.settings), where, [], h, lookup);
      PresentAround(xs, UpdateHeadPieces(u.table), SettingsPieces(u.settings) + where, [], h, lookup);
    case Insert(_) => NonePresent(StatementPieces(s, lookup), [], lookup);
  }

  // ---------------------------------------------------------------- numbering

  /** How many SELECTs of a query have placeholders. */
  function Using(q: Query): nat {
    (if SelectVars(q) == [] then 0 else 1) + if q.union.None? then 0 else Using(q.union.value)
  }

  predicate InOrder(hosts: seq<Host>) {
    forall k :: 0 <= k < |hosts| ==> hosts[k].index == k
  }

  lemma {:induction false} UsingNone(q: Query, lookup: map<string, nat>, act: nat)
    ensures QueryHosts(q, lookup, act) == [] <==> Using(q) == 0
    ensures QueryHosts(q, lookup, act) != [] ==> QueryHosts(q, lookup, act)[0].index == 0
    decreases q
  {
    hide SelectVars;
    if q.union.Some? {
      UsingNone(q.union.value, lookup, act + 1);
    }
  }

  /** The placeholders of a query are numbered in order exactly when at most one of
      its SELECTs has any. */
  lemma {:induction false} QueryInOrderIff(q: Query, lookup: map<string, nat>, act: nat)
    ensures InOrder(QueryHosts(q, lookup, act)) <==> Using(q) <= 1
    decreases q
  {
    hide SelectVars;
    var own, more := HostsFor(SelectVars(q), lookup, 0, act), UnionHosts(q.union, lookup, act);
    var hosts := QueryHosts(q, lookup, act);
    if q.union.Some? {
      UsingNone(q.union.value, lookup, act + 1);
      if own == [] {
        assert hosts == more;
        QueryInOrderIff(q.union.value, lookup, act + 1);
      } else if more != [] {
        assert hosts[|own|] == more[0];
      } else {
        assert hosts == own;
      }
    } else {
      assert hosts == own;
    }
  }

  // ---------------------------------------------------------------- parentheses

  function Unclosed(xs: seq<Site>): int {
    if xs == [] then 0 else ChainDepth(xs[0].chain, 0) + Unclosed(xs[1..])
  }

  lemma {:induction false} UnclosedConcat(xs: seq<Site>, ys: seq<Site>)
    ensures Unclosed(xs + ys) == Unclosed(xs) + Unclosed(ys)
  {
    if xs == [] {
      assert xs + ys == ys;
    } else {
      assert (xs + ys)[1..] == xs[1..] + ys;
      UnclosedConcat(xs[1..], ys);
    }
  }

  lemma {:induction false} ValuesFlat(vs: seq<Value>)
    ensures Flat(ValuesPieces(vs))
  {
    if |vs| > 1 {
      ValuesFlat(vs[1..]);
    }
  }

  lemma MemberBalance(negated: bool, list: seq<Value>)
    ensures Balance(MemberPieces(negated, list)) == 0
  {
    hide Balance, ValuesPieces;
    var word, values := [Word(" IN ")], ValuesPieces(list);
    BalanceFlat(NotPieces(negated, " NOT "));
    ValuesFlat(list);
    BalanceFlat(values);
    BalanceConcat(NotPieces(negated, " NOT "), ListPieces(list));
    BalanceConcat([Word(" IN "), Open] + values, [Close]);
    BalanceConcat([Word(" IN "), Open], values);
    assert word + [Open] == [Word(" IN "), Open];
    BalanceConcat(word, [Open]);
    BalanceOne(Word(" IN "));
    BalanceOne(Open);
    BalanceOne(Close);
  }

  lemma TestBalance(k: Cond<Target>)
    ensures Balance(TestPieces(k)) == 0
  {
    hide OperatorText, Balance, MemberPieces;
    if k.test.Member? {
      MemberBalance(k.test.negated, k.test.list);
      BalanceFlat(NamePieces(k.column));
      BalanceConcat(NamePieces(k.column), SaidPieces(k.test));
    } else {
      BalanceFlat(TestPieces(k));
    }
  }

  lemma CondBalance(k: Cond<Target>)
    ensures Balance(CondPieces(k)) == (if k.open then 1 else 0) - if k.close then 1 else 0
  {
    hide TestPieces, Balance;
    TestBalance(k);
    BalanceConcat(OpenPieces(k.open) + TestPieces(k), ClosePieces(k.close));
    BalanceConcat(OpenPieces(k.open), TestPieces(k));
    BalanceOne(Open);
    BalanceNone();
    BalanceConcat([Close], [Word(" ")]);
    assert [Close] + [Word(" ")] == [Close, Word(" ")];
    BalanceOne(Close);
    BalanceOne(Word(" "));
  }

  lemma BalanceOne(p: Piece)
    ensures Balance([p]) == Weight(p)
  {
    assert [p][..0] == [];
  }

  lemma {:induction false} ChainBalance(ch: Chain<Operand>, lookup: map<string, nat>, n: nat, act: nat, depth: int)
    ensures depth + Balance(ChainPieces(Translate(ch, lookup, n, act))) == ChainDepth(ch, depth)
  {
    hide Balance, CondPieces;
    CondBalance(TranslateCond(ch.cond, lookup, n, act));
    if ch.Join? {
      var m := n + |TestVars(ch.cond.test)|;
      var first := CondPieces(TranslateCond(ch.cond, lookup, n, act));
      var join, rest := LinkPieces(ch.link), ChainPieces(Translate(ch.rest, lookup, m, act));
      BalanceConcat(first + join, rest);
      BalanceConcat(first, join);
      BalanceFlat(join);
      ChainBalance(ch.rest, lookup, m, act,
                   depth + (if ch.cond.open then 1 else 0) - if ch.cond.close then 1 else 0);
    }
  }

  lemma {:induction false} TablesFlat(ts: seq<string>)
    ensures Flat(TablesPieces(ts))
  {
    if |ts| > 1 {
      TablesFlat(ts[1..]);
    }
  }

  lemma {:induction false} ItemsFlat(items: seq<Item>)
    ensures Flat(ItemsPieces(items))
  {
    if |items| > 1 {
      ItemsFlat(items[1..]);
    }
  }

  lemma {:induction false} SortsFlat(ss: seq<Sort>)
    ensures Flat(SortsPieces(ss))
  {
    if |ss| > 1 {
      SortsFlat(ss[1..]);
    }
  }

  lemma {:induction false} SettingsFlat(ss: seq<Setting>)
    ensures Flat(SettingsPieces(ss))
  {
    if |ss| > 1 {
      SettingsFlat(ss[1..]);
    }
  }

  lemma {:induction false} ColumnsFlat(cs: seq<string>)
    ensures Flat(ColumnsPieces(cs))
  {
    if |cs| > 1 {
      ColumnsFlat(cs[1..]);
    }
  }

  lemma JoinHeadBalance(j: Joining)
    ensures Balance(JoinHeadPieces(j)) == 1
  {
    var front := [Word(j.text), Word(" JOIN ")] + TablePieces(j.table) + [Word(" ON ")];
    assert JoinHeadPieces(j) == front + [Open];
    BalanceFlat(front);
    BalanceConcat(front, [Open]);
    BalanceOne(Open);
  }

  lemma {:induction false} JoinsBalance(js: seq<Joining>, lookup: map<string, nat>, n: nat, act: nat)
    ensures Balance(JoinsPieces(js, lookup, n, act)) == Unclosed(JoinSites(js, n, act))
  {
    hide Balance, JoinHeadPieces, ChainPieces, Translate, ChainVars;
    BalanceNone();
    if js != [] {
      var m := n + |ChainVars(js[0].on)|;
      var head, on := JoinHeadPieces(js[0]), ChainPieces(Translate(js[0].on, lookup, n, act));
      var close := [Close] + [Word(" ")];
      assert close == [Close, Word(" ")];
      JoinHeadBalance(js[0]);
      ChainBalance(js[0].on, lookup, n, act, 0);
      BalanceConcat(head + on, close);
      BalanceConcat(head, on);
      BalanceConcat([Close], [Word(" ")]);
      BalanceOne(Close);
      BalanceOne(Word(" "));
      JoinsBalance(js[1..], lookup, m, act);
      BalanceConcat(JoinPieces(js[0], lookup, n, act), JoinsPieces(js[1..], lookup, m, act));
      var x := Site(js[0].on, n, act);
      assert ([x] + JoinSites(js[1..], m, act))[1..] == JoinSites(js[1..], m, act);
    }
  }

  lemma ClauseBalance(text: string, w: Option<Chain<Operand>>, lookup: map<string, nat>, n: nat, act: nat)
    ensures Balance(ClausePieces(text, w, lookup, n, act)) == Unclosed(ClauseSites(w, n, act))
  {
    hide Balance, ChainPieces, Translate;
    BalanceNone();
    if w.Some? {
      BalanceConcat([Word(text)], ChainPieces(Translate(w.value, lookup, n, act)));
      BalanceOne(Word(text));
      ChainBalance(w.value, lookup, n, act, 0);
    }
  }

  lemma BodyBalance(b: Body, lookup: map<string, nat>, n: nat, act: nat)
    ensures Balance(BodyPieces(b, lookup, n, act)) == Unclosed(BodySites(b, n, act))
  {
    hide Balance, TablesPieces, JoinsPieces, ClausePieces, JoinSites, ClauseSites, JoinsVars, Unclosed;
    var m := n + |JoinsVars(b.from.joins)|;
    var tables, joins := TablesPieces(b.from.tables), JoinsPieces(b.from.joins, lookup, n, act);
    TablesFlat(b.from.tables);
    BalanceFlat(tables);
    BalanceOne(Word("FROM "));
    JoinsBalance(b.from.joins, lookup, n, act);
    ClauseBalance(" WHERE ", b.where, lookup, m, act);
    BalanceConcat(tables, joins);
    BalanceConcat([Word("FROM ")], tables + joins);
    BalanceConcat(FromPieces(b.from, lookup, n, act), ClausePieces(" WHERE ", b.where, lookup, m, act));
    UnclosedConcat(JoinSites(b.from.joins, n, act), ClauseSites(b.where, m, act));
  }

  lemma SelectBalance(q: Query, lookup: map<string, nat>, act: nat)
    ensures Balance(SelectBodyPieces(q, lookup, act)) == Unclosed(SelectSites(q, act))
  {
    hide Balance, BodyPieces, ClausePieces, ItemsPieces, SortsPieces, BodySites, ClauseSites, BodyVars, Unclosed;
    var m := |BodyVars(q.body)|;
    var body, having := BodyPieces(q.body, lookup, 0, act), ClausePieces(" HAVING ", q.having, lookup, m, act);
    ItemsFlat(q.items);
    BalanceFlat(FieldsPieces(q.items));
    SortsFlat(q.order);
    BalanceFlat(OrderPieces(q.order));
    BodyBalance(q.body, lookup, 0, act);
    ClauseBalance(" HAVING ", q.having, lookup, m, act);
    BalanceConcat(having, OrderPieces(q.order));
    BalanceConcat(body, TrailPieces(q, lookup, m, act));
    BalanceConcat(FieldsPieces(q.items), ClausesPieces(q, lookup, act));
    UnclosedConcat(BodySites(q.body, 0, act), ClauseSites(q.having, m, act));
  }

  lemma {:induction false} QueryBalance(q: Query, lookup: map<string, nat>, act: nat)
    ensures Balance(QueryPieces(q, lookup, act)) == Unclosed(QuerySites(q, act))
    decreases q
  {
    hide Balance, SelectBodyPieces, SelectSites, Unclosed;
    var head, body, more := SelectHeadPieces(q.distinct), SelectBodyPieces(q, lookup, act),
      UnionPieces(q.union, lookup, act);
    BalanceFlat(head);
    SelectBalance(q, lookup, act);
    BalanceConcat(head, body + more);
    BalanceConcat(body, more);
    UnclosedConcat(SelectSites(q, act), UnionSites(q.union, act));
    BalanceOne(Word(" FOR BROWSE ACCESS "));
    if q.union.Some? {
      var text := QueryPieces(q.union.value, lookup, act + 1);
      QueryBalance(q.union.value, lookup, act + 1);
      BalanceConcat([Word(" FOR BROWSE ACCESS ")], [Word(" UNION ")] + text);
      BalanceConcat([Word(" UNION ")], text);
      BalanceOne(Word(" UNION "));
    } else {
      UnclosedNone();
      assert more == [Word(" FOR BROWSE ACCESS ")];
    }
  }

  lemma UnclosedNone()
    ensures Unclosed([]) == 0
  {
  }

  lemma InsertBalance(i: Insertion)
    ensures Balance(InsertPieces(i)) == 0
  {
    hide Balance, ColumnsPieces, ValuesPieces;
    var into := [Word(" INSERT INTO ")] + DefinePieces(i.table);
    var columns, values := ColumnsPieces(i.columns), ValuesPieces(i.values);
    BalanceFlat(into);
    ColumnsFlat(i.columns);
    BalanceFlat(columns);
    ValuesFlat(i.values);
    BalanceFlat(values);
    BalanceOne(Open);
    BalanceOne(Close);
    BalanceOne(Word(" VALUES "));
    BalanceConcat(into, [Open]);
    BalanceConcat([Close], [Word(" VALUES ")] + [Open]);
    BalanceConcat([Word(" VALUES ")], [Open]);
    assert [Close] + ([Word(" VALUES ")] + [Open]) == [Close, Word(" VALUES "), Open];
    BalanceConcat(values, [Close]);
    BalanceConcat([Close, Word(" VALUES "), Open], values + [Close]);
    BalanceConcat(columns, InsertTailPieces(i.values));
    BalanceConcat(InsertHeadPieces(i.table), columns + InsertTailPieces(i.values));
  }

  /** The '(' that the text of a statement leaves open are those its chains leave open. */
  lemma StatementBalance(s: Statement, lookup: map<string, nat>)
    ensures Balance(StatementPieces(s, lookup)) == Unclosed(StatementSites(s))
  {
    hide Balance, Unclosed, QueryPieces, QuerySites, BodyPieces, BodySites, ClausePieces, ClauseSites, SettingsPieces;
    hide InsertPieces;
    match s
    case Select(q) => QueryBalance(q, lookup, 1);
    case Delete(b) =>
      BodyBalance(b, lookup, 0, 0);
      BalanceOne(Word("DELETE "));
      BalanceConcat([Word("DELETE ")], BodyPieces(b, lookup, 0, 0));
    case Update(u) =>
      var where := ClausePieces(" WHERE ", u.where, lookup, 0, 0);
      BalanceFlat(UpdateHeadPieces(u.table));
      SettingsFlat(u.settings);
      BalanceFlat(SettingsPieces(u.settings));
      ClauseBalance(" WHERE ", u.where, lookup, 0, 0);
      BalanceConcat(SettingsPieces(u.settings), where);
      BalanceConcat(UpdateHeadPieces(u.table), UpdateTailPieces(u, lookup, 0));
    case Insert(i) =>
      InsertBalance(i);
      UnclosedNone();
  }
}
