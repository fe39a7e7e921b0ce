/**
  What the accounts kept by the translator mean for a translated statement: which
  placeholder is bound to which index, and what a translated condition selects.
 */
module SqlLaws {

  import opened Common
  import opened SqlLex
  import opened SqlOutput
  import opened SqlChain
  import opened SqlStatement
  import opened SqlReadBack
  import opened SqlSites
  import SqlRewrite
  import opened SqlTranslator

  // ---------------------------------------------------------------- one counter

  predicate OneActivation(hosts: seq<Host>) {
    forall j, k :: 0 <= j < |hosts| && 0 <= k < |hosts| ==> hosts[j].act == hosts[k].act
  }

  lemma {:induction false} PlacedAll(hosts: seq<Host>, act: nat)
    requires forall k :: 0 <= k < |hosts| ==> hosts[k].act == act
    ensures Placed(hosts, act) == |hosts|
  {
    if hosts != [] {
      PlacedAll(hosts[..|hosts| - 1], act);
    }
  }

  /** The k-th placeholder carries index k, for every k, exactly when no two of
      them come from different SELECT activations: each activation counts from 0. */
  lemma InOrderIff(hosts: seq<Host>)
    requires Numbered(hosts)
    ensures InOrder(hosts) <==> OneActivation(hosts)
  {
    if OneActivation(hosts) {
      forall k | 0 <= k < |hosts|
        ensures hosts[k].index == k
      {
        PlacedAll(hosts[..k], hosts[k].act);
      }
    }
    if InOrder(hosts) {
      forall k | 0 <= k < |hosts|
        ensures hosts[k].act == hosts[0].act
      {
        SameAsFirst(hosts, k);
      }
    }
  }

  lemma {:induction false} PlacedFewer(hosts: seq<Host>, act: nat)
    ensures Placed(hosts, act) <= |hosts|
    ensures Placed(hosts, act) == |hosts| ==> forall k :: 0 <= k < |hosts| ==> hosts[k].act == act
  {
    if hosts != [] {
      PlacedFewer(hosts[..|hosts| - 1], act);
    }
  }

  lemma SameAsFirst(hosts: seq<Host>, k: nat)
    requires Numbered(hosts) && InOrder(hosts) && k < |hosts|
    ensures hosts[k].act == hosts[0].act
  {
    PlacedFewer(hosts[..k], hosts[k].act);
    if k > 0 {
      assert hosts[..k][0].act == hosts[k].act;
    }
  }

  /** The first placeholder of an activation. */
  lemma {:induction false} FirstOf(hosts: seq<Host>, act: nat) returns (k: nat)
    requires Numbered(hosts) && Placed(hosts, act) > 0
    ensures k < |hosts| && hosts[k].act == act && hosts[k].index == 0
  {
    var n := |hosts| - 1;
    if Placed(hosts[..n], act) == 0 {
      k := n;
    } else {
      assert forall j :: 0 <= j < n ==> hosts[..n][..j] == hosts[..j];
      k := FirstOf(hosts[..n], act);
    }
  }

  /** Placeholders from two activations always collide: two of them are bound to
      index 0. */
  lemma ActivationsCollide(hosts: seq<Host>)
    requires Numbered(hosts) && !OneActivation(hosts)
    ensures exists j, k :: 0 <= j < |hosts| && 0 <= k < |hosts| && j != k && hosts[j].index == hosts[k].index == 0
  {
    var j, k :| 0 <= j < |hosts| && 0 <= k < |hosts| && hosts[j].act != hosts[k].act;
    PlacedSome(hosts, j);
    PlacedSome(hosts, k);
    var j' := FirstOf(hosts, hosts[j].act);
    var k' := FirstOf(hosts, hosts[k].act);
  }

  lemma {:induction false} PlacedSome(hosts: seq<Host>, k: nat)
    requires k < |hosts|
    ensures Placed(hosts, hosts[k].act) > 0
  {
    if k < |hosts| - 1 {
      PlacedSome(hosts[..|hosts| - 1], k);
    }
  }

  // ---------------------------------------------------------------- slots

  /** A strictly increasing prefix of indices, then free slots. */
  predicate IncreasingThenFree(idxs: seq<int>) {
    exists m :: 0 <= m <= |idxs| && IncreasingTo(idxs, m)
  }

  predicate IncreasingTo(idxs: seq<int>, m: nat)
    requires m <= |idxs|
  {
    && (forall x :: 0 <= x < m ==> idxs[x] >= 0)
    && (forall x, y :: 0 <= x < y < m ==> idxs[x] < idxs[y])
    && (forall x :: m <= x < |idxs| ==> idxs[x] == -1)
  }

  /** s is increasing and lists positions of placeholders of parameter i only. */
  predicate Positions(s: seq<int>, hosts: seq<Host>, i: nat) {
    && (forall x, y :: 0 <= x < y < |s| ==> s[x] < s[y])
    && (forall x :: 0 <= x < |s| ==> 0 <= s[x] < |hosts| && hosts[s[x]].param == i)
  }

  /** s misses no placeholder of parameter i. */
  predicate Complete(s: seq<int>, hosts: seq<Host>, i: nat) {
    forall k :: 0 <= k < |hosts| && hosts[k].param == i ==> k in s
  }

  lemma PositionsSnoc(s: seq<int>, hosts: seq<Host>, h: Host, i: nat)
    requires Positions(s, hosts, i)
    ensures Positions(if h.param == i then s + [|hosts|] else s, hosts + [h], i)
  {
  }

  lemma CompleteSnoc(s: seq<int>, hosts: seq<Host>, h: Host, i: nat)
    requires Complete(s, hosts, i)
    ensures Complete(if h.param == i then s + [|hosts|] else s, hosts + [h], i)
  {
    var t := if h.param == i then s + [|hosts|] else s;
    forall k | 0 <= k < |hosts| + 1 && (hosts + [h])[k].param == i
      ensures k in t
    {
      if k == |hosts| {
        assert t[|t| - 1] == k;
      } else {
        assert k in s;
      }
    }
  }

  /** With one counter, the indices of a parameter are the positions of its
      placeholders, in increasing order. */
  lemma {:induction false} IndicesArePositions(hosts: seq<Host>, i: nat)
    requires InOrder(hosts)
    ensures Positions(IndicesOf(hosts, i), hosts, i) && Complete(IndicesOf(hosts, i), hosts, i)
  {
    hide Positions, Complete;
    if hosts == [] {
      NoPositions(i);
    } else {
      var n := |hosts| - 1;
      IndicesArePositions(hosts[..n], i);
      PositionsSnoc(IndicesOf(hosts[..n], i), hosts[..n], hosts[n], i);
      CompleteSnoc(IndicesOf(hosts[..n], i), hosts[..n], hosts[n], i);
      assert hosts == hosts[..n] + [hosts[n]] && hosts[n].index == n == |hosts[..n]|;
      IndicesOfSnoc(hosts[..n], hosts[n], i);
      var s := IndicesOf(hosts[..n], i);
      assert IndicesOf(hosts, i) == if hosts[n].param == i then s + [n] else s;
    }
  }

  lemma NoPositions(i: nat)
    ensures Positions(IndicesOf([], i), [], i) && Complete(IndicesOf([], i), [], i)
  {
  }

  /** The k-th placeholder is bound to parameter k.  In a statement whose
      placeholders come from one activation, the indices stored across all
      parameters are exactly 0..n-1, each with the parameter its placeholder names
      and with no other, and every parameter's slots are strictly increasing and
      then free. */
  lemma PlaceholdersAreBound(params: seq<Param>, hosts: seq<Host>, lookup: map<string, nat>)
    requires Numbered(hosts) && AllStored(params, hosts) && Named(params, hosts, lookup)
    requires OneActivation(hosts)
    ensures forall i :: 0 <= i < |params| ==> IncreasingThenFree(params[i].idxs)
    ensures forall k :: 0 <= k < |hosts| ==>
              hosts[k].param < |params| && k in params[hosts[k].param].idxs
              && hosts[k].name == VarName(params[hosts[k].param].name)
    ensures forall i, x :: 0 <= i < |params| && 0 <= x < |params[i].idxs| && params[i].idxs[x] != -1 ==>
              0 <= params[i].idxs[x] < |hosts| && hosts[params[i].idxs[x]].param == i
  {
    InOrderIff(hosts);
    forall i | 0 <= i < |params|
      ensures IncreasingThenFree(params[i].idxs)
      ensures forall k :: 0 <= k < |hosts| && hosts[k].param == i ==> k in params[i].idxs
      ensures forall x :: 0 <= x < |params[i].idxs| && params[i].idxs[x] != -1 ==>
                0 <= params[i].idxs[x] < |hosts| && hosts[params[i].idxs[x]].param == i
    {
      assert Stored(params[i], hosts, i);
      IndicesArePositions(hosts, i);
      var s := IndicesOf(hosts, i);
      assert IncreasingTo(params[i].idxs, |s|);
      forall k | 0 <= k < |hosts| && hosts[k].param == i
        ensures k in params[i].idxs
      {
        var x :| 0 <= x < |s| && s[x] == k;
        assert params[i].idxs[x] == k;
      }
    }
  }

  lemma {:induction false} NoneFrom(hosts: seq<Host>, act: nat)
    requires Placed(hosts, act) == 0
    ensures forall k :: 0 <= k < |hosts| ==> hosts[k].act != act
  {
    if hosts != [] {
      NoneFrom(hosts[..|hosts| - 1], act);
    }
  }

  // ---------------------------------------------------------------- meaning

  /** The host variables hold what the stored indices say: slot by slot, the value
      of the parameter that owns the index. */
  predicate Matches<V(==)>(params: seq<Param>, value: nat -> V, bind: nat -> V) {
    forall i, x :: 0 <= i < |params| && 0 <= x < |params[i].idxs| && params[i].idxs[x] >= 0 ==>
      bind(params[i].idxs[x]) == value(i)
  }

  lemma {:induction false} IndexStored(hosts: seq<Host>, k: nat)
    requires k < |hosts|
    ensures hosts[k].index in IndicesOf(hosts, hosts[k].param)
  {
    var n := |hosts| - 1;
    if k < n {
      IndexStored(hosts[..n], k);
    } else {
      var s := IndicesOf(hosts, hosts[k].param);
      assert s[|s| - 1] == hosts[k].index;
    }
  }

  lemma HostMatches<V>(params: seq<Param>, hosts: seq<Host>, k: nat, value: nat -> V, bind: nat -> V)
    requires AllStored(params, hosts) && Matches(params, value, bind) && k < |hosts|
    ensures bind(hosts[k].index) == value(hosts[k].param)
  {
    var i := hosts[k].param;
    assert Stored(params[i], hosts, i);
    IndexStored(hosts, k);
    var x :| 0 <= x < |IndicesOf(hosts, i)| && IndicesOf(hosts, i)[x] == hosts[k].index;
    assert params[i].idxs[x] == hosts[k].index;
  }

  /** Placeholders that follow each other in the account are bound to the values of
      their variables. */
  lemma HostsBind<V>(
    params: seq<Param>, hosts: seq<Host>, vs: seq<string>, lookup: map<string, nat>, n: nat, act: nat,
    value: nat -> V, env: string -> V, bind: nat -> V)
    requires AllStored(params, hosts) && Matches(params, value, bind)
    requires Part(HostsFor(vs, lookup, n, act), hosts)
    requires forall v :: env(v) == value(ParamOf(lookup, v))
    ensures Binds(vs, n, env, bind)
  {
    hide AllStored, Matches;
    var hs := HostsFor(vs, lookup, n, act);
    var i :| PartAt(hs, hosts, i);
    forall k | 0 <= k < |vs|
      ensures bind(n + k) == env(vs[k])
    {
      assert hosts[i..i + |hs|][k] == hs[k];
      HostMatches(params, hosts, i + k, value, bind);
    }
  }

  /** A translated condition chain means what the source chain means, whenever the
      host variables are filled from the parameters through the indices the
      translator stored. */
  lemma ChainKeepsMeaning<V>(
    x: Site, params: seq<Param>, hosts: seq<Host>, lookup: map<string, nat>,
    sem: Semantics<V>, value: nat -> V, env: string -> V, bind: nat -> V)
    requires Part(SiteHosts(x, lookup), hosts)
    requires AllStored(params, hosts) && Matches(params, value, bind)
    requires forall v :: env(v) == value(ParamOf(lookup, v))
    ensures Holds(Translate(x.chain, lookup, x.n, x.act), sem, (t: Target) => TargetValue(sem, env, bind, t))
         == Holds(x.chain, sem, (o: Operand) => SourceValue(sem, env, o))
  {
    hide Matches, AllStored, Eval, Binds, Translate;
    HostsBind(params, hosts, ChainVars(x.chain), lookup, x.n, x.act, value, env, bind);
    TranslationKeepsMeaning(x.chain, lookup, x.n, x.act, sem, env, bind, [Group(false, true)]);
  }

  /** Every condition of a statement, be it of ON, WHERE or HAVING, stands in the text
      written for it and selects there the rows it selects in the source. */
  lemma StatementKeepsMeaning<V>(
    s: Statement, params: seq<Param>, hosts: seq<Host>, lookup: map<string, nat>, k: nat,
    sem: Semantics<V>, value: nat -> V, env: string -> V, bind: nat -> V)
    requires hosts == StatementHosts(s, lookup) && k < |StatementSites(s)|
    requires AllStored(params, hosts) && Matches(params, value, bind)
    requires forall v :: env(v) == value(ParamOf(lookup, v))
    ensures var x := StatementSites(s)[k];
            && Part(ChainPieces(Translate(x.chain, lookup, x.n, x.act)), StatementPieces(s, lookup))
            && Holds(Translate(x.chain, lookup, x.n, x.act), sem, (t: Target) => TargetValue(sem, env, bind, t))
                 == Holds(x.chain, sem, (o: Operand) => SourceValue(sem, env, o))
  {
    hide Matches, AllStored, Eval, Translate, StatementSites, StatementPieces, StatementHosts, SiteHosts, Part;
    StatementPresent(s, lookup);
    assert Present(StatementSites(s)[k], StatementPieces(s, lookup), hosts, lookup);
    ChainKeepsMeaning(StatementSites(s)[k], params, hosts, lookup, sem, value, env, bind);
  }

  /** The same of the text alone: whatever chain is read from the pieces that a condition
      of a spelled procedure was given, it selects what the source selects. */
  lemma TextKeepsMeaning<V>(
    text: string, p: Procedure, params: seq<Param>, hosts: seq<Host>, lookup: map<string, nat>, k: nat,
    ch: Chain<Target>, sem: Semantics<V>, value: nat -> V, env: string -> V, bind: nat -> V)
    requires SpellsProcedure(text, p)
    requires hosts == StatementHosts(p.statement, lookup) && k < |StatementSites(p.statement)|
    requires AllStored(params, hosts) && Matches(params, value, bind)
    requires forall v :: env(v) == value(ParamOf(lookup, v))
    requires Proper(ch) && ChainPieces(ch) == SitePieces(StatementSites(p.statement)[k], lookup)
    ensures Part(ChainPieces(ch), StatementPieces(p.statement, lookup))
    ensures Holds(ch, sem, (t: Target) => TargetValue(sem, env, bind, t))
         == Holds(StatementSites(p.statement)[k].chain, sem, (o: Operand) => SourceValue(sem, env, o))
  {
    hide Matches, AllStored, Eval, Translate, StatementSites, StatementPieces, StatementHosts, SiteHosts, Part;
    hide SpellsProcedure, Proper, ChainPieces;
    ProcedureReadsBack(text, p, lookup, k, ch);
    StatementKeepsMeaning(p.statement, params, hosts, lookup, k, sem, value, env, bind);
  }

  // ---------------------------------------------------------------- whole procedures

  /** The SELECT and UNION tokens of a text. */
  function HeadsIn(text: string): nat {
    Heads(text, SEMI, 0)
  }

  /** The '(' tokens of a text that can open a condition: those not behind a function
      name, IN, VALUES or CHAR. */
  function OpensIn(text: string): nat {
    Opens(text, SEMI, 0)
  }

  /** The '(' of a text less its ')'. */
  function ParensIn(text: string): int {
    Due(text, INITIAL)
  }

  /** The UNION tokens of a text and its function names: those of AVG, MAX, MIN and SUM,
      or when `all` every one. */
  function RisksIn(text: string, all: bool): nat {
    Risks(text, INITIAL, all)
  }

  lemma {:induction false} StrictRisks(text: string, c: Cursor)
    ensures Risks(text, c, false) <= Risks(text, c, true)
    decreases |text| - c.pos, !c.token.EOS?
  {
    hide Upper, TokenAt, Aggregate;
    if !c.token.EOS? && c.pos <= |text| {
      StrictRisks(text, NextCursor(text, c));
    }
  }

  lemma HostsOfSelect(s: Statement, lookup: map<string, nat>)
    requires s.Select?
    ensures StatementHosts(s, lookup) == QueryHosts(s.query, lookup, 1)
  {
  }

  lemma FromOne(hosts: seq<Host>, acts: nat)
    requires forall k :: 0 <= k < |hosts| ==> hosts[k].act <= acts
    ensures acts == 0 || (acts == 1 && Placed(hosts, 0) == 0) ==> OneActivation(hosts)
  {
    if Placed(hosts, 0) == 0 {
      NoneFrom(hosts, 0);
    }
  }

  lemma AcceptedRewritten(text: string, p: Procedure, lookup: map<string, nat>)
    requires SpellsProcedure(text, p) && Accepted(text, p)
    ensures RenderAll(StatementPieces(p.statement, lookup)) == SqlRewrite.TextPass(text)
  {
    hide ProcedureEnd, StatementRule, Fits, StatementPieces, RenderAll, SqlRewrite.TextPass;
    SqlRewrite.ProcedureRewritten(text, p, lookup);
  }

  /** Translates a procedure.  An accepted SELECT whose text has no other SELECT and no
      UNION, and an accepted DELETE whose text has none, has its placeholders numbered
      in order.  The '(' left over in an accepted text number at most the '(' that
      can open a condition; without UNION, AVG, MAX, MIN, SUM, and in an UPDATE without
      any function, they are just those the text itself leaves open.  A text that spells
      procedure `p` is accepted exactly when nothing follows the statement, its
      condition chains meet the rule for IS and IN and their variables are declared and
      none is used more than ten times; its text is then what its tokens are rewritten to
      one by one, it leaves open what its conditions leave open, and the placeholders of a
      SELECT are in order exactly when at most one SELECT of its UNIONs has any. */
  method TranslateProcedure(text: string, ghost p: Option<Procedure>) returns (ok: bool, kind: Token, t: Translator)
    requires p.Some? ==> SpellsProcedure(text, p.value)
    ensures t.src == text && t.Valid()
    ensures t.pos <= |text| && t.lineno == 1 + Newlines(text[..t.pos])
    ensures ok ==> t.pos == |text| && NeverOverClosed(t.out) && 0 <= Balance(t.out) <= OpensIn(text)
    ensures ok && ((kind.SELECT? && HeadsIn(text) <= 1) || (kind.DELETE? && HeadsIn(text) == 0)) ==>
              && OneActivation(t.hosts) && InOrder(t.hosts)
              && HostsOf(t.out) == t.hosts && UnboundIn(t.out) == 0
    ensures ok && RisksIn(text, kind.UPDATE?) == 0 ==> Balance(t.out) == ParensIn(text)
    ensures AllStored(t.params, t.hosts) && Numbered(t.hosts) && Named(t.params, t.hosts, t.lookup)
    ensures p.Some? ==>
              && (ok <==> Accepted(text, p.value))
              && kind == KindOf(p.value.statement) && t.lookup == LookupOf(p.value.params)
    ensures p.Some? && ok ==>
              && t.out == StatementPieces(p.value.statement, t.lookup)
              && t.hosts == StatementHosts(p.value.statement, t.lookup)
              && Balance(t.out) == Unclosed(StatementSites(p.value.statement))
              && RenderAll(t.out) == SqlRewrite.TextPass(text)
    ensures p.Some? && ok && p.value.statement.Select? ==>
              (InOrder(t.hosts) <==> Using(p.value.statement.query) <= 1)
  {
    hide Balance, HostsOf, UnboundIn, Newlines, InOrder, Named, AllStored, Heads, Opens, NeverOverClosed, Numbered;
    hide SpellsProcedure, Fits, StatementPieces, StatementHosts, LookupOf, OneActivation, Placed, QueryHosts;
    hide Using, Unclosed, StatementSites, Accepted, Due, Risks, RenderAll, SqlRewrite.TextPass;
    t := new Translator(text, RisksIn(text, true) == 0);
    StrictRisks(text, INITIAL);
    ok, kind := t.ParseSQL(p);
    FromOne(t.hosts, t.acts);
    InOrderIff(t.hosts);
    if p.Some? {
      StatementBalance(p.value.statement, t.lookup);
      if ok {
        AcceptedRewritten(text, p.value, t.lookup);
      }
      if p.value.statement.Select? {
        HostsOfSelect(p.value.statement, t.lookup);
        QueryInOrderIff(p.value.statement.query, t.lookup, 1);
      }
    }
  }
}
