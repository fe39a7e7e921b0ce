/**
  The server's call statistics: three arrays of the last 500 calls, written in a
  circle, checked against the log of every call completed since the statistics
  were initialised.
 */
module Stats {

  import opened Common

  const HISTLEN: nat := 500
  const CLOCKS_PER_SEC: int := 1000000

  /** Marks a slot of the arrays that no call has used. */
  const UNUSED: real := -1.0

  datatype Call = Call(time: real, recv: real, send: real)

  /** The numbers of one `<row>` element. */
  datatype Row = Row(calls: nat, longest: real, shortest: real, average: real, averageRecv: real, averageSend: real)

  // ---------------------------------------------------------------- the log

  /** The latest of the first n calls whose number is j modulo the length. */
  function Latest(n: nat, j: nat): (i: nat)
    requires j < n && j < HISTLEN
    ensures i < n && i % HISTLEN == j
    ensures n <= i + HISTLEN
  {
    n - 1 - (n - 1 - j) % HISTLEN
  }

  /** No other of the last HISTLEN calls falls into the slot. */
  lemma LatestOnly(n: nat, j: nat, i: nat)
    requires j < n && j < HISTLEN
    requires i < n && i % HISTLEN == j
    ensures i <= Latest(n, j)
    ensures n <= i + HISTLEN ==> i == Latest(n, j)
  {
  }

  function Kept(n: nat): nat {
    if n < HISTLEN then n else HISTLEN
  }

  /** The calls the arrays still know, oldest first. */
  function Window(log: seq<Call>): (w: seq<Call>)
    ensures |w| == Kept(|log|)
  {
    log[|log| - Kept(|log|)..]
  }

  /** The calls in the order of their slots. */
  function Ring(log: seq<Call>): (r: seq<Call>)
    ensures |r| == Kept(|log|)
  {
    seq(Kept(|log|), j requires 0 <= j < Kept(|log|) => log[Latest(|log|, j)])
  }

  /** The received length that the next call to end is given: its own, or what its
      slot still holds when no call was begun. */
  function NextRecv(log: seq<Call>, open: Option<real>): real {
    if open.Some? then open.value else if |log| >= HISTLEN then log[|log| - HISTLEN].recv else UNUSED
  }

  predicate IsLongest(x: real, log: seq<Call>) {
    && x >= 0.0
    && (forall k :: 0 <= k < |log| ==> log[k].time <= x)
    && (x == 0.0 || exists k :: 0 <= k < |log| && log[k].time == x)
  }

  predicate IsShortest(x: real, log: seq<Call>) {
    && x <= 1000000.0
    && (forall k :: 0 <= k < |log| ==> log[k].time >= x)
    && (x == 1000000.0 || exists k :: 0 <= k < |log| && log[k].time == x)
  }

  // ---------------------------------------------------------------- sums

  function Sum(s: seq<real>): real {
    if s == [] then 0.0 else Sum(s[..|s| - 1]) + s[|s| - 1]
  }

  function Times(calls: seq<Call>): seq<real> {
    seq(|calls|, k requires 0 <= k < |calls| => calls[k].time)
  }

  function Recvs(calls: seq<Call>): seq<real> {
    seq(|calls|, k requires 0 <= k < |calls| => calls[k].recv)
  }

  function Sends(calls: seq<Call>): seq<real> {
    seq(|calls|, k requires 0 <= k < |calls| => calls[k].send)
  }

  lemma {:induction false} SumJoin(a: seq<real>, b: seq<real>)
    ensures Sum(a + b) == Sum(a) + Sum(b)
  {
    if b == [] {
      assert a + b == a;
    } else {
      SumJoin(a, b[..|b| - 1]);
      assert (a + b)[..|a + b| - 1] == a + b[..|b| - 1];
    }
  }

  lemma SumSwap(a: seq<real>, b: seq<real>)
    ensures Sum(a + b) == Sum(b + a)
  {
    SumJoin(a, b);
    SumJoin(b, a);
  }

  lemma {:induction false} SumUpdate(s: seq<real>, k: nat, v: real)
    requires k < |s|
    ensures Sum(s[k := v]) == Sum(s) - s[k] + v
  {
    var last := |s| - 1;
    if k == last {
      assert s[k := v][..last] == s[..last];
    } else {
      SumUpdate(s[..last], k, v);
      assert s[k := v][..last] == s[..last][k := v];
    }
  }

  // ---------------------------------------------------------------- the ring is the window

  /** In slot order the window is cut once and its halves are exchanged. */
  lemma RingIsWindow(log: seq<Call>) returns (newer: seq<Call>, older: seq<Call>)
    ensures Ring(log) == newer + older && Window(log) == older + newer
    ensures |log| >= HISTLEN ==> |newer| == |log| % HISTLEN
  {
    var n := |log|;
    if n < HISTLEN {
      newer, older := log, [];
    } else {
      var cut := n % HISTLEN;
      newer, older := log[n - cut..], log[n - HISTLEN..n - cut];
      forall j | 0 <= j < HISTLEN
        ensures Ring(log)[j] == (newer + older)[j]
      {
        LatestOnly(n, j, if j < cut then n - cut + j else n - HISTLEN + j - cut);
      }
    }
  }

  lemma RingSums(log: seq<Call>)
    ensures Sum(Times(Ring(log))) == Sum(Times(Window(log)))
    ensures Sum(Recvs(Ring(log))) == Sum(Recvs(Window(log)))
    ensures Sum(Sends(Ring(log))) == Sum(Sends(Window(log)))
  {
    hide Sum, Ring, Window;
    var newer, older := RingIsWindow(log);
    assert Times(newer + older) == Times(newer) + Times(older) && Times(older + newer) == Times(older) + Times(newer);
    assert Recvs(newer + older) == Recvs(newer) + Recvs(older) && Recvs(older + newer) == Recvs(older) + Recvs(newer);
    assert Sends(newer + older) == Sends(newer) + Sends(older) && Sends(older + newer) == Sends(older) + Sends(newer);
    SumSwap(Times(newer), Times(older));
    SumSwap(Recvs(newer), Recvs(older));
    SumSwap(Sends(newer), Sends(older));
  }

  // ---------------------------------------------------------------- the report

  /** A call that took exactly -1 second cannot be told from an unused slot. */
  predicate Marked(calls: seq<Call>) {
    exists k :: 0 <= k < |calls| && calls[k].time == UNUSED
  }

  /** How many slots are read before the first that looks unused. */
  function Read(calls: seq<Call>): (x: nat)
    ensures x <= |calls|
    ensures forall k :: 0 <= k < x ==> calls[k].time != UNUSED
    ensures x < |calls| ==> calls[x].time == UNUSED
  {
    if calls == [] || calls[0].time == UNUSED then 0 else 1 + Read(calls[1..])
  }

  /** The slots as they stand while a call of length `open` is being served. */
  function Slots(log: seq<Call>, open: Option<real>): (s: seq<Call>)
    ensures |s| == Kept(|log|)
  {
    var ring := Ring(log);
    if open.Some? && |log| >= HISTLEN then
      ring[|log| % HISTLEN := ring[|log| % HISTLEN].(recv := open.value)]
    else ring
  }

  function Mean(s: seq<real>): real {
    if s == [] then 0.0 else Sum(s) / |s| as real
  }

  /** The row as it reads when the statistics mean what they say. */
  function Report(log: seq<Call>, longest: real, shortest: real): Row {
    var w := Window(log);
    Row(|log|, longest, shortest, Mean(Times(w)), Mean(Recvs(w)), Mean(Sends(w)))
  }

  /** The row the arrays give. */
  function Reported(log: seq<Call>, open: Option<real>, longest: real, shortest: real): Row {
    var s := Slots(log, open);
    var used := s[..Read(s)];
    Row(|log|, longest, shortest, Mean(Times(used)), Mean(Recvs(used)), Mean(Sends(used)))
  }

  lemma SlotsUnmarked(log: seq<Call>, open: Option<real>)
    ensures Read(Slots(log, open)) == Kept(|log|) <==> !Marked(Window(log))
  {
    var s := Slots(log, open);
    var newer, older := RingIsWindow(log);
    assert forall k :: 0 <= k < |s| ==> s[k].time == Ring(log)[k].time;
    if Marked(Window(log)) {
      var k :| 0 <= k < |Window(log)| && Window(log)[k].time == UNUSED;
      var j := if k < |older| then |newer| + k else k - |older|;
      assert (newer + older)[j] == (older + newer)[k];
      assert s[j].time == UNUSED;
    }
    if Read(s) < |s| {
      var j := Read(s);
      var k := if j < |newer| then |older| + j else j - |newer|;
      assert (older + newer)[k] == (newer + older)[j];
      assert Window(log)[k].time == UNUSED;
    }
  }

  lemma SlotSums(log: seq<Call>, open: Option<real>)
    ensures Sum(Times(Slots(log, open))) == Sum(Times(Window(log)))
    ensures Sum(Sends(Slots(log, open))) == Sum(Sends(Window(log)))
    ensures Sum(Recvs(Slots(log, open))) == Sum(Recvs(Window(log)))
      + if open.Some? && |log| >= HISTLEN then open.value - log[|log| - HISTLEN].recv else 0.0
  {
    hide Sum;
    RingSums(log);
    var s, ring := Slots(log, open), Ring(log);
    assert Times(s) == Times(ring);
    assert Sends(s) == Sends(ring);
    if open.Some? && |log| >= HISTLEN {
      var k := |log| % HISTLEN;
      LatestOnly(|log|, k, |log| - HISTLEN);
      assert Recvs(s) == Recvs(ring)[k := open.value];
      SumUpdate(Recvs(ring), k, open.value);
    }
  }

  lemma SameQuotient(a: real, b: real, n: real)
    requires n > 0.0
    ensures a / n == b / n <==> a == b
  {
  }

  /** The row reports the last HISTLEN calls exactly when none of them looks unused
      and, once the arrays are full, no open call of another length has already
      overwritten the received length of the oldest of them. */
  lemma ReportedIff(log: seq<Call>, open: Option<real>, longest: real, shortest: real)
    requires !Marked(Window(log))
    ensures Reported(log, open, longest, shortest) == Report(log, longest, shortest)
      <==> (open.None? || |log| < HISTLEN || open.value == log[|log| - HISTLEN].recv)
  {
    hide Sum, Mean, Times, Recvs, Sends, Slots, Window, Marked;
    var s := Slots(log, open);
    SlotsUnmarked(log, open);
    SlotSums(log, open);
    assert s[..Read(s)] == s;
    var w := Window(log);
    MeanIs(s);
    MeanIs(w);
    if w != [] {
      SameQuotient(Sum(Recvs(s)), Sum(Recvs(w)), |w| as real);
    }
  }

  /** 500 one-second calls that received nothing, and a request of length 1 asking for
      the statistics: the row counts that length among the 500. */
  lemma SpoiledMean()
    ensures var log := seq(500, _ => Call(1.0, 0.0, 0.0));
      Reported(log, Some(1.0), 1.0, 1.0) != Report(log, 1.0, 1.0)
  {
    var log := seq(HISTLEN, _ => Call(1.0, 0.0, 0.0));
    assert !Marked(Window(log));
    assert log[|log| - HISTLEN].recv == 0.0;
    ReportedIff(log, Some(1.0), 1.0, 1.0);
  }

  /** The average is the number that, taken once for every call, makes up the sum, and lies
      between bounds that all numbers keep. */
  lemma {:induction false} SumBounds(s: seq<real>, low: real, high: real)
    requires forall k :: 0 <= k < |s| ==> low <= s[k] <= high
    ensures low * |s| as real <= Sum(s) <= high * |s| as real
  {
    if s != [] {
      SumBounds(s[..|s| - 1], low, high);
    }
  }

  lemma MeanBounds(s: seq<real>, low: real, high: real)
    requires s != [] && forall k :: 0 <= k < |s| ==> low <= s[k] <= high
    ensures Mean(s) * |s| as real == Sum(s) && low <= Mean(s) <= high
  {
    SumBounds(s, low, high);
    assert Mean(s) == Sum(s) / |s| as real;
  }

  /** The row after two calls. */
  lemma TwoCalls()
    ensures Reported([Call(1.0, 10.0, 100.0), Call(3.0, 20.0, 50.0)], None, 3.0, 1.0)
         == Row(2, 3.0, 1.0, 2.0, 15.0, 75.0)
  {
    hide Sum;
    var log := [Call(1.0, 10.0, 100.0), Call(3.0, 20.0, 50.0)];
    ReportedIff(log, None, 3.0, 1.0);
    assert Window(log) == log;
    SumTwo(1.0, 3.0);
    SumTwo(10.0, 20.0);
    SumTwo(100.0, 50.0);
    assert Times(log) == [1.0, 3.0] && Recvs(log) == [10.0, 20.0] && Sends(log) == [100.0, 50.0];
  }

  lemma SumTwo(a: real, b: real)
    ensures Sum([a, b]) == a + b
  {
    var s, t := [a, b], [a];
    assert s[..|s| - 1] == t && t[..|t| - 1] == [];
    assert Sum(t) == a;
  }

  // ---------------------------------------------------------------- the arrays

  class Statistics {
    var start: int
    var calls: nat
    const hist: array<real>
    const recvlen: array<real>
    const sendlen: array<real>
    var shortest: real
    var longest: real
    ghost var log: seq<Call>
    ghost var open: Option<real>

    ghost predicate Valid()
      reads this, hist, recvlen, sendlen
    {
      && Laid()
      && calls == |log|
      && IsLongest(longest, log)
      && IsShortest(shortest, log)
      && forall j :: 0 <= j < HISTLEN ==> Slot(j)
    }

    predicate Laid() {
      && hist.Length == recvlen.Length == sendlen.Length == HISTLEN
      && hist != recvlen && hist != sendlen && recvlen != sendlen
    }

    /** Slot j holds the latest call of its class, or nothing; the slot the next call
        will use may already hold the length that call received. */
    ghost predicate Slot(j: nat)
      requires Laid() && j < HISTLEN
      reads this, hist, recvlen, sendlen
    {
      && hist[j] == (if j < |log| then log[Latest(|log|, j)].time else UNUSED)
      && sendlen[j] == (if j < |log| then log[Latest(|log|, j)].send else UNUSED)
      && recvlen[j] == (if open.Some? && j == |log| % HISTLEN then open.value
                        else if j < |log| then log[Latest(|log|, j)].recv else UNUSED)
    }

    /** The static storage, all zero. */
    constructor ()
      ensures Laid() && fresh(hist) && fresh(recvlen) && fresh(sendlen)
    {
      hist := new real[HISTLEN](_ => 0.0);
      recvlen := new real[HISTLEN](_ => 0.0);
      sendlen := new real[HISTLEN](_ => 0.0);
      start, calls, shortest, longest := 0, 0, 0.0, 0.0;
    }

    method Init()
      requires Laid()
      modifies this, hist, recvlen, sendlen
      ensures Valid() && log == [] && open == None
    {
      calls := 0;
      shortest := 1000000.0;
      longest := 0.0;
      log, open := [], None;
      for x := 0 to HISTLEN
        invariant calls == 0 && shortest == 1000000.0 && longest == 0.0 && log == [] && open == None
        invariant forall j :: 0 <= j < x ==> hist[j] == recvlen[j] == sendlen[j] == UNUSED
      {
        hist[x] := UNUSED;
        recvlen[x] := UNUSED;
        sendlen[x] := UNUSED;
      }
    }

    method BeginCall(received: int, now: int)
      requires Valid()
      modifies this, recvlen
      ensures Valid() && log == old(log) && open == Some(received as real) && start == now
      ensures longest == old(longest) && shortest == old(shortest)
    {
      start := now;
      recvlen[calls % HISTLEN] := received as real;
      open := Some(received as real);
      forall j | 0 <= j < HISTLEN
        ensures Slot(j)
      {
        assert old(Slot(j));
      }
    }

    lemma NextSlot()
      requires Valid()
      ensures recvlen[calls % HISTLEN] == NextRecv(log, open)
    {
      assert Slot(calls % HISTLEN);
      if |log| >= HISTLEN {
        LatestOnly(|log|, |log| % HISTLEN, |log| - HISTLEN);
      }
    }

    method EndCall(sent: int, now: int)
      requires Valid()
      modifies this, hist, sendlen
      ensures Valid() && open == None
      ensures log == old(log) + [Call(
                (now - old(start)) as real / CLOCKS_PER_SEC as real, NextRecv(old(log), old(open)), sent as real)]
    {
      hide IsLongest, IsShortest, Latest, NextRecv;
      NextSlot();
      var ticks := (now - start) as real / CLOCKS_PER_SEC as real;
      sendlen[calls % HISTLEN] := sent as real;
      hist[calls % HISTLEN] := ticks;
      calls := calls + 1;
      if ticks < shortest {
        shortest := ticks;
      }
      if ticks > longest {
        longest := ticks;
      }
      log, open := log + [Call(ticks, NextRecv(log, open), sent as real)], None;
      KeepExtremes(old(log), log, ticks, old(longest), old(shortest));
      forall j | 0 <= j < HISTLEN
        ensures Slot(j)
      {
        assert old(Slot(j));
        if j <= old(|log|) {
          NextLatest(old(|log|), j);
        }
      }
    }

    method WriteRecord() returns (row: Row)
      requires Valid()
      ensures row == Reported(log, open, longest, shortest)
    {
      hide Sum, Times, Recvs, Sends, Slots, Latest, Mean;
      var avg, avgrecv, avgsend := 0.0, 0.0, 0.0;
      var x := 0;
      ghost var s := Slots(log, open);
      SumNone(s);
      while x < HISTLEN
        invariant 0 <= x <= |s|
        invariant forall k :: 0 <= k < x ==> s[k].time != UNUSED
        invariant avg == Sum(Times(s[..x])) && avgrecv == Sum(Recvs(s[..x])) && avgsend == Sum(Sends(s[..x]))
      {
        assert Slot(x);
        if hist[x] == UNUSED {
          break;
        }
        SlotAt(log, open, x);
        SumNext(s, x);
        avg := avg + hist[x];
        avgrecv := avgrecv + recvlen[x];
        avgsend := avgsend + sendlen[x];
        x := x + 1;
      }
      var average := if avg != 0.0 && x != 0 then avg / x as real else 0.0;
      if x > 0 {
        row := Row(calls, longest, shortest, average, avgrecv / x as real, avgsend / x as real);
      } else {
        row := Row(calls, longest, shortest, average, 0.0, 0.0);
      }
      if x < |s| {
        SlotAt(log, open, x);
        assert Slot(x);
      }
      ReadIs(s, x);
      MeanIs(s[..x]);
    }
  }

  lemma SlotAt(log: seq<Call>, open: Option<real>, x: nat)
    requires x < Kept(|log|)
    ensures Slots(log, open)[x].time == log[Latest(|log|, x)].time
    ensures Slots(log, open)[x].send == log[Latest(|log|, x)].send
    ensures Slots(log, open)[x].recv
      == if open.Some? && x == |log| % HISTLEN then open.value else log[Latest(|log|, x)].recv
  {
  }

  lemma ReadIs(calls: seq<Call>, x: nat)
    requires x <= |calls|
    requires forall k :: 0 <= k < x ==> calls[k].time != UNUSED
    requires x < |calls| ==> calls[x].time == UNUSED
    ensures Read(calls) == x
  {
  }

  lemma MeanIs(calls: seq<Call>)
    ensures Mean(Times(calls)) == (if calls == [] then 0.0 else Sum(Times(calls)) / |calls| as real)
    ensures Mean(Recvs(calls)) == (if calls == [] then 0.0 else Sum(Recvs(calls)) / |calls| as real)
    ensures Mean(Sends(calls)) == (if calls == [] then 0.0 else Sum(Sends(calls)) / |calls| as real)
  {
  }

  lemma SumNone(s: seq<Call>)
    ensures Sum(Times(s[..0])) == Sum(Recvs(s[..0])) == Sum(Sends(s[..0])) == 0.0
  {
  }

  lemma SumNext(s: seq<Call>, x: nat)
    requires x < |s|
    ensures Sum(Times(s[..x + 1])) == Sum(Times(s[..x])) + s[x].time
    ensures Sum(Recvs(s[..x + 1])) == Sum(Recvs(s[..x])) + s[x].recv
    ensures Sum(Sends(s[..x + 1])) == Sum(Sends(s[..x])) + s[x].send
  {
    assert Times(s[..x + 1])[..x] == Times(s[..x]);
    assert Recvs(s[..x + 1])[..x] == Recvs(s[..x]);
    assert Sends(s[..x + 1])[..x] == Sends(s[..x]);
  }

  lemma SameRemainder(i: nat)
    ensures (i + HISTLEN) % HISTLEN == i % HISTLEN
  {
  }

  /** A call of another class than the next one's is less than HISTLEN calls back. */
  lemma SameClass(n: nat, j: nat)
    requires j < HISTLEN && j <= n && j != n % HISTLEN
    ensures j < n && n < Latest(n, j) + HISTLEN
  {
    SameRemainder(Latest(n, j));
  }

  /** One more call takes over its own slot and leaves every other. */
  lemma NextLatest(n: nat, j: nat)
    requires j < HISTLEN && j <= n
    ensures Latest(n + 1, j) == if j == n % HISTLEN then n else Latest(n, j)
  {
    hide Latest;
    if j == n % HISTLEN {
      LatestOnly(n + 1, j, n);
    } else {
      SameClass(n, j);
      LatestOnly(n + 1, j, Latest(n, j));
    }
  }

  lemma KeepExtremes(old': seq<Call>, log: seq<Call>, ticks: real, longest: real, shortest: real)
    requires |log| == |old'| + 1 && log[..|old'|] == old' && log[|old'|].time == ticks
    requires IsLongest(longest, old') && IsShortest(shortest, old')
    ensures IsLongest(if ticks > longest then ticks else longest, log)
    ensures IsShortest(if ticks < shortest then ticks else shortest, log)
  {
  }
}
