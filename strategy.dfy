/**
 * The strategy core (src/strategy/core.py): which feeds start, the startup gate that waits
 * for feed confirmation, and the primary loop that, once the gate opens, ticks forever:
 * sleep, generate quotes, hand them to the order manager. Shared flags are read as a
 * sequence of snapshots, one per check; the quote generator and the order manager are black
 * boxes whose outcome per tick is given.
 */
module Strategy {
  import opened Maybe
  import opened Seqs

  /** The value of `primary_data_feed` that adds the Binance feed. */
  const Binance: string := "BINANCE"

  datatype Feed = BybitMarket | BybitPrivate | BinanceMarket

  /** `start_feeds`: the feed tasks it creates, in creation order. */
  function StartFeeds(primary: string): (tasks: seq<Feed>)
    ensures |tasks| == (if primary == Binance then 3 else 2)
    ensures tasks[0] == BybitMarket && tasks[1] == BybitPrivate
    ensures BinanceMarket in tasks <==> primary == Binance
  {
    [BybitMarket, BybitPrivate] + (if primary == Binance then [BinanceMarket] else [])
  }

  /** The shared connection flags as one check reads them. */
  datatype Flags = Flags(bybitConnected: bool, binanceConnected: bool)

  /** The gate's exit condition: Bybit connected and, with Binance as primary, Binance too. */
  predicate Ready(primary: string, f: Flags)
  {
    f.bybitConnected && (primary == Binance ==> f.binanceConnected)
  }

  /** The gate always needs the Bybit feed; it needs the Binance feed only when that is primary. */
  lemma ReadyCondition(primary: string, f: Flags)
    ensures Ready(primary, f) ==> f.bybitConnected
    ensures primary != Binance ==> (Ready(primary, f) <==> f.bybitConnected)
    ensures primary == Binance ==> (Ready(primary, f) <==> f.bybitConnected && f.binanceConnected)
  {
  }

  // ---------------------------------------------------------------------------------------
  // The startup gate as a two-state machine

  datatype Phase = AwaitingFeeds | Running

  function Step(primary: string, p: Phase, f: Flags): Phase
  {
    if p == Running || Ready(primary, f) then Running else AwaitingFeeds
  }

  /** The phase after observing `snaps`, starting from `p`. */
  function PhaseAfter(primary: string, p: Phase, snaps: seq<Flags>): Phase
    decreases |snaps|
  {
    if snaps == [] then p else PhaseAfter(primary, Step(primary, p, snaps[0]), snaps[1..])
  }

  /** Running is final: no snapshot takes the strategy back to waiting. */
  lemma {:induction false} RunningIsFinal(primary: string, snaps: seq<Flags>)
    ensures PhaseAfter(primary, Running, snaps) == Running
    decreases |snaps|
  {
    if snaps != [] {
      RunningIsFinal(primary, snaps[1..]);
    }
  }

  /** The strategy is running after `snaps` exactly when one of them satisfied the exit condition. */
  lemma {:induction false} RunningIffSomeReady(primary: string, snaps: seq<Flags>)
    ensures PhaseAfter(primary, AwaitingFeeds, snaps) == Running <==>
      exists k :: 0 <= k < |snaps| && Ready(primary, snaps[k])
    decreases |snaps|
  {
    if snaps != [] {
      if Ready(primary, snaps[0]) {
        RunningIsFinal(primary, snaps[1..]);
      } else {
        RunningIffSomeReady(primary, snaps[1..]);
        if exists k :: 0 <= k < |snaps| && Ready(primary, snaps[k]) {
          var k :| 0 <= k < |snaps| && Ready(primary, snaps[k]);
          assert snaps[1..][k - 1] == snaps[k];
        }
        if exists k :: 0 <= k < |snaps[1..]| && Ready(primary, snaps[1..][k]) {
          var k :| 0 <= k < |snaps[1..]| && Ready(primary, snaps[1..][k]);
          assert snaps[k + 1] == snaps[1..][k];
        }
      }
    }
  }

  /** Two snapshot sequences that agree on the Bybit flag, with a primary other than Binance. */
  predicate SameBybitFlags(a: seq<Flags>, b: seq<Flags>)
  {
    |a| == |b| && forall k :: 0 <= k < |a| ==> a[k].bybitConnected == b[k].bybitConnected
  }

  /** When Binance is not the primary feed, its flag has no influence on the gate. */
  lemma {:induction false} BinanceFlagIgnored(primary: string, a: seq<Flags>, b: seq<Flags>, p: Phase)
    requires primary != Binance
    requires SameBybitFlags(a, b)
    ensures PhaseAfter(primary, p, a) == PhaseAfter(primary, p, b)
    ensures Checked(primary, a) == Checked(primary, b)
    decreases |a|
  {
    if a != [] {
      assert SameBybitFlags(a[1..], b[1..]) by {
        forall k | 0 <= k < |a[1..]| ensures a[1..][k].bybitConnected == b[1..][k].bybitConnected {
          assert a[1..][k] == a[k + 1] && b[1..][k] == b[k + 1];
        }
      }
      BinanceFlagIgnored(primary, a[1..], b[1..], Step(primary, p, a[0]));
    }
  }

  // ---------------------------------------------------------------------------------------
  // Traces

  datatype Quote = Quote(side: string, price: int, qty: int)

  /** What the strategy does, in order. */
  datatype Action =
    | Sleep(seconds: nat)
    | Check(flags: Flags)
    | Announce(text: string)
    | Generate
    | RunOms(quotes: seq<Quote>, spread: int)

  const StartingFeeds: string := "Starting data feeds..."
  const StartingStrategy: string := "Starting strategy..."

  /** The number of checks the gate makes over `snaps`: up to and including the first that passes. */
  function Checked(primary: string, snaps: seq<Flags>): (n: nat)
    ensures n <= |snaps|
    ensures forall j :: 0 <= j < n - 1 ==> !Ready(primary, snaps[j])
    ensures n < |snaps| ==> n > 0 && Ready(primary, snaps[n - 1])
    decreases |snaps|
  {
    if snaps == [] then 0
    else if Ready(primary, snaps[0]) then 1
    else 1 + Checked(primary, snaps[1..])
  }

  /** One gate iteration: a one-second sleep, then a check of the flags. */
  function CheckBlock(f: Flags): seq<Action>
  {
    [Sleep(1), Check(f)]
  }

  /** The actions of the gate over `snaps`: sleep and check, until a check passes. */
  function GateTrace(primary: string, snaps: seq<Flags>): seq<Action>
  {
    Flatten(MapSeq(snaps[..Checked(primary, snaps)], CheckBlock))
  }

  /** The gate stops at the first snapshot that passes; it ends with a passing check exactly when one exists. */
  lemma CheckedStopsAtFirstReady(primary: string, snaps: seq<Flags>)
    ensures (exists k :: 0 <= k < |snaps| && Ready(primary, snaps[k])) <==>
      Checked(primary, snaps) > 0 && Ready(primary, snaps[Checked(primary, snaps) - 1])
  {
    var n := Checked(primary, snaps);
    if exists k :: 0 <= k < |snaps| && Ready(primary, snaps[k]) {
      var k :| 0 <= k < |snaps| && Ready(primary, snaps[k]);
      if n == |snaps| {
        assert !(k < n - 1);
      }
    }
  }

  /** The gate opens exactly when its last check passes. */
  lemma GateOpensOnLastCheck(primary: string, snaps: seq<Flags>)
    ensures PhaseAfter(primary, AwaitingFeeds, snaps) == Running <==>
      Checked(primary, snaps) > 0 && Ready(primary, snaps[Checked(primary, snaps) - 1])
  {
    RunningIffSomeReady(primary, snaps);
    CheckedStopsAtFirstReady(primary, snaps);
  }

  /** The first n gate iterations: sleeps at even positions, the check of snapshot j at position 2j + 1. */
  lemma {:induction false} CheckBlocksAt(snaps: seq<Flags>, n: nat)
    requires n <= |snaps|
    ensures var t := Flatten(MapSeq(snaps[..n], CheckBlock));
      |t| == 2 * n &&
      forall i :: 0 <= i < |t| ==> t[i] == if i % 2 == 0 then Sleep(1) else Check(snaps[i / 2])
    decreases n
  {
    if n > 0 {
      CheckBlocksAt(snaps, n - 1);
      BlocksSnoc(snaps, n - 1, CheckBlock);
    }
  }

  /**
   * Every check of the gate comes right after a one-second sleep, and only the last check
   * can pass: it passes exactly when the gate opened.
   */
  lemma GateTraceShape(primary: string, snaps: seq<Flags>)
    ensures var t := GateTrace(primary, snaps);
      (forall i :: 0 <= i < |t| && t[i].Check? ==> 0 < i && t[i - 1] == Sleep(1)) &&
      (forall i :: 0 <= i < |t| && t[i].Check? ==>
        (Ready(primary, t[i].flags) <==> i == |t| - 1 && PhaseAfter(primary, AwaitingFeeds, snaps) == Running))
  {
    var n := Checked(primary, snaps);
    CheckBlocksAt(snaps, n);
    GateOpensOnLastCheck(primary, snaps);
    var t := GateTrace(primary, snaps);
    forall i | 0 <= i < |t| && t[i].Check?
      ensures 0 < i && t[i - 1] == Sleep(1)
      ensures Ready(primary, t[i].flags) <==> i == |t| - 1 && PhaseAfter(primary, AwaitingFeeds, snaps) == Running
    {
      assert i % 2 == 1 && t[i] == Check(snaps[i / 2]);
      assert (i - 1) % 2 == 0;
    }
  }

  /**
   * `_wait_for_ws_confirmation_` over the snapshots the checks read. It returns once a check
   * passes; when no snapshot passes it is still waiting after all of them.
   */
  method WaitForConfirmation(primary: string, snaps: seq<Flags>) returns (confirmed: bool, trace: seq<Action>)
    ensures confirmed <==> exists k :: 0 <= k < |snaps| && Ready(primary, snaps[k])
    ensures confirmed <==> PhaseAfter(primary, AwaitingFeeds, snaps) == Running
    ensures trace == GateTrace(primary, snaps)
  {
    RunningIffSomeReady(primary, snaps);
    confirmed := false;
    trace := [];
    var k := 0;
    while k < |snaps|
      invariant k <= |snaps|
      invariant forall j :: 0 <= j < k ==> !Ready(primary, snaps[j])
      invariant k <= Checked(primary, snaps)
      invariant trace == Flatten(MapSeq(snaps[..k], CheckBlock))
      invariant !confirmed
    {
      BlocksSnoc(snaps, k, CheckBlock);
      trace := trace + [Sleep(1)];
      var f := snaps[k];
      trace := trace + [Check(f)];
      if !f.bybitConnected {
        k := k + 1;
        continue;
      }
      if primary == Binance && !f.binanceConnected {
        k := k + 1;
        continue;
      }
      confirmed := true;
      break;
    }
    if !confirmed {
      assert snaps[..k] == snaps[..Checked(primary, snaps)];
    }
  }

  // ---------------------------------------------------------------------------------------
  // The primary loop

  /** One tick's black-box outcomes: the quotes, or the exception quote generation raised; then whether OMS.run raised. */
  datatype Tick =
    | Quoted(quotes: seq<Quote>, spread: int, omsRaises: Option<string>)
    | QuoteRaised(reason: string)

  predicate Raises(t: Tick)
  {
    t.QuoteRaised? || t.omsRaises.Some?
  }

  function RaisedWith(t: Tick): string
    requires Raises(t)
  {
    if t.QuoteRaised? then t.reason else t.omsRaises.value
  }

  /** The actions of one tick: sleep, generate quotes, then pass exactly those quotes to OMS.run. */
  function TickBlock(t: Tick): (b: seq<Action>)
    ensures |b| == (if t.Quoted? then 3 else 2)
    ensures b[0] == Sleep(1) && b[1] == Generate
    ensures t.Quoted? ==> b[2] == RunOms(t.quotes, t.spread)
  {
    [Sleep(1), Generate] + (if t.Quoted? then [RunOms(t.quotes, t.spread)] else [])
  }

  /** The ticks run: up to and including the first that raises, or all of them. */
  function Performed(ticks: seq<Tick>): (n: nat)
    ensures n <= |ticks|
    ensures forall j :: 0 <= j < n - 1 ==> !Raises(ticks[j])
    ensures n < |ticks| ==> n > 0 && Raises(ticks[n - 1])
    decreases |ticks|
  {
    if ticks == [] then 0
    else if Raises(ticks[0]) then 1
    else 1 + Performed(ticks[1..])
  }

  /** The actions of the tick loop: the blocks of the ticks performed, in order. */
  function TickTrace(ticks: seq<Tick>): seq<Action>
  {
    Flatten(MapSeq(ticks[..Performed(ticks)], TickBlock))
  }

  /** How far a finite run of the loop got. */
  datatype LoopEnd = StillWaiting | StillTicking | Crashed(reason: string)

  /** `primary_loop`'s actions: announce, pass the gate, announce, then tick. */
  function LoopTrace(primary: string, snaps: seq<Flags>, ticks: seq<Tick>): seq<Action>
  {
    [Announce(StartingFeeds)] + GateTrace(primary, snaps) +
    (if PhaseAfter(primary, AwaitingFeeds, snaps) == Running then [Announce(StartingStrategy)] + TickTrace(ticks) else [])
  }

  function LoopEndOf(primary: string, snaps: seq<Flags>, ticks: seq<Tick>): LoopEnd
  {
    if PhaseAfter(primary, AwaitingFeeds, snaps) != Running then StillWaiting else TicksEnd(ticks)
  }

  lemma PerformedUnfold(ticks: seq<Tick>, n: nat)
    requires n < |ticks|
    ensures Performed(ticks[n..]) == if Raises(ticks[n]) then 1 else 1 + Performed(ticks[n + 1..])
  {
    assert ticks[n..][0] == ticks[n];
    assert ticks[n..][1..] == ticks[n + 1..];
  }

  /** How the tick loop ends: with the exception of the first tick that raises, or still ticking. */
  function TicksEnd(ticks: seq<Tick>): LoopEnd
  {
    if Performed(ticks) > 0 && Raises(ticks[Performed(ticks) - 1]) then Crashed(RaisedWith(ticks[Performed(ticks) - 1]))
    else StillTicking
  }

  /**
   * The `while True` tick loop of `primary_loop` over the given tick outcomes: sleep, generate,
   * run the order manager on exactly what was generated. It has no exception handling, so the
   * first tick that raises ends it.
   */
  method RunTicks(ticks: seq<Tick>) returns (trace: seq<Action>, end: LoopEnd)
    ensures trace == TickTrace(ticks)
    ensures end == TicksEnd(ticks)
  {
    trace := [];
    end := StillTicking;
    var n := 0;
    while n < |ticks|
      invariant n <= |ticks|
      invariant forall j :: 0 <= j < n ==> !Raises(ticks[j])
      invariant Performed(ticks[n..]) + n == Performed(ticks)
      invariant trace == Flatten(MapSeq(ticks[..n], TickBlock))
      invariant end == StillTicking
    {
      var t := ticks[n];
      BlocksSnoc(ticks, n, TickBlock);
      PerformedUnfold(ticks, n);
      trace := trace + [Sleep(1), Generate];
      match t {
        case QuoteRaised(e) =>
          end := Crashed(e);
          return;
        case Quoted(quotes, spread, omsRaises) =>
          trace := trace + [RunOms(quotes, spread)];
          if omsRaises.Some? {
            end := Crashed(omsRaises.value);
            return;
          }
      }
      n := n + 1;
    }
    assert ticks[n..] == [];
    assert ticks[..n] == ticks;
  }

  /** Within the tick loop, every generation follows a sleep, and every OMS run follows a generation. */
  predicate TickShaped(t: seq<Action>)
  {
    (forall i :: 0 <= i < |t| && t[i] == Generate ==> 0 < i && t[i - 1] == Sleep(1)) &&
    (forall i :: 0 <= i < |t| && t[i].RunOms? ==> 0 < i && t[i - 1] == Generate)
  }

  lemma TickShapedAppend(a: seq<Action>, b: seq<Action>)
    requires TickShaped(a) && TickShaped(b)
    requires b != [] ==> b[0] == Sleep(1)
    ensures TickShaped(a + b)
  {
    var t := a + b;
    forall i | |a| <= i < |t| ensures t[i] == b[i - |a|] {
    }
    forall i | 0 <= i < |a| ensures t[i] == a[i] {
    }
  }

  /** The tick loop sleeps before every quote generation and runs OMS only on the quotes just generated. */
  lemma {:induction false} TickTraceShape(ticks: seq<Tick>, n: nat)
    requires n <= |ticks|
    ensures TickShaped(Flatten(MapSeq(ticks[..n], TickBlock)))
    decreases n
  {
    if n > 0 {
      TickTraceShape(ticks, n - 1);
      BlocksSnoc(ticks, n - 1, TickBlock);
      TickShapedAppend(Flatten(MapSeq(ticks[..n - 1], TickBlock)), TickBlock(ticks[n - 1]));
    }
  }

  /** The tick loop crashes exactly when some tick raises, and then with the first raising tick's exception. */
  lemma CrashIffSomeTickRaises(ticks: seq<Tick>)
    ensures TicksEnd(ticks).Crashed? <==> exists j :: 0 <= j < |ticks| && Raises(ticks[j])
    ensures TicksEnd(ticks).Crashed? ==>
      (exists j :: 0 <= j < |ticks| && Raises(ticks[j]) &&
                   TicksEnd(ticks).reason == RaisedWith(ticks[j]) && (forall i :: 0 <= i < j ==> !Raises(ticks[i])))
  {
    var n := Performed(ticks);
    if exists j :: 0 <= j < |ticks| && Raises(ticks[j]) {
      var j :| 0 <= j < |ticks| && Raises(ticks[j]);
      if n == |ticks| {
        assert !(j < n - 1);
      }
    }
  }

  /**
   * No quote is generated and OMS never runs before the gate has opened: every tick action
   * comes after a passing check and the "Starting strategy" announcement.
   */
  lemma NoTickBeforeGate(primary: string, snaps: seq<Flags>, ticks: seq<Tick>)
    ensures var t := LoopTrace(primary, snaps, ticks);
      var g := |GateTrace(primary, snaps)|;
      forall i :: 0 <= i < |t| && (t[i] == Generate || t[i].RunOms?) ==>
        PhaseAfter(primary, AwaitingFeeds, snaps) == Running &&
        0 < g && g + 1 < i && t[g].Check? && Ready(primary, t[g].flags) && t[g + 1] == Announce(StartingStrategy)
  {
    var t := LoopTrace(primary, snaps, ticks);
    var gate := GateTrace(primary, snaps);
    var g := |gate|;
    GateTraceShape(primary, snaps);
    assert t[1..g + 1] == gate;
    forall i | 0 <= i < |t| && (t[i] == Generate || t[i].RunOms?)
      ensures PhaseAfter(primary, AwaitingFeeds, snaps) == Running
      ensures 0 < g && g + 1 < i && t[g].Check? && Ready(primary, t[g].flags) && t[g + 1] == Announce(StartingStrategy)
    {
      if 1 <= i <= g {
        assert t[i] == gate[i - 1];
        CheckBlocksAt(snaps, Checked(primary, snaps));
      }
      assert PhaseAfter(primary, AwaitingFeeds, snaps) == Running;
      GateOpensOnLastCheck(primary, snaps);
      CheckBlocksAt(snaps, Checked(primary, snaps));
      assert gate[g - 1] == Check(snaps[Checked(primary, snaps) - 1]);
      assert t[g] == gate[g - 1];
    }
  }

  /** `primary_loop`: announce, wait at the gate, announce, then tick. */
  method PrimaryLoop(primary: string, snaps: seq<Flags>, ticks: seq<Tick>) returns (trace: seq<Action>, end: LoopEnd)
    ensures trace == LoopTrace(primary, snaps, ticks)
    ensures end == LoopEndOf(primary, snaps, ticks)
  {
    trace := [Announce(StartingFeeds)];
    var confirmed, gate := WaitForConfirmation(primary, snaps);
    trace := trace + gate;
    if !confirmed {
      end := StillWaiting;
      return;
    }
    trace := trace + [Announce(StartingStrategy)];
    var ticking;
    ticking, end := RunTicks(ticks);
    trace := trace + ticking;
  }
}
