/** The ticking cassette listener: on each frame it reads the cassette block
    manager's beat counters and reports a "tick" on every beat that starts a
    tick but not a swap. The counters are C# `int`s, so the arithmetic here
    is 32-bit C# arithmetic: `%` truncates toward zero and the product of
    two ints wraps around. */
module Cassette {
  import opened Wrappers

  newtype int32 = x: int | -0x8000_0000 <= x < 0x8000_0000

  const Int32Min: int := -0x8000_0000

  function Abs(n: int): (r: int)
    ensures r >= 0 && (r == 0 <==> n == 0)
  {
    if n < 0 then -n else n
  }

  /** Unchecked C# multiplication of two ints: the product modulo 2^32,
      read back as a signed 32-bit value. */
  function MulInt32(a: int32, b: int32): (r: int32)
    ensures Int32Min <= a as int * b as int < -Int32Min ==> r as int == a as int * b as int
    ensures (r as int - a as int * b as int) % 0x1_0000_0000 == 0
  {
    Wrap32(a as int * b as int)
  }

  /** A mathematical integer reduced modulo 2^32 into the int range. */
  function Wrap32(n: int): (r: int32)
    ensures Int32Min <= n < -Int32Min ==> r as int == n
    ensures (r as int - n) % 0x1_0000_0000 == 0
  {
    var u := n - Int32Min;
    if 0 <= u < 0x1_0000_0000 then n as int32
    else (u % 0x1_0000_0000 + Int32Min) as int32
  }

  /** C#'s `%` on ints: the remainder of truncated division, which has the
      sign of the dividend. */
  function CsRem(a: int, b: int): (r: int)
    requires b != 0
    ensures r == 0 <==> a % Abs(b) == 0
    ensures a >= 0 ==> 0 <= r < Abs(b)
    ensures a < 0 ==> -Abs(b) < r <= 0
  {
    NegatedDivisible(a, Abs(b));
    if a >= 0 then a % Abs(b) else -((-a) % Abs(b))
  }

  /** Division with remainder is unique. */
  lemma ModUnique(x: int, m: int, q: int, r: int)
    requires m > 0 && 0 <= r < m && x == q * m + r
    ensures x % m == r && x / m == q
  {
    var d := q - x / m;
    assert d * m == x % m - r;
    MulSignBound(d, m);
  }

  lemma MulSignBound(d: int, m: int)
    requires m > 0
    ensures d >= 1 ==> d * m >= m
    ensures d <= -1 ==> d * m <= -m
  {
    if d >= 1 {
      MulAtLeast(d, m);
    } else if d <= -1 {
      MulAtLeast(-d, m);
      assert (-d) * m == -(d * m);
    }
  }

  lemma MulAtLeast(d: int, m: int)
    requires d >= 1 && m > 0
    ensures d * m >= m
  {
    assert d * m == (d - 1) * m + m;
    assert (d - 1) * m >= 0;
  }

  lemma NegatedDivisible(a: int, m: int)
    requires m > 0
    ensures a % m == 0 <==> (-a) % m == 0
  {
    if a % m == 0 {
      ModUnique(-a, m, -(a / m), 0);
    }
    if (-a) % m == 0 {
      ModUnique(a, m, -((-a) / m), 0);
    }
  }

  /** The manager's counters, as the listener reads them. */
  datatype ManagerData = ManagerData(beatIndex: int32, beatsPerTick: int32, ticksPerSwap: int32, currentIndex: int32)

  /** What one `Update` of the listener does. `ArithmeticFault` stands for
      the exception C# raises on a zero divisor, or on `int.MinValue % -1`. */
  datatype ListenerUpdate = NoManager | NoTick | Tick | ArithmeticFault

  /** C# `a % b` on ints, with its two failing cases. */
  function CsRemChecked(a: int32, b: int32): (r: Option<int>)
    ensures r.None? <==> b == 0 || (a as int == Int32Min && b == -1)
    ensures r.Some? ==> r.value == CsRem(a as int, b as int)
  {
    if b == 0 || (a as int == Int32Min && b == -1) then None else Some(CsRem(a as int, b as int))
  }

  /** The beat a cassette swap happens on (in mathematical arithmetic). */
  predicate IsSwapBeat(beat: int, beatsPerTick: int, ticksPerSwap: int)
    requires beatsPerTick * ticksPerSwap != 0
  {
    beat % Abs(beatsPerTick * ticksPerSwap) == 0
  }

  /** A beat that starts a tick but is not a swap beat. */
  predicate IsTickBeat(beat: int, beatsPerTick: int, ticksPerSwap: int)
    requires beatsPerTick != 0 && ticksPerSwap != 0
  {
    beat % Abs(beatsPerTick) == 0 && !IsSwapBeat(beat, beatsPerTick, ticksPerSwap)
  }

  class TickingCassetteListener {
    const Index: int
    const Tempo: real
    var Active: bool

    constructor (index: int, tempo: real := 1.0)
      ensures Index == index && Tempo == tempo && Active
    {
      Index := index;
      Tempo := tempo;
      Active := true;
    }

    /** One frame of the listener. `manager` is None when the level holds no
        cassette block manager. `Tick` means `OnTick` is invoked (when one is
        attached) with the manager as its only argument. */
    static function Update(manager: Option<ManagerData>): (u: ListenerUpdate)
      ensures u == NoManager <==> manager.None?
    {
      match manager
      case None => NoManager
      case Some(m) =>
        match CsRemChecked(m.beatIndex, m.beatsPerTick)
        case None => ArithmeticFault
        case Some(r) =>
          if r != 0 then NoTick
          else
            match CsRemChecked(m.beatIndex, MulInt32(m.beatsPerTick, m.ticksPerSwap))
            case None => ArithmeticFault
            case Some(r2) => if r2 != 0 then Tick else NoTick
    }
  }

  /** The manager counters a working cassette setup has: positive moduli whose
      product fits in an int. */
  predicate WellFormed(m: ManagerData)
  {
    m.beatsPerTick > 0 && m.ticksPerSwap > 0
    && m.beatsPerTick as int * m.ticksPerSwap as int < 0x8000_0000
  }

  /** With well-formed counters, the C# evaluation never faults and ticks
      exactly on the tick beats of the mathematical rule. */
  lemma UpdateTicksExactlyOnTickBeats(m: ManagerData)
    requires WellFormed(m)
    ensures TickingCassetteListener.Update(Some(m)) != ArithmeticFault
    ensures TickingCassetteListener.Update(Some(m)) == Tick
            <==> IsTickBeat(m.beatIndex as int, m.beatsPerTick as int, m.ticksPerSwap as int)
  {
    var p := m.beatsPerTick as int * m.ticksPerSwap as int;
    assert p > 0 by { MulAtLeast(m.ticksPerSwap as int, m.beatsPerTick as int); }
    assert MulInt32(m.beatsPerTick, m.ticksPerSwap) as int == p;
  }

  /** The frame faults exactly when one of its two remainders does: a zero
      `beatsPerTick`, `int.MinValue % -1`, or, on a beat that starts a tick,
      a wrapped swap period of zero or of -1 with the beat at `int.MinValue`. */
  lemma UpdateFaultsExactly(m: ManagerData)
    ensures TickingCassetteListener.Update(Some(m)) == ArithmeticFault <==>
      || m.beatsPerTick == 0
      || (m.beatIndex as int == Int32Min && m.beatsPerTick == -1)
      || (m.beatIndex as int % Abs(m.beatsPerTick as int) == 0
          && (MulInt32(m.beatsPerTick, m.ticksPerSwap) == 0
              || (m.beatIndex as int == Int32Min && MulInt32(m.beatsPerTick, m.ticksPerSwap) == -1)))
  {
  }

  /** In particular a zero `beatsPerTick` faults on every beat. */
  lemma ZeroBeatsPerTickFaults(m: ManagerData)
    requires m.beatsPerTick == 0
    ensures TickingCassetteListener.Update(Some(m)) == ArithmeticFault
  {
  }

  /** Beats that are multiples of the swap period never produce a tick,
      whatever the counters' signs (zero moduli fault instead). */
  lemma SwapBeatsNeverTick(m: ManagerData)
    requires m.beatsPerTick != 0 && MulInt32(m.beatsPerTick, m.ticksPerSwap) != 0
    requires m.beatIndex as int % Abs(MulInt32(m.beatsPerTick, m.ticksPerSwap) as int) == 0
    ensures TickingCassetteListener.Update(Some(m)) != Tick
  {
  }

  /** The number of tick beats among the `n` beats starting at `lo`. */
  function CountTicks(lo: int, n: nat, beatsPerTick: int, ticksPerSwap: int): (c: nat)
    requires beatsPerTick > 0 && ticksPerSwap > 0
    ensures c <= n
  {
    if n == 0 then 0
    else CountTicks(lo, n - 1, beatsPerTick, ticksPerSwap)
         + (if IsTickBeat(lo + n - 1, beatsPerTick, ticksPerSwap) then 1 else 0)
  }

  lemma {:induction false} CountSplit(lo: int, a: nat, b: nat, bpt: int, tps: int)
    requires bpt > 0 && tps > 0
    ensures CountTicks(lo, a + b, bpt, tps) == CountTicks(lo, a, bpt, tps) + CountTicks(lo + a, b, bpt, tps)
  {
    if b > 0 {
      CountSplit(lo, a, b - 1, bpt, tps);
      assert lo + (a + b) - 1 == (lo + a) + b - 1;
    }
  }

  /** Inside one tick (after its first beat) no beat ticks. */
  lemma {:induction false} NoTicksInsideTick(q: int, n: nat, bpt: int, tps: int)
    requires bpt > 0 && tps > 0 && n < bpt
    ensures CountTicks(q * bpt + 1, n, bpt, tps) == 0
  {
    if n > 0 {
      NoTicksInsideTick(q, n - 1, bpt, tps);
      ModUnique(q * bpt + 1 + n - 1, bpt, q, n);
    }
  }

  /** The first beat of the tick `j` ticks into swap period `k`. */
  lemma TickStart(k: int, j: nat, bpt: int, tps: int)
    requires bpt > 0 && tps > 0 && j < tps
    ensures bpt * tps > 0
    ensures k * (bpt * tps) + j * bpt == (k * tps + j) * bpt
    ensures 0 <= j * bpt < bpt * tps
    ensures j == 0 <==> j * bpt == 0
  {
    MulAtLeast(tps, bpt);
    assert k * (bpt * tps) == k * tps * bpt;
    assert (k * tps + j) * bpt == k * tps * bpt + j * bpt;
    MulAtLeast(tps - j, bpt);
    assert (tps - j) * bpt == bpt * tps - j * bpt;
    if j > 0 { MulAtLeast(j, bpt); }
  }

  /** The first beat of a tick is a tick beat iff it is not the first tick
      of its swap period. */
  lemma TickStartTicks(k: int, j: nat, bpt: int, tps: int)
    requires bpt > 0 && tps > 0 && j < tps
    ensures bpt * tps > 0
    ensures IsTickBeat(k * (bpt * tps) + j * bpt, bpt, tps) <==> j != 0
  {
    TickStart(k, j, bpt, tps);
    var start := k * (bpt * tps) + j * bpt;
    ModUnique(start, bpt, k * tps + j, 0);
    ModUnique(start, bpt * tps, k, j * bpt);
  }

  /** The tick starting `j` ticks into swap period `k` holds one tick beat,
      unless it is the period's first. */
  lemma ChunkCount(k: int, j: nat, bpt: int, tps: int)
    requires bpt > 0 && tps > 0 && j < tps
    ensures CountTicks(k * (bpt * tps) + j * bpt, bpt, bpt, tps) == if j == 0 then 0 else 1
  {
    TickStart(k, j, bpt, tps);
    TickStartTicks(k, j, bpt, tps);
    var start := k * (bpt * tps) + j * bpt;
    CountSplit(start, 1, bpt - 1, bpt, tps);
    NoTicksInsideTick(k * tps + j, bpt - 1, bpt, tps);
  }

  lemma {:induction false} PeriodPrefixCount(k: int, j: nat, bpt: int, tps: int)
    requires bpt > 0 && tps > 0 && j <= tps
    ensures j * bpt >= 0
    ensures CountTicks(k * (bpt * tps), j * bpt, bpt, tps) == if j == 0 then 0 else j - 1
  {
    if j > 0 {
      MulAtLeast(j, bpt);
      PeriodPrefixCount(k, j - 1, bpt, tps);
      assert j * bpt == (j - 1) * bpt + bpt;
      CountSplit(k * (bpt * tps), (j - 1) * bpt, bpt, bpt, tps);
      ChunkCount(k, j - 1, bpt, tps);
    }
  }

  /** Counters whose product wraps to zero make the listener fault on
      beat 0 although both moduli are non-zero. */
  lemma WrappedPeriodFaults()
    ensures TickingCassetteListener.Update(Some(ManagerData(0, 65536, 65536, 0))) == ArithmeticFault
  {
    assert MulInt32(65536, 65536) == 0;
  }

  /** Within any one swap period of `beatsPerTick * ticksPerSwap` beats,
      exactly `ticksPerSwap - 1` beats tick: every tick but the swap. */
  lemma TicksPerSwapPeriod(k: int, bpt: int, tps: int)
    requires bpt > 0 && tps > 0
    ensures bpt * tps > 0
    ensures CountTicks(k * (bpt * tps), bpt * tps, bpt, tps) == tps - 1
  {
    PeriodPrefixCount(k, tps, bpt, tps);
    assert tps * bpt == bpt * tps;
  }
}
