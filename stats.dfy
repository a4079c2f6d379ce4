/** Level statistics (statistics.cpp): coins, badguys and secrets found out
    of their totals and the time needed, with "never played" sentinels, a
    validity flag and the index of the statistic the world map shows next.
    Counts are unbounded integers here; time is a real. */
module Stats {
  import opened Geometry

  /** The "not a value" sentinels: INT_MIN for the counts, FLT_MAX for the
      time. */
  const IntMin: int := -0x8000_0000
  const NoCount: int := IntMin
  const NoTime: real := 340282346638528859811704183484516925440.0

  /** A snapshot of a Statistics object. */
  datatype Record = Record(coins: int, totalCoins: int, badguys: int, totalBadguys: int,
                           time: real, secrets: int, totalSecrets: int, valid: bool, displayStat: int)

  /** What merge makes of a against b: nothing if b is invalid, otherwise
      the better of the two results (most coins, badguys and secrets, least
      time) against b's totals. */
  function Merged(a: Record, b: Record): (m: Record)
    ensures !b.valid ==> m == a
    ensures b.valid ==>
      m.coins >= a.coins && m.coins >= b.coins && (m.coins == a.coins || m.coins == b.coins) &&
      m.badguys >= a.badguys && m.badguys >= b.badguys && (m.badguys == a.badguys || m.badguys == b.badguys) &&
      m.secrets >= a.secrets && m.secrets >= b.secrets && (m.secrets == a.secrets || m.secrets == b.secrets) &&
      m.time <= a.time && m.time <= b.time && (m.time == a.time || m.time == b.time)
    ensures b.valid ==>
      m.totalCoins == b.totalCoins && m.totalBadguys == b.totalBadguys && m.totalSecrets == b.totalSecrets
    ensures m.valid == a.valid && m.displayStat == a.displayStat
  {
    if !b.valid then a
    else a.(coins := Max(a.coins, b.coins), totalCoins := b.totalCoins,
            badguys := Max(a.badguys, b.badguys), totalBadguys := b.totalBadguys,
            time := if a.time <= b.time then a.time else b.time,
            secrets := Max(a.secrets, b.secrets), totalSecrets := b.totalSecrets)
  }

  /** One count of +=: the other's value is added unless it is the sentinel. */
  function AddCount(mine: int, other: int): (r: int)
    ensures other == NoCount ==> r == mine
    ensures other != NoCount ==> r - mine == other
  {
    if other != NoCount then mine + other else mine
  }

  /** What += makes of a with b: nothing if b is invalid, otherwise every
      field of b that holds a value is added to a's. */
  function Accumulated(a: Record, b: Record): (s: Record)
    ensures !b.valid ==> s == a
    ensures s.valid == a.valid && s.displayStat == a.displayStat
  {
    if !b.valid then a
    else a.(coins := AddCount(a.coins, b.coins), totalCoins := AddCount(a.totalCoins, b.totalCoins),
            badguys := AddCount(a.badguys, b.badguys), totalBadguys := AddCount(a.totalBadguys, b.totalBadguys),
            time := if b.time != NoTime then a.time + b.time else a.time,
            secrets := AddCount(a.secrets, b.secrets), totalSecrets := AddCount(a.totalSecrets, b.totalSecrets))
  }

  /** A fresh record: every statistic holds its sentinel. */
  const Fresh := Record(NoCount, NoCount, NoCount, NoCount, NoTime, NoCount, NoCount, true, 0)

  /** Merging a record into itself changes nothing, and merging the same
      record twice is the same as merging it once. */
  lemma MergedIdempotent(a: Record, b: Record)
    ensures a.valid ==> Merged(a, a) == a
    ensures Merged(Merged(a, b), b) == Merged(a, b)
  {
  }

  /** The best results do not depend on the order of merging. */
  lemma MergedOrderIndependent(a: Record, b: Record, c: Record)
    requires b.valid && c.valid
    ensures var bc, cb := Merged(Merged(a, b), c), Merged(Merged(a, c), b);
      bc.coins == cb.coins && bc.badguys == cb.badguys && bc.secrets == cb.secrets && bc.time == cb.time
  {
  }

  /** Adding a record that was never played changes nothing. */
  lemma AccumulatedFreshIsNeutral(a: Record)
    ensures Accumulated(a, Fresh) == a
  {
  }

  /** Adding two records gives the same result in either order. */
  lemma AccumulatedCommutes(a: Record, b: Record, c: Record)
    ensures Accumulated(Accumulated(a, b), c) == Accumulated(Accumulated(a, c), b)
  {
  }

  /** Adding to a record that holds sentinels starts from INT_MIN (or
      FLT_MAX), not from zero: reset comes first. */
  lemma AccumulatedOntoFreshKeepsSentinelBase(b: Record)
    requires b.valid && b.coins != NoCount
    ensures Accumulated(Fresh, b).coins == IntMin + b.coins
  {
  }

  /** display_stat's step when the display timer is restarted: 0, 1, 2, 3
      and back to 0. */
  function NextDisplayStat(d: int): (n: int)
    ensures 0 <= d <= 3 ==> 0 <= n <= 3
    ensures 0 <= d < 3 ==> n == d + 1
    ensures d == 3 ==> n == 0
  {
    if d + 1 > 3 then 0 else d + 1
  }

  /** Four steps bring the displayed statistic back to where it was. */
  lemma {:induction false} DisplayStatCycles(d: int)
    requires 0 <= d <= 3
    ensures NextDisplayStat(NextDisplayStat(NextDisplayStat(NextDisplayStat(d)))) == d
  {
  }

  /** C integer division and remainder, which truncate toward zero. */
  function CDiv(a: int, b: int): (q: int)
    requires b > 0
    ensures 0 <= a ==> q * b <= a < q * b + b
    ensures a < 0 ==> q * b - b < a <= q * b
  {
    if a >= 0 then a / b else -((-a) / b)
  }

  function CRem(a: int, b: int): (r: int)
    requires b > 0
    ensures a == CDiv(a, b) * b + r
    ensures a >= 0 ==> 0 <= r < b
    ensures a < 0 ==> -b < r <= 0
  {
    a - CDiv(a, b) * b
  }

  /** The time as shown (mm:ss): centiseconds by float-to-int truncation,
      whole minutes, and the seconds left over. The cast is undefined
      beyond the int range. */
  function FormatTime(time: real): (r: (int, int))
    requires IntMin < Trunc(time * 100.0) < -IntMin
    ensures 0.0 <= time ==> 0 <= r.0 && 0 <= r.1 <= 59
    ensures time < 0.0 ==> r.0 <= 0 && -59 <= r.1 <= 0
  {
    var csecs := Trunc(time * 100.0);
    (CDiv(csecs, 6000), CDiv(CRem(csecs, 6000), 100))
  }

  /** For a non-negative time the seconds are 0..59 and minutes and
      seconds together make up the truncated time to within a second. */
  lemma FormatTimeBounds(time: real)
    requires 0.0 <= time && Trunc(time * 100.0) < -IntMin
    ensures var (mins, secs) := FormatTime(time);
      0 <= secs <= 59 && 0 <= mins &&
      (mins * 60 + secs) as real <= time < (mins * 60 + secs + 1) as real
  {
    var csecs := Trunc(time * 100.0);
    var mins, secs := CDiv(csecs, 6000), CDiv(CRem(csecs, 6000), 100);
    var rest := CRem(csecs, 6000);
    assert csecs == mins * 6000 + rest;
    assert rest == secs * 100 + CRem(rest, 100);
    assert (mins * 60 + secs) * 100 <= csecs < (mins * 60 + secs + 1) * 100;
  }

  class Statistics {
    var coins: int
    var totalCoins: int
    var badguys: int
    var totalBadguys: int
    var time: real
    var secrets: int
    var totalSecrets: int
    var valid: bool
    var displayStat: int

    function Snapshot(): Record
      reads this
    {
      Record(coins, totalCoins, badguys, totalBadguys, time, secrets, totalSecrets, valid, displayStat)
    }

    /** Statistics(): never played, valid, showing the first statistic. */
    constructor ()
      ensures Snapshot() == Fresh
    {
      coins, totalCoins, badguys, totalBadguys := NoCount, NoCount, NoCount, NoCount;
      time := NoTime;
      secrets, totalSecrets := NoCount, NoCount;
      valid := true;
      displayStat := 0;
    }

    /** reset: zeroes the results and keeps the totals and the flags. */
    method Reset()
      modifies this
      ensures Snapshot() == old(Snapshot()).(coins := 0, badguys := 0, time := 0.0, secrets := 0)
    {
      coins := 0;
      badguys := 0;
      time := 0.0;
      secrets := 0;
    }

    /** merge: keeps the better results and takes the other's totals,
        unless the other record is invalid. */
    method Merge(s2: Statistics)
      modifies this
      ensures Snapshot() == Merged(old(Snapshot()), old(s2.Snapshot()))
    {
      if !s2.valid {
        return;
      }
      var other := s2.Snapshot();
      coins := Max(coins, other.coins);
      totalCoins := other.totalCoins;
      badguys := Max(badguys, other.badguys);
      totalBadguys := other.totalBadguys;
      time := if time <= other.time then time else other.time;
      secrets := Max(secrets, other.secrets);
      totalSecrets := other.totalSecrets;
    }

    /** operator+=: adds the other's values field by field, skipping
        sentinels, unless the other record is invalid. */
    method AddAssign(s2: Statistics)
      modifies this
      ensures Snapshot() == Accumulated(old(Snapshot()), old(s2.Snapshot()))
    {
      if !s2.valid {
        return;
      }
      var other := s2.Snapshot();
      coins := AddCount(coins, other.coins);
      totalCoins := AddCount(totalCoins, other.totalCoins);
      badguys := AddCount(badguys, other.badguys);
      totalBadguys := AddCount(totalBadguys, other.totalBadguys);
      if other.time != NoTime { time := time + other.time; }
      secrets := AddCount(secrets, other.secrets);
      totalSecrets := AddCount(totalSecrets, other.totalSecrets);
    }

    /** declare_invalid: clears the flag and nothing else. */
    method DeclareInvalid()
      modifies this
      ensures Snapshot() == old(Snapshot()).(valid := false)
    {
      valid := false;
    }

    /** The display cycling of draw_worldmap_info: a record that was never
        played (coins still INT_MIN) or was declared invalid is not drawn and
        nothing changes; otherwise, when the display timer is not running,
        it is restarted (the timer is outside this model) and the next
        statistic is selected. */
    method AdvanceDisplayStat(timerStarted: bool)
      modifies this
      ensures timerStarted || old(coins) == NoCount || !old(valid) ==> Snapshot() == old(Snapshot())
      ensures !timerStarted && old(coins) != NoCount && old(valid) ==>
        Snapshot() == old(Snapshot()).(displayStat := NextDisplayStat(old(displayStat)))
      ensures 0 <= old(displayStat) <= 3 ==> 0 <= displayStat <= 3
    {
      if coins == NoCount {
        return;
      }
      if !valid {
        return;
      }
      if !timerStarted {
        displayStat := displayStat + 1;
        if displayStat > 3 {
          displayStat := 0;
        }
      }
    }
  }
}
