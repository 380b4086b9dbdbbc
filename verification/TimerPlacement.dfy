// Where a timer sits in the wheel, and how one increment of the clock moves it.
// All facts about the shifts and masks of src/timer.c are proved here, on
// plain integers; the class in TimerWheel.dfy only uses the lemmas.
module TimerPlacement {
  import opened Division
  import opened TimerSpec

  const TIME_NEAR := 0x100
  const TIME_LEVEL := 0x40
  const LEVELS := 4
  const WRAP := 0x1_0000_0000

  type uint32 = x: int | 0 <= x < WRAP

  datatype Slot = Near(i: int) | Level(level: int, i: int)

  predicate ValidSlot(s: Slot) {
    match s
    case Near(i) => 0 <= i < TIME_NEAR
    case Level(l, i) => 0 <= l < LEVELS && 0 <= i < TIME_LEVEL
  }

  // Two times agree on every bit above the mask.
  predicate SameBlock(a: int, b: int, mask: int)
    requires mask > 0
  {
    a / mask == b / mask
  }

  // The source compares (a | (mask-1)) with (b | (mask-1)); for its four masks
  // that is the same as comparing blocks.
  lemma OrTestIsBlockTest(a: bv32, b: bv32)
    ensures (a | 0xff == b | 0xff) <==> (a / 0x100 == b / 0x100)
    ensures (a | 0x3fff == b | 0x3fff) <==> (a / 0x4000 == b / 0x4000)
    ensures (a | 0xf_ffff == b | 0xf_ffff) <==> (a / 0x10_0000 == b / 0x10_0000)
    ensures (a | 0x3ff_ffff == b | 0x3ff_ffff) <==> (a / 0x400_0000 == b / 0x400_0000)
  {
  }

  // The slot add_node chooses for a timer expiring at `e` when the time is `t`.
  function Place(e: uint32, t: uint32): (s: Slot)
    ensures ValidSlot(s)
  {
    if SameBlock(e, t, 0x100) then Near(e % 0x100)
    else if SameBlock(e, t, 0x4000) then Level(0, e / 0x100 % 0x40)
    else if SameBlock(e, t, 0x10_0000) then Level(1, e / 0x4000 % 0x40)
    else if SameBlock(e, t, 0x400_0000) then Level(2, e / 0x10_0000 % 0x40)
    else Level(3, e / 0x400_0000 % 0x40)
  }

  // The one slot timer_shift empties when the new time is `ct`, if any.
  predicate Cascades(ct: uint32) {
    ct % 0x100 == 0
  }

  function Cascaded(ct: uint32): (s: Slot)
    requires Cascades(ct)
    ensures ValidSlot(s) && s.Level?
  {
    if ct == 0 then Level(3, 0)
    else if ct / 0x100 % 0x40 != 0 then Level(0, ct / 0x100 % 0x40)
    else if ct / 0x4000 % 0x40 != 0 then Level(1, ct / 0x4000 % 0x40)
    else if ct / 0x10_0000 % 0x40 != 0 then Level(2, ct / 0x10_0000 % 0x40)
    else Level(3, ct / 0x400_0000 % 0x40)
  }

  function Rank(s: Slot): int {
    match s
    case Near(_) => -1
    case Level(l, _) => l
  }

  // ------------------------------------------------ the same without wrapping

  function PlaceFree(due: nat, clock: nat): Slot {
    if due / 0x100 == clock / 0x100 then Near(due % 0x100)
    else if due / 0x4000 == clock / 0x4000 then Level(0, due / 0x100 % 0x40)
    else if due / 0x10_0000 == clock / 0x10_0000 then Level(1, due / 0x4000 % 0x40)
    else if due / 0x400_0000 == clock / 0x400_0000 then Level(2, due / 0x10_0000 % 0x40)
    else Level(3, due / 0x400_0000 % 0x40)
  }

  function CascadedFree(ct: nat): Slot {
    if ct / 0x100 % 0x40 != 0 then Level(0, ct / 0x100 % 0x40)
    else if ct / 0x4000 % 0x40 != 0 then Level(1, ct / 0x4000 % 0x40)
    else if ct / 0x10_0000 % 0x40 != 0 then Level(2, ct / 0x10_0000 % 0x40)
    else Level(3, ct / 0x400_0000 % 0x40)
  }

  lemma BlockOfWrapped(x: nat)
    ensures x % WRAP / 0x100 == x / 0x100 % 0x100_0000
    ensures x % WRAP / 0x4000 == x / 0x4000 % 0x4_0000
    ensures x % WRAP / 0x10_0000 == x / 0x10_0000 % 0x1000
    ensures x % WRAP / 0x400_0000 == x / 0x400_0000 % 0x40
  {
    DivOfProduct(x, 0x100, 0x100_0000);
    DivOfProduct(x, 0x4000, 0x4_0000);
    DivOfProduct(x, 0x10_0000, 0x1000);
    DivOfProduct(x, 0x400_0000, 0x40);
  }

  lemma LowBits(x: nat)
    ensures x % WRAP % 0x100 == x % 0x100
    ensures x % WRAP / 0x100 % 0x40 == x / 0x100 % 0x40
    ensures x % WRAP / 0x4000 % 0x40 == x / 0x4000 % 0x40
    ensures x % WRAP / 0x10_0000 % 0x40 == x / 0x10_0000 % 0x40
    ensures x % WRAP / 0x400_0000 % 0x40 == x / 0x400_0000 % 0x40
  {
    BlockOfWrapped(x);
    ModOfMod(x, 0x100, 0x100_0000);
    ModOfMod(x / 0x100, 0x40, 0x4_0000);
    ModOfMod(x / 0x4000, 0x40, 0x1000);
    ModOfMod(x / 0x10_0000, 0x40, 0x40);
  }

  lemma BlockDistance(due: nat, clock: nat, m: nat, k: nat)
    requires 0 < m <= 0x400_0000 && m * k == WRAP
    requires clock <= due < clock + MAX_DELAY
    ensures 0 <= due / m - clock / m < k
  {
    var a, b := due / m, clock / m;
    assert a * m + due % m == due && b * m + clock % m == clock;
    assert b * m < (a + 1) * m;
    MulCancels(b, a + 1, m);
    assert (a - b) * m < k * m;
    MulCancels(a - b, k, m);
  }

  // A delay below 2^31 cannot make two different blocks look alike.
  lemma SameBlockWrapped(due: nat, clock: nat, m: nat, k: nat)
    requires 0 < m <= 0x400_0000 && k > 0 && m * k == WRAP
    requires clock <= due < clock + MAX_DELAY
    ensures due % WRAP / m == clock % WRAP / m <==> due / m == clock / m
  {
    DivOfProduct(due, m, k);
    DivOfProduct(clock, m, k);
    BlockDistance(due, clock, m, k);
    var a, b := due / m, clock / m;
    if a % k == b % k {
      assert a - b == (a / k - b / k) * k;
      MulCancels(a / k - b / k, 1, k);
      MulCancels(-1, a / k - b / k, k);
    }
  }

  lemma PlaceWrapped(due: nat, clock: nat)
    requires clock <= due < clock + MAX_DELAY
    ensures Place(due % WRAP, clock % WRAP) == PlaceFree(due, clock)
  {
    LowBits(due);
    SameBlockWrapped(due, clock, 0x100, 0x100_0000);
    SameBlockWrapped(due, clock, 0x4000, 0x4_0000);
    SameBlockWrapped(due, clock, 0x10_0000, 0x1000);
    SameBlockWrapped(due, clock, 0x400_0000, 0x40);
  }

  lemma CascadedWrapped(ct: nat)
    ensures Cascades(ct % WRAP) <==> ct % 0x100 == 0
    ensures ct % 0x100 == 0 ==> Cascaded(ct % WRAP) == CascadedFree(ct)
  {
    LowBits(ct);
  }

  // The block numbers of one time, from the finest to the coarsest.
  datatype Blocks = Blocks(q0: nat, q1: nat, q2: nat, q3: nat)

  predicate Tower(b: Blocks) {
    b.q1 == b.q0 / 0x40 && b.q2 == b.q1 / 0x40 && b.q3 == b.q2 / 0x40
  }

  function BlocksOf(x: nat): (b: Blocks)
    ensures Tower(b) && b.q0 == x / 0x100
  {
    Blocks(x / 0x100, x / 0x100 / 0x40, x / 0x100 / 0x40 / 0x40, x / 0x100 / 0x40 / 0x40 / 0x40)
  }

  lemma BlocksAreDivisions(x: nat)
    ensures BlocksOf(x) == Blocks(x / 0x100, x / 0x4000, x / 0x10_0000, x / 0x400_0000)
  {
    DivOfProduct(x, 0x100, 0x40);
    DivOfProduct(x, 0x4000, 0x40);
    DivOfProduct(x, 0x10_0000, 0x40);
  }

  function PlaceIn(due: nat, d: Blocks, c: Blocks): Slot {
    if d.q0 == c.q0 then Near(due % 0x100)
    else if d.q1 == c.q1 then Level(0, d.q0 % 0x40)
    else if d.q2 == c.q2 then Level(1, d.q1 % 0x40)
    else if d.q3 == c.q3 then Level(2, d.q2 % 0x40)
    else Level(3, d.q3 % 0x40)
  }

  function CascadedIn(c: Blocks): Slot {
    if c.q0 % 0x40 != 0 then Level(0, c.q0 % 0x40)
    else if c.q1 % 0x40 != 0 then Level(1, c.q1 % 0x40)
    else if c.q2 % 0x40 != 0 then Level(2, c.q2 % 0x40)
    else Level(3, c.q3 % 0x40)
  }

  lemma StepBlocks(due: nat, d: Blocks, b: Blocks, c: Blocks)
    requires Tower(d) && Tower(b) && Tower(c)
    requires c.q0 == b.q0 + 1 && c.q0 <= d.q0 && d.q3 < c.q3 + 0x40
    ensures var before, after := PlaceIn(due, d, b), PlaceIn(due, d, c);
      && Rank(before) >= Rank(CascadedIn(c))
      && (if before == CascadedIn(c) then Rank(after) < Rank(CascadedIn(c)) else after == before)
  {
    if c.q0 % 0x40 != 0 {
      assert c.q1 == b.q1;
    } else if c.q1 % 0x40 != 0 {
      assert c.q1 == b.q1 + 1 && c.q2 == b.q2;
    } else if c.q2 % 0x40 != 0 {
      assert c.q1 == b.q1 + 1 && c.q2 == b.q2 + 1 && c.q3 == b.q3;
    } else {
      assert c.q1 == b.q1 + 1 && c.q2 == b.q2 + 1 && c.q3 == b.q3 + 1;
    }
  }

  lemma NextBlock(x: nat, m: nat)
    requires m > 0
    ensures (x + 1) / m == if (x + 1) % m == 0 then x / m + 1 else x / m
  {
    var q, r := x / m, x % m;
    if r + 1 == m {
      assert x + 1 == (q + 1) * m + 0;
      Quotient(x + 1, m, q + 1, 0);
    } else {
      assert x + 1 == q * m + (r + 1);
      Quotient(x + 1, m, q, r + 1);
    }
  }

  lemma PlaceInBlocks(due: nat, clock: nat)
    ensures PlaceFree(due, clock) == PlaceIn(due, BlocksOf(due), BlocksOf(clock))
    ensures CascadedFree(clock) == CascadedIn(BlocksOf(clock))
  {
    BlocksAreDivisions(due);
    BlocksAreDivisions(clock);
  }

  lemma StepFree(due: nat, clock: nat)
    requires clock < due < clock + MAX_DELAY
    ensures var before, after := PlaceFree(due, clock), PlaceFree(due, clock + 1);
      if (clock + 1) % 0x100 != 0 then after == before
      else
        && Rank(before) >= Rank(CascadedFree(clock + 1))
        && (if before == CascadedFree(clock + 1) then Rank(after) < Rank(CascadedFree(clock + 1)) else after == before)
  {
    PlaceInBlocks(due, clock);
    PlaceInBlocks(due, clock + 1);
    NextBlock(clock, 0x100);
    if (clock + 1) % 0x100 == 0 {
      DivMonotone(clock + 1, due, 0x100);
      BlockDistance(due, clock + 1, 0x400_0000, 0x40);
      BlocksAreDivisions(due);
      BlocksAreDivisions(clock + 1);
      StepBlocks(due, BlocksOf(due), BlocksOf(clock), BlocksOf(clock + 1));
    }
  }

  lemma DivMonotone(x: nat, y: nat, m: nat)
    requires m > 0 && x <= y
    ensures x / m <= y / m
  {
    assert x / m * m <= x && y < (y / m + 1) * m;
    MulCancels(x / m, y / m + 1, m);
  }

  // One increment: a timer changes its place only when it sits in the single
  // cascaded slot, then it moves strictly down; and nothing pending sits below
  // that slot. Holds across the wrap of the 32-bit clock.
  lemma PlaceAfterTick(due: nat, clock: nat)
    requires clock < due < clock + MAX_DELAY
    ensures var e, t, ct := due % WRAP, clock % WRAP, (clock + 1) % WRAP;
      var before, after := Place(e, t), Place(e, ct);
      if !Cascades(ct) then after == before
      else
        && Rank(before) >= Rank(Cascaded(ct))
        && (if before == Cascaded(ct) then Rank(after) < Rank(Cascaded(ct)) else after == before)
  {
    PlaceWrapped(due, clock);
    PlaceWrapped(due, clock + 1);
    StepFree(due, clock);
    CascadedWrapped(clock + 1);
  }

  // The near slot of the current time holds exactly the timers due now.
  lemma DueSlot(due: nat, clock: nat)
    requires clock <= due < clock + MAX_DELAY
    ensures Place(due % WRAP, clock % WRAP) == Near(clock % WRAP % 0x100) <==> due == clock
  {
    PlaceWrapped(due, clock);
    LowBits(clock);
  }
}
