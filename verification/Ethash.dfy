/** The header rules of the proof-of-work engine: difficulty, gas limit, and what it takes for a header to be valid. */
module Ethash {
  import opened Words

  datatype Params = Params(minGasLimit: u256, maxGasLimit: u256, gasLimitBoundDivisor: u256, minimumDifficulty: u256,
                           difficultyBoundDivisor: u256, durationLimit: u256, homesteadForkBlock: u256,
                           byzantiumForkBlock: u256)

  /** The default chain parameters, with arbitrary fork blocks. */
  predicate Default(p: Params) {
    && p.minGasLimit == 0x1388 && p.maxGasLimit == 0x7fff_ffff_ffff_ffff && p.gasLimitBoundDivisor == 0x400
    && p.minimumDifficulty == 0x2_0000 && p.difficultyBoundDivisor == 0x800 && p.durationLimit == 0x0d
  }

  /** Numbers and timestamps are signed 64-bit. */
  const INT64: int := 0x8000_0000_0000_0000

  type int64 = x: int | -INT64 <= x < INT64

  datatype Header = Header(number: int64, timestamp: int64, difficulty: u256, gasLimit: u256, gasUsed: u256,
                           hasUncles: bool, parentHash: nat, hash: nat)

  /** Division of unbounded integers as C++ does it: the quotient is rounded towards zero. */
  function TruncDiv(a: int, b: nat): (q: int)
    requires 0 < b
    ensures 0 <= a ==> q * b <= a < (q + 1) * b
    ensures a <= 0 ==> (q - 1) * b < a <= q * b
  {
    if 0 <= a then a / b else -((-a) / b)
  }

  // ---------------------------------------------------------------- difficulty

  /** The adjustment from Homestead on, in units of a 2048th of the parent's difficulty. */
  function Adjustment(p: Params, number: int, timestamp: int, parent: Header): int {
    var elapsed := timestamp - parent.timestamp;
    if number < p.byzantiumForkBlock then Max(1 - TruncDiv(elapsed, 10), -99)
    else Max((if parent.hasUncles then 2 else 1) - TruncDiv(elapsed, 9), -99)
  }

  /** The target before the ice age; on 256 bits before Homestead. */
  function Target(p: Params, number: int, timestamp: int, parent: Header): int
    requires 0 < p.difficultyBoundDivisor
  {
    var d := parent.difficulty;
    if number < p.homesteadForkBlock then
      if parent.timestamp + p.durationLimit <= timestamp then Sub(d, d / p.difficultyBoundDivisor)
      else Add(d, d / p.difficultyBoundDivisor)
    else d + d / 2048 * Adjustment(p, number, timestamp, parent)
  }

  function Pow2(n: nat): nat { if n == 0 then 1 else 2 * Pow2(n - 1) }

  /** The ice age, as delayed by EIP-649; the block number is cut to 32 bits. */
  function Bomb(p: Params, number: int, parent: Header): nat {
    var n := (parent.number + 1) % 0x1_0000_0000;
    var delayed := if number < p.byzantiumForkBlock then n else if 3000000 <= n then n - 3000000 else 0;
    var periods := delayed / 100000;
    if 1 < periods then Pow2(periods - 2) else 0
  }

  datatype Computed = Value(value: u256) | GenesisBlockCannotBeCalculated

  function CalculateDifficulty(p: Params, number: int, timestamp: int, parent: Header): Computed
    requires 0 < p.difficultyBoundDivisor
  {
    if number == 0 then GenesisBlockCannotBeCalculated
    else
      var o := Target(p, number, timestamp, parent) + Bomb(p, number, parent);
      Value(Min(Max(p.minimumDifficulty, o), TWO_256 - 1))
  }

  // ---------------------------------------------------------------- difficulty, as numbers

  /** The adjustment of a block that is not before its parent: one unit less for every tick, and never below -99. */
  lemma AdjustmentIs(p: Params, number: int, timestamp: int, parent: Header)
    requires parent.timestamp <= timestamp
    ensures var elapsed, a := timestamp - parent.timestamp, Adjustment(p, number, timestamp, parent);
            && (number < p.byzantiumForkBlock && elapsed < 1000 ==> a == 1 - elapsed / 10)
            && (number < p.byzantiumForkBlock && 1000 <= elapsed ==> a == -99)
            && (p.byzantiumForkBlock <= number && parent.hasUncles && elapsed < 909 ==> a == 2 - elapsed / 9)
            && (p.byzantiumForkBlock <= number && !parent.hasUncles && elapsed < 900 ==> a == 1 - elapsed / 9)
            && (p.byzantiumForkBlock <= number && 909 <= elapsed ==> a == -99)
            && (p.byzantiumForkBlock <= number && !parent.hasUncles && 900 <= elapsed ==> a == -99)
  {
  }

  /** The block number that the ice age goes by, from Byzantium on three million less. */
  function Age(p: Params, number: int, parent: Header): int {
    if number < p.byzantiumForkBlock then parent.number + 1 else parent.number + 1 - 3_000_000
  }

  /** The ice age begins with one at 200000, */
  lemma IceAgeBegins(p: Params, number: int, parent: Header)
    requires 0 <= parent.number < 0xffff_ffff
    ensures Age(p, number, parent) < 200_000 ==> Bomb(p, number, parent) == 0
    ensures 200_000 <= Age(p, number, parent) < 300_000 ==> Bomb(p, number, parent) == 1
  {
  }

  /** and doubles every 100000 blocks. */
  lemma IceAgeDoubles(p: Params, number: int, number': int, parent: Header, parent': Header)
    requires 0 <= parent.number && parent'.number == parent.number + 100_000 < 0xffff_ffff
    requires number < p.byzantiumForkBlock <==> number' < p.byzantiumForkBlock
    requires 200_000 <= Age(p, number, parent)
    ensures Bomb(p, number', parent') == 2 * Bomb(p, number, parent)
  {
    var periods := Age(p, number, parent) / 100_000;
    assert Age(p, number', parent') / 100_000 == periods + 1;
    assert Bomb(p, number, parent) == Pow2(periods - 2);
    assert Bomb(p, number', parent') == Pow2(periods - 1);
  }

  /** What a difficulty is, fork by fork, before it is kept between the minimum and the largest number. */
  lemma DifficultyIs(p: Params, number: int, timestamp: int, parent: Header)
    requires 0 < p.difficultyBoundDivisor && number != 0
    ensures CalculateDifficulty(p, number, timestamp, parent).Value?
    ensures var d, v := parent.difficulty, CalculateDifficulty(p, number, timestamp, parent).value;
            var bomb, limit := Bomb(p, number, parent), parent.timestamp + p.durationLimit;
            var a, s := Adjustment(p, number, timestamp, parent), d / p.difficultyBoundDivisor;
            && (p.homesteadForkBlock <= number ==> Clamped(v, d + d / 2048 * a + bomb, p.minimumDifficulty))
            && (number < p.homesteadForkBlock && limit <= timestamp ==> Clamped(v, d - s + bomb, p.minimumDifficulty))
            && (number < p.homesteadForkBlock && timestamp < limit && d + s < TWO_256 ==>
                  Clamped(v, d + s + bomb, p.minimumDifficulty))
            && (number < p.homesteadForkBlock && timestamp < limit && TWO_256 <= d + s ==>
                  Clamped(v, d + s - TWO_256 + bomb, p.minimumDifficulty))
  {
    var s := parent.difficulty / p.difficultyBoundDivisor;
    Shrinks(parent.difficulty, p.difficultyBoundDivisor);
  }

  /** `v` is `o`, or the least or the largest difficulty where `o` is beyond it. */
  predicate Clamped(v: int, o: int, least: u256) {
    && least <= v < TWO_256
    && (least <= o < TWO_256 ==> v == o) && (o < least ==> v == least) && (TWO_256 <= o ==> v == TWO_256 - 1)
  }

  /** Difficulty never falls below the minimum. */
  lemma DifficultyAtLeastMinimum(p: Params, number: int, timestamp: int, parent: Header)
    requires 0 < p.difficultyBoundDivisor && number != 0
    ensures p.minimumDifficulty <= CalculateDifficulty(p, number, timestamp, parent).value
  {
  }

  lemma TruncDivMonotone(a: int, a': int)
    requires a <= a'
    ensures TruncDiv(a, 9) <= TruncDiv(a', 9) && TruncDiv(a, 10) <= TruncDiv(a', 10)
  {
  }

  lemma AdjustmentFalls(p: Params, number: int, timestamp: int, later: int, parent: Header)
    requires timestamp <= later
    ensures -99 <= Adjustment(p, number, later, parent) <= Adjustment(p, number, timestamp, parent)
  {
    TruncDivMonotone(timestamp - parent.timestamp, later - parent.timestamp);
  }

  /** From Homestead on, a later timestamp never makes for a higher difficulty. */
  lemma HomesteadFallsWithTime(p: Params, number: int, timestamp: int, later: int, parent: Header)
    requires 0 < p.difficultyBoundDivisor && number != 0 && p.homesteadForkBlock <= number && timestamp <= later
    ensures CalculateDifficulty(p, number, later, parent).value
            <= CalculateDifficulty(p, number, timestamp, parent).value
  {
    AdjustmentFalls(p, number, timestamp, later, parent);
    UnitsGrow(parent.difficulty / 2048, Adjustment(p, number, later, parent), Adjustment(p, number, timestamp, parent));
  }

  /**
   Before Homestead the parent's difficulty and its step are added on 256 bits.  A sum that wraps is small, and the
   difficulty of a block in time is then below that of a late one, unless the ice age or the minimum makes up for it.
   */
  predicate Wraps(p: Params, number: int, timestamp: int, later: int, parent: Header)
    requires 0 < p.difficultyBoundDivisor
  {
    var threshold := parent.timestamp + p.durationLimit;
    var up := parent.difficulty + parent.difficulty / p.difficultyBoundDivisor;
    && number < p.homesteadForkBlock && timestamp < threshold <= later
    && 2 <= p.difficultyBoundDivisor && TWO_256 <= up
    && Max(p.minimumDifficulty, up - TWO_256 + Bomb(p, number, parent)) < TWO_256 - 1
    && p.minimumDifficulty < 2 * parent.difficulty - up + Bomb(p, number, parent)
  }

  /** Quotients by two or more are at most half. */
  lemma AtMostHalf(d: nat, q: nat, b: nat)
    requires 2 <= b && q * b <= d
    ensures 2 * q <= d
  {
    assert q * b == 2 * q + q * (b - 2);
  }

  lemma QuotientAtMostHalf(d: nat, b: nat)
    requires 2 <= b
    ensures 0 <= d / b && 2 * (d / b) <= d
  {
    var q: nat := d / b;
    assert q * b <= d;
    AtMostHalf(d, q, b);
  }

  /** The two difficulties before Homestead, with `s` the step and `bomb` the ice age. */
  lemma FrontierCompares(d: nat, s: nat, bomb: nat, least: nat)
    requires d < TWO_256 && (2 * s <= d || s == d)
    ensures var up := if d + s < TWO_256 then d + s else d + s - TWO_256;
            Min(Max(least, d - s + bomb), TWO_256 - 1) <= Min(Max(least, up + bomb), TWO_256 - 1)
            <==> d + s < TWO_256 || s == d || TWO_256 - 1 <= Max(least, up + bomb) || d - s + bomb <= least
  {
  }

  /** A later timestamp makes for a higher difficulty exactly when that sum wraps. */
  lemma DifficultyFallsWithTime(p: Params, number: int, timestamp: int, later: int, parent: Header)
    requires 0 < p.difficultyBoundDivisor && number != 0 && timestamp <= later
    ensures CalculateDifficulty(p, number, later, parent).value
            <= CalculateDifficulty(p, number, timestamp, parent).value
            <==> !Wraps(p, number, timestamp, later, parent)
  {
    if p.homesteadForkBlock <= number {
      HomesteadFallsWithTime(p, number, timestamp, later, parent);
    } else {
      var s := parent.difficulty / p.difficultyBoundDivisor;
      if p.difficultyBoundDivisor == 1 {
        assert s == parent.difficulty;
      } else {
        QuotientAtMostHalf(parent.difficulty, p.difficultyBoundDivisor);
      }
      FrontierCompares(parent.difficulty, s, Bomb(p, number, parent), p.minimumDifficulty);
    }
  }

  /** An input for which it does: the largest difficulty, and blocks one second and 13 seconds after their parent. */
  lemma WrappedDifficultyRises(p: Params)
    requires Default(p) && 1 < p.homesteadForkBlock
    ensures var parent := Header(0, 0, TWO_256 - 1, 5000, 0, false, 0, 0);
            CalculateDifficulty(p, 1, 1, parent).value < CalculateDifficulty(p, 1, 13, parent).value
  {
    var parent := Header(0, 0, TWO_256 - 1, 5000, 0, false, 0, 0);
    assert Bomb(p, 1, parent) == 0;
    assert Wraps(p, 1, 1, 13, parent);
    DifficultyFallsWithTime(p, 1, 1, 13, parent);
  }

  lemma UnitsGrow(unit: nat, a: int, b: int)
    requires a <= b
    ensures unit * a <= unit * b
  {
  }

  /** How many units difficulty can gain at most. */
  function MostUnits(p: Params, number: int, parent: Header): nat {
    if p.byzantiumForkBlock <= number && parent.hasUncles then 2 else 1
  }

  /** One tick of the clock in units of the adjustment. */
  function Tick(p: Params, number: int): int { if number < p.byzantiumForkBlock then 10 else 9 }

  /** The adjustment stays within its bounds exactly when the block is not too far before its parent. */
  lemma AdjustmentBound(p: Params, number: int, timestamp: int, parent: Header)
    ensures Adjustment(p, number, timestamp, parent) <= MostUnits(p, number, parent)
            <==> -Tick(p, number) < timestamp - parent.timestamp
  {
  }

  /** From Homestead on, difficulty moves by -99 to +2 units of a 2048th, and the ice age comes on top. */
  lemma DifficultyMovesLittle(p: Params, number: int, timestamp: int, parent: Header)
    requires 0 < p.difficultyBoundDivisor && number != 0 && p.homesteadForkBlock <= number
    requires parent.timestamp < timestamp
    ensures var d, unit, bomb := parent.difficulty, parent.difficulty / 2048, Bomb(p, number, parent);
            var r := CalculateDifficulty(p, number, timestamp, parent).value;
            && Min(Max(p.minimumDifficulty, d - 99 * unit + bomb), TWO_256 - 1) <= r
            && r <= Min(Max(p.minimumDifficulty, d + MostUnits(p, number, parent) * unit + bomb), TWO_256 - 1)
            && 0 <= d - 99 * unit
  {
    AdjustmentBound(p, number, timestamp, parent);
    UnitsBetween(parent.difficulty, Adjustment(p, number, timestamp, parent), MostUnits(p, number, parent));
  }

  lemma UnitsBetween(d: u256, a: int, most: nat)
    requires -99 <= a <= most
    ensures 0 <= d - 99 * (d / 2048) <= d + d / 2048 * a <= d + most * (d / 2048)
  {
    var unit := d / 2048;
    assert 2048 * unit <= d;
    assert unit * -99 <= unit * a <= unit * most;
  }

  // ---------------------------------------------------------------- gas limit

  const INVALID_256: u256 := TWO_256 - 1

  /** How far a gas limit may move from one block to the next. */
  function Step(p: Params, limit: u256): (r: u256)
    requires 0 < p.gasLimitBoundDivisor
    ensures r <= limit
  {
    Shrinks(limit, p.gasLimitBoundDivisor);
    limit / p.gasLimitBoundDivisor
  }

  lemma Shrinks(a: nat, b: nat)
    requires 0 < b
    ensures 0 <= a / b <= a
  {
    var q: nat := a / b;
    MulGrows(q, b);
    assert q * b <= a;
  }

  lemma {:induction false} MulGrows(q: nat, b: nat)
    requires 0 < b
    ensures q <= q * b
  {
    if 0 < q {
      MulGrows(q - 1, b);
      assert q * b == (q - 1) * b + b;
    }
  }

  /** What the gas used adds to the next limit, on 256 bits. */
  function Bonus(p: Params, gasUsed: u256): (r: u256)
    requires 0 < p.gasLimitBoundDivisor
  {
    Step(p, gasUsed * 6 % TWO_256 / 5)
  }

  function ChildGasLimit(p: Params, parent: Header, target: u256): u256
    requires 0 < p.gasLimitBoundDivisor
  {
    var floor := Floor(target);
    var limit := parent.gasLimit;
    if limit < floor then
      var up: u256 := Sub(Add(limit, Step(p, limit)), 1);
      if floor <= up then floor else up
    else
      var down: u256 := Add(Add(Sub(limit, Step(p, limit)), 1), Bonus(p, parent.gasUsed));
      if floor <= down then down else floor
  }

  datatype Verdict = Valid | InvalidNumber | TooMuchGasUsed | InvalidParentHash | InvalidTimestamp | InvalidDifficulty
                   | InvalidGasLimit

  /** The checks of a new header against its parent, in their order; seal and extra data are not looked at. */
  function Verify(p: Params, h: Header, parent: Header): Verdict
    requires 0 < p.gasLimitBoundDivisor && 0 < p.difficultyBoundDivisor
  {
    if h.number > 0xffff_ffff then InvalidNumber
    else if h.gasUsed > h.gasLimit then TooMuchGasUsed
    else if h.parentHash != 0 && parent.hash != h.parentHash then InvalidParentHash
    else if h.timestamp <= parent.timestamp then InvalidTimestamp
    else if h.number != parent.number + 1 then InvalidNumber
    else if h.difficulty < p.minimumDifficulty then InvalidDifficulty
    else if h.gasLimit < p.minGasLimit || h.gasLimit > p.maxGasLimit then InvalidGasLimit
    else if CalculateDifficulty(p, h.number, h.timestamp, parent) != Value(h.difficulty) then InvalidDifficulty
    else if h.gasLimit <= Sub(parent.gasLimit, Step(p, parent.gasLimit))
            || Add(parent.gasLimit, Step(p, parent.gasLimit)) <= h.gasLimit then InvalidGasLimit
    else Valid
  }

  /** A header is valid exactly if all of this holds. */
  lemma VerifyIs(p: Params, h: Header, parent: Header)
    requires Default(p)
    ensures var limit, step := parent.gasLimit, parent.gasLimit / 1024;
            Verify(p, h, parent) == Valid <==>
              && h.number == parent.number + 1 && h.number <= 0xffff_ffff && h.number != 0
              && parent.timestamp < h.timestamp
              && (h.parentHash == 0 || h.parentHash == parent.hash)
              && h.gasUsed <= h.gasLimit
              && 5000 <= h.gasLimit <= 0x7fff_ffff_ffff_ffff && limit - step < h.gasLimit < limit + step
              && h.difficulty == CalculateDifficulty(p, h.number, h.timestamp, parent).value
  {
    StepIs(p, parent.gasLimit);
    if h.number != 0 {
      DifficultyAtLeastMinimum(p, h.number, h.timestamp, parent);
    }
  }

  /** A header with a millionth of the difficulty it should have is refused, though all else about it is right. */
  lemma WrongDifficultyIsRefused(p: Params)
    requires Default(p) && p.homesteadForkBlock == 0 && p.byzantiumForkBlock == 0
    ensures var parent := Header(1, 0, 1_000_000_000_000_000, 5_000_000, 0, false, 0, 7);
            && Verify(p, Header(2, 13, 131_072, 5_000_000, 0, false, 7, 8), parent) != Valid
            && Verify(p, Header(2, 13, 1_000_000_000_000_000, 5_000_000, 0, false, 7, 8), parent) == Valid
  {
    var parent := Header(1, 0, 1_000_000_000_000_000, 5_000_000, 0, false, 0, 7);
    AdjustmentIs(p, 2, 13, parent);
    IceAgeBegins(p, 2, parent);
    DifficultyIs(p, 2, 13, parent);
    VerifyIs(p, Header(2, 13, 131_072, 5_000_000, 0, false, 7, 8), parent);
    VerifyIs(p, Header(2, 13, 1_000_000_000_000_000, 5_000_000, 0, false, 7, 8), parent);
  }

  /** A header filled in from its parent, as `populateFromParent` does once the timestamp is set. */
  function Populate(p: Params, timestamp: int64, parent: Header): Header
    requires 0 < p.gasLimitBoundDivisor && 0 < p.difficultyBoundDivisor && 0 <= parent.number < INT64 - 1
  {
    Header(parent.number + 1, timestamp, CalculateDifficulty(p, parent.number + 1, timestamp, parent).value,
           ChildGasLimit(p, parent, INVALID_256), 0, false, parent.hash, 0)
  }

  lemma PopulatedIs(p: Params, timestamp: int64, parent: Header)
    requires Default(p) && 0 <= parent.number < INT64 - 1
    ensures var h := Populate(p, timestamp, parent);
            && h.number == parent.number + 1 && h.timestamp == timestamp && h.parentHash == parent.hash
            && h.gasUsed == 0 && !h.hasUncles
            && h.difficulty == CalculateDifficulty(p, h.number, timestamp, parent).value
            && h.gasLimit == ChildGasLimit(p, parent, TWO_256 - 1)
  {
  }

  lemma StepIs(p: Params, limit: u256)
    requires Default(p)
    ensures Step(p, limit) == limit / 1024
  {
  }

  lemma BonusIs(p: Params, gasUsed: u256)
    requires Default(p) && gasUsed < TWO_256 / 16
    ensures Bonus(p, gasUsed) == gasUsed * 6 / 5 / 1024
  {
    assert gasUsed * 6 % TWO_256 == gasUsed * 6;
    StepIs(p, gasUsed * 6 / 5);
  }

  /** The child's limit in plain numbers. */
  function PlainLimit(limit: nat, gasUsed: nat, floor: nat): int {
    if limit < floor then Min(floor, limit + limit / 1024 - 1)
    else Max(floor, limit - limit / 1024 + 1 + gasUsed * 6 / 5 / 1024)
  }

  function Floor(target: u256): u256 { if target == INVALID_256 then 3141562 else target }

  lemma ChildIsPlain(p: Params, parent: Header, target: u256)
    requires Default(p) && 5000 <= parent.gasLimit < TWO_256 / 16 && parent.gasUsed <= parent.gasLimit
    ensures ChildGasLimit(p, parent, target) == PlainLimit(parent.gasLimit, parent.gasUsed, Floor(target))
  {
    StepIs(p, parent.gasLimit);
    BonusIs(p, parent.gasUsed);
  }

  /** The child's limit goes towards the target by as much as it may, and by less only to meet it. */
  lemma ChildLimitIs(p: Params, parent: Header, target: u256)
    requires Default(p) && 5000 <= parent.gasLimit < TWO_256 / 16 && parent.gasUsed <= parent.gasLimit
    ensures var limit, child := parent.gasLimit, ChildGasLimit(p, parent, target);
            var goal := if target == TWO_256 - 1 then 3141562 else target;
            var most := limit + limit / 1024 - 1;
            var least := limit - limit / 1024 + 1 + parent.gasUsed * 6 / 5 / 1024;
            && (limit < goal ==> child <= goal && child <= most && (child == goal || child == most))
            && (goal <= limit ==> goal <= child && least <= child && (child == goal || child == least))
  {
    ChildIsPlain(p, parent, target);
  }

  lemma PlainWithinBounds(limit: nat, gasUsed: nat, floor: nat)
    requires 5000 <= limit && gasUsed <= limit
    ensures limit - limit / 1024 < PlainLimit(limit, gasUsed, floor) < limit + limit / 1024
  {
  }

  /** For any target, the child's limit stays strictly between the bounds that the parent sets. */
  lemma ChildWithinBounds(p: Params, parent: Header, target: u256)
    requires Default(p) && 5000 <= parent.gasLimit < TWO_256 / 16 && parent.gasUsed <= parent.gasLimit
    ensures var limit, step := parent.gasLimit, parent.gasLimit / 1024;
            limit - step < ChildGasLimit(p, parent, target) < limit + step
  {
    ChildIsPlain(p, parent, target);
    PlainWithinBounds(parent.gasLimit, parent.gasUsed, Floor(target));
  }

  /** Whether the limit of a full parent's child would stay below the maximum. */
  predicate Room(p: Params, parent: Header) {
    parent.gasLimit < 3141562
    || parent.gasLimit - parent.gasLimit / 1024 + 1 + parent.gasUsed * 6 / 5 / 1024 <= p.maxGasLimit
  }

  lemma ChildHasRoom(p: Params, parent: Header)
    requires Default(p) && 5000 <= parent.gasLimit <= p.maxGasLimit && parent.gasUsed <= parent.gasLimit
    ensures 5000 <= ChildGasLimit(p, parent, INVALID_256)
    ensures ChildGasLimit(p, parent, INVALID_256) <= p.maxGasLimit <==> Room(p, parent)
    ensures parent.gasLimit + parent.gasLimit / 1024 <= p.maxGasLimit ==> Room(p, parent)
  {
    ChildIsPlain(p, parent, INVALID_256);
    PlainWithinBounds(parent.gasLimit, parent.gasUsed, 3141562);
  }

  /** A populated header is valid exactly when its gas limit has room below the maximum. */
  lemma PopulatedIsValid(p: Params, timestamp: int64, parent: Header)
    requires Default(p) && 5000 <= parent.gasLimit <= p.maxGasLimit && parent.gasUsed <= parent.gasLimit
    requires 0 <= parent.number < 0xffff_ffff && parent.timestamp < timestamp
    ensures Verify(p, Populate(p, timestamp, parent), parent) == Valid <==> Room(p, parent)
    ensures parent.gasLimit + parent.gasLimit / 1024 <= p.maxGasLimit ==> Room(p, parent)
  {
    DifficultyAtLeastMinimum(p, parent.number + 1, timestamp, parent);
    ChildHasRoom(p, parent);
    ChildWithinBounds(p, parent, INVALID_256);
    StepIs(p, parent.gasLimit);
    var h := Populate(p, timestamp, parent);
    assert Sub(parent.gasLimit, Step(p, parent.gasLimit)) < h.gasLimit < Add(parent.gasLimit, Step(p, parent.gasLimit));
  }

  /** A full parent whose gas limit is the maximum has no room: the header populated from it is not valid. */
  lemma FullParentHasNoRoom(p: Params, timestamp: int64, parent: Header)
    requires Default(p) && 0 < timestamp
    requires parent == Header(0, 0, parent.difficulty, 0x7fff_ffff_ffff_ffff, 0x7fff_ffff_ffff_ffff, false, 0, 0)
    ensures Verify(p, Populate(p, timestamp, parent), parent) != Valid
  {
    PopulatedIsValid(p, timestamp, parent);
  }
}
