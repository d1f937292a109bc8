/** The permit fee in cents: a surcharge for difficulty and weekends, a rebate for
    large parties, all in integer arithmetic. */
module Fee {

  /** Division that cuts towards zero, as the program's does. */
  function Quotient(a: int, b: int): int
    requires b > 0
  {
    if a >= 0 then a / b else -(-a / b)
  }

  /** The fee per seat after surcharges. */
  function Unit(unitFee: int, difficulty: int, weekend: bool): int {
    var hard := unitFee + (difficulty - 1) * 1500;
    if weekend then hard + Quotient(hard, 5) else hard
  }

  /** The fee of a whole party, from eight seats on with a tenth off. */
  function Charge(unit: int, seats: int): int {
    if seats <= 0 then 0
    else if seats >= 8 then unit * seats - Quotient(unit * seats, 10)
    else unit * seats
  }

  method PermitFee(unitFee: int, difficulty: int, seats: int, weekend: bool) returns (total: int)
    ensures total == Charge(Unit(unitFee, difficulty, weekend), seats)
    ensures var perSeat := unitFee + 1500 * (difficulty - 1);
            && (seats <= 0 ==> total == 0)
            && (1 <= seats < 8 && !weekend ==> total == perSeat * seats)
            && (1 <= seats < 8 && weekend && perSeat >= 0 ==> total == (perSeat + perSeat / 5) * seats)
            && (seats >= 8 && !weekend && perSeat >= 0 ==> total == perSeat * seats - perSeat * seats / 10)
            && (seats >= 8 && weekend && perSeat >= 0 ==>
                  total == (perSeat + perSeat / 5) * seats - (perSeat + perSeat / 5) * seats / 10)
    ensures unitFee >= 0 && difficulty >= 1 && seats > 0 ==>
              var full := Unit(unitFee, difficulty, weekend) * seats;
              9 * full <= 10 * total <= 10 * full && total >= unitFee * seats - unitFee * seats / 10
  {
    if seats <= 0 {
      return 0;
    }
    var unit := unitFee + (difficulty - 1) * 1500;
    if weekend {
      unit := unit + Quotient(unit, 5);
    }
    total := unit * seats;
    if seats >= 8 {
      total := total - Quotient(total, 10);
    }
    FeeInWords(unitFee, difficulty, seats, weekend);
    if unitFee >= 0 && difficulty >= 1 {
      FeeBounds(unitFee, difficulty, seats, weekend);
    }
  }

  lemma FeeInWords(unitFee: int, difficulty: int, seats: int, weekend: bool)
    ensures var perSeat := unitFee + 1500 * (difficulty - 1);
            var total := Charge(Unit(unitFee, difficulty, weekend), seats);
            && (seats <= 0 ==> total == 0)
            && (1 <= seats < 8 && !weekend ==> total == perSeat * seats)
            && (1 <= seats < 8 && weekend && perSeat >= 0 ==> total == (perSeat + perSeat / 5) * seats)
            && (seats >= 8 && !weekend && perSeat >= 0 ==> total == perSeat * seats - perSeat * seats / 10)
            && (seats >= 8 && weekend && perSeat >= 0 ==>
                  total == (perSeat + perSeat / 5) * seats - (perSeat + perSeat / 5) * seats / 10)
  {
    var perSeat := unitFee + 1500 * (difficulty - 1);
    if perSeat >= 0 && seats > 0 {
      assert perSeat * seats >= 0;
      assert (perSeat + perSeat / 5) * seats >= 0;
    }
  }

  /** A fee is never less than nine tenths of the seats at the base fee. */
  lemma FeeBounds(unitFee: int, difficulty: int, seats: int, weekend: bool)
    requires unitFee >= 0 && difficulty >= 1 && seats > 0
    ensures var full := Unit(unitFee, difficulty, weekend) * seats;
            var total := Charge(Unit(unitFee, difficulty, weekend), seats);
            9 * full <= 10 * total <= 10 * full && total >= unitFee * seats - unitFee * seats / 10
  {
    hide Unit;
    UnitCoversBase(unitFee, difficulty, weekend);
    Scaled(unitFee, Unit(unitFee, difficulty, weekend), seats);
  }

  /** The unit fee is that of the easiest grade; each further grade adds 15.00 to a seat, a
      weekend a fifth, rounded down to a cent, and the eighth seat a tenth off the whole. */
  lemma Surcharges(unitFee: nat, difficulty: int, seats: nat)
    requires difficulty >= 1
    ensures Unit(unitFee, 1, false) == unitFee
    ensures Unit(unitFee, difficulty + 1, false) == Unit(unitFee, difficulty, false) + 1500
    ensures var weekday, weekend := Unit(unitFee, difficulty, false), Unit(unitFee, difficulty, true);
            6 * weekday - 5 < 5 * weekend <= 6 * weekday
    ensures var unit := Unit(unitFee, difficulty, false); var full := unit * seats;
            && (seats < 8 ==> Charge(unit, seats) == full)
            && (seats >= 8 ==> 9 * full <= 10 * Charge(unit, seats) < 9 * full + 10)
  {
    hide Unit;
    UnitCoversBase(unitFee, difficulty, false);
    UnitRises(unitFee, difficulty);
    var unit := Unit(unitFee, difficulty, false);
    assert unit * seats >= 0;
  }

  lemma UnitRises(unitFee: nat, difficulty: int)
    requires difficulty >= 1
    ensures Unit(unitFee, 1, false) == unitFee
    ensures Unit(unitFee, difficulty + 1, false) == Unit(unitFee, difficulty, false) + 1500
    ensures var weekday, weekend := Unit(unitFee, difficulty, false), Unit(unitFee, difficulty, true);
            6 * weekday - 5 < 5 * weekend <= 6 * weekday
  {
  }

  lemma Scaled(a: int, b: int, k: nat)
    requires a <= b
    ensures a * k <= b * k
  {
  }

  lemma UnitCoversBase(unitFee: int, difficulty: int, weekend: bool)
    requires unitFee >= 0 && difficulty >= 1
    ensures Unit(unitFee, difficulty, weekend) >= unitFee
  {
  }

  /** One more hiker never makes the party cheaper, although the rebate starts at
      the eighth. */
  lemma MoreSeatsCostMore(unit: int, fewer: int, more: int)
    requires unit >= 0 && fewer <= more
    ensures Charge(unit, fewer) <= Charge(unit, more)
  {
    if fewer > 0 {
      var a, b := unit * fewer, unit * more;
      assert b - a == unit * (more - fewer) >= 0;
      if fewer < 8 <= more {
        assert a <= unit * 7 by {
          assert unit * 7 - a == unit * (7 - fewer);
        }
        assert b >= unit * 8 by {
          assert b - unit * 8 == unit * (more - 8);
        }
        assert b - b / 10 >= unit * 8 - unit * 8 / 10;
      }
    } else if more > 0 {
      assert unit * more >= 0;
    }
  }

  /** Neither a harder trail nor a weekend nor a dearer season makes it cheaper. */
  lemma HarderCostsMore(unitFee: int, dearer: int, difficulty: int, harder: int, weekend: bool, seats: int)
    requires 0 <= unitFee <= dearer && 1 <= difficulty <= harder
    ensures Charge(Unit(unitFee, difficulty, weekend), seats) <= Charge(Unit(dearer, harder, weekend), seats)
    ensures Charge(Unit(unitFee, difficulty, false), seats) <= Charge(Unit(unitFee, difficulty, weekend), seats)
  {
    ChargeGrows(Unit(unitFee, difficulty, weekend), Unit(dearer, harder, weekend), seats);
    ChargeGrows(Unit(unitFee, difficulty, false), Unit(unitFee, difficulty, weekend), seats);
  }

  lemma ChargeGrows(unit: int, dearer: int, seats: int)
    requires 0 <= unit <= dearer
    ensures Charge(unit, seats) <= Charge(dearer, seats)
  {
  }

  /** Merging two parties never costs more than their two permits. */
  lemma MergingNeverCostsMore(unit: int, s: int, t: int)
    requires unit >= 0 && s > 0 && t > 0
    ensures Charge(unit, s + t) <= Charge(unit, s) + Charge(unit, t)
  {
  }
}
