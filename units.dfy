/** The display unit and the pound/kilogram conversion of the store (GymContext). */
module Units {

  datatype Unit = Lbs | Kg

  /** Pounds per kilogram: stored weights are pounds, kilogram entries are multiplied by this. */
  const PoundsPerKg: real := 2.20462

  /** The unit toggle: pounds become kilograms and kilograms become pounds. */
  function Toggled(u: Unit): (r: Unit)
    ensures r != u
  {
    if u == Lbs then Kg else Lbs
  }

  lemma ToggleTwice(u: Unit)
    ensures Toggled(Toggled(u)) == u
  {
  }

  /** JavaScript's Math.round: the nearest integer, halves rounded up. */
  function Round(x: real): (r: int)
    ensures x - 0.5 < r as real <= x + 0.5
  {
    (x + 0.5).Floor
  }

  /** Rounding picks the only integer in the half-open window around its argument. */
  lemma RoundUnique(x: real, n: int)
    requires x - 0.5 < n as real <= x + 0.5
    ensures Round(x) == n
  {
  }

  lemma RoundMonotone(a: real, b: real)
    requires a <= b
    ensures Round(a) <= Round(b)
  {
  }

  /** The exact (unrounded) display value of a stored pound weight. */
  function Displayed(w: real, u: Unit): real
  {
    if u == Kg then w / PoundsPerKg else w
  }

  /** convertWeight: a stored pound weight rounded for display in the active unit. */
  function ConvertWeight(w: real, u: Unit): (r: int)
    ensures u == Lbs ==> w - 0.5 < r as real <= w + 0.5
    ensures u == Kg ==> w / PoundsPerKg - 0.5 < r as real <= w / PoundsPerKg + 0.5
  {
    if u == Kg then Round(w / PoundsPerKg) else Round(w)
  }

  /** The weight normalisation of addWorkout: an entered weight in the active unit, stored as pounds. */
  function ToPounds(w: real, u: Unit): (r: real)
    ensures Displayed(r, u) == w
    ensures u == Lbs ==> r == w
  {
    if u == Kg then w * PoundsPerKg else w
  }

  /** A larger stored weight never displays as a smaller number. */
  lemma ConvertWeightMonotone(a: real, b: real, u: Unit)
    requires a <= b
    ensures ConvertWeight(a, u) <= ConvertWeight(b, u)
  {
    if u == Kg {
      assert a / PoundsPerKg <= b / PoundsPerKg;
      RoundMonotone(a / PoundsPerKg, b / PoundsPerKg);
    } else {
      RoundMonotone(a, b);
    }
  }

  /** Entering a weight and displaying it again in the same unit gives the entered weight, rounded. */
  lemma {:induction false} EnterThenDisplay(w: real, u: Unit)
    ensures ConvertWeight(ToPounds(w, u), u) == Round(w)
  {
    var stored := ToPounds(w, u);
    assert Displayed(stored, u) == w;
    if u == Kg {
      assert stored / PoundsPerKg == w;
    }
  }

  /** Displaying in kilograms and entering the result again lands within half a kilogram
      (0.5 * 2.20462 pounds) of the stored weight; the loss is the display rounding. */
  lemma {:induction false} DisplayThenEnter(w: real)
    ensures -0.5 * PoundsPerKg < ToPounds(ConvertWeight(w, Kg) as real, Kg) - w <= 0.5 * PoundsPerKg
  {
    var k := ConvertWeight(w, Kg) as real;
    assert w / PoundsPerKg - 0.5 < k <= w / PoundsPerKg + 0.5;
    assert (w / PoundsPerKg) * PoundsPerKg == w;
    assert ToPounds(k, Kg) == k * PoundsPerKg;
  }

  /** 50 kg is stored as 110.231 lb and displayed in kilograms as 50 again. */
  lemma FiftyKilograms()
    ensures ToPounds(50.0, Kg) == 110.231
    ensures ConvertWeight(110.231, Kg) == 50
  {
    assert 110.231 / PoundsPerKg == 50.0;
    RoundUnique(50.0, 50);
  }
}
