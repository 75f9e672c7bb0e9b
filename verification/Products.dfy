/** Products that the solver sees as a function, and the few facts about them that the bounds on sums need. */
module Products {

  function Times(k: int, x: int): int {
    k * x
  }

  lemma TimesNext(k: int, a: int, b: int)
    ensures Times(k, a) + a == Times(k + 1, a) && Times(k, a) + Times(k, b) == Times(k, a + b)
    ensures Times(0, a) == 0 && Times(k, 0) == 0
  {
  }

  lemma NegativeProduct(k: int, x: int)
    requires k > 0 && x < 0
    ensures k * x < 0
  {
  }

  /** A sum of `number` terms, each of which `room` of them would keep within the margin, keeps within it. */
  lemma KeepsWithin(room: nat, sum: int, number: nat, margin: nat)
    requires Times(room, sum) + Times(number, margin) >= 0 && number <= room && (number == 0 ==> sum == 0)
    ensures margin + sum >= 0
  {
    assert (room - number) * margin >= 0;
    assert room * (margin + sum) >= 0;
    hide Times;
    if number > 0 && margin + sum < 0 { NegativeProduct(room, margin + sum); }
  }
}
