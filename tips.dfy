/** The financial tips card: an ordered list of rules over the remaining
    balance and the share of the balance already spent, cut to three. */
module Tips {
  import opened Wrappers

  datatype Tip =
    | SaldoNegativo
    | OportunidadeEconomia(economia10: real, economia20: real)
    | AltoPercentual(percentual: real)
    | ExcelenteControle(percentual: real)
    | RegraCinquentaTrintaVinte
    | ReservaEmergencia

  /** The share of the balance spent, in percent, or 0 when there is no
      positive balance to spend from. */
  function PercentualGasto(totalDespesas: real, saldoInicial: real): (p: real)
    ensures saldoInicial > 0.0 ==> p * saldoInicial == totalDespesas * 100.0
    ensures saldoInicial <= 0.0 ==> p == 0.0
  {
    if saldoInicial > 0.0 then (totalDespesas / saldoInicial) * 100.0 else 0.0
  }

  /** Every tip the rules produce, in the order they are pushed. */
  function Emitted(saldoRestante: real, totalDespesas: real, saldoInicial: real): (all: seq<Tip>)
    ensures 1 <= |all| <= 4
    ensures saldoRestante <= 0.0 ==> all[|all| - 1] == RegraCinquentaTrintaVinte
    ensures saldoRestante > 0.0 ==> 3 <= |all| && all[|all| - 2] == RegraCinquentaTrintaVinte
                                    && all[|all| - 1] == ReservaEmergencia
    ensures saldoRestante != 0.0 ==> all[0] == (if saldoRestante < 0.0 then SaldoNegativo
                                              else OportunidadeEconomia(saldoRestante * 0.1, saldoRestante * 0.2))
  {
    BalanceTip(saldoRestante) + SpendingTip(PercentualGasto(totalDespesas, saldoInicial))
    + [RegraCinquentaTrintaVinte] + ReserveTip(saldoRestante)
  }

  /** The first rule: a warning for a negative balance, a savings tip for a
      positive one. */
  function BalanceTip(saldoRestante: real): seq<Tip> {
    if saldoRestante < 0.0 then [SaldoNegativo]
    else if saldoRestante > 0.0 then [OportunidadeEconomia(saldoRestante * 0.1, saldoRestante * 0.2)]
    else []
  }

  /** The second rule, on the share of the balance spent. */
  function SpendingTip(p: real): seq<Tip> {
    if p > 90.0 then [AltoPercentual(p)] else if p < 50.0 then [ExcelenteControle(p)] else []
  }

  /** The last rule: an emergency reserve when something is left. */
  function ReserveTip(saldoRestante: real): seq<Tip> {
    if saldoRestante > 0.0 then [ReservaEmergencia] else []
  }

  function Min(a: int, b: int): int {
    if a <= b then a else b
  }

  /** `tips.slice(0, 3)` of the emitted tips: the first three, or all of
      them when there are fewer. */
  function Shown(saldoRestante: real, totalDespesas: real, saldoInicial: real): (tips: seq<Tip>)
    ensures 1 <= |tips| <= 3 && |tips| <= |Emitted(saldoRestante, totalDespesas, saldoInicial)|
    ensures tips == Emitted(saldoRestante, totalDespesas, saldoInicial)[..|tips|]
    ensures |tips| == 3 || tips == Emitted(saldoRestante, totalDespesas, saldoInicial)
  {
    var all := Emitted(saldoRestante, totalDespesas, saldoInicial);
    all[..Min(3, |all|)]
  }

  /** `getTips`: each rule pushes its tip onto a local list in turn, and the
      first three are returned. */
  method GetTips(saldoRestante: real, totalDespesas: real, saldoInicial: real) returns (tips: seq<Tip>)
    ensures tips == Shown(saldoRestante, totalDespesas, saldoInicial)
    ensures 1 <= |tips| <= 3
  {
    var all: seq<Tip> := [];
    var percentualGasto := if saldoInicial > 0.0 then (totalDespesas / saldoInicial) * 100.0 else 0.0;
    assert percentualGasto == PercentualGasto(totalDespesas, saldoInicial);

    if saldoRestante < 0.0 {
      all := all + [SaldoNegativo];
    } else if saldoRestante > 0.0 {
      var economia10 := saldoRestante * 0.1;
      var economia20 := saldoRestante * 0.2;
      all := all + [OportunidadeEconomia(economia10, economia20)];
    }
    assert all == BalanceTip(saldoRestante);

    if percentualGasto > 90.0 {
      all := all + [AltoPercentual(percentualGasto)];
    } else if percentualGasto < 50.0 {
      all := all + [ExcelenteControle(percentualGasto)];
    }
    assert all == BalanceTip(saldoRestante) + SpendingTip(percentualGasto);

    all := all + [RegraCinquentaTrintaVinte];

    if saldoRestante > 0.0 {
      all := all + [ReservaEmergencia];
    }
    assert all == Emitted(saldoRestante, totalDespesas, saldoInicial);
    tips := all[..Min(3, |all|)];
  }

  /** The card renders nothing for an empty tip list. */
  function Card(tips: seq<Tip>): (card: Option<seq<Tip>>)
    ensures card.Some? <==> tips != []
    ensures card.Some? ==> card.value == tips
  {
    if |tips| == 0 then None else Some(tips)
  }

  /** The 50-30-20 tip is pushed third at the latest, so it always survives
      the cut, and the card is never empty. */
  lemma RegraAlwaysShown(saldoRestante: real, totalDespesas: real, saldoInicial: real)
    ensures RegraCinquentaTrintaVinte in Shown(saldoRestante, totalDespesas, saldoInicial)
    ensures Card(Shown(saldoRestante, totalDespesas, saldoInicial)).Some?
  {
    var all := Emitted(saldoRestante, totalDespesas, saldoInicial);
    var k := |all| - (if saldoRestante > 0.0 then 2 else 1);
    assert all[k] == RegraCinquentaTrintaVinte;
    assert Shown(saldoRestante, totalDespesas, saldoInicial)[k] == all[k];
  }

  /** The negative-balance warning is shown exactly when the remaining
      balance is negative, and then first. */
  lemma SaldoNegativoShown(saldoRestante: real, totalDespesas: real, saldoInicial: real)
    ensures SaldoNegativo in Shown(saldoRestante, totalDespesas, saldoInicial) <==> saldoRestante < 0.0
    ensures saldoRestante < 0.0 ==> Shown(saldoRestante, totalDespesas, saldoInicial)[0] == SaldoNegativo
  {
    var all := Emitted(saldoRestante, totalDespesas, saldoInicial);
    var tips := Shown(saldoRestante, totalDespesas, saldoInicial);
    if saldoRestante >= 0.0 {
      assert forall t :: t in tips ==> t in all;
      assert SaldoNegativo !in all;
    }
  }

  /** The savings tip, with 10% and 20% of what remains, is shown exactly
      when something remains, and then first. */
  lemma OportunidadeShown(saldoRestante: real, totalDespesas: real, saldoInicial: real)
    ensures saldoRestante > 0.0 ==>
      Shown(saldoRestante, totalDespesas, saldoInicial)[0] == OportunidadeEconomia(saldoRestante / 10.0, saldoRestante / 5.0)
    ensures saldoRestante <= 0.0 ==>
      forall t :: t in Shown(saldoRestante, totalDespesas, saldoInicial) ==> !t.OportunidadeEconomia?
  {
    var all := Emitted(saldoRestante, totalDespesas, saldoInicial);
    assert forall t :: t in Shown(saldoRestante, totalDespesas, saldoInicial) ==> t in all;
  }

  /** With nothing left over, neither the warning nor the savings tip is shown. */
  lemma NothingLeft(totalDespesas: real, saldoInicial: real)
    ensures forall t :: t in Shown(0.0, totalDespesas, saldoInicial) ==> t != SaldoNegativo && !t.OportunidadeEconomia?
  {
    SaldoNegativoShown(0.0, totalDespesas, saldoInicial);
    OportunidadeShown(0.0, totalDespesas, saldoInicial);
  }

  /** The high-spending and the good-control tips exclude each other, and
      neither is shown for a share between 50% and 90%. */
  lemma PercentualTips(saldoRestante: real, totalDespesas: real, saldoInicial: real)
    ensures var p := PercentualGasto(totalDespesas, saldoInicial);
            var tips := Shown(saldoRestante, totalDespesas, saldoInicial);
            && (AltoPercentual(p) in tips <==> p > 90.0)
            && (ExcelenteControle(p) in tips <==> p < 50.0)
            && (forall t, u :: t in tips && u in tips && t.AltoPercentual? ==> !u.ExcelenteControle?)
  {
    var p := PercentualGasto(totalDespesas, saldoInicial);
    var all := Emitted(saldoRestante, totalDespesas, saldoInicial);
    var tips := Shown(saldoRestante, totalDespesas, saldoInicial);
    assert forall t :: t in tips ==> t in all;
    var s := if saldoRestante != 0.0 then 1 else 0;
    assert |BalanceTip(saldoRestante)| == s;
    if p > 90.0 {
      assert all[s] == AltoPercentual(p);
      assert tips[s] == all[s];
    } else if p < 50.0 {
      assert all[s] == ExcelenteControle(p);
      assert tips[s] == all[s];
    }
  }

  /** The emergency-reserve tip survives the cut exactly when something
      remains and neither percentage tip was pushed. */
  lemma ReservaShown(saldoRestante: real, totalDespesas: real, saldoInicial: real)
    ensures var p := PercentualGasto(totalDespesas, saldoInicial);
            (ReservaEmergencia in Shown(saldoRestante, totalDespesas, saldoInicial) <==> saldoRestante > 0.0 && 50.0 <= p <= 90.0)
  {
    var p := PercentualGasto(totalDespesas, saldoInicial);
    var all := Emitted(saldoRestante, totalDespesas, saldoInicial);
    var tips := Shown(saldoRestante, totalDespesas, saldoInicial);
    if saldoRestante > 0.0 && 50.0 <= p <= 90.0 {
      assert tips[2] == ReservaEmergencia;
    } else {
      assert forall i :: 0 <= i < |tips| ==> tips[i] == all[i];
      assert forall i :: 0 <= i < |all| - 1 ==> all[i] != ReservaEmergencia;
    }
  }

  /** A worked case: a balance of 100 with 95 spent shows the savings tip,
      the high-spending tip and the 50-30-20 tip. */
  lemma ExampleHighSpending()
    ensures Shown(5.0, 95.0, 100.0) == [OportunidadeEconomia(0.5, 1.0), AltoPercentual(95.0), RegraCinquentaTrintaVinte]
  {
    assert PercentualGasto(95.0, 100.0) == 95.0;
  }

  /** A worked case: a balance of 100 with 70 spent shows the savings tip,
      the 50-30-20 tip and the emergency reserve. */
  lemma ExampleModerateSpending()
    ensures Shown(30.0, 70.0, 100.0) == [OportunidadeEconomia(3.0, 6.0), RegraCinquentaTrintaVinte, ReservaEmergencia]
  {
    assert PercentualGasto(70.0, 100.0) == 70.0;
  }
}
