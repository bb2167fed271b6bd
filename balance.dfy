/** The balance card: the starting balance, edited as text, and the
    remaining balance with its badge and warning. */
module Balance {
  import opened Wrappers
  import opened Text
  import opened Bills

  /** What saving the text does to the balance (`parseFloat(tempValue) ||
      0`, then the sign test): it sets the number read, or 0 when nothing can
      be read, unless that number is negative, in which case nothing
      happens. */
  function SaveOutcome(tempValue: string): (r: Option<real>)
    ensures r.Some? ==> r.value >= 0.0
    ensures r.None? <==> ParseFloat(tempValue).Some? && ParseFloat(tempValue).value < 0.0
    ensures ParseFloat(tempValue).None? ==> r == Some(0.0)
    ensures ParseFloat(tempValue).Some? && ParseFloat(tempValue).value >= 0.0 ==> r == ParseFloat(tempValue)
  {
    var valor := match ParseFloat(tempValue) case None => 0.0 case Some(v) => v;
    if valor >= 0.0 then Some(valor) else None
  }

  /** Cancelling writes the balance back into the field, and saving that
      text then keeps the balance as it was. */
  lemma CancelThenSave(saldoInicial: real)
    requires saldoInicial >= 0.0 && IsCents(saldoInicial)
    ensures SaveOutcome(NumberText(saldoInicial)) == Some(saldoInicial)
  {
    NumberTextRoundTrip(saldoInicial);
  }

  /** The text on the remaining-balance badge. */
  function BadgeLabel(isPositive: bool): (badge: string)
    ensures badge == "Positivo" <==> isPositive
  {
    if isPositive then "Positivo" else "Negativo"
  }

  /** The overspending warning (`!isPositive && saldoInicial > 0`) shows
      exactly when there is a balance and the bills add up to more than
      it. */
  lemma WarningMeansOverspent(saldoInicial: real, contas: seq<Conta>)
    ensures !MetricsOf(saldoInicial, contas).isPositive && saldoInicial > 0.0
            <==> 0.0 < saldoInicial < Total(contas)
  {
    var m := MetricsOf(saldoInicial, contas);
    assert m.saldoRestante == saldoInicial - m.totalDespesas;
    assert m.totalDespesas == Total(contas);
  }

  /** The card's own state: whether the balance field is open, and its
      text. */
  class SaldoCard {
    var editing: bool
    var tempValue: string

    /** The field starts open when there is no balance yet, holding the
        balance as text. */
    constructor(saldoInicial: real)
      ensures editing <==> saldoInicial == 0.0
      ensures tempValue == NumberText(saldoInicial)
    {
      editing := saldoInicial == 0.0;
      tempValue := NumberText(saldoInicial);
    }

    /** The edit button. */
    method StartEditing()
      modifies this
      ensures editing && tempValue == old(tempValue)
    {
      editing := true;
    }

    /** Typing into the field. */
    method SetTempValue(text: string)
      modifies this
      ensures tempValue == text && editing == old(editing)
    {
      tempValue := text;
    }

    /** `handleSave`: a balance read as zero or more is stored and the
        field closes; a negative one changes nothing. */
    method HandleSave(app: Dashboard)
      modifies this, app
      ensures SaveOutcome(old(tempValue)).Some? ==>
                app.saldoInicial == SaveOutcome(old(tempValue)).value && !editing
      ensures SaveOutcome(old(tempValue)).None? ==>
                app.saldoInicial == old(app.saldoInicial) && editing == old(editing)
      ensures old(app.saldoInicial) >= 0.0 ==> app.saldoInicial >= 0.0
      ensures tempValue == old(tempValue)
      ensures app.contas == old(app.contas) && app.showContasForm == old(app.showContasForm)
    {
      var valor := match ParseFloat(tempValue) case None => 0.0 case Some(v) => v;
      if valor >= 0.0 {
        app.SetSaldoInicial(valor);
        editing := false;
      }
    }

    /** `handleCancel`: the field is reset to the current balance and
        closes. */
    method HandleCancel(app: Dashboard)
      modifies this
      ensures tempValue == NumberText(app.saldoInicial) && !editing
    {
      tempValue := NumberText(app.saldoInicial);
      editing := false;
    }
  }
}
