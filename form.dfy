/** The bill form: the text it holds, the checks run on submit, and the
    record it hands on. */
module Form {
  import opened Wrappers
  import opened Text
  import opened Bills

  datatype Field = Nome | Valor | Vencimento

  /** What the inputs hold: every field is text except the category. */
  datatype FormData = FormData(nome: string, valor: string, vencimento: string, tipo: Category, observacao: string)

  const EmptyForm := FormData("", "", "", Fixa, "")

  /** The three error messages, shown under their fields (their wording
      is not modelled). */
  datatype Message = NomeObrigatorio | ValorPositivo | VencimentoObrigatorio

  /** The form's starting text: the bill being edited, written out, or
      empty fields of a fixed bill. An edit form holds the bill's own name,
      due date and category, its note or `""` when it has none, and its
      amount as text (read back by `InitialValorParses`). */
  function InitialForm(initialData: Option<ContaData>): (f: FormData)
    ensures initialData.None? ==> f == EmptyForm
    ensures initialData.Some? ==>
              && f.nome == initialData.value.nome
              && f.vencimento == initialData.value.vencimento
              && f.tipo == initialData.value.tipo
              && f.observacao == (if initialData.value.observacao.Some? then initialData.value.observacao.value else "")
              && f.valor != []
  {
    match initialData
    case None => EmptyForm
    case Some(d) =>
      FormData(d.nome, NumberText(d.valor), d.vencimento, d.tipo,
               match d.observacao case None => "" case Some(o) => o)
  }

  /** The amount is missing, not a number, or not positive. The test for a
      missing amount is subsumed: an empty amount is not a number. */
  predicate ValorInvalid(valor: string): (invalid: bool)
    ensures invalid <==> ParseFloat(valor).None? || ParseFloat(valor).value <= 0.0
  {
    valor == [] || ParseFloat(valor).None? || ParseFloat(valor).value <= 0.0
  }

  /** The error map `validateForm` builds, one key per failed check. */
  function Errors(f: FormData): (e: map<Field, Message>)
    ensures Nome in e <==> Trim(f.nome) == []
    ensures Valor in e <==> ValorInvalid(f.valor)
    ensures Vencimento in e <==> f.vencimento == []
  {
    var e1 := CheckNome(f, map[]);
    assert Valor !in e1 && Vencimento !in e1;
    var e2 := CheckValor(f, e1);
    assert Vencimento !in e2 && (Nome in e2 <==> Nome in e1);
    var e3 := CheckVencimento(f, e2);
    assert (Nome in e3 <==> Nome in e1) && (Valor in e3 <==> Valor in e2);
    e3
  }

  function CheckNome(f: FormData, e: map<Field, Message>): map<Field, Message> {
    if Trim(f.nome) == [] then e[Nome := NomeObrigatorio] else e
  }

  function CheckValor(f: FormData, e: map<Field, Message>): map<Field, Message> {
    if ValorInvalid(f.valor) then e[Valor := ValorPositivo] else e
  }

  function CheckVencimento(f: FormData, e: map<Field, Message>): map<Field, Message> {
    if f.vencimento == [] then e[Vencimento := VencimentoObrigatorio] else e
  }

  /** Every check passes. */
  predicate FormOk(f: FormData) {
    Trim(f.nome) != [] && !ValorInvalid(f.valor) && f.vencimento != []
  }

  /** The error map is empty exactly when every check passes. */
  lemma NoErrorsIff(f: FormData)
    ensures Errors(f) == map[] <==> FormOk(f)
  {
    var e := Errors(f);
    if e == map[] {
      assert Nome !in e && Valor !in e && Vencimento !in e;
    } else {
      var k :| k in e;
    }
  }

  /** The record handed to `onSubmit`: the name trimmed, the amount parsed,
      and the note trimmed or dropped when blank. */
  function Normalize(f: FormData): (d: ContaData)
    requires ParseFloat(f.valor).Some?
    ensures d.valor == ParseFloat(f.valor).value
    ensures d.observacao.None? <==> Trim(f.observacao) == []
  {
    var obs := Trim(f.observacao);
    ContaData(Trim(f.nome), ParseFloat(f.valor).value, f.vencimento, f.tipo,
              if obs == [] then None else Some(obs))
  }

  /** What every submitted record satisfies. */
  predicate Submittable(d: ContaData) {
    && d.nome != [] && Trim(d.nome) == d.nome
    && d.valor > 0.0
    && d.vencimento != []
    && (d.observacao.Some? ==> d.observacao.value != [] && Trim(d.observacao.value) == d.observacao.value)
  }

  /** A form without errors yields a record with a trimmed non-empty name, a
      positive amount, a due date and a trimmed note or none. */
  lemma SubmittedValid(f: FormData)
    requires FormOk(f)
    ensures Submittable(Normalize(f))
  {
    var d := Normalize(f);
    assert d.nome != [] && Trim(d.nome) == d.nome by {
      TrimIdempotent(f.nome);
    }
    assert d.valor > 0.0;
    assert d.observacao.Some? ==> d.observacao.value != [] && Trim(d.observacao.value) == d.observacao.value by {
      TrimIdempotent(f.observacao);
    }
  }

  /** What a submit hands on: a record exactly when the error map stays
      empty. */
  function Submission(f: FormData): (r: Option<ContaData>)
    ensures r.Some? <==> Errors(f) == map[]
  {
    NoErrorsIff(f);
    if FormOk(f) then Some(Normalize(f)) else None
  }

  /** The record a submit hands on is the normalised form, and it is
      submittable. */
  lemma SubmissionValid(f: FormData)
    ensures Submission(f).Some? ==> Submission(f).value == Normalize(f) && Submittable(Submission(f).value)
  {
    if FormOk(f) {
      SubmittedValid(f);
    }
  }


  /** The amount check rejects "0", "-5", "" and "abc". */
  lemma ValorRejected()
    ensures ValorInvalid("0") && ValorInvalid("-5") && ValorInvalid("") && ValorInvalid("abc")
  {
    assert ParseFloat("0") == Some(0.0) by {
      ParseNatText(0);
      assert NatText(0) == "0";
    }
    assert ParseFloat("-5").Some? ==> ParseFloat("-5").value <= 0.0;
    assert ParseFloat("abc") == None by {
      ParseRejects('a', "bc");
      assert "abc" == ['a'] + "bc";
    }
  }

  /** The amount check accepts "10.50", read as 10.5. */
  lemma ValorAccepted()
    ensures !ValorInvalid("10.50") && ParseFloat("10.50") == Some(10.5)
  {
    assert Scan("10.50") == Numeral(Fraction, false, [1, 0], [5, 0]);
    assert DigitsValue([1, 0]) == 10 by {
      assert [1, 0][..1] == [1] && [1][..0] == [];
    }
    assert FractionValue([5, 0]) == 0.5 by {
      assert [5, 0][1..] == [0] && [0][1..] == [];
    }
  }

  /** The amount written into the form reads back as the bill's amount
      when that amount is a whole number of cents. */
  lemma InitialValorParses(d: ContaData)
    requires IsCents(d.valor)
    ensures ParseFloat(InitialForm(Some(d)).valor) == Some(d.valor)
  {
    NumberTextRoundTrip(d.valor);
  }

  /** The form opened on a submittable bill passes every check. */
  lemma InitialFormOk(d: ContaData)
    requires Submittable(d) && IsCents(d.valor)
    ensures FormOk(InitialForm(Some(d)))
  {
    var f := InitialForm(Some(d));
    InitialValorParses(d);
    assert !ValorInvalid(f.valor);
    TrimmedIsFixpoint(d.nome);
  }

  /** Normalising the form opened on a submittable bill with a whole
      number of cents gives the bill back, field by field. */
  lemma NormalizeInitial(d: ContaData)
    requires Submittable(d) && IsCents(d.valor)
    ensures ParseFloat(InitialForm(Some(d)).valor).Some?
    ensures Normalize(InitialForm(Some(d))) == d
  {
    var f := InitialForm(Some(d));
    InitialValorParses(d);
    var n := Normalize(f);
    assert n.nome == d.nome;
    match d.observacao
    case None =>
      assert f.observacao == "";
      TrimmedIsFixpoint("");
      assert n.observacao == None;
    case Some(o) =>
      assert f.observacao == o;
      assert n.observacao == Some(o);
  }

  /** Opening the form on a submittable bill with a whole number of cents
      and submitting it unchanged gives the same bill back. */
  lemma EditRoundTrip(d: ContaData)
    requires Submittable(d) && IsCents(d.valor)
    ensures Errors(InitialForm(Some(d))) == map[]
    ensures Normalize(InitialForm(Some(d))) == d
  {
    InitialFormOk(d);
    NoErrorsIff(InitialForm(Some(d)));
    NormalizeInitial(d);
  }

  /** The checks of `validateForm`, run one after the other on a fresh
      map: a blank name, an amount that is missing, not a number or not
      positive, and a missing due date each add their message. */
  method BuildErrors(f: FormData) returns (newErrors: map<Field, Message>)
    ensures newErrors == Errors(f)
  {
    newErrors := map[];
    if Trim(f.nome) == [] {
      newErrors := newErrors[Nome := NomeObrigatorio];
    }
    assert newErrors == CheckNome(f, map[]);
    var valor := ParseFloat(f.valor);
    if f.valor == [] || valor.None? || valor.value <= 0.0 {
      newErrors := newErrors[Valor := ValorPositivo];
    }
    assert newErrors == CheckValor(f, CheckNome(f, map[]));
    if f.vencimento == [] {
      newErrors := newErrors[Vencimento := VencimentoObrigatorio];
    }
  }

  /** One mounted form. */
  class ContasForm {
    var formData: FormData
    var errors: map<Field, Message>
    const isEditing: bool

    constructor(initialData: Option<ContaData>, isEditing: bool)
      ensures formData == InitialForm(initialData) && errors == map[]
      ensures this.isEditing == isEditing
    {
      formData := InitialForm(initialData);
      errors := map[];
      this.isEditing := isEditing;
    }

    method SetNome(text: string)
      modifies this
      ensures formData == old(formData).(nome := text) && errors == old(errors)
    {
      formData := formData.(nome := text);
    }

    method SetValor(text: string)
      modifies this
      ensures formData == old(formData).(valor := text) && errors == old(errors)
    {
      formData := formData.(valor := text);
    }

    method SetVencimento(text: string)
      modifies this
      ensures formData == old(formData).(vencimento := text) && errors == old(errors)
    {
      formData := formData.(vencimento := text);
    }

    method SetTipo(tipo: Category)
      modifies this
      ensures formData == old(formData).(tipo := tipo) && errors == old(errors)
    {
      formData := formData.(tipo := tipo);
    }

    method SetObservacao(text: string)
      modifies this
      ensures formData == old(formData).(observacao := text) && errors == old(errors)
    {
      formData := formData.(observacao := text);
    }

    /** `validateForm`: stores the error map of the current text and
        reports whether it stayed empty. */
    method ValidateForm() returns (valid: bool)
      modifies this
      ensures errors == Errors(formData) && formData == old(formData)
      ensures valid <==> errors == map[]
      ensures valid <==> FormOk(formData)
    {
      var newErrors := BuildErrors(formData);
      errors := newErrors;
      valid := |newErrors.Keys| == 0;
      if newErrors != map[] {
        var k :| k in newErrors.Keys;
      }
      NoErrorsIff(formData);
    }

    /** `handleSubmit`: validates, hands on the normalised record when the
        form is valid (the `onSubmit` call) and then empties the form unless
        it edits a bill. */
    method HandleSubmit() returns (submitted: Option<ContaData>)
      modifies this
      ensures errors == Errors(old(formData))
      ensures submitted == Submission(old(formData))
      ensures formData == if submitted.Some? && !isEditing then EmptyForm else old(formData)
    {
      var valid := ValidateForm();
      if valid {
        submitted := Some(Normalize(formData));
        if !isEditing {
          formData := EmptyForm;
        }
      } else {
        submitted := None;
      }
    }
  }
}
