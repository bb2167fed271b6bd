/** The page wiring: the add form hands its record to `adicionarConta`,
    an edit form inside the list hands it to `handleEdit`, and the bills
    the page stores stay well formed through every update. */
module App {
  import opened Wrappers
  import opened Bills
  import opened Form
  import opened List

  /** What the stored bills satisfy when each one came through the form
      under an id of its own: distinct ids and submittable fields. */
  predicate StoredOk(contas: seq<Conta>) {
    DistinctIds(contas) && AllSubmittable(contas)
  }

  predicate AllSubmittable(contas: seq<Conta>) {
    forall i :: 0 <= i < |contas| ==> Submittable(DataOf(contas[i]))
  }

  /** Every stored amount is positive. */
  lemma AmountsPositive(contas: seq<Conta>)
    requires AllSubmittable(contas)
    ensures forall i :: 0 <= i < |contas| ==> contas[i].valor > 0.0
  {
    forall i | 0 <= i < |contas|
      ensures contas[i].valor > 0.0
    {
      assert Submittable(DataOf(contas[i]));
    }
  }

  /** Well-formed bills add up to a non-negative total, and to a positive
      one when there is at least one. */
  lemma StoredTotal(contas: seq<Conta>)
    requires AllSubmittable(contas)
    ensures Total(contas) >= 0.0
    ensures contas != [] ==> Total(contas) > 0.0
  {
    AmountsPositive(contas);
  }

  /** Adding a submittable record under a fresh id keeps the store well
      formed and raises the total by its amount. */
  lemma StoredOkAdd(contas: seq<Conta>, d: ContaData, id: string)
    requires StoredOk(contas) && Submittable(d) && id !in Ids(contas)
    ensures StoredOk(contas + [WithId(d, id)])
    ensures Total(contas + [WithId(d, id)]) > Total(contas)
  {
    var c := WithId(d, id);
    var r := contas + [c];
    AppendFreshId(contas, c);
    forall i | 0 <= i < |r|
      ensures Submittable(DataOf(r[i]))
    {
      if i < |contas| {
        assert r[i] == contas[i];
      } else {
        assert r[i] == c;
      }
    }
    TotalAppend(contas, [c]);
    assert Total([c]) == d.valor;
  }

  /** Editing with a submittable record keeps the store well formed. */
  lemma StoredOkEdit(contas: seq<Conta>, id: string, d: ContaData)
    requires StoredOk(contas) && Submittable(d)
    ensures StoredOk(Edited(contas, id, d))
  {
    EditedDistinct(contas, id, d);
    var r := Edited(contas, id, d);
    forall i | 0 <= i < |r|
      ensures Submittable(DataOf(r[i]))
    {
      if contas[i].id == id {
        assert DataOf(r[i]) == d;
      } else {
        assert r[i] == contas[i];
      }
    }
  }

  /** Removing keeps the store well formed. */
  lemma StoredOkRemove(contas: seq<Conta>, id: string)
    requires StoredOk(contas)
    ensures StoredOk(Removed(contas, id))
  {
    RemovedDistinct(contas, id);
    var r := Removed(contas, id);
    forall i | 0 <= i < |r|
      ensures Submittable(DataOf(r[i]))
    {
      assert r[i] in contas;
      var k :| 0 <= k < |contas| && contas[k] == r[i];
    }
  }

  /** A submit that hands on a record keeps the store well formed when
      that record is added under a fresh id. */
  lemma SubmittedAddOk(contas: seq<Conta>, f: FormData, id: string)
    requires Submission(f).Some?
    ensures StoredOk(contas) && id !in Ids(contas) ==> StoredOk(contas + [WithId(Submission(f).value, id)])
  {
    SubmissionValid(f);
    if StoredOk(contas) && id !in Ids(contas) {
      StoredOkAdd(contas, Submission(f).value, id);
    }
  }

  /** A submit that hands on a record keeps the store well formed when
      that record replaces a bill's fields. */
  lemma SubmittedEditOk(contas: seq<Conta>, f: FormData, id: string)
    requires Submission(f).Some?
    ensures StoredOk(contas) ==> StoredOk(Edited(contas, id, Submission(f).value))
  {
    SubmissionValid(f);
    if StoredOk(contas) {
      StoredOkEdit(contas, id, Submission(f).value);
    }
  }

  /** Submitting the add form (`<ContasForm onSubmit={adicionarConta} />`):
      a valid form adds its record under the caller's fresh id (`Date.now()`
      in the page) and closes the form, emptied; an invalid one adds
      nothing and keeps its text. A store that was well formed stays so. */
  method SubmitNewBill(app: Dashboard, form: ContasForm, freshId: string)
    requires !form.isEditing
    modifies app, form
    ensures var s := Submission(old(form.formData));
            && app.contas == old(app.contas) + (if s.Some? then [WithId(s.value, freshId)] else [])
            && app.showContasForm == (if s.Some? then false else old(app.showContasForm))
    ensures app.saldoInicial == old(app.saldoInicial)
    ensures form.errors == Errors(old(form.formData))
    ensures form.formData == if Submission(old(form.formData)).Some? then EmptyForm else old(form.formData)
    ensures StoredOk(old(app.contas)) && freshId !in Ids(old(app.contas)) ==> StoredOk(app.contas)
  {
    ghost var f := form.formData;
    var submitted := form.HandleSubmit();
    if submitted.Some? {
      SubmittedAddOk(app.contas, f, freshId);
      app.AdicionarConta(submitted.value, freshId);
    }
  }

  /** Submitting the edit form of the bill `id` inside the list: a valid
      form replaces that bill's fields and closes the row; an invalid one
      changes no bill and leaves the row open. The edit form keeps its
      text either way. A well-formed store stays so. */
  method SubmitEditedBill(app: Dashboard, list: ContasList, form: ContasForm, id: string)
    requires form.isEditing
    modifies app, list, form
    ensures var s := Submission(old(form.formData));
            && app.contas == (if s.Some? then Edited(old(app.contas), id, s.value) else old(app.contas))
            && list.editingId == (if s.Some? then None else old(list.editingId))
    ensures app.saldoInicial == old(app.saldoInicial) && app.showContasForm == old(app.showContasForm)
    ensures form.errors == Errors(old(form.formData)) && form.formData == old(form.formData)
    ensures StoredOk(old(app.contas)) ==> StoredOk(app.contas)
  {
    ghost var f := form.formData;
    ghost var before := app.contas;
    var submitted := form.HandleSubmit();
    ghost var errors := form.errors;
    assert errors == Errors(f);
    assert submitted == Submission(f) && app.contas == before;
    if submitted.Some? {
      SubmittedEditOk(before, f, id);
      assert form as object != list && form as object != app;
      list.HandleEdit(app, id, submitted.value);
    }
    assert form.errors == errors && form.formData == f;
  }

  /** The remove button of a row (`onRemover`). */
  method RemoveBill(app: Dashboard, id: string)
    modifies app
    ensures app.contas == Removed(old(app.contas), id)
    ensures app.saldoInicial == old(app.saldoInicial) && app.showContasForm == old(app.showContasForm)
    ensures StoredOk(old(app.contas)) ==> StoredOk(app.contas)
  {
    if StoredOk(app.contas) {
      StoredOkRemove(app.contas, id);
    }
    app.RemoverConta(id);
  }
}
