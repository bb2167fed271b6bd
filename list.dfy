/** The bill list: the placeholder for an empty list, the bills sorted by
    due date, the "due soon" badge, and the one row that may be open for
    editing. */
module List {
  import opened Wrappers
  import opened Sorting
  import opened Bills
  import opened Form

  /** 1000 * 60 * 60 * 24 */
  const MsPerDay := 86400000

  /** `Math.ceil(ms / MsPerDay)`: the whole days a time span reaches into,
      rounded up. */
  function CeilDays(ms: int): (d: int)
    ensures (d - 1) * MsPerDay < ms <= d * MsPerDay
  {
    var q := (-ms) / MsPerDay;
    assert q * MsPerDay <= -ms < q * MsPerDay + MsPerDay;
    -q
  }

  /** The badge test: the bill falls due between now and seven days from
      now, counted in whole days rounded up; that is, its due time lies
      after one day ago and no later than seven days from now. `localMidnight` reads the due
      date as local midnight in milliseconds, or gives nothing for a date
      it cannot read (a `NaN` time, for which every comparison fails). */
  predicate IsVencimentoProximo(vencimento: string, localMidnight: string -> Option<int>, nowMs: int): (soon: bool)
    ensures soon <==> var due := localMidnight(vencimento);
                      due.Some? && nowMs - MsPerDay < due.value <= nowMs + 7 * MsPerDay
  {
    var due := localMidnight(vencimento);
    due.Some? && 0 <= CeilDays(due.value - nowMs) <= 7
  }

  /** Read in calendar days: with the due date at the midnight starting day
      `dueDay` and the clock anywhere inside day `today`, the badge shows
      exactly when the bill is due today or within the next seven days. */
  lemma DueSoonByCalendarDays(dueDay: int, today: int, t: int)
    requires 0 <= t < MsPerDay
    ensures CeilDays(dueDay * MsPerDay - (today * MsPerDay + t)) == dueDay - today
    ensures forall v: string, localMidnight: string -> Option<int> ::
      localMidnight(v) == Some(dueDay * MsPerDay) ==>
        (IsVencimentoProximo(v, localMidnight, today * MsPerDay + t) <==> 0 <= dueDay - today <= 7)
  {
    var k := dueDay - today;
    var d := CeilDays(dueDay * MsPerDay - (today * MsPerDay + t));
    assert dueDay * MsPerDay - (today * MsPerDay + t) == k * MsPerDay - t;
    assert (d - 1) * MsPerDay < k * MsPerDay - t <= d * MsPerDay;
    assert (d - 1) * MsPerDay < k * MsPerDay;
    assert (k - 1) * MsPerDay < d * MsPerDay;
  }

  /** Due in exactly a week: flagged; in eight days, or yesterday: not. */
  lemma DueSoonEdges(today: int, t: int)
    requires 0 <= t < MsPerDay
    ensures CeilDays((today + 7) * MsPerDay - (today * MsPerDay + t)) == 7
    ensures CeilDays((today + 8) * MsPerDay - (today * MsPerDay + t)) == 8
    ensures CeilDays((today - 1) * MsPerDay - (today * MsPerDay + t)) == -1
  {
    DueSoonByCalendarDays(today + 7, today, t);
    DueSoonByCalendarDays(today + 8, today, t);
    DueSoonByCalendarDays(today - 1, today, t);
  }

  /** The sort key: the due date as a time in milliseconds. */
  function DueKey(dueMs: string -> int): (key: Conta -> int)
    ensures forall c :: key(c) == dueMs(c.vencimento)
  {
    (c: Conta) => dueMs(c.vencimento)
  }

  /** `[...contas].sort(...)` on due dates: a reordering of the same bills,
      earliest due first. */
  function ContasOrdenadas(contas: seq<Conta>, dueMs: string -> int): (r: seq<Conta>)
    ensures |r| == |contas| && multiset(r) == multiset(contas)
    ensures forall i, j :: 0 <= i < j < |r| ==> dueMs(r[i].vencimento) <= dueMs(r[j].vencimento)
  {
    var r := SortBy(contas, DueKey(dueMs));
    assert SortedBy(r, DueKey(dueMs));
    r
  }

  /** Bills due at the same time stay in the order they were added. */
  lemma SameDueKeepsOrder(contas: seq<Conta>, dueMs: string -> int, k: int)
    ensures WithKey(ContasOrdenadas(contas, dueMs), DueKey(dueMs), k) == WithKey(contas, DueKey(dueMs), k)
  {
    SortByStable(contas, DueKey(dueMs), k);
  }

  /** A list already in due order is shown as it is. */
  lemma OrderedUnchanged(contas: seq<Conta>, dueMs: string -> int)
    requires forall i, j :: 0 <= i < j < |contas| ==> dueMs(contas[i].vencimento) <= dueMs(contas[j].vencimento)
    ensures ContasOrdenadas(contas, dueMs) == contas
  {
    SortBySorted(contas, DueKey(dueMs));
  }

  /** A list with distinct ids holds each bill once. */
  lemma {:induction false} DistinctOnce(s: seq<Conta>, c: Conta)
    requires DistinctIds(s)
    ensures multiset(s)[c] <= 1
  {
    if s != [] {
      assert s == [s[0]] + s[1..];
      assert DistinctIds(s[1..]);
      DistinctOnce(s[1..], c);
      if s[0] == c {
        assert c !in s[1..];
      }
    }
  }

  /** Two positions holding the same bill count it twice. */
  lemma TwiceCounted(s: seq<Conta>, i: nat, j: nat)
    requires i < j < |s| && s[i] == s[j]
    ensures multiset(s)[s[i]] >= 2
  {
    assert s == s[..j] + [s[j]] + s[j + 1..];
    assert s[i] in s[..j];
  }

  /** Reordering a list with distinct ids keeps them distinct. */
  lemma PermutationDistinct(a: seq<Conta>, b: seq<Conta>)
    requires multiset(a) == multiset(b) && DistinctIds(a)
    ensures DistinctIds(b)
  {
    forall i, j | 0 <= i < j < |b|
      ensures b[i].id != b[j].id
    {
      if b[i] == b[j] {
        TwiceCounted(b, i, j);
        DistinctOnce(a, b[i]);
      } else {
        assert b[i] in multiset(a) && b[j] in multiset(a);
        var p :| 0 <= p < |a| && a[p] == b[i];
        var q :| 0 <= q < |a| && a[q] == b[j];
        assert p != q;
      }
    }
  }

  /** One bill as listed: open in the form, or shown as a card with or
      without the "due soon" badge. Only a card carries the badge. */
  datatype Row = Row(conta: Conta, editing: bool, dueSoon: bool)

  datatype View = Placeholder | Rows(rows: seq<Row>)

  function RowOf(c: Conta, editingId: Option<string>, localMidnight: string -> Option<int>, nowMs: int): Row {
    var editing := editingId == Some(c.id);
    Row(c, editing, !editing && IsVencimentoProximo(c.vencimento, localMidnight, nowMs))
  }

  function RowsOf(s: seq<Conta>, editingId: Option<string>, localMidnight: string -> Option<int>, nowMs: int): (rows: seq<Row>)
    ensures |rows| == |s|
    ensures forall i :: 0 <= i < |s| ==> rows[i] == RowOf(s[i], editingId, localMidnight, nowMs)
  {
    if s == [] then [] else [RowOf(s[0], editingId, localMidnight, nowMs)] + RowsOf(s[1..], editingId, localMidnight, nowMs)
  }

  /** What the list renders: the placeholder when there are no bills,
      otherwise one row per bill in due order. */
  function Render(contas: seq<Conta>, editingId: Option<string>, dueMs: string -> int,
                  localMidnight: string -> Option<int>, nowMs: int): (v: View)
    ensures v.Placeholder? <==> contas == []
    ensures v.Rows? ==> |v.rows| == |contas|
  {
    if |contas| == 0 then Placeholder
    else Rows(RowsOf(ContasOrdenadas(contas, dueMs), editingId, localMidnight, nowMs))
  }

  /** Each bill is listed once, in due order, open in the form exactly when
      its id is the one being edited; a row shown as a card is badged
      exactly when its bill is due soon, and the open row has no badge. */
  lemma RenderedRows(contas: seq<Conta>, editingId: Option<string>, dueMs: string -> int,
                     localMidnight: string -> Option<int>, nowMs: int)
    requires contas != []
    ensures var v := Render(contas, editingId, dueMs, localMidnight, nowMs);
            && multiset(seq(|v.rows|, i requires 0 <= i < |v.rows| => v.rows[i].conta)) == multiset(contas)
            && (forall i, j :: 0 <= i < j < |v.rows| ==> dueMs(v.rows[i].conta.vencimento) <= dueMs(v.rows[j].conta.vencimento))
            && (forall i :: 0 <= i < |v.rows| ==> (v.rows[i].editing <==> editingId == Some(v.rows[i].conta.id)))
            && (forall i :: 0 <= i < |v.rows| ==> (v.rows[i].dueSoon <==> !v.rows[i].editing && IsVencimentoProximo(v.rows[i].conta.vencimento, localMidnight, nowMs)))
  {
    var sorted := ContasOrdenadas(contas, dueMs);
    assert Render(contas, editingId, dueMs, localMidnight, nowMs) == Rows(RowsOf(sorted, editingId, localMidnight, nowMs));
    RowsFields(sorted, editingId, localMidnight, nowMs);
  }

  /** The rows list the bills in their order, each open exactly when it is
      the one being edited, and each card badged exactly when due soon. */
  lemma RowsFields(s: seq<Conta>, editingId: Option<string>, localMidnight: string -> Option<int>, nowMs: int)
    ensures var rows := RowsOf(s, editingId, localMidnight, nowMs);
            && seq(|rows|, i requires 0 <= i < |rows| => rows[i].conta) == s
            && (forall i :: 0 <= i < |rows| ==> (rows[i].editing <==> editingId == Some(rows[i].conta.id)))
            && (forall i :: 0 <= i < |rows| ==> (rows[i].dueSoon <==> !rows[i].editing && IsVencimentoProximo(rows[i].conta.vencimento, localMidnight, nowMs)))
  {
    var rows := RowsOf(s, editingId, localMidnight, nowMs);
    assert seq(|rows|, i requires 0 <= i < |rows| => rows[i].conta) == s by {
      assert forall i :: 0 <= i < |rows| ==> rows[i].conta == s[i];
    }
  }

  /** With distinct ids, at most one row is open in the form. */
  lemma AtMostOneEditing(contas: seq<Conta>, editingId: Option<string>, dueMs: string -> int,
                         localMidnight: string -> Option<int>, nowMs: int)
    requires DistinctIds(contas) && contas != []
    ensures var v := Render(contas, editingId, dueMs, localMidnight, nowMs);
            forall i, j :: 0 <= i < |v.rows| && 0 <= j < |v.rows| && v.rows[i].editing && v.rows[j].editing ==> i == j
  {
    var sorted := ContasOrdenadas(contas, dueMs);
    PermutationDistinct(contas, sorted);
  }

  /** The list component's own state: which bill, if any, is open for
      editing. */
  class ContasList {
    var editingId: Option<string>

    constructor()
      ensures editingId == None
    {
      editingId := None;
    }

    /** The edit button of a row. */
    method StartEditing(id: string)
      modifies this
      ensures editingId == Some(id)
    {
      editingId := Some(id);
    }

    /** `handleEdit`: the edited record replaces the bill with that id and
        the row closes. */
    method HandleEdit(app: Dashboard, id: string, contaEditada: ContaData)
      modifies this, app
      ensures app.contas == Edited(old(app.contas), id, contaEditada)
      ensures app.saldoInicial == old(app.saldoInicial) && app.showContasForm == old(app.showContasForm)
      ensures editingId == None
    {
      app.EditarConta(id, contaEditada);
      editingId := None;
    }
  }
}
