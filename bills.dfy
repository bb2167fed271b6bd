/** The bill list of the dashboard page and the figures derived from it:
    the `Conta` record, the totals, and the three list updates. */
module Bills {
  import opened Wrappers

  datatype Category = Fixa | Variavel

  /** A bill without its id, as the form submits it. */
  datatype ContaData = ContaData(nome: string, valor: real, vencimento: string, tipo: Category, observacao: Option<string>)

  datatype Conta = Conta(id: string, nome: string, valor: real, vencimento: string, tipo: Category, observacao: Option<string>)

  /** `{ ...data, id }` */
  function WithId(d: ContaData, id: string): (c: Conta)
    ensures c.id == id && DataOf(c) == d
  {
    Conta(id, d.nome, d.valor, d.vencimento, d.tipo, d.observacao)
  }

  function DataOf(c: Conta): ContaData {
    ContaData(c.nome, c.valor, c.vencimento, c.tipo, c.observacao)
  }

  // ---------------------------------------------------------------------
  // Totals

  /** `contas.reduce((acc, conta) => acc + conta.valor, 0)`, a left fold:
      zero or more when no amount is negative, and more than zero for a
      non-empty list of positive amounts. */
  function Total(s: seq<Conta>): (r: real)
    ensures (forall i :: 0 <= i < |s| ==> s[i].valor >= 0.0) ==> r >= 0.0
    ensures (forall i :: 0 <= i < |s| ==> s[i].valor > 0.0) && s != [] ==> r > 0.0
  {
    if s == [] then 0.0
    else
      var init := s[..|s| - 1];
      assert forall i :: 0 <= i < |init| ==> init[i] == s[i];
      Total(init) + s[|s| - 1].valor
  }

  lemma {:induction false} TotalAppend(a: seq<Conta>, b: seq<Conta>)
    ensures Total(a + b) == Total(a) + Total(b)
    decreases |b|
  {
    if b == [] {
      assert a + b == a;
    } else {
      assert (a + b)[..|a + b| - 1] == a + b[..|b| - 1];
      TotalAppend(a, b[..|b| - 1]);
    }
  }

  lemma TotalCons(c: Conta, s: seq<Conta>)
    ensures Total([c] + s) == c.valor + Total(s)
  {
    TotalAppend([c], s);
  }

  lemma TotalSingleton(c: Conta)
    ensures Total([c]) == c.valor
  {
    assert [c][..0] == [];
  }

  /** A bill between two runs of bills adds its amount to theirs. */
  lemma TotalSplit(pre: seq<Conta>, c: Conta, post: seq<Conta>)
    ensures Total(pre + [c] + post) == Total(pre + post) + c.valor
  {
    TotalAppend(pre + [c], post);
    TotalAppend(pre, [c]);
    TotalAppend(pre, post);
    TotalSingleton(c);
  }

  lemma HeadTail<T>(s: seq<T>)
    requires s != []
    ensures s == [s[0]] + s[1..]
  {
  }

  /** Some position of `b` holds each element of `a`'s multiset. */
  lemma IndexOf<T>(b: seq<T>, x: T) returns (i: nat)
    requires x in multiset(b)
    ensures i < |b| && b[i] == x
  {
    i :| 0 <= i < |b| && b[i] == x;
  }

  lemma SplitAt<T>(b: seq<T>, i: nat)
    requires i < |b|
    ensures b == b[..i] + [b[i]] + b[i + 1..]
  {
  }

  /** Taking the bill at position `i` out of the list. */
  lemma TotalWithout(b: seq<Conta>, i: nat)
    requires i < |b|
    ensures Total(b) == Total(b[..i] + b[i + 1..]) + b[i].valor
  {
    SplitAt(b, i);
    TotalSplit(b[..i], b[i], b[i + 1..]);
  }

  lemma MultisetWithout<T>(b: seq<T>, i: nat)
    requires i < |b|
    ensures multiset(b[..i] + b[i + 1..]) == multiset(b) - multiset{b[i]}
  {
    assert b == b[..i] + [b[i]] + b[i + 1..];
    assert multiset(b) == multiset(b[..i]) + multiset{b[i]} + multiset(b[i + 1..]);
  }

  /** The total does not depend on the order of the bills. */
  lemma {:induction false} TotalPermutation(a: seq<Conta>, b: seq<Conta>)
    requires multiset(a) == multiset(b)
    ensures Total(a) == Total(b)
    decreases |a|
  {
    if a == [] {
      assert |b| == |multiset(b)| == 0;
      assert b == [];
    } else {
      var c := a[0];
      assert c in multiset(a);
      var i := IndexOf(b, c);
      var restA, restB := a[1..], b[..i] + b[i + 1..];
      HeadTail(a);
      MultisetWithout(b, i);
      assert multiset(restA) == multiset(restB);
      TotalPermutation(restA, restB);
      TotalCons(c, restA);
      TotalWithout(b, i);
      assert Total(a) == Total(restA) + c.valor;
      assert Total(b) == Total(restB) + c.valor;
    }
  }

  /** `contas.filter(conta => conta.tipo === tipo)` */
  function OfTipo(s: seq<Conta>, tipo: Category): (r: seq<Conta>)
    ensures |r| <= |s|
    ensures forall c :: c in r <==> c in s && c.tipo == tipo
  {
    if s == [] then []
    else (if s[0].tipo == tipo then [s[0]] else []) + OfTipo(s[1..], tipo)
  }

  /** The category filter keeps every bill of that category as often as
      the list has it, and no other bill. */
  lemma {:induction false} OfTipoCount(s: seq<Conta>, tipo: Category)
    ensures forall c :: multiset(OfTipo(s, tipo))[c] == if c.tipo == tipo then multiset(s)[c] else 0
    decreases |s|
  {
    if s != [] {
      OfTipoCount(s[1..], tipo);
      HeadTail(s);
      assert multiset(s) == multiset([s[0]]) + multiset(s[1..]);
    }
  }

  /** The fixed and the variable bills split the list: their counts and
      their totals add up to those of the whole list. */
  lemma {:induction false} CategorySplit(s: seq<Conta>)
    ensures |OfTipo(s, Fixa)| + |OfTipo(s, Variavel)| == |s|
    ensures Total(OfTipo(s, Fixa)) + Total(OfTipo(s, Variavel)) == Total(s)
  {
    if s != [] {
      var c, t := s[0], s[1..];
      CategorySplit(t);
      var fixas, variaveis := OfTipo(t, Fixa), OfTipo(t, Variavel);
      HeadTail(s);
      TotalCons(c, t);
      assert Total(s) == c.valor + Total(t);
      if c.tipo == Fixa {
        assert OfTipo(s, Fixa) == [c] + fixas && OfTipo(s, Variavel) == variaveis;
        TotalCons(c, fixas);
      } else {
        assert OfTipo(s, Fixa) == fixas && OfTipo(s, Variavel) == [c] + variaveis;
        TotalCons(c, variaveis);
      }
    }
  }

  /** The figures the page derives on every render. */
  datatype Metrics = Metrics(
    totalDespesas: real,
    saldoRestante: real,
    isPositive: bool,
    contasFixas: seq<Conta>,
    contasVariaveis: seq<Conta>,
    totalFixas: real,
    totalVariaveis: real)

  function MetricsOf(saldoInicial: real, contas: seq<Conta>): (m: Metrics)
    ensures m.saldoRestante + m.totalDespesas == saldoInicial
    ensures m.isPositive <==> saldoInicial >= m.totalDespesas
    ensures m.totalFixas + m.totalVariaveis == m.totalDespesas
    ensures |m.contasFixas| + |m.contasVariaveis| == |contas|
    ensures forall c :: c in contas <==> c in m.contasFixas || c in m.contasVariaveis
  {
    CategorySplit(contas);
    var total := Total(contas);
    var restante := saldoInicial - total;
    var fixas := OfTipo(contas, Fixa);
    var variaveis := OfTipo(contas, Variavel);
    Metrics(total, restante, restante >= 0.0, fixas, variaveis, Total(fixas), Total(variaveis))
  }

  // ---------------------------------------------------------------------
  // Ids

  function Ids(s: seq<Conta>): (r: seq<string>)
    ensures |r| == |s| && forall i :: 0 <= i < |s| ==> r[i] == s[i].id
  {
    if s == [] then [] else [s[0].id] + Ids(s[1..])
  }

  predicate DistinctIds(s: seq<Conta>) {
    forall i, j :: 0 <= i < j < |s| ==> s[i].id != s[j].id
  }

  /** Appending a bill with an id not yet in the list keeps the ids distinct. */
  lemma AppendFreshId(s: seq<Conta>, c: Conta)
    requires DistinctIds(s) && c.id !in Ids(s)
    ensures DistinctIds(s + [c])
  {
    var r := s + [c];
    forall i, j | 0 <= i < j < |r|
      ensures r[i].id != r[j].id
    {
      if j == |s| {
        assert Ids(s)[i] == s[i].id;
      }
    }
  }

  // ---------------------------------------------------------------------
  // Removal

  /** `contas.filter(conta => conta.id !== id)` */
  function Removed(s: seq<Conta>, id: string): (r: seq<Conta>)
    ensures |r| <= |s|
    ensures forall c :: c in r <==> c in s && c.id != id
  {
    if s == [] then []
    else (if s[0].id != id then [s[0]] else []) + Removed(s[1..], id)
  }

  /** Removing keeps every bill with another id as often as the list has
      it, and no bill with that id. */
  lemma {:induction false} RemovedCount(s: seq<Conta>, id: string)
    ensures forall c :: multiset(Removed(s, id))[c] == if c.id != id then multiset(s)[c] else 0
    decreases |s|
  {
    if s != [] {
      RemovedCount(s[1..], id);
      HeadTail(s);
      assert multiset(s) == multiset([s[0]]) + multiset(s[1..]);
    }
  }

  /** Removing an id that is not in the list changes nothing. */
  lemma {:induction false} RemoveAbsent(s: seq<Conta>, id: string)
    requires id !in Ids(s)
    ensures Removed(s, id) == s
  {
    if s != [] {
      assert Ids(s)[0] == s[0].id;
      assert Ids(s[1..]) == Ids(s)[1..];
      RemoveAbsent(s[1..], id);
      assert s == [s[0]] + s[1..];
    }
  }

  /** Dropping the head of `s` and then the element at `k - 1` of the rest
      is dropping the element at `k` of `s`. */
  lemma DropInTail<T>(s: seq<T>, k: nat)
    requires 1 <= k < |s|
    ensures s[1..][k - 1] == s[k]
    ensures [s[0]] + (s[1..][..k - 1] + s[1..][k..]) == s[..k] + s[k + 1..]
  {
    assert s[1..][..k - 1] == s[1..k] && s[1..][k..] == s[k + 1..];
  }

  lemma DistinctTail(s: seq<Conta>)
    requires DistinctIds(s) && s != []
    ensures DistinctIds(s[1..]) && s[0].id !in Ids(s[1..])
  {
    var t := s[1..];
    forall i, j | 0 <= i < j < |t|
      ensures t[i].id != t[j].id
    {
      assert t[i] == s[i + 1] && t[j] == s[j + 1];
    }
    forall j | 0 <= j < |t|
      ensures Ids(t)[j] != s[0].id
    {
      assert t[j] == s[j + 1];
    }
  }

  /** With distinct ids, removing the id of the bill at position `k` takes out
      that bill and nothing else. */
  lemma {:induction false} RemoveAt(s: seq<Conta>, k: nat)
    requires DistinctIds(s) && k < |s|
    ensures Removed(s, s[k].id) == s[..k] + s[k + 1..]
  {
    var id := s[k].id;
    var t := s[1..];
    DistinctTail(s);
    if k == 0 {
      RemoveAbsent(t, id);
      assert s[..0] + s[1..] == t;
    } else {
      DropInTail(s, k);
      RemoveAt(t, k - 1);
      assert s[0].id != id;
      assert Removed(s, id) == [s[0]] + Removed(t, id);
    }
  }

  /** Removing the bill at position `k` takes its amount off the total. */
  lemma TotalAfterRemove(s: seq<Conta>, k: nat)
    requires DistinctIds(s) && k < |s|
    ensures Total(Removed(s, s[k].id)) == Total(s) - s[k].valor
  {
    RemoveAt(s, k);
    TotalWithout(s, k);
  }

  /** Removal keeps the ids distinct. */
  lemma {:induction false} RemovedDistinct(s: seq<Conta>, id: string)
    requires DistinctIds(s)
    ensures DistinctIds(Removed(s, id))
  {
    if s != [] {
      RemovedDistinct(s[1..], id);
      var rest := Removed(s[1..], id);
      if s[0].id != id {
        var r := [s[0]] + rest;
        forall i, j | 0 <= i < j < |r|
          ensures r[i].id != r[j].id
        {
          if i == 0 {
            assert r[j] in rest;
            var m :| 1 <= m < |s| && s[m] == r[j];
          }
        }
      }
    }
  }

  /** Removing twice is removing once. */
  lemma RemoveIdempotent(s: seq<Conta>, id: string)
    ensures Removed(Removed(s, id), id) == Removed(s, id)
  {
    var r := Removed(s, id);
    forall i | 0 <= i < |r|
      ensures Ids(r)[i] != id
    {
      assert r[i] in r;
    }
    RemoveAbsent(r, id);
  }

  // ---------------------------------------------------------------------
  // Editing

  /** `contas.map(conta => conta.id === id ? { ...d, id } : conta)` */
  function Edited(s: seq<Conta>, id: string, d: ContaData): (r: seq<Conta>)
    ensures |r| == |s|
    ensures forall i :: 0 <= i < |s| ==> r[i] == if s[i].id == id then WithId(d, id) else s[i]
  {
    if s == [] then []
    else [if s[0].id == id then WithId(d, id) else s[0]] + Edited(s[1..], id, d)
  }

  /** Editing keeps every id in its place. */
  lemma EditKeepsIds(s: seq<Conta>, id: string, d: ContaData)
    ensures Ids(Edited(s, id, d)) == Ids(s)
  {
  }

  /** Editing keeps the ids distinct. */
  lemma EditedDistinct(s: seq<Conta>, id: string, d: ContaData)
    requires DistinctIds(s)
    ensures DistinctIds(Edited(s, id, d))
  {
    EditKeepsIds(s, id, d);
    var r := Edited(s, id, d);
    forall i, j | 0 <= i < j < |r|
      ensures r[i].id != r[j].id
    {
      assert Ids(r)[i] == Ids(s)[i] && Ids(r)[j] == Ids(s)[j];
    }
  }

  /** Editing an id that is not in the list changes nothing. */
  lemma EditAbsent(s: seq<Conta>, id: string, d: ContaData)
    requires id !in Ids(s)
    ensures Edited(s, id, d) == s
  {
    var r := Edited(s, id, d);
    forall i | 0 <= i < |s|
      ensures r[i] == s[i]
    {
      assert Ids(s)[i] == s[i].id;
    }
  }

  /** With distinct ids, editing the bill at position `k` replaces that bill's
      fields and nothing else. */
  lemma EditAt(s: seq<Conta>, k: nat, d: ContaData)
    requires DistinctIds(s) && k < |s|
    ensures Edited(s, s[k].id, d) == s[k := WithId(d, s[k].id)]
  {
  }

  /** Replacing the bill at position `k` replaces its amount in the total. */
  lemma TotalUpdate(s: seq<Conta>, k: nat, c: Conta)
    requires k < |s|
    ensures Total(s[k := c]) == Total(s) - s[k].valor + c.valor
  {
    var pre, post := s[..k], s[k + 1..];
    assert s == pre + [s[k]] + post;
    assert s[k := c] == pre + [c] + post;
    TotalSplit(pre, s[k], post);
    TotalSplit(pre, c, post);
  }

  /** Editing the bill at position `k` replaces its amount in the total. */
  lemma TotalAfterEdit(s: seq<Conta>, k: nat, d: ContaData)
    requires DistinctIds(s) && k < |s|
    ensures Total(Edited(s, s[k].id, d)) == Total(s) - s[k].valor + d.valor
  {
    EditAt(s, k, d);
    TotalUpdate(s, k, WithId(d, s[k].id));
  }

  // ---------------------------------------------------------------------
  // The page

  /** The state of the dashboard page: the balance and the bills it keeps,
      and whether the add form is open. */
  class Dashboard {
    var saldoInicial: real
    var contas: seq<Conta>
    var showContasForm: bool

    /** The page starts from what it finds stored (0 and no bills when
        nothing is), with the add form closed. */
    constructor(storedSaldo: real, storedContas: seq<Conta>)
      ensures saldoInicial == storedSaldo && contas == storedContas && !showContasForm
    {
      saldoInicial := storedSaldo;
      contas := storedContas;
      showContasForm := false;
    }

    /** `adicionarConta`: the new bill, with the id the caller supplies, goes
        at the end and the form closes. */
    method AdicionarConta(novaConta: ContaData, id: string)
      modifies this
      ensures contas == old(contas) + [WithId(novaConta, id)]
      ensures !showContasForm && saldoInicial == old(saldoInicial)
      ensures DistinctIds(old(contas)) && id !in Ids(old(contas)) ==> DistinctIds(contas)
      ensures Total(contas) == Total(old(contas)) + novaConta.valor
    {
      var conta := WithId(novaConta, id);
      if DistinctIds(contas) && id !in Ids(contas) {
        AppendFreshId(contas, conta);
      }
      TotalAppend(contas, [conta]);
      assert Total([conta]) == conta.valor;
      contas := contas + [conta];
      showContasForm := false;
    }

    /** `removerConta` */
    method RemoverConta(id: string)
      modifies this
      ensures contas == Removed(old(contas), id)
      ensures saldoInicial == old(saldoInicial) && showContasForm == old(showContasForm)
    {
      contas := Removed(contas, id);
    }

    /** `editarConta` */
    method EditarConta(id: string, contaEditada: ContaData)
      modifies this
      ensures contas == Edited(old(contas), id, contaEditada)
      ensures saldoInicial == old(saldoInicial) && showContasForm == old(showContasForm)
    {
      contas := Edited(contas, id, contaEditada);
    }

    /** The "Adicionar Conta" / "Cancelar" button. */
    method ToggleContasForm()
      modifies this
      ensures showContasForm == !old(showContasForm)
      ensures saldoInicial == old(saldoInicial) && contas == old(contas)
    {
      showContasForm := !showContasForm;
    }

    /** `setSaldoInicial`, called by the balance card. */
    method SetSaldoInicial(valor: real)
      modifies this
      ensures saldoInicial == valor
      ensures contas == old(contas) && showContasForm == old(showContasForm)
    {
      saldoInicial := valor;
    }
  }
}
