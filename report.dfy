/** The PDF report: a title block, the money summary, the split by
    category, every bill in due order, and a page of tips. The document is
    a sequence of pages, each a sequence of text lines placed at a height
    `y` (in millimetres from the top); a cursor walks down the page and a
    new page is started when it passes a threshold. */
module Report {
  import opened Wrappers
  import opened Bills
  import opened List

  const Margin := 20.0

  /** The lowest a line ever starts: a bill block begun at 250 writes its
      note at 279, still inside the 297 mm of an A4 page. */
  const LowestLine := 279.0

  /** What a line says. The text of amounts and dates (`toFixed`,
      `toLocaleDateString`) is not modelled: the lines carry the values. */
  datatype Entry =
    | Title
    | GeneratedOn(date: string)
    | Author
    | ResumoHeader
    | SaldoInicialLine(saldoInicial: real)
    | TotalDespesasLine(totalDespesas: real)
    | SaldoRestanteLine(saldoRestante: real, positivo: bool)
    | AnaliseHeader
    | FixasLine(totalFixas: real, count: nat)
    | VariaveisLine(totalVariaveis: real, count: nat)
    | DetalhamentoHeader
    | BillName(number: nat, nome: string)
    | BillValor(valor: real)
    | BillVencimento(vencimento: string)
    | BillTipo(tipo: Category)
    | BillObservacao(observacao: string)
    | DicasHeader
    | DicaLine(dica: Dica)

  datatype Line = Line(entry: Entry, x: real, y: real, fontSize: real, bold: bool)

  /** The jsPDF document: the pages already left behind and the page being
      written, always the last one. */
  class Document {
    var done: seq<seq<Line>>
    var current: seq<Line>

    function Pages(): seq<seq<Line>>
      reads this
    {
      done + [current]
    }

    constructor()
      ensures done == [] && current == []
    {
      done := [];
      current := [];
    }

    method AddPage()
      modifies this
      ensures done == old(done) + [old(current)] && current == []
    {
      done := done + [current];
      current := [];
    }

    method Text(line: Line)
      modifies this
      ensures done == old(done) && current == old(current) + [line]
    {
      current := current + [line];
    }
  }

  /** `addText`: writes the line at the cursor and returns the cursor moved
      down by half the font size plus 2. */
  method AddText(pdf: Document, entry: Entry, x: real, y: real, fontSize: real, isBold: bool) returns (next: real)
    modifies pdf
    ensures pdf.done == old(pdf.done) && pdf.current == old(pdf.current) + [Line(entry, x, y, fontSize, isBold)]
    ensures next == y + fontSize * 0.5 + 2.0
  {
    pdf.Text(Line(entry, x, y, fontSize, isBold));
    next := y + (fontSize * 0.5) + 2.0;
  }

  // ---------------------------------------------------------------------
  // The layout as a function of the inputs

  /** The document and the cursor between two steps. */
  datatype Cursor = Cursor(done: seq<seq<Line>>, current: seq<Line>, y: real) {
    function Pages(): seq<seq<Line>> {
      done + [current]
    }
  }

  function Put(cur: Cursor, entry: Entry, x: real, fontSize: real, bold: bool): Cursor {
    cur.(current := cur.current + [Line(entry, x, cur.y, fontSize, bold)], y := cur.y + fontSize * 0.5 + 2.0)
  }

  function Skip(cur: Cursor, dy: real): Cursor {
    cur.(y := cur.y + dy)
  }

  function NewPage(cur: Cursor): Cursor {
    Cursor(cur.done + [cur.current], [], Margin)
  }

  function BreakAfter(cur: Cursor, limit: real): Cursor {
    if cur.y > limit then NewPage(cur) else cur
  }

  /** The note is written when there is one and it is not empty (an empty
      string is falsy). */
  predicate HasObservacao(c: Conta) {
    c.observacao.Some? && c.observacao.value != []
  }

  /** One bill: its number and name, amount, due date, category and note,
      started on a new page when the cursor is past 250. The name is
      written where the block starts, and the block takes 32 mm, or 39 mm
      with a note. */
  function BillBlock(cur: Cursor, c: Conta, number: nat): (r: Cursor)
    ensures cur.y <= 250.0 ==>
              && r.done == cur.done
              && |r.current| > |cur.current| && r.current[..|cur.current|] == cur.current
              && r.current[|cur.current|] == Line(BillName(number, c.nome), Margin, cur.y, 12.0, true)
    ensures cur.y > 250.0 ==>
              && r.done == cur.done + [cur.current]
              && r.current != [] && r.current[0] == Line(BillName(number, c.nome), Margin, Margin, 12.0, true)
    ensures HasObservacao(c) ==> r.y == (if cur.y > 250.0 then Margin else cur.y) + 39.0
    ensures !HasObservacao(c) ==> r.y == (if cur.y > 250.0 then Margin else cur.y) + 32.0
  {
    var c0 := BreakAfter(cur, 250.0);
    var c1 := Put(c0, BillName(number, c.nome), Margin, 12.0, true);
    var c2 := Put(c1, BillValor(c.valor), Margin + 5.0, 10.0, false);
    var c3 := Put(c2, BillVencimento(c.vencimento), Margin + 5.0, 10.0, false);
    var c4 := Put(c3, BillTipo(c.tipo), Margin + 5.0, 10.0, false);
    var c5 := if HasObservacao(c) then Put(c4, BillObservacao(c.observacao.value), Margin + 5.0, 10.0, false) else c4;
    Skip(c5, 3.0)
  }

  /** The bills from `number` on, one block each. */
  function BillBlocks(cur: Cursor, s: seq<Conta>, number: nat): (r: Cursor)
    ensures |cur.done| <= |r.done| && r.done[..|cur.done|] == cur.done
    decreases |s|
  {
    if s == [] then cur else BillBlocks(BillBlock(cur, s[0], number), s[1..], number + 1)
  }

  /** One tip, started on a new page when the cursor is past 270, and
      taking 7 mm. */
  function TipLine(cur: Cursor, dica: Dica): (r: Cursor)
    ensures cur.y <= 270.0 ==>
              r == Cursor(cur.done, cur.current + [Line(DicaLine(dica), Margin, cur.y, 10.0, false)], cur.y + 7.0)
    ensures cur.y > 270.0 ==>
              r == Cursor(cur.done + [cur.current], [Line(DicaLine(dica), Margin, Margin, 10.0, false)], Margin + 7.0)
  {
    Put(BreakAfter(cur, 270.0), DicaLine(dica), Margin, 10.0, false)
  }

  function TipLines(cur: Cursor, dicas: seq<Dica>): (r: Cursor)
    ensures |cur.done| <= |r.done| && r.done[..|cur.done|] == cur.done
    decreases |dicas|
  {
    if dicas == [] then cur else TipLines(TipLine(cur, dicas[0]), dicas[1..])
  }

  /** The tips the report can carry. */
  datatype Dica =
    | Regra503020
    | ReservaSeisMeses
    | RevisarMensalmente
    | Renegociar
    | Automatizar
    | Atencao
    | ReviseUrgente
    | AumentarRenda

  const BaseDicas: seq<Dica> := [Regra503020, ReservaSeisMeses, RevisarMensalmente, Renegociar, Automatizar]

  /** The tip list: the five standing tips, with three warnings put in
      front one by one when the balance is negative. */
  function Dicas(saldoRestante: real): (dicas: seq<Dica>)
    ensures |dicas| == (if saldoRestante < 0.0 then 8 else 5)
    ensures dicas[|dicas| - 5..] == BaseDicas
    ensures Atencao in dicas <==> saldoRestante < 0.0
    ensures saldoRestante < 0.0 ==> dicas[..3] == [AumentarRenda, ReviseUrgente, Atencao]
  {
    if saldoRestante < 0.0 then
      var dicas := [AumentarRenda] + ([ReviseUrgente] + ([Atencao] + BaseDicas));
      assert dicas[2] == Atencao;
      dicas
    else
      assert forall i :: 0 <= i < |BaseDicas| ==> BaseDicas[i] != Atencao;
      BaseDicas
  }

  /** The title block, the summary and the split by category, from the top
      of the first page: ten lines on the same page, taking 126 mm. */
  function Header(c0: Cursor, today: string, saldoInicial: real, totalDespesas: real, saldoRestante: real,
                  contasFixas: real, contasVariaveis: real, contas: seq<Conta>): (r: Cursor)
    ensures r.done == c0.done
    ensures |r.current| == |c0.current| + 10 && r.current[..|c0.current|] == c0.current
    ensures r.y == c0.y + 126.0
  {
    var c1 := Put(c0, Title, Margin, 20.0, true);
    var c2 := Put(c1, GeneratedOn(today), Margin, 10.0, false);
    var c3 := Skip(Put(c2, Author, Margin, 10.0, false), 10.0);
    var c4 := Skip(Put(c3, ResumoHeader, Margin, 16.0, true), 5.0);
    var c5 := Put(c4, SaldoInicialLine(saldoInicial), Margin, 12.0, false);
    var c6 := Put(c5, TotalDespesasLine(totalDespesas), Margin, 12.0, false);
    var c7 := Skip(Put(c6, SaldoRestanteLine(saldoRestante, saldoRestante >= 0.0), Margin, 12.0, true), 10.0);
    var c8 := Skip(Put(c7, AnaliseHeader, Margin, 16.0, true), 5.0);
    var c9 := Put(c8, FixasLine(contasFixas, |OfTipo(contas, Fixa)|), Margin, 12.0, false);
    Skip(Put(c9, VariaveisLine(contasVariaveis, |OfTipo(contas, Variavel)|), Margin, 12.0, false), 10.0)
  }

  /** The bill section, present only when there are bills. It only adds:
      pages already written stay as they are. */
  function Detail(cur: Cursor, contas: seq<Conta>, dueMs: string -> int): (r: Cursor)
    ensures contas == [] ==> r == cur
    ensures |cur.done| <= |r.done| && r.done[..|cur.done|] == cur.done
  {
    if |contas| > 0 then
      BillBlocks(Skip(Put(cur, DetalhamentoHeader, Margin, 16.0, true), 5.0), ContasOrdenadas(contas, dueMs), 1)
    else cur
  }

  /** The tips section, always on a page of its own: the page being
      written is left behind first. */
  function TipsSection(cur: Cursor, saldoRestante: real): (r: Cursor)
    ensures |r.done| > |cur.done| && r.done[..|cur.done| + 1] == cur.done + [cur.current]
  {
    TipsPage(cur, Dicas(saldoRestante))
  }

  function TipsPage(cur: Cursor, dicas: seq<Dica>): (r: Cursor)
    ensures |r.done| > |cur.done| && r.done[..|cur.done| + 1] == cur.done + [cur.current]
  {
    TipLines(Skip(Put(NewPage(cur), DicasHeader, Margin, 16.0, true), 5.0), dicas)
  }

  /** The whole report, on at least two pages: the tips never share a
      page with what comes before them. */
  function Layout(today: string, saldoInicial: real, totalDespesas: real, saldoRestante: real,
                  contasFixas: real, contasVariaveis: real, contas: seq<Conta>, dueMs: string -> int): (r: Cursor)
    ensures |r.done| >= 1
  {
    var head := Header(Cursor([], [], Margin), today, saldoInicial, totalDespesas, saldoRestante, contasFixas, contasVariaveis, contas);
    TipsSection(Detail(head, contas, dueMs), saldoRestante)
  }

  // ---------------------------------------------------------------------
  // What the report says, line by line, ignoring where

  function LineEntries(ls: seq<Line>): seq<Entry> {
    if ls == [] then [] else LineEntries(ls[..|ls| - 1]) + [ls[|ls| - 1].entry]
  }

  function PagesEntries(pages: seq<seq<Line>>): seq<Entry> {
    if pages == [] then [] else PagesEntries(pages[..|pages| - 1]) + LineEntries(pages[|pages| - 1])
  }

  /** Every entry written so far, page after page. */
  function Entries(cur: Cursor): seq<Entry> {
    PagesEntries(cur.done) + LineEntries(cur.current)
  }

  /** A bill's entries: number and name, amount, due date, category, and
      the note when there is one. */
  function BlockEntries(c: Conta, number: nat): seq<Entry> {
    [BillName(number, c.nome), BillValor(c.valor), BillVencimento(c.vencimento), BillTipo(c.tipo)]
    + (if HasObservacao(c) then [BillObservacao(c.observacao.value)] else [])
  }

  function BillsEntries(s: seq<Conta>, number: nat): seq<Entry>
    decreases |s|
  {
    if s == [] then [] else BlockEntries(s[0], number) + BillsEntries(s[1..], number + 1)
  }

  function TipEntries(ds: seq<Dica>): seq<Entry> {
    if ds == [] then [] else [DicaLine(ds[0])] + TipEntries(ds[1..])
  }

  /** The title block, the summary and the split by category. */
  function HeaderEntries(today: string, saldoInicial: real, totalDespesas: real, saldoRestante: real,
                         contasFixas: real, contasVariaveis: real, contas: seq<Conta>): seq<Entry>
  {
    [Title, GeneratedOn(today), Author,
     ResumoHeader, SaldoInicialLine(saldoInicial), TotalDespesasLine(totalDespesas),
     SaldoRestanteLine(saldoRestante, saldoRestante >= 0.0),
     AnaliseHeader, FixasLine(contasFixas, |OfTipo(contas, Fixa)|), VariaveisLine(contasVariaveis, |OfTipo(contas, Variavel)|)]
  }

  /** The bill section: nothing without bills, otherwise its header and
      the bills in due order, numbered from 1. */
  function DetailEntries(contas: seq<Conta>, dueMs: string -> int): seq<Entry> {
    if contas == [] then [] else [DetalhamentoHeader] + BillsEntries(ContasOrdenadas(contas, dueMs), 1)
  }

  function TipsEntries(saldoRestante: real): seq<Entry> {
    [DicasHeader] + TipEntries(Dicas(saldoRestante))
  }

  /** The report's entries in order: title block, summary, split by
      category, the bill section, then the tips. */
  function ReportEntries(today: string, saldoInicial: real, totalDespesas: real, saldoRestante: real,
                         contasFixas: real, contasVariaveis: real, contas: seq<Conta>, dueMs: string -> int): seq<Entry>
  {
    HeaderEntries(today, saldoInicial, totalDespesas, saldoRestante, contasFixas, contasVariaveis, contas)
    + DetailEntries(contas, dueMs)
    + TipsEntries(saldoRestante)
  }

  lemma EntriesPut(cur: Cursor, entry: Entry, x: real, fontSize: real, bold: bool)
    ensures Entries(Put(cur, entry, x, fontSize, bold)) == Entries(cur) + [entry]
  {
    var ls := cur.current + [Line(entry, x, cur.y, fontSize, bold)];
    assert ls[..|ls| - 1] == cur.current;
  }

  lemma EntriesNewPage(cur: Cursor)
    ensures Entries(NewPage(cur)) == Entries(cur)
  {
    var pages := cur.done + [cur.current];
    assert pages[..|pages| - 1] == cur.done;
  }

  lemma EntriesBreakAfter(cur: Cursor, limit: real)
    ensures Entries(BreakAfter(cur, limit)) == Entries(cur)
  {
    EntriesNewPage(cur);
  }

  lemma EntriesBillBlock(cur: Cursor, c: Conta, number: nat)
    ensures Entries(BillBlock(cur, c, number)) == Entries(cur) + BlockEntries(c, number)
  {
    var e := Entries(cur);
    var c0 := BreakAfter(cur, 250.0);
    EntriesBreakAfter(cur, 250.0);
    var c1 := Put(c0, BillName(number, c.nome), Margin, 12.0, true);
    EntriesPut(c0, BillName(number, c.nome), Margin, 12.0, true);
    var c2 := Put(c1, BillValor(c.valor), Margin + 5.0, 10.0, false);
    EntriesPut(c1, BillValor(c.valor), Margin + 5.0, 10.0, false);
    assert Entries(c2) == e + [BillName(number, c.nome), BillValor(c.valor)];
    var c3 := Put(c2, BillVencimento(c.vencimento), Margin + 5.0, 10.0, false);
    EntriesPut(c2, BillVencimento(c.vencimento), Margin + 5.0, 10.0, false);
    var c4 := Put(c3, BillTipo(c.tipo), Margin + 5.0, 10.0, false);
    EntriesPut(c3, BillTipo(c.tipo), Margin + 5.0, 10.0, false);
    var four := [BillName(number, c.nome), BillValor(c.valor), BillVencimento(c.vencimento), BillTipo(c.tipo)];
    assert Entries(c4) == e + four;
    if HasObservacao(c) {
      EntriesPut(c4, BillObservacao(c.observacao.value), Margin + 5.0, 10.0, false);
      assert Entries(BillBlock(cur, c, number)) == (e + four) + [BillObservacao(c.observacao.value)];
    } else {
      assert Entries(BillBlock(cur, c, number)) == (e + four) + [];
    }
  }

  lemma {:induction false} EntriesBillBlocks(cur: Cursor, s: seq<Conta>, number: nat)
    ensures Entries(BillBlocks(cur, s, number)) == Entries(cur) + BillsEntries(s, number)
    decreases |s|
  {
    if s != [] {
      EntriesBillBlock(cur, s[0], number);
      EntriesBillBlocks(BillBlock(cur, s[0], number), s[1..], number + 1);
    }
  }

  lemma {:induction false} EntriesTipLines(cur: Cursor, ds: seq<Dica>)
    ensures Entries(TipLines(cur, ds)) == Entries(cur) + TipEntries(ds)
    decreases |ds|
  {
    if ds != [] {
      EntriesBreakAfter(cur, 270.0);
      EntriesPut(BreakAfter(cur, 270.0), DicaLine(ds[0]), Margin, 10.0, false);
      EntriesTipLines(TipLine(cur, ds[0]), ds[1..]);
    }
  }

  lemma EntriesHeader(today: string, saldoInicial: real, totalDespesas: real, saldoRestante: real,
                      contasFixas: real, contasVariaveis: real, contas: seq<Conta>)
    ensures Entries(Header(Cursor([], [], Margin), today, saldoInicial, totalDespesas, saldoRestante, contasFixas, contasVariaveis, contas))
            == HeaderEntries(today, saldoInicial, totalDespesas, saldoRestante, contasFixas, contasVariaveis, contas)
  {
    var c0 := Cursor([], [], Margin);
    assert Entries(c0) == [];
    var c1 := Put(c0, Title, Margin, 20.0, true);
    EntriesPut(c0, Title, Margin, 20.0, true);
    var c2 := Put(c1, GeneratedOn(today), Margin, 10.0, false);
    EntriesPut(c1, GeneratedOn(today), Margin, 10.0, false);
    var c3 := Skip(Put(c2, Author, Margin, 10.0, false), 10.0);
    EntriesPut(c2, Author, Margin, 10.0, false);
    assert Entries(c3) == [Title, GeneratedOn(today), Author];
    var c4 := Skip(Put(c3, ResumoHeader, Margin, 16.0, true), 5.0);
    EntriesPut(c3, ResumoHeader, Margin, 16.0, true);
    var c5 := Put(c4, SaldoInicialLine(saldoInicial), Margin, 12.0, false);
    EntriesPut(c4, SaldoInicialLine(saldoInicial), Margin, 12.0, false);
    var c6 := Put(c5, TotalDespesasLine(totalDespesas), Margin, 12.0, false);
    EntriesPut(c5, TotalDespesasLine(totalDespesas), Margin, 12.0, false);
    assert Entries(c6) == [Title, GeneratedOn(today), Author, ResumoHeader, SaldoInicialLine(saldoInicial), TotalDespesasLine(totalDespesas)];
    var c7 := Skip(Put(c6, SaldoRestanteLine(saldoRestante, saldoRestante >= 0.0), Margin, 12.0, true), 10.0);
    EntriesPut(c6, SaldoRestanteLine(saldoRestante, saldoRestante >= 0.0), Margin, 12.0, true);
    var c8 := Skip(Put(c7, AnaliseHeader, Margin, 16.0, true), 5.0);
    EntriesPut(c7, AnaliseHeader, Margin, 16.0, true);
    var c9 := Put(c8, FixasLine(contasFixas, |OfTipo(contas, Fixa)|), Margin, 12.0, false);
    EntriesPut(c8, FixasLine(contasFixas, |OfTipo(contas, Fixa)|), Margin, 12.0, false);
    EntriesPut(c9, VariaveisLine(contasVariaveis, |OfTipo(contas, Variavel)|), Margin, 12.0, false);
  }

  lemma EntriesDetail(cur: Cursor, contas: seq<Conta>, dueMs: string -> int)
    ensures Entries(Detail(cur, contas, dueMs)) == Entries(cur) + DetailEntries(contas, dueMs)
  {
    if |contas| > 0 {
      var sorted := ContasOrdenadas(contas, dueMs);
      var put := Put(cur, DetalhamentoHeader, Margin, 16.0, true);
      var top := Skip(put, 5.0);
      assert Entries(top) == Entries(cur) + [DetalhamentoHeader] by {
        EntriesPut(cur, DetalhamentoHeader, Margin, 16.0, true);
        assert top.done == put.done && top.current == put.current;
      }
      assert Detail(cur, contas, dueMs) == BillBlocks(top, sorted, 1);
      EntriesBillBlocks(top, sorted, 1);
      assert Entries(Detail(cur, contas, dueMs)) == (Entries(cur) + [DetalhamentoHeader]) + BillsEntries(sorted, 1);
    }
  }

  lemma EntriesTipsPage(cur: Cursor, dicas: seq<Dica>)
    ensures Entries(TipsPage(cur, dicas)) == Entries(cur) + ([DicasHeader] + TipEntries(dicas))
  {
    var e := Entries(cur);
    var t := TipEntries(dicas);
    EntriesNewPage(cur);
    var top := Skip(Put(NewPage(cur), DicasHeader, Margin, 16.0, true), 5.0);
    EntriesPut(NewPage(cur), DicasHeader, Margin, 16.0, true);
    assert Entries(top) == e + [DicasHeader];
    EntriesTipLines(top, dicas);
    assert (e + [DicasHeader]) + t == e + ([DicasHeader] + t);
  }

  /** The report says, in order, exactly what `ReportEntries` lists: the
      page breaks and the cursor change where lines go, not what they are. */
  lemma LayoutEntries(today: string, saldoInicial: real, totalDespesas: real, saldoRestante: real,
                      contasFixas: real, contasVariaveis: real, contas: seq<Conta>, dueMs: string -> int)
    ensures Entries(Layout(today, saldoInicial, totalDespesas, saldoRestante, contasFixas, contasVariaveis, contas, dueMs))
            == ReportEntries(today, saldoInicial, totalDespesas, saldoRestante, contasFixas, contasVariaveis, contas, dueMs)
  {
    var head := Header(Cursor([], [], Margin), today, saldoInicial, totalDespesas, saldoRestante, contasFixas, contasVariaveis, contas);
    EntriesHeader(today, saldoInicial, totalDespesas, saldoRestante, contasFixas, contasVariaveis, contas);
    EntriesDetail(head, contas, dueMs);
    EntriesTipsPage(Detail(head, contas, dueMs), Dicas(saldoRestante));
  }

  // ---------------------------------------------------------------------
  // Where the lines go

  /** Where a line may sit as the `i`-th line of its page: between the
      margin and the lowest line, at the margin when it opens the page, a
      bill's first line no lower than 250, a tip no lower than 270, and the
      tips header only at the top of a page. */
  predicate Placed(l: Line, i: nat) {
    && Margin <= l.y <= LowestLine
    && (i == 0 ==> l.y == Margin)
    && (l.entry.BillName? ==> l.y <= 250.0)
    && (l.entry.DicaLine? ==> l.y <= 270.0)
    && (l.entry.DicasHeader? ==> i == 0)
  }

  predicate PagePlaced(page: seq<Line>) {
    forall i :: 0 <= i < |page| ==> Placed(page[i], i)
  }

  /** What holds between any two steps: every line placed, every page left
      behind written on, and the cursor at the margin on a fresh page. */
  predicate Inv(cur: Cursor) {
    && Margin <= cur.y
    && (forall p :: 0 <= p < |cur.done| ==> cur.done[p] != [] && PagePlaced(cur.done[p]))
    && PagePlaced(cur.current)
    && (cur.current == [] ==> cur.y == Margin)
  }

  lemma PutInv(cur: Cursor, entry: Entry, x: real, fontSize: real, bold: bool)
    requires Inv(cur) && fontSize >= 0.0
    requires Placed(Line(entry, x, cur.y, fontSize, bold), |cur.current|)
    ensures Inv(Put(cur, entry, x, fontSize, bold)) && Put(cur, entry, x, fontSize, bold).current != []
  {
    var next := Put(cur, entry, x, fontSize, bold);
    assert forall i :: 0 <= i < |cur.current| ==> next.current[i] == cur.current[i];
  }

  lemma NewPageInv(cur: Cursor)
    requires Inv(cur) && cur.current != []
    ensures Inv(NewPage(cur))
  {
    var next := NewPage(cur);
    assert forall p :: 0 <= p < |cur.done| ==> next.done[p] == cur.done[p];
  }

  lemma BillBlockInv(cur: Cursor, c: Conta, number: nat)
    requires Inv(cur) && cur.current != []
    ensures Inv(BillBlock(cur, c, number)) && BillBlock(cur, c, number).current != []
  {
    var c0 := BreakAfter(cur, 250.0);
    if cur.y > 250.0 {
      NewPageInv(cur);
    }
    assert Margin <= c0.y <= 250.0;
    var c1 := Put(c0, BillName(number, c.nome), Margin, 12.0, true);
    PutInv(c0, BillName(number, c.nome), Margin, 12.0, true);
    var c2 := Put(c1, BillValor(c.valor), Margin + 5.0, 10.0, false);
    PutInv(c1, BillValor(c.valor), Margin + 5.0, 10.0, false);
    var c3 := Put(c2, BillVencimento(c.vencimento), Margin + 5.0, 10.0, false);
    PutInv(c2, BillVencimento(c.vencimento), Margin + 5.0, 10.0, false);
    var c4 := Put(c3, BillTipo(c.tipo), Margin + 5.0, 10.0, false);
    PutInv(c3, BillTipo(c.tipo), Margin + 5.0, 10.0, false);
    if HasObservacao(c) {
      PutInv(c4, BillObservacao(c.observacao.value), Margin + 5.0, 10.0, false);
    }
  }

  lemma {:induction false} BillBlocksInv(cur: Cursor, s: seq<Conta>, number: nat)
    requires Inv(cur) && cur.current != []
    ensures Inv(BillBlocks(cur, s, number)) && BillBlocks(cur, s, number).current != []
    decreases |s|
  {
    if s != [] {
      BillBlockInv(cur, s[0], number);
      BillBlocksInv(BillBlock(cur, s[0], number), s[1..], number + 1);
    }
  }

  lemma {:induction false} TipLinesInv(cur: Cursor, ds: seq<Dica>)
    requires Inv(cur) && cur.current != []
    ensures Inv(TipLines(cur, ds)) && TipLines(cur, ds).current != []
    decreases |ds|
  {
    if ds != [] {
      if cur.y > 270.0 {
        NewPageInv(cur);
      }
      PutInv(BreakAfter(cur, 270.0), DicaLine(ds[0]), Margin, 10.0, false);
      TipLinesInv(TipLine(cur, ds[0]), ds[1..]);
    }
  }

  /** The title block fills the top of the first page and leaves the
      cursor at 146. */
  lemma HeaderInv(today: string, saldoInicial: real, totalDespesas: real, saldoRestante: real,
                  contasFixas: real, contasVariaveis: real, contas: seq<Conta>)
    ensures var h := Header(Cursor([], [], Margin), today, saldoInicial, totalDespesas, saldoRestante, contasFixas, contasVariaveis, contas);
            Inv(h) && h.current != [] && h.y == 146.0
  {
    var c0 := Cursor([], [], Margin);
    var c1 := Put(c0, Title, Margin, 20.0, true);
    PutInv(c0, Title, Margin, 20.0, true);
    var c2 := Put(c1, GeneratedOn(today), Margin, 10.0, false);
    PutInv(c1, GeneratedOn(today), Margin, 10.0, false);
    var c3 := Skip(Put(c2, Author, Margin, 10.0, false), 10.0);
    PutInv(c2, Author, Margin, 10.0, false);
    var c4 := Skip(Put(c3, ResumoHeader, Margin, 16.0, true), 5.0);
    PutInv(c3, ResumoHeader, Margin, 16.0, true);
    var c5 := Put(c4, SaldoInicialLine(saldoInicial), Margin, 12.0, false);
    PutInv(c4, SaldoInicialLine(saldoInicial), Margin, 12.0, false);
    var c6 := Put(c5, TotalDespesasLine(totalDespesas), Margin, 12.0, false);
    PutInv(c5, TotalDespesasLine(totalDespesas), Margin, 12.0, false);
    var c7 := Skip(Put(c6, SaldoRestanteLine(saldoRestante, saldoRestante >= 0.0), Margin, 12.0, true), 10.0);
    PutInv(c6, SaldoRestanteLine(saldoRestante, saldoRestante >= 0.0), Margin, 12.0, true);
    var c8 := Skip(Put(c7, AnaliseHeader, Margin, 16.0, true), 5.0);
    PutInv(c7, AnaliseHeader, Margin, 16.0, true);
    var c9 := Put(c8, FixasLine(contasFixas, |OfTipo(contas, Fixa)|), Margin, 12.0, false);
    PutInv(c8, FixasLine(contasFixas, |OfTipo(contas, Fixa)|), Margin, 12.0, false);
    PutInv(c9, VariaveisLine(contasVariaveis, |OfTipo(contas, Variavel)|), Margin, 12.0, false);
  }

  lemma DetailInv(cur: Cursor, contas: seq<Conta>, dueMs: string -> int)
    requires Inv(cur) && cur.current != [] && cur.y <= LowestLine
    ensures Inv(Detail(cur, contas, dueMs)) && Detail(cur, contas, dueMs).current != []
  {
    if |contas| > 0 {
      PutInv(cur, DetalhamentoHeader, Margin, 16.0, true);
      BillBlocksInv(Skip(Put(cur, DetalhamentoHeader, Margin, 16.0, true), 5.0), ContasOrdenadas(contas, dueMs), 1);
    }
  }

  lemma TipsPageInv(cur: Cursor, dicas: seq<Dica>)
    requires Inv(cur) && cur.current != []
    ensures Inv(TipsPage(cur, dicas)) && TipsPage(cur, dicas).current != []
  {
    NewPageInv(cur);
    PutInv(NewPage(cur), DicasHeader, Margin, 16.0, true);
    TipLinesInv(Skip(Put(NewPage(cur), DicasHeader, Margin, 16.0, true), 5.0), dicas);
  }

  /** Every page of the report has lines, opens at the margin, and keeps
      its lines between the margin and 279; bills start no lower than 250,
      tips sit no lower than 270, and the tips header opens a page. */
  lemma LayoutPlaced(today: string, saldoInicial: real, totalDespesas: real, saldoRestante: real,
                     contasFixas: real, contasVariaveis: real, contas: seq<Conta>, dueMs: string -> int)
    ensures var pages := Layout(today, saldoInicial, totalDespesas, saldoRestante, contasFixas, contasVariaveis, contas, dueMs).Pages();
            && (forall p :: 0 <= p < |pages| ==> pages[p] != [] && pages[p][0].y == Margin)
            && (forall p, i :: 0 <= p < |pages| && 0 <= i < |pages[p]| ==> Placed(pages[p][i], i))
  {
    var head := Header(Cursor([], [], Margin), today, saldoInicial, totalDespesas, saldoRestante, contasFixas, contasVariaveis, contas);
    HeaderInv(today, saldoInicial, totalDespesas, saldoRestante, contasFixas, contasVariaveis, contas);
    DetailInv(head, contas, dueMs);
    TipsPageInv(Detail(head, contas, dueMs), Dicas(saldoRestante));
    var last := Layout(today, saldoInicial, totalDespesas, saldoRestante, contasFixas, contasVariaveis, contas, dueMs);
    var pages := last.Pages();
    forall p | 0 <= p < |pages|
      ensures pages[p] != [] && PagePlaced(pages[p])
    {
      if p < |last.done| {
        assert pages[p] == last.done[p];
      } else {
        assert pages[p] == last.current;
      }
    }
  }

  // ---------------------------------------------------------------------
  // What the report promises about its content

  predicate IsBillEntry(e: Entry) {
    e.BillName? || e.BillValor? || e.BillVencimento? || e.BillTipo? || e.BillObservacao?
  }

  /** The bill section is made of bill lines only. */
  lemma {:induction false} BillsEntriesOnlyBills(s: seq<Conta>, number: nat)
    ensures forall i :: 0 <= i < |BillsEntries(s, number)| ==> IsBillEntry(BillsEntries(s, number)[i])
    decreases |s|
  {
    if s != [] {
      BillsEntriesOnlyBills(s[1..], number + 1);
    }
  }

  /** One tip line per tip, in the order of the list. */
  lemma {:induction false} TipEntriesOf(ds: seq<Dica>)
    ensures |TipEntries(ds)| == |ds|
    ensures forall i :: 0 <= i < |ds| ==> TipEntries(ds)[i] == DicaLine(ds[i])
    decreases |ds|
  {
    if ds != [] {
      TipEntriesOf(ds[1..]);
    }
  }

  /** The bill-name lines among some entries, in order. */
  function BillNames(es: seq<Entry>): seq<Entry> {
    if es == [] then [] else (if es[0].BillName? then [es[0]] else []) + BillNames(es[1..])
  }

  lemma {:induction false} BillNamesAppend(a: seq<Entry>, b: seq<Entry>)
    ensures BillNames(a + b) == BillNames(a) + BillNames(b)
    decreases |a|
  {
    if a != [] {
      var h := if a[0].BillName? then [a[0]] else [];
      assert (a + b)[0] == a[0] && (a + b)[1..] == a[1..] + b;
      assert BillNames(a + b) == h + BillNames(a[1..] + b);
      assert BillNames(a) == h + BillNames(a[1..]);
      BillNamesAppend(a[1..], b);
      assert h + (BillNames(a[1..]) + BillNames(b)) == (h + BillNames(a[1..])) + BillNames(b);
    } else {
      assert a + b == b;
    }
  }

  lemma {:induction false} NoBillNames(es: seq<Entry>)
    requires forall i :: 0 <= i < |es| ==> !es[i].BillName?
    ensures BillNames(es) == []
    decreases |es|
  {
    if es != [] {
      NoBillNames(es[1..]);
    }
  }

  /** The bills are named in turn, numbered on from `number`. */
  lemma {:induction false} BillsNumbered(s: seq<Conta>, number: nat)
    ensures var names := BillNames(BillsEntries(s, number));
            |names| == |s| && forall k :: 0 <= k < |s| ==> names[k] == BillName(number + k, s[k].nome)
    decreases |s|
  {
    if s != [] {
      var block := BlockEntries(s[0], number);
      BillNamesAppend(block, BillsEntries(s[1..], number + 1));
      assert block == [BillName(number, s[0].nome)] + block[1..];
      BillNamesAppend([BillName(number, s[0].nome)], block[1..]);
      NoBillNames(block[1..]);
      BillsNumbered(s[1..], number + 1);
    }
  }

  /** The title block names no bill, has no bill-section header and no
      tip. */
  lemma HeaderQuiet(today: string, saldoInicial: real, totalDespesas: real, saldoRestante: real,
                    contasFixas: real, contasVariaveis: real, contas: seq<Conta>)
    ensures var head := HeaderEntries(today, saldoInicial, totalDespesas, saldoRestante, contasFixas, contasVariaveis, contas);
            BillNames(head) == [] && DetalhamentoHeader !in head && forall i :: 0 <= i < |head| ==> !head[i].DicaLine?
  {
    var head := HeaderEntries(today, saldoInicial, totalDespesas, saldoRestante, contasFixas, contasVariaveis, contas);
    NoBillNames(head);
  }

  /** The bill section: the bills named in due order from 1, its header
      present exactly when there are bills, and no tip. */
  lemma DetailContent(contas: seq<Conta>, dueMs: string -> int)
    ensures var detail := DetailEntries(contas, dueMs);
            var names := BillNames(detail);
            var sorted := ContasOrdenadas(contas, dueMs);
            && |names| == |contas|
            && (forall k :: 0 <= k < |contas| ==> names[k] == BillName(k + 1, sorted[k].nome))
            && (DetalhamentoHeader in detail <==> contas != [])
            && (forall i :: 0 <= i < |detail| ==> !detail[i].DicaLine?)
  {
    var sorted := ContasOrdenadas(contas, dueMs);
    var bills := BillsEntries(sorted, 1);
    var detail := DetailEntries(contas, dueMs);
    assert (DetalhamentoHeader in detail <==> contas != []) && forall i :: 0 <= i < |detail| ==> !detail[i].DicaLine? by {
      BillsEntriesOnlyBills(sorted, 1);
    }
    if contas != [] {
      assert BillNames(detail) == BillNames(bills) by {
        BillNamesAppend([DetalhamentoHeader], bills);
      }
      BillsNumbered(sorted, 1);
    }
  }

  /** A tips section: its header, then one line per tip, naming no bill. */
  lemma TipsPageContent(dicas: seq<Dica>)
    ensures var tips := [DicasHeader] + TipEntries(dicas);
            && BillNames(tips) == [] && DetalhamentoHeader !in tips
            && |tips| == |dicas| + 1
            && (forall i :: 0 <= i < |dicas| ==> tips[i + 1] == DicaLine(dicas[i]))
            && (forall d :: DicaLine(d) in tips <==> d in dicas)
  {
    var tips := [DicasHeader] + TipEntries(dicas);
    TipEntriesOf(dicas);
    NoBillNames(tips);
    forall d
      ensures DicaLine(d) in tips <==> d in dicas
    {
      if d in dicas {
        var i :| 0 <= i < |dicas| && dicas[i] == d;
        assert tips[i + 1] == DicaLine(d);
      }
    }
  }

  /** Three consecutive elements, as a slice. */
  lemma ThreeFrom<T>(s: seq<T>, i: nat)
    requires i + 3 <= |s|
    ensures s[i..i + 3] == [s[i], s[i + 1], s[i + 2]]
  {
  }

  /** The tips section of the report. */
  lemma TipsContent(saldoRestante: real)
    ensures BillNames(TipsEntries(saldoRestante)) == [] && DetalhamentoHeader !in TipsEntries(saldoRestante)
    ensures |TipsEntries(saldoRestante)| == (if saldoRestante < 0.0 then 9 else 6)
    ensures DicaLine(Atencao) in TipsEntries(saldoRestante) <==> saldoRestante < 0.0
    ensures saldoRestante < 0.0 ==>
              TipsEntries(saldoRestante)[1..4] == [DicaLine(AumentarRenda), DicaLine(ReviseUrgente), DicaLine(Atencao)]
  {
    var dicas := Dicas(saldoRestante);
    var tips := [DicasHeader] + TipEntries(dicas);
    assert TipsEntries(saldoRestante) == tips;
    assert BillNames(tips) == [] && DetalhamentoHeader !in tips && |tips| == |dicas| + 1
           && (DicaLine(Atencao) in tips <==> Atencao in dicas) by {
      TipsPageContent(dicas);
    }
    if saldoRestante < 0.0 {
      assert tips[1..4] == [DicaLine(AumentarRenda), DicaLine(ReviseUrgente), DicaLine(Atencao)] by {
        TipEntriesOf(dicas);
        assert dicas[0] == AumentarRenda && dicas[1] == ReviseUrgente && dicas[2] == Atencao;
        ThreeFrom(tips, 1);
      }
    }
  }


  /** Parts that name no bill and hold no bill-section header leave the
      names and the header of what lies between them as they are. */
  lemma QuietEnds(head: seq<Entry>, detail: seq<Entry>, tips: seq<Entry>)
    requires BillNames(head) == [] && DetalhamentoHeader !in head
    requires BillNames(tips) == [] && DetalhamentoHeader !in tips
    ensures BillNames(head + detail + tips) == BillNames(detail)
    ensures DetalhamentoHeader in head + detail + tips <==> DetalhamentoHeader in detail
  {
    BillNamesAppend(head + detail, tips);
    BillNamesAppend(head, detail);
  }

  /** The report names every bill once, in due order, numbered 1, 2, 3 and
      so on; and it has a bill section exactly when there are bills. */
  lemma ReportBills(today: string, saldoInicial: real, totalDespesas: real, saldoRestante: real,
                    contasFixas: real, contasVariaveis: real, contas: seq<Conta>, dueMs: string -> int)
    ensures var e := ReportEntries(today, saldoInicial, totalDespesas, saldoRestante, contasFixas, contasVariaveis, contas, dueMs);
            var names := BillNames(e);
            var sorted := ContasOrdenadas(contas, dueMs);
            && |names| == |contas|
            && (forall k :: 0 <= k < |contas| ==> names[k] == BillName(k + 1, sorted[k].nome))
            && (DetalhamentoHeader in e <==> contas != [])
  {
    var head := HeaderEntries(today, saldoInicial, totalDespesas, saldoRestante, contasFixas, contasVariaveis, contas);
    var detail := DetailEntries(contas, dueMs);
    var tips := TipsEntries(saldoRestante);
    var e := ReportEntries(today, saldoInicial, totalDespesas, saldoRestante, contasFixas, contasVariaveis, contas, dueMs);
    assert e == head + detail + tips;
    assert BillNames(head) == [] && DetalhamentoHeader !in head by {
      HeaderQuiet(today, saldoInicial, totalDespesas, saldoRestante, contasFixas, contasVariaveis, contas);
    }
    assert BillNames(tips) == [] && DetalhamentoHeader !in tips by {
      TipsContent(saldoRestante);
    }
    QuietEnds(head, detail, tips);
    DetailContent(contas, dueMs);
  }

  /** The report opens with its title and closes with the last standing
      tip, whatever the balance and the bills. */
  lemma ReportEnds(today: string, saldoInicial: real, totalDespesas: real, saldoRestante: real,
                   contasFixas: real, contasVariaveis: real, contas: seq<Conta>, dueMs: string -> int)
    ensures var e := ReportEntries(today, saldoInicial, totalDespesas, saldoRestante, contasFixas, contasVariaveis, contas, dueMs);
            e != [] && e[0] == Title && e[|e| - 1] == DicaLine(Automatizar)
  {
    var head := HeaderEntries(today, saldoInicial, totalDespesas, saldoRestante, contasFixas, contasVariaveis, contas);
    var detail := DetailEntries(contas, dueMs);
    var tips := TipsEntries(saldoRestante);
    var dicas := Dicas(saldoRestante);
    assert tips[|tips| - 1] == DicaLine(Automatizar) by {
      TipEntriesOf(dicas);
      assert dicas[|dicas| - 1] == BaseDicas[4];
    }
    StartsWith(head, detail, 0);
    StartsWith(head + detail, tips, 0);
    EndsWith(head + detail, tips);
  }

  /** The summary line tags the remaining balance as positive when it is
      not negative. */
  lemma SummaryTag(today: string, saldoInicial: real, totalDespesas: real, saldoRestante: real,
                   contasFixas: real, contasVariaveis: real, contas: seq<Conta>, dueMs: string -> int)
    ensures ReportEntries(today, saldoInicial, totalDespesas, saldoRestante, contasFixas, contasVariaveis, contas, dueMs)[6] == SaldoRestanteLine(saldoRestante, saldoRestante >= 0.0)
  {
    var head := HeaderEntries(today, saldoInicial, totalDespesas, saldoRestante, contasFixas, contasVariaveis, contas);
    var detail := DetailEntries(contas, dueMs);
    StartsWith(head, detail, 6);
    StartsWith(head + detail, TipsEntries(saldoRestante), 6);
  }

  /** The front of a concatenation is its first part. */
  lemma StartsWith<T>(a: seq<T>, b: seq<T>, i: int)
    requires 0 <= i < |a|
    ensures (a + b)[i] == a[i]
  {
  }

  /** The report ends with its tips section. */
  lemma EndsWithTips(today: string, saldoInicial: real, totalDespesas: real, saldoRestante: real,
                     contasFixas: real, contasVariaveis: real, contas: seq<Conta>, dueMs: string -> int)
    ensures var e := ReportEntries(today, saldoInicial, totalDespesas, saldoRestante, contasFixas, contasVariaveis, contas, dueMs);
            e[|e| - |TipsEntries(saldoRestante)|..] == TipsEntries(saldoRestante)
  {
    var head := HeaderEntries(today, saldoInicial, totalDespesas, saldoRestante, contasFixas, contasVariaveis, contas);
    EndsWith(head + DetailEntries(contas, dueMs), TipsEntries(saldoRestante));
  }

  /** The first warning appears in the report exactly when the remaining
      balance is negative: neither the header nor the bill section holds a
      tip. */
  lemma WarningIffNegative(today: string, saldoInicial: real, totalDespesas: real, saldoRestante: real,
                           contasFixas: real, contasVariaveis: real, contas: seq<Conta>, dueMs: string -> int)
    ensures DicaLine(Atencao) in ReportEntries(today, saldoInicial, totalDespesas, saldoRestante, contasFixas, contasVariaveis, contas, dueMs) <==> saldoRestante < 0.0
  {
    var head := HeaderEntries(today, saldoInicial, totalDespesas, saldoRestante, contasFixas, contasVariaveis, contas);
    var detail := DetailEntries(contas, dueMs);
    var tips := TipsEntries(saldoRestante);
    assert DicaLine(Atencao) !in head;
    assert DicaLine(Atencao) !in detail by {
      DetailContent(contas, dueMs);
    }
    OnlyInLast(head, detail, tips, DicaLine(Atencao));
    TipsContent(saldoRestante);
  }

  /** Something in neither of the first two parts of a concatenation is in
      it exactly when it is in the third. */
  lemma OnlyInLast<T>(a: seq<T>, b: seq<T>, c: seq<T>, x: T)
    requires x !in a && x !in b
    ensures x in a + b + c <==> x in c
  {
  }

  /** The remaining balance is tagged positive when it is not negative,
      the report ends with its tips section, and the first warning appears
      exactly when the remaining balance is negative. */
  lemma ReportTips(today: string, saldoInicial: real, totalDespesas: real, saldoRestante: real,
                   contasFixas: real, contasVariaveis: real, contas: seq<Conta>, dueMs: string -> int)
    ensures var e := ReportEntries(today, saldoInicial, totalDespesas, saldoRestante, contasFixas, contasVariaveis, contas, dueMs);
            var tips := TipsEntries(saldoRestante);
            && e[6] == SaldoRestanteLine(saldoRestante, saldoRestante >= 0.0)
            && e[|e| - |tips|..] == tips
            && (DicaLine(Atencao) in e <==> saldoRestante < 0.0)
  {
    SummaryTag(today, saldoInicial, totalDespesas, saldoRestante, contasFixas, contasVariaveis, contas, dueMs);
    EndsWithTips(today, saldoInicial, totalDespesas, saldoRestante, contasFixas, contasVariaveis, contas, dueMs);
    WarningIffNegative(today, saldoInicial, totalDespesas, saldoRestante, contasFixas, contasVariaveis, contas, dueMs);
  }

  /** The back of a concatenation is its second part. */
  lemma EndsWith<T>(a: seq<T>, b: seq<T>)
    ensures (a + b)[|a + b| - |b|..] == b
  {
  }




  /** With the dashboard's own figures, the summary tags the remaining
      balance as positive exactly when the dashboard does, and the three
      warnings head the tips exactly when the bills exceed the balance:
      eight tips then, five otherwise. */
  lemma ReportWarnings(today: string, saldoInicial: real, contas: seq<Conta>, dueMs: string -> int)
    ensures var m := MetricsOf(saldoInicial, contas);
            var e := ReportEntries(today, saldoInicial, m.totalDespesas, m.saldoRestante, m.totalFixas, m.totalVariaveis, contas, dueMs);
            var tips := TipsEntries(m.saldoRestante);
            && e[6] == SaldoRestanteLine(m.saldoRestante, m.isPositive)
            && e[|e| - |tips|..] == tips
            && |tips| == (if Total(contas) > saldoInicial then 9 else 6)
            && (DicaLine(Atencao) in e <==> Total(contas) > saldoInicial)
            && (Total(contas) > saldoInicial ==>
                  tips[1..4] == [DicaLine(AumentarRenda), DicaLine(ReviseUrgente), DicaLine(Atencao)])
  {
    var m := MetricsOf(saldoInicial, contas);
    assert m.saldoRestante < 0.0 <==> Total(contas) > saldoInicial;
    ReportTips(today, saldoInicial, m.totalDespesas, m.saldoRestante, m.totalFixas, m.totalVariaveis, contas, dueMs);
    TipsContent(m.saldoRestante);
  }

  /** The dashboard shows the export card when there is a balance or a
      bill. */
  predicate ExporterShown(saldoInicial: real, contas: seq<Conta>) {
    saldoInicial > 0.0 || |contas| > 0
  }

  /** `disabled` on the export button: nothing to report. The button is
      never disabled on a card the dashboard shows; with a balance that is
      never negative, it would be disabled exactly when the card is
      hidden. */
  predicate ExportDisabled(saldoInicial: real, contas: seq<Conta>): (disabled: bool)
    ensures disabled ==> !ExporterShown(saldoInicial, contas)
    ensures saldoInicial >= 0.0 ==> (disabled <==> !ExporterShown(saldoInicial, contas))
  {
    saldoInicial == 0.0 && |contas| == 0
  }

  /** `toISOString().split('T')[0]`: the text before the first 'T', or all
      of it when there is none. */
  function DatePart(iso: string): (r: string)
    ensures |r| <= |iso| && r == iso[..|r|]
    ensures 'T' !in r
    ensures |r| < |iso| ==> iso[|r|] == 'T'
  {
    if iso == [] || iso[0] == 'T' then [] else [iso[0]] + DatePart(iso[1..])
  }

  /** The name the report is saved under. */
  function FileName(iso: string): (name: string)
    ensures name == "relatorio-financeiro-" + DatePart(iso) + ".pdf"
    ensures 'T' !in name[21..|name| - 4]
  {
    var name := "relatorio-financeiro-" + DatePart(iso) + ".pdf";
    assert name[21..|name| - 4] == DatePart(iso);
    name
  }

  /** The title block, the summary and the split by category, written from
      the cursor `currentY` on. */
  method WriteHeader(pdf: Document, currentY: real, today: string, saldoInicial: real, contas: seq<Conta>,
                     totalDespesas: real, saldoRestante: real, contasFixas: real, contasVariaveis: real)
    returns (y: real)
    modifies pdf
    ensures Cursor(pdf.done, pdf.current, y)
            == Header(Cursor(old(pdf.done), old(pdf.current), currentY), today, saldoInicial, totalDespesas, saldoRestante,
                      contasFixas, contasVariaveis, contas)
  {
    ghost var c := Cursor(pdf.done, pdf.current, currentY);
    y := AddText(pdf, Title, Margin, currentY, 20.0, true);
    y := AddText(pdf, GeneratedOn(today), Margin, y, 10.0, false);
    y := AddText(pdf, Author, Margin, y, 10.0, false);
    y := y + 10.0;
    c := Skip(Put(Put(Put(c, Title, Margin, 20.0, true), GeneratedOn(today), Margin, 10.0, false), Author, Margin, 10.0, false), 10.0);
    assert Cursor(pdf.done, pdf.current, y) == c;

    y := AddText(pdf, ResumoHeader, Margin, y, 16.0, true);
    y := y + 5.0;
    c := Skip(Put(c, ResumoHeader, Margin, 16.0, true), 5.0);
    assert Cursor(pdf.done, pdf.current, y) == c;

    y := AddText(pdf, SaldoInicialLine(saldoInicial), Margin, y, 12.0, false);
    y := AddText(pdf, TotalDespesasLine(totalDespesas), Margin, y, 12.0, false);
    y := AddText(pdf, SaldoRestanteLine(saldoRestante, saldoRestante >= 0.0), Margin, y, 12.0, true);
    y := y + 10.0;
    c := Skip(Put(Put(Put(c, SaldoInicialLine(saldoInicial), Margin, 12.0, false), TotalDespesasLine(totalDespesas), Margin, 12.0, false),
                  SaldoRestanteLine(saldoRestante, saldoRestante >= 0.0), Margin, 12.0, true), 10.0);
    assert Cursor(pdf.done, pdf.current, y) == c;

    y := AddText(pdf, AnaliseHeader, Margin, y, 16.0, true);
    y := y + 5.0;
    c := Skip(Put(c, AnaliseHeader, Margin, 16.0, true), 5.0);
    assert Cursor(pdf.done, pdf.current, y) == c;

    y := AddText(pdf, FixasLine(contasFixas, |OfTipo(contas, Fixa)|), Margin, y, 12.0, false);
    y := AddText(pdf, VariaveisLine(contasVariaveis, |OfTipo(contas, Variavel)|), Margin, y, 12.0, false);
    y := y + 10.0;
  }

  /** The body of the bill loop: one bill, on a new page when the cursor
      is past 250. */
  method WriteBill(pdf: Document, currentY: real, conta: Conta, number: nat) returns (y: real)
    modifies pdf
    ensures Cursor(pdf.done, pdf.current, y) == BillBlock(Cursor(old(pdf.done), old(pdf.current), currentY), conta, number)
  {
    ghost var c := Cursor(pdf.done, pdf.current, currentY);
    y := currentY;
    if y > 250.0 {
      pdf.AddPage();
      y := Margin;
    }
    c := BreakAfter(c, 250.0);
    assert Cursor(pdf.done, pdf.current, y) == c;
    y := AddText(pdf, BillName(number, conta.nome), Margin, y, 12.0, true);
    y := AddText(pdf, BillValor(conta.valor), Margin + 5.0, y, 10.0, false);
    c := Put(Put(c, BillName(number, conta.nome), Margin, 12.0, true), BillValor(conta.valor), Margin + 5.0, 10.0, false);
    assert Cursor(pdf.done, pdf.current, y) == c;
    y := AddText(pdf, BillVencimento(conta.vencimento), Margin + 5.0, y, 10.0, false);
    y := AddText(pdf, BillTipo(conta.tipo), Margin + 5.0, y, 10.0, false);
    c := Put(Put(c, BillVencimento(conta.vencimento), Margin + 5.0, 10.0, false), BillTipo(conta.tipo), Margin + 5.0, 10.0, false);
    assert Cursor(pdf.done, pdf.current, y) == c;
    if conta.observacao.Some? && conta.observacao.value != [] {
      y := AddText(pdf, BillObservacao(conta.observacao.value), Margin + 5.0, y, 10.0, false);
      c := Put(c, BillObservacao(conta.observacao.value), Margin + 5.0, 10.0, false);
    }
    assert Cursor(pdf.done, pdf.current, y) == c;
    y := y + 3.0;
  }

  /** The bill section: a header, then each bill in due order, a new page
      being started before a bill when the cursor is past 250. */
  method WriteBills(pdf: Document, currentY: real, contas: seq<Conta>, dueMs: string -> int) returns (y: real)
    modifies pdf
    ensures Cursor(pdf.done, pdf.current, y) == Detail(Cursor(old(pdf.done), old(pdf.current), currentY), contas, dueMs)
  {
    y := currentY;
    if |contas| > 0 {
      y := AddText(pdf, DetalhamentoHeader, Margin, y, 16.0, true);
      y := y + 5.0;

      var contasOrdenadas := ContasOrdenadas(contas, dueMs);
      ghost var start := Cursor(pdf.done, pdf.current, y);
      var index := 0;
      while index < |contasOrdenadas|
        invariant 0 <= index <= |contasOrdenadas|
        invariant BillBlocks(Cursor(pdf.done, pdf.current, y), contasOrdenadas[index..], index + 1)
                  == BillBlocks(start, contasOrdenadas, 1)
      {
        y := WriteBill(pdf, y, contasOrdenadas[index], index + 1);
        assert contasOrdenadas[index..][1..] == contasOrdenadas[index + 1..];
        index := index + 1;
      }
      assert contasOrdenadas[index..] == [];
    }
  }

  /** The tips section: a new page, its header, and the tips, a new page
      being started before a tip when the cursor is past 270. */
  method WriteTips(pdf: Document, currentY: real, saldoRestante: real) returns (y: real)
    modifies pdf
    ensures Cursor(pdf.done, pdf.current, y) == TipsSection(Cursor(old(pdf.done), old(pdf.current), currentY), saldoRestante)
  {
    pdf.AddPage();
    y := Margin;
    y := AddText(pdf, DicasHeader, Margin, y, 16.0, true);
    y := y + 5.0;

    var dicas := BaseDicas;
    if saldoRestante < 0.0 {
      dicas := [Atencao] + dicas;
      dicas := [ReviseUrgente] + dicas;
      dicas := [AumentarRenda] + dicas;
    }
    assert dicas == Dicas(saldoRestante);

    ghost var start := Cursor(pdf.done, pdf.current, y);
    var k := 0;
    while k < |dicas|
      invariant 0 <= k <= |dicas|
      invariant TipLines(Cursor(pdf.done, pdf.current, y), dicas[k..]) == TipLines(start, dicas)
    {
      ghost var before := Cursor(pdf.done, pdf.current, y);
      if y > 270.0 {
        pdf.AddPage();
        y := Margin;
      }
      y := AddText(pdf, DicaLine(dicas[k]), Margin, y, 10.0, false);
      assert Cursor(pdf.done, pdf.current, y) == TipLine(before, dicas[k]);
      assert dicas[k..][1..] == dicas[k + 1..];
      k := k + 1;
    }
    assert dicas[k..] == [];
  }

  /** `generatePDF`: a new document with the cursor at the margin, then the
      three parts in turn, and the name it is saved under. */
  method GeneratePdf(today: string, nowIso: string, saldoInicial: real, contas: seq<Conta>,
                     totalDespesas: real, saldoRestante: real, contasFixas: real, contasVariaveis: real,
                     dueMs: string -> int)
    returns (pdf: Document, fileName: string)
    ensures fresh(pdf)
    ensures pdf.Pages() == Layout(today, saldoInicial, totalDespesas, saldoRestante, contasFixas, contasVariaveis, contas, dueMs).Pages()
    ensures fileName == FileName(nowIso)
  {
    pdf := new Document();
    var currentY := Margin;
    currentY := WriteHeader(pdf, currentY, today, saldoInicial, contas, totalDespesas, saldoRestante, contasFixas, contasVariaveis);
    currentY := WriteBills(pdf, currentY, contas, dueMs);
    currentY := WriteTips(pdf, currentY, saldoRestante);
    fileName := FileName(nowIso);
  }
}
