# Finance dashboard: a verified model of the bills tracker

A personal bills tracker. The page (`Index`) keeps three pieces of state:

- the starting balance (`saldoInicial`);
- the list of bills (`contas`), each with a name, an amount, a due date, a category (fixed or variable) and an optional note;
- whether the add form is open.

From that state the page derives the totals, the remaining balance and the split by category. Around it sit five components:

- the add/edit form (`ContasForm`), which validates its text and hands on a normalised record;
- the bill list (`ContasList`), which sorts the bills by due date, flags the bills due within a week and opens one of them for editing;
- the balance card (`SaldoCard`), where the starting balance is edited as text;
- the tips card (`FinancialTips`), which shows at most three tips chosen by ordered rules;
- the PDF exporter (`PDFExporter`), which writes the summary, every bill in due order and a page of tips, breaking pages at fixed heights.

The Dafny modules follow those files:

| module | models |
|---|---|
| `Wrappers` | `Option` |
| `Text` | `String.prototype.trim`, `parseFloat` as a character-by-character scanner, and `Number.prototype.toString` for amounts in whole cents |
| `Sorting` | a stable sort by an integer key (the engine's `Array.prototype.sort` is stable) |
| `Bills` | the `Conta` record, totals, category filters, the add/remove/edit updates, and the page state as class `Dashboard` |
| `Tips` | `getTips`, as a method that pushes onto a local list, specified by the function `Shown` |
| `Form` | the form text, `validateForm`, `handleSubmit`, and class `ContasForm` |
| `List` | the due-soon test, the due-date order, what the list renders, and class `ContasList` |
| `Balance` | `handleSave`/`handleCancel`, the badge and the warning, and class `SaldoCard` |
| `Report` | the jsPDF document as class `Document` (pages left behind plus the current page), `addText`, and `generatePDF` as methods; the functions `Layout` (where each line goes) and `ReportEntries` (what each line says) specify them |
| `App` | the wiring of the callbacks (`onSubmit={adicionarConta}`, `handleEdit`, `onRemover`), and the invariant the stored bills keep: distinct ids, and fields that passed the form's checks |

Amounts are `real`, so arithmetic is exact. Times are integer milliseconds. Reading a date string into a time (`new Date(...)`) is left to the caller, as a function parameter.

## Model

| member | source | states |
|---|---|---|
| Text.TrimStart | src/components/ContasForm.tsx:35 | the result is a suffix of the input that does not start with white space |
| Text.TrimEnd | src/components/ContasForm.tsx:35 | the result is a prefix of the input that does not end with white space |
| Text.TrimStartDrops | src/components/ContasForm.tsx:35 | everything `trim` drops at the front is white space |
| Text.TrimEndDrops | src/components/ContasForm.tsx:35 | everything `trim` drops at the back is white space |
| Text.Trim | src/components/ContasForm.tsx:35 | a trimmed string neither starts nor ends with white space, and it is empty exactly when the input is all white space (the `!formData.nome.trim()` test) |
| Text.TrimmedIsFixpoint | src/components/ContasForm.tsx:57 | a string without white space at either end is its own trim |
| Text.TrimIdempotent | src/components/ContasForm.tsx:57-61 | trimming twice is trimming once, so the submitted name and note are already trimmed |
| Text.FractionValue | src/components/ContasForm.tsx:39 | digits after the point are worth at least 0 and less than 1 |
| Text.DigitsValueOf | src/components/SaldoCard.tsx:24 | the decimal digits written for a whole number read back as that number |
| Text.ParseFloat | src/components/ContasForm.tsx:39-40 | `parseFloat` gives a number exactly when it scanned a digit before or after the point; that number is zero or more unless a minus sign was read, and zero or less if one was; the empty text is `NaN` |
| Text.RunAppend | src/components/ContasForm.tsx:39 | scanning two strings one after the other is scanning their concatenation |
| Text.ScanDigits | src/components/ContasForm.tsx:39 | a run of digits scans as a whole part with no fraction |
| Text.ScanDecimal | src/components/ContasForm.tsx:39 | digits, a point and digits scan as a whole part and a fraction |
| Text.ScanNegated | src/components/ContasForm.tsx:39-40 | a leading minus before a digit negates the number read, so `"-5"` is read as minus five |
| Text.ParseSkipsWhitespace | src/components/ContasForm.tsx:39 | leading white space does not change what `parseFloat` reads |
| Text.ParseRejects | src/components/ContasForm.tsx:39-40 | text that starts with a character that cannot begin a number is `NaN` (`isNaN(valor)`) |
| Text.ParseIgnoresRest | src/components/ContasForm.tsx:39 | `parseFloat` stops at the first character that cannot continue the number and ignores the rest |
| Text.ParseNatText | src/components/SaldoCard.tsx:24-27 | the text of a whole number reads back as that number |
| Text.CentsFraction | src/components/SaldoCard.tsx:24-27 | the one or two digits written for a number of cents read back as that many hundredths |
| Text.CentsTextRoundTrip | src/components/SaldoCard.tsx:24-27 | the text written for a whole number of cents reads back as that amount |
| Text.CentsTextLeads | src/components/SaldoCard.tsx:24 | the text of a non-negative amount starts with a digit, so it cannot be mistaken for a signed one |
| Text.NegatedCentsRoundTrip | src/components/SaldoCard.tsx:24-27 | a minus sign before the text of an amount reads back as the negated amount |
| Text.CentsOf | src/components/SaldoCard.tsx:24 | an amount in whole cents is its number of cents over 100, with the sign put back for a negative amount |
| Text.NumberText | src/components/SaldoCard.tsx:24 | `toString` writes a non-empty text that starts with a minus sign exactly when the amount is negative |
| Text.NumberTextRoundTrip | src/components/SaldoCard.tsx:24-27 | `parseFloat(v.toString()) == v` for every amount in whole cents, negative ones included |
| Sorting.Insert | src/components/ContasList.tsx:53-55 | inserting adds exactly one element and keeps the rest |
| Sorting.InsertSorted | src/components/ContasList.tsx:53-55 | inserting into a sorted list keeps it sorted |
| Sorting.SortBy | src/components/ContasList.tsx:53-55 | the sort returns a permutation of its input (same multiset) in ascending key order |
| Sorting.InsertStable | src/components/ContasList.tsx:53-55 | inserting keeps the relative order of elements with equal keys |
| Sorting.SortByStable | src/components/ContasList.tsx:53-55 | elements with equal keys keep their input order |
| Sorting.SortBySorted | src/components/ContasList.tsx:53-55 | an input already in order is returned unchanged |
| Sorting.SortByIdempotent | src/components/ContasList.tsx:53-55 | sorting a sorted list changes nothing |
| Bills.WithId | src/pages/Index.tsx:41-45 | `{ ...novaConta, id }` carries the given id and exactly the given fields |
| Bills.Total | src/pages/Index.tsx:32 | bills with no negative amount add up to zero or more, and a non-empty list of positive amounts to more than zero |
| Bills.TotalAppend | src/pages/Index.tsx:32 | the `reduce` total of two lists joined is the sum of their totals |
| Bills.TotalCons | src/pages/Index.tsx:32 | the total of a list is its first amount plus the total of the rest |
| Bills.TotalSplit | src/pages/Index.tsx:32 | taking one bill out of a list lowers the total by its amount |
| Bills.TotalWithout | src/pages/Index.tsx:32 | the total equals the total without the bill at one position, plus that bill's amount |
| Bills.TotalPermutation | src/pages/Index.tsx:32 | reordering the bills (as the list and the PDF do) does not change the total |
| Bills.OfTipo | src/pages/Index.tsx:36-37 | the category filter keeps exactly the bills of that category |
| Bills.OfTipoCount | src/pages/Index.tsx:36-37 | the category filter keeps each bill of that category as many times as the list holds it, and no bill of the other category |
| Bills.CategorySplit | src/pages/Index.tsx:36-39 | the fixed and variable bills together are all the bills, both in count and in total |
| Bills.MetricsOf | src/pages/Index.tsx:32-39 | the remaining balance plus the expenses is the starting balance; `isPositive` holds exactly when the balance covers the expenses; the category totals add up to the expenses; every bill is in one of the two category lists |
| Bills.AppendFreshId | src/pages/Index.tsx:41-46 | appending a bill whose id is not yet used keeps the ids distinct |
| Bills.Removed | src/pages/Index.tsx:50-52 | `removerConta` keeps exactly the bills whose id differs from the one removed |
| Bills.RemovedCount | src/pages/Index.tsx:50-52 | `removerConta` keeps each bill with another id as many times as the list holds it, and no bill with the removed id |
| Bills.RemoveAbsent | src/pages/Index.tsx:50-52 | removing an id no bill has changes nothing |
| Bills.DistinctTail | src/pages/Index.tsx:50-52 | with distinct ids, the first bill's id does not recur in the rest |
| Bills.RemoveAt | src/pages/Index.tsx:50-52 | with distinct ids, removing a bill's id removes exactly that bill and keeps the order of the others |
| Bills.TotalAfterRemove | src/pages/Index.tsx:50-52 | removing a bill lowers the total by its amount |
| Bills.RemovedDistinct | src/pages/Index.tsx:50-52 | removing keeps the ids distinct |
| Bills.RemoveIdempotent | src/pages/Index.tsx:50-52 | removing the same id twice is removing it once |
| Bills.Edited | src/pages/Index.tsx:54-58 | `editarConta` replaces the fields of every bill with that id, keeps the id, and leaves the other bills and the order unchanged |
| Bills.EditKeepsIds | src/pages/Index.tsx:54-58 | editing keeps the list of ids |
| Bills.EditedDistinct | src/pages/Index.tsx:54-58 | editing keeps the ids distinct |
| Bills.EditAbsent | src/pages/Index.tsx:54-58 | editing an id no bill has changes nothing |
| Bills.EditAt | src/pages/Index.tsx:54-58 | with distinct ids, editing a bill's id replaces that one position |
| Bills.TotalUpdate | src/pages/Index.tsx:32 | replacing one bill changes the total by the difference of the amounts |
| Bills.TotalAfterEdit | src/pages/Index.tsx:54-58 | editing a bill changes the total by the new amount minus the old one |
| Bills.Dashboard.constructor | src/pages/Index.tsx:28-30 | the page starts with the stored balance and bills, and the add form closed |
| Bills.Dashboard.AdicionarConta | src/pages/Index.tsx:41-48 | the new bill is appended under the given id and the form closes; ids stay distinct when the id is fresh; the total rises by the new amount |
| Bills.Dashboard.RemoverConta | src/pages/Index.tsx:50-52 | the bills become `Removed(contas, id)`, and nothing else changes |
| Bills.Dashboard.EditarConta | src/pages/Index.tsx:54-58 | the bills become `Edited(contas, id, contaEditada)`, and nothing else changes |
| Bills.Dashboard.ToggleContasForm | src/pages/Index.tsx:149 | the add button flips whether the form is open, and nothing else changes |
| Bills.Dashboard.SetSaldoInicial | src/pages/Index.tsx:28 | the balance setter changes only the balance |
| Tips.PercentualGasto | src/components/FinancialTips.tsx:20 | with a positive balance, the share is expenses times 100 over the balance; otherwise it is 0 |
| Tips.Emitted | src/components/FinancialTips.tsx:18-79 | the rules push 1 to 4 tips; the 50-30-20 tip is always pushed, last without money left and followed by the reserve tip with it; a non-zero balance pushes first the negative-balance warning or the savings tip with 10% and 20% of what is left |
| Tips.Shown | src/components/FinancialTips.tsx:80 | `slice(0, 3)`: the first 1 to 3 of the pushed tips, all of them when there are fewer than four |
| Tips.GetTips | src/components/FinancialTips.tsx:18-80 | the pushes in rule order, cut to three, give `Shown`, so the list holds 1 to 3 tips |
| Tips.Card | src/components/FinancialTips.tsx:84-86 | the card renders nothing exactly when there are no tips |
| Tips.RegraAlwaysShown | src/components/FinancialTips.tsx:61-79 | the 50-30-20 tip always survives the cut, so the card is never empty |
| Tips.SaldoNegativoShown | src/components/FinancialTips.tsx:22-29 | the negative-balance warning is shown exactly when the remaining balance is negative, and then first |
| Tips.OportunidadeShown | src/components/FinancialTips.tsx:30-41 | with money left, the first tip offers saving 10% and 20% of it; without, the savings tip is absent |
| Tips.NothingLeft | src/components/FinancialTips.tsx:22-41 | with nothing left over, neither the warning nor the savings tip appears |
| Tips.PercentualTips | src/components/FinancialTips.tsx:43-59 | the high-spending tip appears exactly above 90%, the good-control tip exactly below 50%, and never together |
| Tips.ReservaShown | src/components/FinancialTips.tsx:69-79 | the emergency-reserve tip survives the cut exactly when money is left and the share is between 50% and 90% |
| Tips.ExampleHighSpending | src/components/FinancialTips.tsx:18-80 | a balance of 100 with 95 spent shows the savings, high-spending and 50-30-20 tips |
| Tips.ExampleModerateSpending | src/components/FinancialTips.tsx:18-80 | a balance of 100 with 70 spent shows the savings, 50-30-20 and emergency-reserve tips |
| Form.InitialForm | src/components/ContasForm.tsx:22-28 | a new form starts as the empty form with category fixed; an edit form starts with the bill's name, date and category, its note or `""` when it has none, and a non-empty amount text (that reads back as the amount, by `Form.InitialValorParses`) |
| Form.Errors | src/components/ContasForm.tsx:32-46 | the name error is set exactly for a blank name; the amount error exactly for an amount that is empty, not a number or not positive; the date error exactly for an empty date |
| Form.ValorInvalid | src/components/ContasForm.tsx:39-42 | the amount is refused exactly when `parseFloat` reads no number or a number not above 0 |
| Form.NoErrorsIff | src/components/ContasForm.tsx:48-49 | the error map is empty exactly when all three checks pass |
| Form.Submission | src/components/ContasForm.tsx:48-62 | a submit hands on a record exactly when the error map is empty |
| Form.Normalize | src/components/ContasForm.tsx:56-62 | the record carries the parsed amount, and no note exactly when the note is blank |
| Form.SubmittedValid | src/components/ContasForm.tsx:55-62 | a record handed on has a trimmed non-empty name, a positive amount, a due date, and a trimmed non-empty note or none |
| Form.SubmissionValid | src/components/ContasForm.tsx:52-62 | the record a submit hands on is the normalised form, and it satisfies `Submittable` |
| Form.ValorRejected | src/components/ContasForm.tsx:39-42 | the amounts "0", "-5", "" and "abc" are rejected |
| Form.ValorAccepted | src/components/ContasForm.tsx:39-42 | "10.50" is accepted and read as 10.5 |
| Form.InitialValorParses | src/components/ContasForm.tsx:24 | the amount written into an edit form reads back as the bill's amount |
| Form.InitialFormOk | src/components/ContasForm.tsx:22-49 | an edit form opened on a submittable bill passes every check |
| Form.NormalizeInitial | src/components/ContasForm.tsx:22-62 | normalising the untouched edit form of a submittable bill gives that bill back |
| Form.EditRoundTrip | src/components/ContasForm.tsx:22-62 | opening an edit form and submitting it unchanged gives no errors and the same bill |
| Form.BuildErrors | src/components/ContasForm.tsx:32-46 | the checks, run in turn on a fresh map, build exactly `Errors(formData)` |
| Form.ContasForm.constructor | src/components/ContasForm.tsx:22-30 | the form starts with `InitialForm(initialData)` and no errors |
| Form.ContasForm.SetNome | src/components/ContasForm.tsx:90 | typing a name changes only the name |
| Form.ContasForm.SetValor | src/components/ContasForm.tsx:106 | typing an amount changes only the amount |
| Form.ContasForm.SetVencimento | src/components/ContasForm.tsx:124 | picking a date changes only the date |
| Form.ContasForm.SetTipo | src/components/ContasForm.tsx:135-136 | picking a category changes only the category |
| Form.ContasForm.SetObservacao | src/components/ContasForm.tsx:162 | typing a note changes only the note |
| Form.ContasForm.ValidateForm | src/components/ContasForm.tsx:32-50 | stores `Errors(formData)` and returns true exactly when it is empty, that is, when every check passes |
| Form.ContasForm.HandleSubmit | src/components/ContasForm.tsx:52-74 | stores the errors; hands on `Submission(formData)`; empties the form after a successful submit unless it edits a bill |
| List.CeilDays | src/components/ContasList.tsx:33 | `Math.ceil(ms / 86400000)` is the whole number of days `d` with `(d - 1)` days `< ms <= d` days |
| List.IsVencimentoProximo | src/components/ContasList.tsx:29-35 | a bill is due soon exactly when its date reads as a time after 24 hours ago and at most seven days from now |
| List.DueSoonByCalendarDays | src/components/ContasList.tsx:29-35 | with the due date at local midnight, the badge shows exactly when the bill is due today or within the next seven days, wherever in today the clock is |
| List.DueSoonEdges | src/components/ContasList.tsx:33-34 | due in exactly 7 days counts as 7 (flagged); in 8 days counts as 8, and yesterday as -1 (not flagged) |
| List.ContasOrdenadas | src/components/ContasList.tsx:53-55 | the sorted list is a reordering of the bills, earliest due first |
| List.SameDueKeepsOrder | src/components/ContasList.tsx:53-55 | bills due at the same time stay in the order they were added |
| List.OrderedUnchanged | src/components/ContasList.tsx:53-55 | a list already in due order is shown as it is |
| List.DistinctOnce | src/components/ContasList.tsx:60 | with distinct ids (the row keys) each bill occurs once |
| List.PermutationDistinct | src/components/ContasList.tsx:53-60 | sorting keeps the ids distinct |
| List.RowsOf | src/components/ContasList.tsx:59-66 | one row per bill, in order |
| List.RowsFields | src/components/ContasList.tsx:59-88 | the rows list the bills in their order; a row is open in the form exactly when its id is the one being edited; only a card row can carry the due-soon badge, and it does exactly when the bill is due soon |
| List.Render | src/components/ContasList.tsx:42-59 | the placeholder is shown exactly when there are no bills; otherwise there is one row per bill |
| List.RenderedRows | src/components/ContasList.tsx:53-88 | the rows hold the bills once each, in due order; a row is open in the form exactly when its id is the one being edited; a row shown as a card is badged exactly when the bill is due soon, and the open row carries no badge |
| List.AtMostOneEditing | src/components/ContasList.tsx:22-61 | with distinct ids, at most one row is open in the form |
| List.ContasList.constructor | src/components/ContasList.tsx:22 | no row is open at first |
| List.ContasList.StartEditing | src/components/ContasList.tsx:116 | the edit button opens that bill's row |
| List.ContasList.HandleEdit | src/components/ContasList.tsx:37-40 | the edited record replaces the bill with that id, and the row closes |
| Balance.SaveOutcome | src/components/SaldoCard.tsx:26-32 | text `parseFloat` cannot read saves 0 (the fallback to 0); a number read as zero or more is saved as it is; a negative number, and only that, saves nothing; a saved value is never negative |
| Balance.CancelThenSave | src/components/SaldoCard.tsx:24-35 | cancelling writes the balance back as text, and saving that text keeps the balance |
| Balance.BadgeLabel | src/components/SaldoCard.tsx:105-110 | the badge reads "Positivo" exactly when the balance is positive |
| Balance.WarningMeansOverspent | src/components/SaldoCard.tsx:112-116 | the warning shows exactly when there is a balance and the bills add up to more than it |
| Balance.SaldoCard.constructor | src/components/SaldoCard.tsx:23-24 | the field starts open exactly when the balance is 0, holding the balance as text |
| Balance.SaldoCard.StartEditing | src/components/SaldoCard.tsx:87 | the edit button opens the field and keeps its text |
| Balance.SaldoCard.SetTempValue | src/components/SaldoCard.tsx:57 | typing changes only the text |
| Balance.SaldoCard.HandleSave | src/components/SaldoCard.tsx:26-32 | a value read as zero or more is stored and the field closes; a negative one changes nothing; a non-negative balance stays non-negative; the bills are untouched |
| Balance.SaldoCard.HandleCancel | src/components/SaldoCard.tsx:34-37 | the text is reset to the balance and the field closes |
| Report.Document.constructor | src/components/PDFExporter.tsx:28 | a new document has one empty page |
| Report.Document.AddPage | src/components/PDFExporter.tsx:74 | the current page is left behind and an empty one started |
| Report.Document.Text | src/components/PDFExporter.tsx:40 | the line is appended to the current page |
| Report.AddText | src/components/PDFExporter.tsx:33-42 | `addText` writes one line on the current page and returns `y + fontSize * 0.5 + 2` |
| Report.EntriesPut | src/components/PDFExporter.tsx:33-42 | writing a line adds its entry at the end of the report |
| Report.EntriesNewPage | src/components/PDFExporter.tsx:74 | starting a page adds no entry |
| Report.EntriesBreakAfter | src/components/PDFExporter.tsx:73-76 | the page break test adds no entry |
| Report.EntriesBillBlock | src/components/PDFExporter.tsx:72-87 | one bill writes its number and name, amount, due date, category and, when it has one, its note |
| Report.EntriesBillBlocks | src/components/PDFExporter.tsx:72-87 | the bills write their blocks one after another, numbered from 1 |
| Report.EntriesTipLines | src/components/PDFExporter.tsx:110-116 | the tips write one line each, in order |
| Report.EntriesHeader | src/components/PDFExporter.tsx:44-62 | the title block, the summary and the category split write their fixed sequence of lines |
| Report.EntriesDetail | src/components/PDFExporter.tsx:64-88 | the bill section writes its header and the sorted bills only when there are bills |
| Report.EntriesTipsPage | src/components/PDFExporter.tsx:90-116 | the tips section writes its header, then one line per tip |
| Report.Header | src/components/PDFExporter.tsx:44-62 | the header writes ten lines on the first page after what is there, and moves the cursor down by 126 |
| Report.BillBlock | src/components/PDFExporter.tsx:72-87 | above the break at 250 the bill's name line is added at the cursor on the same page; below it the page is closed and the name line opens the next one at the margin; the cursor moves 39 down with a note and 32 without |
| Report.BillBlocks | src/components/PDFExporter.tsx:72-87 | the bill loop only adds pages: those already closed stay as they were |
| Report.Detail | src/components/PDFExporter.tsx:64-88 | without bills nothing is written; with them, closed pages stay as they were |
| Report.TipLine | src/components/PDFExporter.tsx:110-116 | above the break at 270 the tip line is added at the cursor and the cursor moves 7 down; below it the page is closed and the line opens the next page at the margin |
| Report.TipLines | src/components/PDFExporter.tsx:110-116 | the tip loop only adds pages: those already closed stay as they were |
| Report.Dicas | src/components/PDFExporter.tsx:96-108 | five tips, or eight when the balance is negative; the five standing tips always last; the first warning present exactly when the balance is negative, and then the three warnings first in the order the `unshift` calls leave them |
| Report.TipsSection | src/components/PDFExporter.tsx:90-116 | the tips always close the page in progress and start a new one |
| Report.TipsPage | src/components/PDFExporter.tsx:90-116 | a tips page closes the page in progress, whatever the list of tips |
| Report.Layout | src/components/PDFExporter.tsx:27-116 | the layout leaves at least one closed page |
| Report.LayoutEntries | src/components/PDFExporter.tsx:27-116 | the lines the whole layout writes are `ReportEntries`: header, bills and tips |
| Report.PutInv | src/components/PDFExporter.tsx:33-42 | writing a line where it is allowed keeps every page well placed |
| Report.NewPageInv | src/components/PDFExporter.tsx:74-75 | starting a page leaves no empty page behind and puts the cursor at the margin |
| Report.BillBlockInv | src/components/PDFExporter.tsx:72-87 | with the break at 250, each bill block starts no lower than 250 and ends above 279 |
| Report.BillBlocksInv | src/components/PDFExporter.tsx:72-87 | the whole bill loop keeps every page well placed |
| Report.TipLinesInv | src/components/PDFExporter.tsx:110-116 | with the break at 270, every tip line starts no lower than 270 |
| Report.HeaderInv | src/components/PDFExporter.tsx:44-62 | the header fits on the first page and leaves the cursor at 146 |
| Report.DetailInv | src/components/PDFExporter.tsx:64-88 | the bill section keeps every page well placed |
| Report.TipsPageInv | src/components/PDFExporter.tsx:90-116 | the tips header always opens a new page at the margin |
| Report.LayoutPlaced | src/components/PDFExporter.tsx:27-116 | no page is empty; each page starts at the margin; every line sits between 20 and 279, no bill starts below 250, no tip below 270, and the tips header opens its page |
| Report.BillsEntriesOnlyBills | src/components/PDFExporter.tsx:72-87 | the bill blocks write only bill lines |
| Report.TipEntriesOf | src/components/PDFExporter.tsx:110-116 | the i-th tip line is the i-th tip |
| Report.BillNamesAppend | src/components/PDFExporter.tsx:78 | the bill names of two parts are the names of each, in order |
| Report.NoBillNames | src/components/PDFExporter.tsx:78 | lines that name no bill contribute no name |
| Report.BillsNumbered | src/components/PDFExporter.tsx:72-78 | the k-th bill is named as `number + k`, with its own name |
| Report.HeaderQuiet | src/components/PDFExporter.tsx:44-62 | the header names no bill, has no bill-section header and no tip |
| Report.DetailContent | src/components/PDFExporter.tsx:64-88 | the bill section names the sorted bills from 1; it has its header exactly when there are bills, and no tip |
| Report.TipsPageContent | src/components/PDFExporter.tsx:93-116 | a tips section is its header and then one line per tip, naming no bill |
| Report.TipsContent | src/components/PDFExporter.tsx:90-116 | the tips section has 6 or 9 lines; it holds the warning exactly when the balance is negative, and the warnings then follow the header |
| Report.QuietEnds | src/components/PDFExporter.tsx:27-116 | when the header and the tips name no bill and hold no bill-section header, the report names exactly the bills of its bill section, and has a bill-section header exactly when that section does |
| Report.ReportBills | src/components/PDFExporter.tsx:64-88 | the report names every bill once, in due order, numbered 1, 2, 3…; it has a bill section exactly when there are bills |
| Report.ReportEnds | src/components/PDFExporter.tsx:44-116 | the report opens with its title and closes with the last standing tip |
| Report.SummaryTag | src/components/PDFExporter.tsx:54 | the summary's remaining-balance line is tagged positive exactly when the balance is not negative |
| Report.EndsWithTips | src/components/PDFExporter.tsx:90-116 | the report ends with its tips section |
| Report.WarningIffNegative | src/components/PDFExporter.tsx:96-116 | the first warning appears in the report exactly when the remaining balance is negative |
| Report.ReportTips | src/components/PDFExporter.tsx:54-116 | the remaining balance is tagged positive exactly when it is not negative; the report ends with its tips; the warning appears exactly when the balance is negative |
| Report.ReportWarnings | src/components/PDFExporter.tsx:54-108 | with the page's own figures, the summary's positive tag agrees with the dashboard's `isPositive`, and the warnings head the tips exactly when the bills exceed the balance |
| Report.ExportDisabled | src/components/PDFExporter.tsx:172 | the button is disabled only when the page would hide the exporter (`Index.tsx:186`); for a non-negative balance, exactly then |
| Report.DatePart | src/components/PDFExporter.tsx:140 | `split('T')[0]`: the longest prefix with no `T` |
| Report.FileName | src/components/PDFExporter.tsx:140 | the file is named `relatorio-financeiro-<date>.pdf`, with no `T` in the date part |
| Report.WriteHeader | src/components/PDFExporter.tsx:44-62 | writes the header lines, leaving the document and cursor where `Header` says |
| Report.WriteBill | src/components/PDFExporter.tsx:72-87 | one loop step: the page break test, then one bill block, as `BillBlock` says |
| Report.WriteBills | src/components/PDFExporter.tsx:64-88 | the sorted-bills loop writes exactly what `Detail` says |
| Report.WriteTips | src/components/PDFExporter.tsx:90-116 | the new page, the header and the tip loop write exactly what `TipsSection` says |
| Report.GeneratePdf | src/components/PDFExporter.tsx:27-142 | the document's pages are exactly those of `Layout`, and the file name is `FileName(now)` |
| App.AmountsPositive | src/components/ContasForm.tsx:39-42 | every stored amount is positive |
| App.StoredTotal | src/pages/Index.tsx:32 | stored bills add up to zero or more, and to more than zero when there is at least one |
| App.StoredOkAdd | src/pages/Index.tsx:41-48 | adding a submitted record under a fresh id keeps the ids distinct and the fields well formed, and raises the total |
| App.StoredOkEdit | src/pages/Index.tsx:54-58 | editing with a submitted record keeps the store well formed |
| App.StoredOkRemove | src/pages/Index.tsx:50-52 | removing keeps the store well formed |
| App.SubmittedAddOk | src/pages/Index.tsx:41-48 | a record a submit hands on, added under a fresh id, keeps the store well formed |
| App.SubmittedEditOk | src/pages/Index.tsx:54-58 | a record a submit hands on, written over a bill, keeps the store well formed |
| App.SubmitNewBill | src/pages/Index.tsx:156-158 | a valid add form appends its record under the fresh id, closes and is emptied; an invalid one adds nothing, shows the errors and keeps its text; a well-formed store stays well formed |
| App.SubmitEditedBill | src/components/ContasList.tsx:62-66 | a valid edit form replaces that bill's fields and closes the row; an invalid one changes no bill and leaves the row open; the edit form keeps its text either way; a well-formed store stays well formed |
| App.RemoveBill | src/components/ContasList.tsx:124 | the remove button removes the bill with that id, and a well-formed store stays well formed |

## Left out

- Text.ParseFloat: reads optional white space, a sign, digits, a point and digits. It does not read an exponent (`"1e3"`) or `Infinity`. So `Text.ParseIgnoresRest` and `Text.ParseRejects` hold for `parseFloat` only on text without an exponent or `Infinity`.
- Text.NumberText: writes `Number.prototype.toString` exactly only for amounts in whole cents below 1e21 in size. Other amounts are cut to cents, and from 1e21 on JavaScript writes an exponent (`"1e+21"`) where the model writes every digit. So `Text.NumberTextRoundTrip`, `Balance.CancelThenSave`, `Form.InitialValorParses`, `Form.InitialFormOk`, `Form.NormalizeInitial` and `Form.EditRoundTrip` require `IsCents`.
- Floating point: amounts are exact `real`s. Rounding in the `reduce` sums, the percentage and `saldoRestante * 0.1` is not modelled. `Tips.ExampleHighSpending` and `Tips.ExampleModerateSpending` hold for exact arithmetic.
- `toFixed`, `toLocaleDateString('pt-BR')` and the fixed wording of the PDF lines are not modelled: a report line carries its values and which of the fixed texts it is. The five standing tips and the three warnings are an enumeration.
- Dates: `new Date(v + 'T00:00:00')` in the due-soon test and `new Date(v)` in the sort are function parameters (`localMidnight`, `dueMs`). The clock is the parameter `nowMs`, and `new Date()` in the report and the file name are the parameters `today` and `nowIso`. Time zones and daylight saving are left out.
- List.ContasOrdenadas: a due date that `new Date` cannot read gives `NaN`, and a comparator that returns `NaN` is left out, because `dueMs` gives every string a time.
- Bills.Dashboard.AdicionarConta: the id (`Date.now().toString()`) is a parameter. Two bills added within the same millisecond would share an id; the model keeps ids distinct only when the caller's id is fresh.
- Tips.Card: the `return null` branch (`tips.length === 0`) cannot be reached; `Tips.RegraAlwaysShown` proves the list is never empty.
- The tips' `type`, `icon` and `color`, the wording of the form's error messages and of the tips, and all other JSX markup and styling, are left out: a tip and an error are enumerations.
- The chart (`ExpensesChart`, drawn only when `contas.length > 0` at `src/pages/Index.tsx:170`) is not part of this model; the exporter's own condition (`src/pages/Index.tsx:186`) is `Report.ExporterShown`.
- `useLocalStorage` persistence is not part of this model: `Bills.Dashboard.constructor` takes the stored balance and bills as parameters.
- The chart capture in the report (`html2canvas`, the extra chart page), `ExpensesChart`, the jsPDF font selection (`setFontSize`, `setFont`) and `pdf.save` are not part of this model.
- `initialData?.observacao || ''`: an absent note and an empty note both start the edit form with `""`; any other note starts it with its own text. Notes that reach the store through the form are never empty.
