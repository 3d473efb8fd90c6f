# Point-of-sale back office: CPF, money filters, sale records and reports

This project models, in Dafny, the parts of a Django point-of-sale back office
that compute and check values:

- **CPF validation and formatting** (`customers/validators.py`). A Brazilian
  taxpayer number is reduced to its digits. It is then checked: eleven
  digits, not all the same, and two modulo-11 check digits. It is laid out as
  `000.000.000-00`.
- **Template filters** (`reports/templatetags/report_filters.py`):
  - `multiply` and `subtract` on Python `Decimal` values, with 0 on bad input;
  - `currency_br`, which rounds to centavos (half up) and renders Brazilian
    reais, such as `R$ -1.234,57`.
- **Sale records** (`sales/models.py`):
  - the `Venda` and `ItemVenda` rows, the status choices and the money-column
    size;
  - `ItemVenda.save`, which recomputes the subtotal;
  - what each foreign key does on deletion: CASCADE, PROTECT and SET_NULL.
- **Cash report** (`relatorio_caixa` in `reports/views.py`):
  - which sales are selected, by session or by time window;
  - the completed and cancelled counts, the amount received and the average
    ticket;
  - totals per payment method, per seller and per session;
  - the reconciliation of a cash-drawer session, giving the expected closing
    cash and the difference from the counted amount.
- **Profitability report** (`relatorio_lucratividade`):
  - the period filter;
  - cost, profit and margin of the latest hundred items sold;
  - the per-product summary: the items grouped by product, ordered by revenue,
    with cost, profit and margin per product, the overall totals and the
    overall margin;
  - the stable sort of the summary by profit.
- **Client-list page size** (the `per_page` rule of the client report):
  Python's `int()` on the query parameter, and the fallback to 25.

Conventions used throughout:
- Money is an integer number of centavos, because every money column has two
  decimal places.
- Times are integer seconds, and a request's dates are day numbers.
- The current time is a parameter, `now`.
- The database tables the views query are sequences of rows. A queryset
  `filter` is `Filters.Filter`, and an aggregate `Sum` is a recursive sum.

Files and modules:

| file | module | models |
|---|---|---|
| `wrappers.dfy` | `Wrappers` | `Option` and `Result` |
| `numerals.dfy` | `Numerals` | ASCII digits, `str()` of a natural number and its value |
| `filters.dfy` | `Filters` | order-preserving filtering of rows and its laws |
| `validators.dfy` | `Validators` | `only_digits`, `is_valid_cpf`, `calc_digit`, `format_cpf` |
| `report_filters.dfy` | `ReportFilters` | `Decimal` values, `multiply`, `subtract`, `currency_br` |
| `sales_models.dfy` | `SalesModels` | `Venda`, `ItemVenda`, status codes, deletion rules |
| `cash_report.dfy` | `CashReport` | `relatorio_caixa` |
| `profit_report.dfy` | `ProfitReport` | `relatorio_lucratividade` |
| `client_paging.dfy` | `ClientPaging` | `int()` and the `per_page` rule |

The code is imperative in these places, and the model keeps that form:
- `calc_digit` is a method with a loop. `is_valid_cpf` is a method that calls
  it twice.
- `ItemVenda.save` is a method of a class, and it updates the `subtotal` field.
- The profitability loops are methods. The per-item annotation and the
  per-product summary with running totals are `for` loops.
- `list.sort` is an in-place stable sort over an `array`.

Every such method is proved against a specification function. The properties
of those functions are then proved as lemmas.

## Model

| member | source | states |
|---|---|---|
| Validators.Digits | customers/validators.py:4-5 | removing every non-digit leaves only digits, and never lengthens the text |
| Validators.OnlyDigits | customers/validators.py:4-5 | the result is digits only; a missing value gives the empty string |
| Validators.DigitsAppend | customers/validators.py:4-5 | stripping non-digits works piecewise: the digits of `a + b` are the digits of `a` then those of `b` |
| Validators.DigitsOfDigits | customers/validators.py:4-5 | a string that is already all digits is left unchanged |
| Validators.OnlyDigitsIdempotent | customers/validators.py:4-5 | applying `only_digits` twice gives the same as once |
| Validators.WeightedSumNonNegative | customers/validators.py:18-23 | with weights that stay positive, the accumulated sum is never negative |
| Validators.CheckDigit | customers/validators.py:18-25 | the check digit is a single digit; with weight 1 it makes the weighted sum a multiple of 11, except for the remainder-1 case, which uses 0 |
| Validators.WeightsOfNine | customers/validators.py:20-23 | for the first nine digits the weights run 10 down to 2 |
| Validators.WeightsOfTen | customers/validators.py:20-23 | for nine digits plus the first check digit the weights run 11 down to 2 |
| Validators.CalcDigit | customers/validators.py:18-25 | the loop over `soma` and `peso` returns exactly the check digit of its argument, a value from 0 to 9 |
| Validators.Repeat | customers/validators.py:15 | `cpf[0] * 11`: n copies of the character and nothing else |
| Validators.CpfValid | customers/validators.py:8-30 | the validity rule on a digit string: eleven digits, not one digit repeated, the tenth equal to the check digit of the first nine and the eleventh to that of the first ten |
| Validators.IsValidCpf | customers/validators.py:8-30 | true exactly when the input's digits form a valid CPF: eleven digits, not one digit repeated, and both check digits match; a true result implies eleven digits and no repetition |
| Validators.WrongLengthInvalid | customers/validators.py:10-12 | any input whose digit count is not eleven (the empty one included) is invalid |
| Validators.WeightedSumRepeat | customers/validators.py:18-23 | closed form of the weighted sum of a run of one repeated digit |
| Validators.RepdigitsPassCheckDigits | customers/validators.py:14-16 | every eleven-fold repeated digit satisfies both check-digit comparisons, so only the repetition guard rejects it |
| Validators.FirstCheckExample | customers/validators.py:27 | regression anchor: the first check digit of 529982247 is 2 |
| Validators.SecondCheckExample | customers/validators.py:28 | regression anchor: the second check digit of 5299822472 is 5 |
| Validators.ValidExampleDigits | customers/validators.py:8-30 | regression anchor: 52998224725 is a valid CPF |
| Validators.ValidityIgnoresFormatting | customers/validators.py:8-10 | validating the digits again gives the same verdict as validating the raw input |
| Validators.FormatCpf | customers/validators.py:33-38 | with eleven digits the result has the shape ddd.ddd.ddd-dd; otherwise it is the digits unchanged |
| Validators.LayoutKeepsDigits | customers/validators.py:38 | the dots and the dash of the layout add no digits and drop none |
| Validators.FormatKeepsDigits | customers/validators.py:33-38 | round trip: stripping the formatted CPF back to digits gives the original digits |
| Validators.FormatPreservesValidity | customers/validators.py:33-38 | a formatted CPF is valid exactly when the unformatted input is |
| ReportFilters.Multiply | reports/templatetags/report_filters.py:6-12 | an operand that is not a decimal number gives 0 |
| ReportFilters.MultiplyExact | reports/templatetags/report_filters.py:10 | the product of two decimals is exact: its value is the product of the operands' values at any common scale |
| ReportFilters.Subtract | reports/templatetags/report_filters.py:14-20 | an operand that is not a decimal number gives 0; the result's exponent is no larger than either operand's |
| ReportFilters.SubtractExact | reports/templatetags/report_filters.py:18 | the difference is exact at any scale both operands share |
| ReportFilters.RoundHalfUp | reports/templatetags/report_filters.py:26 | ROUND_HALF_UP of `n` to a whole number of units: the quotient of the magnitudes, plus one when the remainder is at least half the unit, with the sign of `n` |
| ReportFilters.RoundHalfUpNearest | reports/templatetags/report_filters.py:26 | ROUND_HALF_UP gives a nearest multiple of the unit, a tie goes away from zero, and the sign is kept |
| ReportFilters.RoundedCents | reports/templatetags/report_filters.py:26 | the value in whole cents: exact with at most two decimals, otherwise rounded half up |
| ReportFilters.QuantizeCents | reports/templatetags/report_filters.py:25-28 | `quantize` fails exactly when the rounded amount needs more than 28 digits (the InvalidOperation that makes the filter fall back); otherwise it gives the rounded amount |
| ReportFilters.QuantizeNearest | reports/templatetags/report_filters.py:26 | the rounded amount is exact when there are at most two decimals; otherwise it is a nearest cent, ties away from zero, sign kept |
| ReportFilters.QuantizeTwoPlaces | reports/templatetags/report_filters.py:26 | a value that already has two decimals and fits 28 digits is quantized to itself |
| ReportFilters.Pad2 | reports/templatetags/report_filters.py:34 | `{frac:02d}` is exactly two digits |
| ReportFilters.Pad3 | reports/templatetags/report_filters.py:33 | a thousands group is exactly three digits |
| ReportFilters.Grouped | reports/templatetags/report_filters.py:33 | `f"{n:,}"` with the commas replaced by dots: below 1000 the plain numeral, otherwise the grouped thousands, a dot and three digits |
| ReportFilters.Render | reports/templatetags/report_filters.py:30-35 | the f-string: "R$ ", a minus for a negative amount, grouped reais, a comma and the two-digit centavos of the absolute amount |
| ReportFilters.CurrencyBr | reports/templatetags/report_filters.py:22-35 | the output always starts with "R$ "; a value that is not a decimal gives "R$ 0,00" |
| ReportFilters.DisplayedCents | reports/templatetags/report_filters.py:25-28 | the amount the filter shows: the rounded value when `quantize` succeeds; 0 for a missing or non-decimal value and when `quantize` fails |
| ReportFilters.CurrencyBrRenders | reports/templatetags/report_filters.py:25-28 | the fallback output is exactly how the amount zero renders, so every output renders the displayed amount |
| ReportFilters.GroupedIsGroupedNumeral | reports/templatetags/report_filters.py:33 | `f"{n:,}"` with dots: "0" for zero; otherwise a leading group of one to three digits whose first is not 0, then groups of three after dots |
| ReportFilters.GroupedThousands | reports/templatetags/report_filters.py:33 | a positive amount is grouped with a leading group that does not start with 0 |
| ReportFilters.ZeroLeadRejected | reports/templatetags/report_filters.py:33 | a "0" group before further groups, as in "0.005", is not a grouped numeral |
| ReportFilters.ZeroLeadNotShaped | reports/templatetags/report_filters.py:30-35 | "R$ 0.005,00" does not have the shape of any output |
| ReportFilters.RenderShape | reports/templatetags/report_filters.py:30-35 | "R$ ", an optional minus, grouped reais, a comma and two digits; the minus appears exactly for negative amounts |
| ReportFilters.CurrencyBrShape | reports/templatetags/report_filters.py:22-35 | every output of the filter has the BRL shape |
| ReportFilters.MinusIffNegative | reports/templatetags/report_filters.py:30 | a minus sign follows "R$ " exactly when the rounded amount is negative |
| ReportFilters.UngroupedValue | reports/templatetags/report_filters.py:33 | dropping the dots of the grouped numeral gives the number back |
| ReportFilters.RenderedBody | reports/templatetags/report_filters.py:32-35 | reading the reais and centavos back from the divmod rendering gives the absolute amount |
| ReportFilters.RenderRoundTrip | reports/templatetags/report_filters.py:30-35 | round trip: reading the rendered text back gives the amount in cents, negative ones included |
| ReportFilters.CurrencyBrRoundTrip | reports/templatetags/report_filters.py:22-35 | the filter's output reads back as the displayed amount: the rounded value, or 0 for the fallback |
| ReportFilters.QuantizeExample | reports/templatetags/report_filters.py:26 | regression anchor: 1234.565 rounds half up to 1234.57 |
| ReportFilters.GroupedExample | reports/templatetags/report_filters.py:33 | regression anchor: 1234 is grouped as "1.234" |
| ReportFilters.RenderExample | reports/templatetags/report_filters.py:30-35 | regression anchor: 123457 centavos render as "R$ 1.234,57" |
| ReportFilters.CurrencyExample | reports/templatetags/report_filters.py:22-35 | regression anchor: 1234.565 is shown as "R$ 1.234,57" |
| SalesModels.StatusCode | sales/models.py:7-10 | the code each status is stored under: CONCLUIDA or CANCELADA |
| SalesModels.ParseStatus | sales/models.py:24-28 | a stored code reads back as a status only when it is one of the two choices |
| SalesModels.StatusCodeRoundTrip | sales/models.py:7-10 | each status is stored as a code that reads back as that status |
| SalesModels.ParseStatusOnlyChoices | sales/models.py:24-28 | only "CONCLUIDA" and "CANCELADA" are statuses, and each reads back to its own code |
| SalesModels.MoneyFieldBounds | sales/models.py:17-22 | a ten-digit, two-decimal column holds up to 99999999.99 in magnitude and nothing larger |
| SalesModels.Venda.constructor | sales/models.py:12-28 | a new sale is stamped with the current time, keeps its seller, has status CONCLUIDA and total 0.00, and that total fits its ten-digit column |
| SalesModels.ItemVenda.constructor | sales/models.py:49-78 | a new line item keeps its sale, product, unit price and quantity (1 by default) |
| SalesModels.ItemVenda.Save | sales/models.py:80-82 | after saving, the subtotal is unit price times quantity, and price and quantity are unchanged |
| SalesModels.CreateItem | sales/models.py:80-82 | creating and saving an item keeps its sale, product, unit price and quantity, and discards the subtotal it was given for price times quantity |
| SalesModels.Integrity | sales/models.py:31-60 | referential integrity: every item's sale and product exist, and every sale's seller, when set, exists |
| SalesModels.DeleteVenda | sales/models.py:49-54 | deleting a sale removes exactly that sale and exactly its line items; every other sale, item, product and user stays unchanged |
| SalesModels.DeleteProduto | sales/models.py:56-60 | a product is protected exactly when some line item refers to it; otherwise only that product is removed |
| SalesModels.DeleteUsuario | sales/models.py:31-38 | deleting a user removes exactly that user and keeps every sale, item and product; the user's sales lose their seller and no other sale changes |
| SalesModels.DeletionsKeepIntegrity | sales/models.py:31-60 | no deletion leaves a foreign key pointing at a missing row |
| CashReport.SumTotals | reports/views.py:61 | `Sum('valor_total') or 0`: the sum of the sales' totals, 0 for none |
| CashReport.SumMovements | reports/views.py:111-112 | `Sum('valor') or 0` over the movements of one session and kind |
| CashReport.Window | reports/views.py:43-54 | without a session: from the start date's midnight (default seven days before now) up to, not including, the midnight after the end date (default now) |
| CashReport.InSelection | reports/views.py:40-54 | a sale is in the report when it belongs to the chosen session, or, with no session chosen, when it falls in the window |
| CashReport.Selected | reports/views.py:38-54 | the sales in the report, in table order |
| CashReport.Completed | reports/views.py:56-58 | the completed sales, of the chosen seller when one is given |
| CashReport.Cancelled | reports/views.py:59 | the cancelled sales, whoever sold them |
| CashReport.EndDateInclusive | reports/views.py:49-54 | without a session, a sale at any second of the end date is included and one from the next midnight on is not |
| CashReport.CountedSales | reports/views.py:38-59 | a sale is counted as completed exactly when it is selected, completed and of the chosen seller; it is counted as cancelled exactly when it is selected and cancelled, whoever sold it |
| CashReport.TicketMedio | reports/views.py:64 | the average ticket times the count is the total; with no sales it is 0 |
| CashReport.GroupTotals | reports/views.py:66-93 | `values(key).annotate(total=Sum, quantidade=Count)`: per key, the sum and the number of the sales with that key |
| CashReport.PorForma | reports/views.py:66-71 | the completed sales grouped by payment method |
| CashReport.PorVendedor | reports/views.py:73-78 | the completed sales grouped by seller |
| CashReport.PorSessao | reports/views.py:88-93 | the completed sales grouped by session |
| CashReport.GroupTotalsAt | reports/views.py:66-93 | each group's total and count are the sum and number of exactly the completed sales with that key, and there is a group exactly for the keys that occur |
| CashReport.Reconcile | reports/views.py:110-115 | cash sales are the sum of the completed sales paid in DINHEIRO; supplies and withdrawals are the sums of the session's movements of each kind; expected cash is the opening float (0 when empty) plus cash sales plus supplies minus withdrawals; the difference is counted minus expected and exists exactly when an amount was counted |
| CashReport.RelatorioCaixa | reports/views.py:38-117 | the amount received is the sum of the completed sales and the two counts are the numbers of completed and cancelled sales; the three groupings are those of the completed sales; the average ticket is the amount over the count; the reconciliation is that of the chosen session over the completed sales, and exists exactly when a session is chosen and it exists |
| CashReport.AverageTicket | reports/views.py:61-64 | the average ticket times the completed count is the amount received; with no completed sale both are 0 |
| CashReport.SelectedSnoc | reports/views.py:38-54 | a new row joins the selection at its end exactly when it passes the session or window test |
| CashReport.CompletedSnoc | reports/views.py:56-58 | a new row joins the completed sales exactly when it is completed and of the chosen seller |
| CashReport.CancelledSnoc | reports/views.py:59 | a new row joins the cancelled sales exactly when it is cancelled |
| CashReport.CompletedSelectedSnoc | reports/views.py:38-58 | a new sale is appended to the counted sales exactly when it is selected and counts as completed |
| CashReport.CancelledSelectedSnoc | reports/views.py:38-59 | a new sale is appended to the cancelled sales exactly when it is selected and cancelled |
| CashReport.AddedSaleReceived | reports/views.py:56-62 | a new sale raises the amount received by its total, and the completed count by one, exactly when the report counts it |
| CashReport.AddedSaleCancelled | reports/views.py:59-63 | a new sale raises the cancelled count by one exactly when it is selected and cancelled |
| CashReport.CancelledSaleNotReceived | reports/views.py:56-113 | a cancelled sale changes neither the amount received, nor the completed count, nor any group, nor the reconciliation |
| CashReport.CashSaleRaisesExpected | reports/views.py:110-113 | a completed sale raises cash sales and expected closing cash by its total when paid in DINHEIRO, and by nothing otherwise |
| CashReport.MovementShiftsExpected | reports/views.py:111-113 | a supply to the session raises the supplies and the expected cash by its value; a withdrawal raises the withdrawals and lowers the expected cash by its value; cash sales stay; another session's movement changes nothing |
| CashReport.ExampleSelection | reports/tests.py:25-29 | both sales of the session are selected and counted, and only the first was paid in cash |
| CashReport.ExpectedClosingExample | reports/tests.py:23-39 | opening 200.00, cash 150.00, credit 100.00, supply 50.00 and withdrawal 30.00 give an expected closing of 370.00, with 250.00 received |
| ProfitReport.Margin | reports/views.py:869 | with positive revenue, margin times revenue is 100 times profit; otherwise the margin is 0 |
| ProfitReport.Profitability | reports/views.py:822-824 | cost is the cost price (0 when empty) times the quantity, cost plus profit is the revenue, and the margin is that profit's margin |
| ProfitReport.MarginBounds | reports/views.py:849-851 | with positive revenue and a non-negative cost: margin at most 100%, exactly 100% iff nothing was spent, negative iff cost exceeds revenue |
| ProfitReport.InPeriod | reports/views.py:798-812 | from the start date's midnight (default thirty days before now); before the midnight after the end date only when an end date is given |
| ProfitReport.Counts | reports/views.py:795-812 | an item counts when its sale is completed and in the period |
| ProfitReport.OpenEnded | reports/views.py:807-812 | without an end date, a completed sale counts however late it is, provided it is not before the start |
| ProfitReport.Annotate | reports/views.py:822-828 | an annotated item keeps its item; its cost is the cost price (0 when empty) times the quantity, its profit the subtotal less that cost, and its margin that profit's margin on the subtotal |
| ProfitReport.AnnotateItems | reports/views.py:815-829 | the list holds min(100, n) items: the first ones of the period's completed sales, in order, each with its cost, profit and margin |
| ProfitReport.Summarize | reports/views.py:849-860 | a summary row keeps the product's name, quantity and revenue; its cost is the cost price (0 when empty) times the quantity sold, its profit revenue less cost, and its margin that profit's margin on the revenue |
| ProfitReport.SummariesAt | reports/views.py:848-860 | the k-th summary row is the summary of the k-th database row |
| ProfitReport.TotalRevenue | reports/views.py:862 | the sum of the products' revenues |
| ProfitReport.TotalCost | reports/views.py:863 | the sum of the products' costs |
| ProfitReport.TotalProfit | reports/views.py:864 | the sum of the products' profits |
| ProfitReport.TotalProfitIsRevenueLessCost | reports/views.py:862-864 | summing the products' profits gives total revenue less total cost |
| ProfitReport.SummarizeRows | reports/views.py:843-864 | the loop yields one summary row per product, in order, and running totals equal to total revenue, cost and profit, with profit = revenue - cost |
| ProfitReport.GroupByProduct | reports/views.py:833-839 | one row per product (name and cost price), with the summed quantity and subtotal of its items, products in order of first appearance |
| ProfitReport.GroupedTotals | reports/views.py:833-839 | the products' revenues add up to the items' subtotals, and their costs to the items' costs |
| ProfitReport.AddItemLookup | reports/views.py:833-839 | counting an item adds it to its product's row, or starts that row, and leaves every other product's row alone |
| ProfitReport.GroupDistinct | reports/views.py:835-836 | no product has two rows |
| ProfitReport.GroupLookup | reports/views.py:833-839 | a product has a row exactly when some item is of it, and that row holds the summed quantity and subtotal of exactly its items |
| ProfitReport.OrderByRevenue | reports/views.py:840 | the rows by decreasing revenue, rows of equal revenue in their first-appearance order |
| ProfitReport.OrderByRevenueSorted | reports/views.py:840 | the ordered rows have non-increasing revenue |
| ProfitReport.OrderByRevenuePermutes | reports/views.py:840 | ordering keeps the same rows, so the same total revenue and cost |
| ProfitReport.ProductRows | reports/views.py:833-840 | `resumo_produtos`: the period's completed items, grouped by product, highest revenue first |
| ProfitReport.ProductRowsHold | reports/views.py:833-840 | every row is the sum of exactly its product's items in the period, and every such item has its product's row |
| ProfitReport.SummariesKeepRevenueOrder | reports/views.py:840-860 | summaries of rows ordered by revenue are still ordered by revenue |
| ProfitReport.SameTiesPermutation | reports/views.py:867 | a reordering that keeps each profit's rows in order is a permutation |
| ProfitReport.SwapKeepsTies | reports/views.py:867 | exchanging two neighbours of different profit keeps each profit's rows in order |
| ProfitReport.SortByProfit | reports/views.py:867 | after sorting, profits are non-increasing, and rows of equal profit are in their original order (a stable sort) |
| ProfitReport.TiesKeepRevenueOrder | reports/views.py:833-867 | rows arrive by decreasing revenue and the sort is stable, so rows of equal profit stay by decreasing revenue |
| ProfitReport.RelatorioLucratividade | reports/views.py:795-869 | the items are the first min(100, n) of the period's completed items, each annotated with its cost, profit and margin; the summary is the summaries of the grouped, revenue-ordered product rows, sorted by profit with equal profits in revenue order, and a permutation of them; revenue and cost are the sums of the items' subtotals and costs; overall profit is revenue less cost; overall margin is that profit's margin |
| ProfitReport.ProfitExample | reports/tests.py:43-57 | items of two units of A (cost 30.00) for 100.00 and one of B (cost 70.00) for 100.00, grouped and summed, give revenue 200.00, cost 130.00, profit 70.00 and margin 35% |
| ClientPaging.Strip | reports/views.py:701 | the text without the whitespace `int()` strips around it: tab, line feed, vertical tab, form feed, carriage return and space |
| ClientPaging.ParseInt | reports/views.py:701 | `int()`: surrounding whitespace ignored, an optional sign, digits with single underscores between them, at most 4300 digits (leading zeros counted, sign and underscores not); anything else is a ValueError |
| ClientPaging.ParseDigits | reports/views.py:701 | `int()` reads a plain run of at most 4300 digits, leading zeros included, as the number it denotes, and refuses a longer run |
| ClientPaging.ParseShow | reports/views.py:701 | `int(str(n)) == n` for every natural number of at most 4300 digits; a longer numeral is a ValueError |
| ClientPaging.ParseIgnoresSurroundingSpace | reports/views.py:701 | `int()` ignores a tab, line feed, vertical tab, form feed, carriage return or space on either side of the text |
| ClientPaging.ParseIgnoresUnderscores | reports/views.py:701 | `int()` reads digits with single underscores between them as the digits alone |
| ClientPaging.PerPage | reports/views.py:700-705 | the page size is always one of 10, 15, 20, 25, 30 and 50; anything but 25 was requested as a number; a requested offered size is used |
| ClientPaging.PerPageKeepsOffered | reports/views.py:704-705 | asking for an offered size by its numeral gives that size |
| ClientPaging.PerPageIdempotent | reports/views.py:700-705 | asking again for the chosen size gives it again |
| ClientPaging.PerPageRejectsUnoffered | reports/views.py:704-705 | a number that is not an offered size gives 25 |
| ClientPaging.PerPageRejectsText | reports/views.py:700-703 | text that is not a number, an empty value and a missing parameter all give 25 |
| ClientPaging.PerPageRejectsLongNumeral | reports/views.py:700-703 | 4300 zeros followed by "10" exceed the digit limit of `int()`, so the page size falls back to 25 |
| ClientPaging.PerPageRejectsSeparator | reports/views.py:700-703 | a file separator (0x1C) before "10" is not whitespace to `int()`, so the page size falls back to 25 |

## Left out

- Sale processing, cancellation, returns, and opening or closing a session are not part of this model. Only the records they leave behind are modelled, as input rows.
- SalesModels.Venda: its `status` field holds one of the two declared choices (sales/models.py:24-28). Django checks `choices` only in form and model validation, not on `save()`, so a stored row could hold another code; `ParseStatus` maps such a code to `None`, but a `Venda` cannot hold it.
- The sales model shown here has no `forma_pagamento` or `sessao` field, and `SessaoCaixa`, `MovimentoCaixa` and the cost price `preco_custo` are not declared in it. They are modelled from their use in `reports/views.py` and `reports/tests.py`.
- The views are modelled only as the figures they compute. Several things are not part of this model:
  - the ORM itself;
  - templates and the PDF views;
  - the login and group decorators (`core/decorators.py`), context processors and `has_group`.
- The order of rows from the database is taken as given. This covers the `order_by` clauses and `Venda`'s default ordering.
- `itens_vendidos` slices the first hundred rows of an input already ordered newest first.
- ProfitReport.OrderByRevenue: products of equal revenue are kept in order of first appearance. The database leaves their order unspecified.
- CashReport.PorForma, CashReport.PorVendedor, CashReport.PorSessao: groups are maps, with no display order. Sellers are keyed by user id rather than username. The `[:50]` limit on sessions is not modelled. The seller's `percentual` is a float and is left out.
- The lists of sessions and sellers offered as filter options (`sessoes`, `vendedores`) are left out.
- Request parameters are already read. Dates are day numbers, ids are numbers, and an empty or missing parameter is `None`. Dates `strptime` rejects and non-numeric ids raise errors in the source. Those errors are not modelled.
- Time zones and the clock are left out. `now` is a parameter.
- Decimal division for the average ticket and the margins is exact `real` division here. The source divides `Decimal` values at 28 significant digits.
- ReportFilters.Multiply, ReportFilters.Subtract: the result is exact. The source rounds it to 28 significant digits.
- ReportFilters.Multiply, ReportFilters.Subtract, ReportFilters.CurrencyBr: NaN, Infinity and signed zero are not modelled. A value whose `str()` is not a decimal literal is `None`.
- `only_digits` and `int()` treat only ASCII digits and ASCII whitespace. Python also accepts other Unicode digits and spaces.
- The digit limit of `int()` is fixed at CPython's default of 4300. The `PYTHONINTMAXSTRDIGITS` environment variable and `sys.set_int_max_str_digits` can change it, and releases older than 3.7.14, 3.8.14, 3.9.14 and 3.10.7 in their respective lines have no limit.
- SalesModels.ItemVenda.Save: how the database treats a subtotal too large for its column is not modelled. The quantity is a natural number, so the negative value the database refuses cannot be given.
- The client report's `Paginator` and `page` handling is left out. Only the page size is modelled.
