# game-book-client, modelled in Dafny

game-book-client is the browser front end of a bookkeeping service for
vendors of a daily number game. A vendor keeps a list of customers and,
for each customer and day, a receipt: game rows whose amounts are typed
as small arithmetic expressions and multiplied by rates, the day's
opening and closing figures, deductions, payments, and a balance that is
carried forward to the customer's next receipt. Around the receipt form
sit a quick-entry tab, the receipt list with search, filters and sorting,
a printable receipt, a balance report, the customer list, a translation
lookup for English and Marathi, a route guard, the dashboard's navigation,
the vendor's profile page and an administrator's dashboard for approving
and editing vendors.

The model follows the program's files. Shared JavaScript behaviour
(`Number(v) || 0`, `parseFloat`, truthiness, `toLowerCase`, `includes`,
string order) lives in `Js`; the receipt record in `Records`; the
calculator's expression evaluator in `Expression`; row sums and the
receipt's final-total chain in `RowTotals`; row editing in `ReceiptRows`;
comparators and sorts in `Ordering`; the balance carried from a
customer's previous receipt in `CarryOver`. Each screen is one module
(`ReceiptForm`, `ReceiptEditor`, `ShortcutTab`, `ViewReceipts`,
`ReceiptPrint`, `Report`, `CustomerTab`, `Access`, `Language`,
`VendorDashboard`, `ProfilePage`, `AdminDashboard`). Pure computations are
functions with lemmas. The state a screen updates step by step is a class
whose methods state the whole new state. Server requests, storage,
clocks and dialogs are parameters of the operations that use them.

Amounts are real numbers, so the floating-point rounding of the browser
is not modelled. Dates are whole numbers (milliseconds), and an abstract
`Calendar` gives their day, month and weekday.

## Model

| member | source | states |
|---|---|---|
| Js.ToLower | src/components/VendorDashboard/CustomerTab.jsx:262-269 | `toLowerCase` keeps the length and lowers each ASCII letter in place |
| Js.ToUpper | src/components/VendorDashboard/ViewReceipts.jsx:91-92 | `toUpperCase` keeps the length and raises each ASCII letter in place |
| Js.TrimEmptyIffBlank | src/components/VendorDashboard/ReceiptForm.jsx:43 | `!expression.trim()` holds exactly for text made only of white space |
| Js.NumberOfNumeral | src/components/VendorDashboard/ReceiptForm.jsx:654-665 | `Number(s)`, with NaN read as 0, reads the decimal text of a count back as that count |
| Js.NumberOr0OfBlank | src/components/VendorDashboard/ReceiptForm.jsx:654-665 | `Number(s)`, with NaN read as 0, is 0 on every blank text |
| Js.NumberOr0OfNonNumeral | src/components/VendorDashboard/ReceiptForm.jsx:654-665 | `Number(s)`, with NaN read as 0, is 0 on every numeral followed by a character that cannot continue a number literal (such as "12abc") and by text not ending in white space |
| Js.ParseFloatReadsLeadingNumeral | src/components/VendorDashboard/ShortcutTab.jsx:326-328 | `parseFloat(s)`, with NaN read as 0, reads only the leading numeral scaled by an exponent part that follows it, and ignores the rest; without an exponent letter the numeral is read as it is |
| Js.ExponentScaleOfNumeral | src/components/VendorDashboard/ShortcutTab.jsx:326-328 | an exponent part `e`/`E`, an optional sign and digits scales by that power of ten, dividing when the sign is `-` |
| Js.ParseInt | src/components/VendorDashboard/ReceiptForm.jsx:413 | `parseInt(s, 10)` is NaN exactly when no digit follows the leading white space and sign; a negative result comes from a leading '-' |
| Js.ParseIntOfNumeral | src/components/VendorDashboard/ReceiptForm.jsx:413 | `parseInt` reads the decimal text of a count back as that count, whatever non-digit text follows |
| Js.NatToString | src/components/VendorDashboard/CustomerTab.jsx:262-269 | the decimal text of a count is a non-empty digit string with no leading zero |
| Js.TextOr | src/components/VendorDashboard/ReceiptForm.jsx:372-379 | the text of a value, or the fallback: a number is kept, a missing, null or empty value gives the fallback |
| Expression.Sanitize | src/components/VendorDashboard/ReceiptForm.jsx:47 | the first clean-up keeps exactly the characters `0-9 + - * / .`, in order |
| Expression.StripTrailing | src/components/VendorDashboard/ReceiptForm.jsx:48 | the second clean-up cuts exactly the trailing run of operators and dots |
| Expression.NumeralValue | src/components/VendorDashboard/ReceiptForm.jsx:51 | a run of digits and dots is a number only when it holds at most one dot and at least one digit |
| Expression.ParseFlatExpression | src/components/VendorDashboard/ReceiptForm.jsx:51 | `eval` of a numeral followed by operator-numeral steps gives the value of an independent two-register evaluation: products and quotients first, then sums and differences from left to right |
| Expression.EvaluateExpression | src/components/VendorDashboard/ReceiptForm.jsx:42-56 | total: a non-string or blank input, an empty cleaned text, a syntax error or a non-finite result gives 0; conversely a non-blank text whose cleaned form evaluates to a finite number gives that number |
| Expression.SanitizeBlank | src/components/VendorDashboard/ReceiptForm.jsx:43-49 | white-space-only text leaves nothing after cleaning |
| Expression.CleanedNotBlank | src/components/VendorDashboard/ReceiptForm.jsx:43-49 | the cleaned text is never white space, so the blank test adds nothing after cleaning |
| Expression.DroppedCharactersIgnored | src/components/VendorDashboard/ReceiptForm.jsx:47 | evaluating text and evaluating it with the dropped characters removed give the same number |
| Expression.TrailingOperatorsIgnored | src/components/VendorDashboard/ReceiptForm.jsx:48 | a trailing run of operators and dots does not change the result |
| Expression.EvaluateNumeral | src/components/VendorDashboard/ReceiptForm.jsx:42-56 | a plain numeral evaluates to its value |
| Expression.EvaluateSum | src/components/VendorDashboard/ReceiptForm.jsx:42-56 | `"m+n"` evaluates to m + n |
| Expression.SumWithTrailingOperators | src/components/VendorDashboard/ReceiptForm.jsx:48-56 | a sum followed by trailing operators (`"5+3-"`) still evaluates to the sum |
| Expression.EvaluateFlat | src/components/VendorDashboard/ReceiptForm.jsx:42-56 | every flat expression evaluates to its two-register value, or to 0 when that is not finite |
| Expression.SumOfProduct | src/components/VendorDashboard/ReceiptForm.jsx:51 | `m+n*k` evaluates to m + n·k for all numerals: multiplication binds tighter than addition |
| Expression.ProductThenSum | src/components/VendorDashboard/ReceiptForm.jsx:51 | `m*n+k` evaluates to m·n + k for all numerals |
| Expression.DifferenceIsLeftAssociative | src/components/VendorDashboard/ReceiptForm.jsx:51 | `m-n-k` evaluates to (m − n) − k for all numerals |
| Expression.DivisionByZero | src/components/VendorDashboard/ReceiptForm.jsx:52 | a division by the numeral 0 anywhere in a flat expression is not finite, so the cell gives 0 |
| Expression.UpdateOperatorIsMalformed | src/components/VendorDashboard/ReceiptForm.jsx:53-55 | `++` or `--` right after a numeral is a syntax error whatever follows |
| RowTotals.AccumulateRow | src/components/VendorDashboard/ReceiptForm.jsx:638-666 | one pass of the `forEach` adds exactly that row's contribution to the running totals |
| RowTotals.SumColumns | src/components/VendorDashboard/ReceiptForm.jsx:631-666 | the loop's six totals are the row-by-row column totals of the list |
| RowTotals.SumIncome | src/components/VendorDashboard/ReceiptForm.jsx:668-671 | the `reduce` is the sum over the rows of `Number(row.income)`, NaN read as 0 |
| RowTotals.ColumnTotalsAppend | src/components/VendorDashboard/ReceiptForm.jsx:638-666 | the totals of two lists one after the other are the sums of their totals |
| RowTotals.TotalIncomeAppend | src/components/VendorDashboard/ReceiptForm.jsx:668-671 | total income is additive over concatenation |
| RowTotals.SingleRowScaling | src/components/VendorDashboard/ReceiptForm.jsx:644-665 | with multiplier m a row adds o·m, jod·m·10 and ko·m, without one o, jod and ko unscaled; pan, gun and special add val1·val2 |
| RowTotals.RemovingRowSubtracts | src/components/VendorDashboard/ReceiptForm.jsx:638-666 | dropping one row takes exactly its contribution off the totals |
| RowTotals.RemovingRowSubtractsIncome | src/components/VendorDashboard/ReceiptForm.jsx:668-671 | dropping one row takes exactly its income off the total income |
| RowTotals.BlankRowAddsNothing | src/components/VendorDashboard/ReceiptForm.jsx:638-671 | a row whose cells all read as 0 adds nothing |
| ReceiptRows.InitialGameRows | src/components/VendorDashboard/ReceiptForm.jsx:97-122 | two blank rows: आ. with multiplier 8 and कु. with multiplier 9, special type jackpot |
| ReceiptRows.NewRow | src/components/VendorDashboard/ReceiptForm.jsx:601-612 | the appended row is blank, untyped, multiplier 8, special type the column-wide type |
| ReceiptRows.WhitespaceToPlus | src/components/VendorDashboard/ReceiptForm.jsx:558 | every white-space character becomes '+', nothing else changes |
| ReceiptRows.CollapsePlus | src/components/VendorDashboard/ReceiptForm.jsx:559 | no two '+' remain adjacent, and the input is the result with each '+' widened into a run of one or more '+' (every other character kept, in order) |
| ReceiptRows.CollapsePlusUnique | src/components/VendorDashboard/ReceiptForm.jsx:559 | conversely, any text without two adjacent '+' that widens into the input is the collapsed text |
| ReceiptRows.FormatCellText | src/components/VendorDashboard/ReceiptForm.jsx:556-560 | the stored o/jod/ko text has no white space and no '+' run, and widens into the input with every white-space character turned into '+' |
| ReceiptRows.FormatCellTextIdempotent | src/components/VendorDashboard/ReceiptForm.jsx:556-560 | formatting twice is formatting once |
| ReceiptRows.EditRow | src/components/VendorDashboard/ReceiptForm.jsx:552-590 | each input name changes only its own cell: o/jod/ko become the formatted text, income and type the typed text, and a pan/gun/special input makes its slot an object whose named sub-field is the typed text and whose other two sub-fields are kept |
| ReceiptRows.PairEditKeepsSiblings | src/components/VendorDashboard/ReceiptForm.jsx:561-566 | on a pan, gun or special slot that is already an object, each of the eight pair inputs replaces just its sub-field of that object |
| ReceiptRows.WithSpecialType | src/components/VendorDashboard/ReceiptForm.jsx:976-982 | only the special slot changes: its type is set, its values are kept or blank when missing |
| ReceiptRows.SetSpecialTypeAll | src/components/VendorDashboard/ReceiptForm.jsx:970-985 | every row gets the new special type, the list keeps its length |
| ReceiptRows.RemoveRow | src/components/VendorDashboard/ReceiptForm.jsx:620-628 | rows 0 and 1 are never removed; otherwise exactly the row at the index goes and the rest keep their order |
| ReceiptRows.AddRow | src/components/VendorDashboard/ReceiptForm.jsx:599-618 | a row is appended only while there are fewer than 10 |
| ReceiptRows.AddRemoveKeepBounds | src/components/VendorDashboard/ReceiptForm.jsx:599-628 | from two to ten rows, adding and removing stay within two to ten |
| ReceiptRows.OrBlank | src/components/VendorDashboard/ReceiptForm.jsx:318-319 | a truthy value is kept and any other becomes '' |
| ReceiptRows.NormalizePan | src/components/VendorDashboard/ReceiptForm.jsx:315-323 | a loaded pan is always an object with a type (default "sp"); a bare string becomes val1 |
| ReceiptRows.NormalizeSpecial | src/components/VendorDashboard/ReceiptForm.jsx:325-349 | special is kept if present, else jackpot, berij, frak in that priority, else a blank jackpot |
| ReceiptRows.NormalizeRow | src/components/VendorDashboard/ReceiptForm.jsx:314-357 | the sanitiser keeps every other field, keeps an object gun, and drops jackpot/berij/frak |
| ReceiptRows.NormalizeRows | src/components/VendorDashboard/ReceiptForm.jsx:314 | stored rows are mapped one to one; with none, the two default rows |
| ReceiptRows.NormalizeRowIdempotent | src/components/VendorDashboard/ReceiptForm.jsx:314-357 | sanitising a sanitised row changes nothing |
| ReceiptRows.NormalizeKeepsPanAndGunProducts | src/components/VendorDashboard/ReceiptForm.jsx:314-357 | sanitising does not change what pan and gun add to the totals |
| ReceiptRows.LoadedSpecialType | src/components/VendorDashboard/ReceiptForm.jsx:360 | the column-wide type is the first row's special type, or "jackpot" |
| ReceiptForm.MarathiDay | src/components/VendorDashboard/ReceiptForm.jsx:58-69 | each of the seven English weekday names becomes its Marathi name (Sunday रविवार through Saturday शनिवार); any other text comes back unchanged |
| ReceiptForm.InitialFormData | src/components/VendorDashboard/ReceiptForm.jsx:72-95 | every amount blank, chuk and deduction percentages "10", business name defaulting to "Bappa Gaming" |
| ReceiptForm.FormFromReceipt | src/components/VendorDashboard/ReceiptForm.jsx:362-380 | the edit form takes the receipt's id, customer, date and amounts, the listed customer's name first, "10" for missing percentages |
| ReceiptForm.SettleFigures | src/components/VendorDashboard/ReceiptForm.jsx:673-707 | the fixed chain: payment, deduction, afterDeduction, remainingBalance, totalDue, jamaTotal, chuk, finalTotalAfterChuk, finalTotal |
| ReceiptForm.CalculationResults | src/components/VendorDashboard/ReceiptForm.jsx:630-737 | the whole `calculationResults`: column totals with evaluated cells, then the chain |
| ReceiptForm.EmptyRowsSettleToZero | src/components/VendorDashboard/ReceiptForm.jsx:630-690 | no rows gives payment 0 and remainingBalance 0 |
| ReceiptForm.BlankRowSettlesToZero | src/components/VendorDashboard/ReceiptForm.jsx:638-671 | a blank row adds nothing |
| ReceiptForm.AddRowKeepsSettlement | src/components/VendorDashboard/ReceiptForm.jsx:599-618 | `addRow` leaves every figure unchanged |
| ReceiptForm.RemoveRowSubtractsItsContribution | src/components/VendorDashboard/ReceiptForm.jsx:620-628 | `removeRow` takes exactly that row's contribution and income off |
| ReceiptForm.InitialRowsSettleToZero | src/components/VendorDashboard/ReceiptForm.jsx:97-122 | the two default rows contribute nothing |
| ReceiptForm.SettlementClosedForm | src/components/VendorDashboard/ReceiptForm.jsx:681-705 | finalTotalAfterChuk = income·(1 − rate/100) − payment + pending − jama − chuk |
| ReceiptForm.ChukEnabledScalesBalance | src/components/VendorDashboard/ReceiptForm.jsx:692-694 | with the LD box ticked the final balance is jamaTotal·(1 − p/100) |
| ReceiptForm.NegativeChukRaisesBalance | src/components/VendorDashboard/ReceiptForm.jsx:695-705 | an entered negative chuk raises the final balance above jamaTotal |
| ReceiptForm.FinalTotalIgnoresRows | src/components/VendorDashboard/ReceiptForm.jsx:706 | finalTotal depends only on advance and cutting |
| ReceiptForm.DeductionRateNotClamped | src/components/VendorDashboard/ReceiptForm.jsx:681-683 | a rate of 150 makes afterDeduction negative |
| ReceiptForm.SaveRecord | src/components/VendorDashboard/ReceiptForm.jsx:763-810 | nothing is sent without a customer; otherwise the form overlaid with the computed figures, PUT when the form has an id and POST otherwise |
| CarryOver.Renumber | src/components/VendorDashboard/ReceiptForm.jsx:196-203 | the customer list is a permutation sorted by srNo, then numbered 1, 2, 3, … in that order |
| CarryOver.FindById | src/components/VendorDashboard/ReceiptForm.jsx:307 | `find` by id: None exactly when no customer has the id, otherwise a listed customer with it |
| CarryOver.FindBySrNo | src/components/VendorDashboard/ReceiptForm.jsx:425 | `find` by serial: the first customer with that serial, None exactly when there is none |
| CarryOver.FindRenumbered | src/components/VendorDashboard/ReceiptForm.jsx:196-203 | in the renumbered list serial i + 1 finds the customer at position i |
| CarryOver.CompareAsWritten | src/components/VendorDashboard/ReceiptForm.jsx:440-447 | the comparator as written: later date first; on equal dates never negative |
| CarryOver.AsWrittenIsInconsistent | src/components/VendorDashboard/ReceiptForm.jsx:445-446 | for two receipts of one date the comparator says "b first" one way and "equal" the other way |
| CarryOver.CompareNewest | src/components/VendorDashboard/ReceiptForm.jsx:440-447 | the corrected comparator: later date first, then the larger id first |
| CarryOver.CompareNewestConsistent | src/components/VendorDashboard/ReceiptForm.jsx:440-447 | the corrected comparator is antisymmetric and ties only identical date and id |
| CarryOver.AtLeastAsNewTransitive | src/components/VendorDashboard/ReceiptForm.jsx:440-447 | the corrected order is transitive |
| CarryOver.Newest | src/components/VendorDashboard/ReceiptForm.jsx:449 | `sorted[0]` is a listed receipt, no receipt is newer, so its date is the latest |
| CarryOver.ReceiptsOnDay | src/components/VendorDashboard/ReceiptForm.jsx:213-215 | exactly the receipts dated today |
| CarryOver.ReceiptsOf | src/components/VendorDashboard/ReceiptForm.jsx:428-430 | exactly the selected customer's receipts |
| CarryOver.ReceiptsOfSnoc | src/components/VendorDashboard/ReceiptForm.jsx:428-430 | filtering a list extended by one receipt extends the result by it when it is the customer's |
| CarryOver.ReceiptsOfAppend | src/components/VendorDashboard/ReceiptForm.jsx:428-430 | the customer's receipts keep their order in the list: filtering a concatenation filters each part |
| CarryOver.LatestOpenClose | src/components/VendorDashboard/ReceiptForm.jsx:211-239 | with no receipt today all three blank; otherwise the values of a latest receipt of today, missing fields as "" |
| CarryOver.CarriedText | src/components/VendorDashboard/ReceiptForm.jsx:452-459 | an undefined total carries "", a number or text carries itself, a null total throws |
| CarryOver.SelectSerial | src/components/VendorDashboard/ReceiptForm.jsx:412-498 | an invalid serial clears the customer and restores the two default rows; an unknown one changes nothing; a known one gives what `SeedFor` gives for that customer |
| CarryOver.SeedFor | src/components/VendorDashboard/ReceiptForm.jsx:425-481 | a customer without receipts gets blank pending and advance amounts; otherwise they come from a receipt no other of theirs is newer than, a `null` amount throws, and the two default rows are restored |
| CarryOver.SelectingCustomerChoosesThem | src/components/VendorDashboard/ReceiptForm.jsx:1151-1157 | choosing the customer at position i writes its serial and selects exactly that customer |
| CarryOver.BalanceCarriesForward | src/components/VendorDashboard/ReceiptForm.jsx:452-459 | the saved record's balance and final total read back as the computed numbers, and a form seeded with them starts with totalDue and final balance equal to the saved balance and finalTotal equal to the saved one |
| CarryOver.SeedForNewest | src/components/VendorDashboard/ReceiptForm.jsx:425-459 | a customer whose newest receipt holds the numbers p and a is seeded with pending amount p and advance a and the two default rows |
| CarryOver.ReselectingCarriesBalance | src/components/VendorDashboard/ReceiptForm.jsx:425-459 | after saving, choosing the customer again, with the saved receipt in the list and newer than their other receipts, seeds the form with the saved balance and final total, and it starts with totalDue and final balance equal to the saved balance |
| CarryOver.SeededFigures | src/components/VendorDashboard/ReceiptForm.jsx:468-479 | a seeded form reads the carried amounts and 0 for jama, chuk and cutting |
| CarryOver.SettleOfNothing | src/components/VendorDashboard/ReceiptForm.jsx:681-706 | with nothing entered the chain passes the pending amount through to the final balance |
| CarryOver.SeededSettlement | src/components/VendorDashboard/ReceiptForm.jsx:468-481 | a freshly seeded form with the default rows settles to the carried amounts |
| ReceiptEditor.SetFormField | src/components/VendorDashboard/ReceiptForm.jsx:541-543 | `{ ...prev, [name]: value }` changes exactly the named field |
| ReceiptEditor.SetFormFieldKeepsCustomer | src/components/VendorDashboard/ReceiptForm.jsx:541-543 | a text edit never changes the id, customer, date or LD box |
| ReceiptEditor.SetOpenClose | src/components/VendorDashboard/ReceiptForm.jsx:546-549 | an open/close input changes exactly its own value |
| ReceiptEditor.FilteredReceipts | src/components/VendorDashboard/ReceiptForm.jsx:995-1006 | exactly the receipts whose name contains the search, ignoring case, and whose company is the picked one when one is picked |
| ReceiptEditor.FilteredReceiptsAppend | src/components/VendorDashboard/ReceiptForm.jsx:995-1006 | the shown receipts keep their order in the list |
| ReceiptEditor.EmptySearchShowsAll | src/components/VendorDashboard/ReceiptForm.jsx:995-1006 | blank search and company show every receipt, in order |
| ReceiptEditor.FilteredCustomers | src/components/VendorDashboard/ReceiptForm.jsx:1131-1139 | exactly the customers whose lower-cased name or serial text contains the lower-cased search; a blank search shows all |
| ReceiptEditor.FilteredCustomersAppend | src/components/VendorDashboard/ReceiptForm.jsx:1131-1139 | the shown customers keep their order in the list |
| ReceiptEditor.CustomerSrNo | src/components/VendorDashboard/ReceiptForm.jsx:1008-1011 | the serial number of the first listed customer with that id, else the serial box, else "N/A" |
| ReceiptEditor.FindReceipt | src/components/VendorDashboard/ReceiptForm.jsx:298 | `find` by id: None exactly when no receipt has the id |
| ReceiptEditor.Editor.constructor | src/components/VendorDashboard/ReceiptForm.jsx:134-171 | the first render: the initial form and rows, blank open/close values, empty lists, edit mode off |
| ReceiptEditor.Editor.ClearForm | src/components/VendorDashboard/ReceiptForm.jsx:174-187 | a fresh form keeping business name and company, the default rows, blank serial and search, open/close values kept |
| ReceiptEditor.Editor.HandleChange | src/components/VendorDashboard/ReceiptForm.jsx:532-544 | a text input changes only its form field |
| ReceiptEditor.Editor.HandleChukToggle | src/components/VendorDashboard/ReceiptForm.jsx:535-540 | the LD box is set and the chuk amount cleared |
| ReceiptEditor.Editor.HandleOpenCloseChange | src/components/VendorDashboard/ReceiptForm.jsx:546-549 | only the named open/close value changes |
| ReceiptEditor.Editor.HandleRowChange | src/components/VendorDashboard/ReceiptForm.jsx:552-590 | only row `index` changes, as `EditRow` says; the list keeps its length |
| ReceiptEditor.Editor.HandleMultiplierChange | src/components/VendorDashboard/ReceiptForm.jsx:592-596 | only that row's multiplier changes, to `Number(value)` with NaN as 0 |
| ReceiptEditor.Editor.AddRow | src/components/VendorDashboard/ReceiptForm.jsx:599-618 | the rows become `AddRow` of the old rows and stay within two to ten |
| ReceiptEditor.Editor.RemoveRow | src/components/VendorDashboard/ReceiptForm.jsx:620-628 | the rows become `RemoveRow` of the old rows and stay within two to ten |
| ReceiptEditor.Editor.HandleGlobalSpecialTypeChange | src/components/VendorDashboard/ReceiptForm.jsx:970-985 | the column type is set, its dropdown closed, every row's special type set |
| ReceiptEditor.Editor.CustomerSearchChange | src/components/VendorDashboard/ReceiptForm.jsx:1142-1149 | edit mode off, search stored, dropdown open, serial box cleared |
| ReceiptEditor.Editor.CustomerSelect | src/components/VendorDashboard/ReceiptForm.jsx:1151-1156 | edit mode off, the serial box holds the customer's serial, search cleared, dropdown closed |
| ReceiptEditor.Editor.CustomersLoaded | src/components/VendorDashboard/ReceiptForm.jsx:189-208 | the stored list is the fetched list sorted and renumbered |
| ReceiptEditor.Editor.ReceiptsLoaded | src/components/VendorDashboard/ReceiptForm.jsx:241-268 | receipts stored by id descending; a new receipt takes the open/close values of the day, an edited one keeps its own |
| ReceiptEditor.Editor.QueryCustomer | src/components/VendorDashboard/ReceiptForm.jsx:276-288 | a listed customer named in the query fills the serial box and closes the dropdown; otherwise nothing changes |
| ReceiptEditor.Editor.LoadReceipt | src/components/VendorDashboard/ReceiptForm.jsx:306-386 | edit mode on, serial of the receipt's customer or blank, normalised rows, column type of the first row, form filled from the receipt, its open/close values when present |
| ReceiptEditor.Editor.LoadContents | src/components/VendorDashboard/ReceiptForm.jsx:314-386 | the rows are the receipt's rows normalised, the special type is read from them, the form is filled from the receipt, and the open/close values are taken when present |
| ReceiptEditor.Editor.LoadForEdit | src/components/VendorDashboard/ReceiptForm.jsx:292-304 | found exactly when the customer list is loaded and the id is in the fetched list; when not found no field changes; when found the receipt with that id is in edit mode with the serial, rows, column type, form and open/close values `LoadReceipt` gives |
| ReceiptEditor.Editor.EditRouteLeft | src/components/VendorDashboard/ReceiptForm.jsx:395-399 | a form in edit mode is cleared as `clearForm` does and leaves edit mode; otherwise nothing changes |
| ReceiptEditor.Editor.SerialChanged | src/components/VendorDashboard/ReceiptForm.jsx:406-504 | an unchanged serial does nothing; in edit mode only the serial is recorded; otherwise form and rows take `SelectSerial`, and a throw leaves the recorded serial |
| ReceiptEditor.Editor.ApplySelection | src/components/VendorDashboard/ReceiptForm.jsx:412-501 | a seeded form and rows replace the current ones, other outcomes keep them, and every run that does not throw records the serial |
| ReceiptEditor.Editor.AfterSave | src/components/VendorDashboard/ReceiptForm.jsx:806-813 | receipts are the fetched list by id descending, a new receipt takes the day's open/close values, customers and the recorded serial stay; with `clear` every form field is reset as `clearForm` does, without it every form field stays |
| ReceiptEditor.Editor.Save | src/components/VendorDashboard/ReceiptForm.jsx:763-819 | the record built is the form with its computed figures; the save succeeds exactly when there is a customer and the server accepts it; a failed save changes no field; a successful one leaves the whole state `AfterSave` gives |
| ShortcutTab.OrZero | src/components/VendorDashboard/ShortcutTab.jsx:135-138 | a truthy value is kept, a falsy one becomes 0 |
| ShortcutTab.DefaultRows | src/components/VendorDashboard/ShortcutTab.jsx:164-187 | the two starting rows are आ. with multiplier 8 and कु. with multiplier 9, every cell blank |
| ShortcutTab.DefaultRowsAddNothing | src/components/VendorDashboard/ShortcutTab.jsx:164-187 | the default rows add nothing to any column total or to the income |
| ShortcutTab.DefaultMultiplier | src/components/VendorDashboard/ShortcutTab.jsx:107-114 | a row's own multiplier is kept; without one, आ./आ gets 8, कु./कु gets 9, any other type none |
| ShortcutTab.OrBlankReadsAlike | src/components/VendorDashboard/ShortcutTab.jsx:117-121 | a falsy cell replaced by '' reads as the same number with both parseFloat and Number |
| ShortcutTab.SlotDefaultsReadAlike | src/components/VendorDashboard/ShortcutTab.jsx:123-125 | a missing pan, gun or special slot and its default both contribute 0 |
| ShortcutTab.FilledRowContribution | src/components/VendorDashboard/ShortcutTab.jsx:116-126 | filling a row's defaults changes none of its column amounts and not its income |
| ShortcutTab.PrefillScalesLegacyRow | src/components/VendorDashboard/ShortcutTab.jsx:106-114 | an old आ. row without a multiplier is counted as multiplier 8: o and ko times 8, jod times 80 |
| ShortcutTab.EntryFromReceipt | src/components/VendorDashboard/ShortcutTab.jsx:129-139 | the entry keeps one pre-filled row per stored row, the stored open/close/jod and company (missing as ''), and jama, chuk, advance and cutting (falsy as 0) |
| ShortcutTab.FreshEntry | src/components/VendorDashboard/ShortcutTab.jsx:159-192 | a customer without a receipt that day starts with nothing entered, the two default rows, jama from the last balance and advance from the last final total (0 when none), chuk and cutting 0 |
| ShortcutTab.FirstOwnIsNewest | src/components/VendorDashboard/ShortcutTab.jsx:145-147 | in the newest-first list a customer's first receipt has the latest date among theirs |
| ShortcutTab.PreviousFiguresOfNewest | src/components/VendorDashboard/ShortcutTab.jsx:143-153 | carried-over figures exist exactly when the customer has a receipt, and then come from one of their receipts with the latest date |
| ShortcutTab.LatestOfDayIsLatest | src/components/VendorDashboard/ShortcutTab.jsx:96-102 | the receipt an entry is made from is the customer's, on the chosen day, and none of theirs that day was updated (or created) later |
| ShortcutTab.DayGroupNonEmpty | src/components/VendorDashboard/ShortcutTab.jsx:73-93 | a customer has a group exactly when they have a receipt dated on the chosen day |
| ShortcutTab.GroupByCustomer | src/components/VendorDashboard/ShortcutTab.jsx:86-93 | the map has a key exactly for each customer with a receipt, holding that customer's receipts in list order |
| ShortcutTab.EntriesOfGroups | src/components/VendorDashboard/ShortcutTab.jsx:96-140 | one entry per group, made from the group's latest receipt |
| ShortcutTab.PreviousByCustomer | src/components/VendorDashboard/ShortcutTab.jsx:143-153 | every listed customer with a receipt gets the figures of their first receipt in the sorted list, and no one else gets any |
| ShortcutTab.AddFreshEntries | src/components/VendorDashboard/ShortcutTab.jsx:156-194 | existing entries are kept and every listed customer without one gets a fresh entry from their carried-over figures |
| ShortcutTab.PrefillForDate | src/components/VendorDashboard/ShortcutTab.jsx:59-197 | entries exist exactly for the customers with a receipt that day and the listed customers; the former come from their latest receipt of the day, the rest are fresh |
| ShortcutTab.CalculateCustomerTotals | src/components/VendorDashboard/ShortcutTab.jsx:314-404 | the row loop and the income sum give the column totals and income of the rows, settled with a 10% deduction, jama, chuk, advance and cutting |
| ShortcutTab.QuickChainAgainstReceiptForm | src/components/VendorDashboard/ShortcutTab.jsx:369-384 | up to the amount after chuk the quick chain equals the receipt form's at 10% with no pending amount; the quick final total also takes off advance and cutting, the form's is advance less cutting |
| ShortcutTab.QuickClosedForm | src/components/VendorDashboard/ShortcutTab.jsx:361-384 | the final total is 90% of the income less payment, jama, chuk, advance and cutting |
| ShortcutTab.FreshEntryFigures | src/components/VendorDashboard/ShortcutTab.jsx:159-192 | a fresh entry settles with no columns, no income, no chuk and no cutting |
| ShortcutTab.FreshEntryTotals | src/components/VendorDashboard/ShortcutTab.jsx:370-380 | a fresh entry has no payment and no income, so its amount after chuk is the carried jama taken off 0 |
| ShortcutTab.SetField | src/components/VendorDashboard/ShortcutTab.jsx:207-210 | the named field takes the value, every other field and the rows stay |
| ShortcutTab.HandleInputChange | src/components/VendorDashboard/ShortcutTab.jsx:204-212 | only that customer's entry changes (created when missing), and in it only the named field |
| ShortcutTab.EditQuickRow | src/components/VendorDashboard/ShortcutTab.jsx:220-234 | a plain name sets that cell, the multiplier is set to its number |
| ShortcutTab.DottedInputChangesOneSubField | src/components/VendorDashboard/ShortcutTab.jsx:220-228 | a dotted name sets one sub-field of one slot; the other sub-field, the slot's type, the other slots and every cell stay |
| ShortcutTab.HandleGameRowChange | src/components/VendorDashboard/ShortcutTab.jsx:214-244 | only the indexed row of that customer's entry changes; other entries stay |
| ShortcutTab.RowChangeKeepsOtherRows | src/components/VendorDashboard/ShortcutTab.jsx:218-234 | an edit keeps the number of rows and every other row |
| ShortcutTab.AddGameRow | src/components/VendorDashboard/ShortcutTab.jsx:246-272 | one blank row of the type is appended, multiplier 8 for आ., 9 for कु., none otherwise; nothing else changes |
| ShortcutTab.InitializeDefaultRows | src/components/VendorDashboard/ShortcutTab.jsx:274-312 | an entry with rows is left alone; one without gets the two default rows |
| ShortcutTab.WithoutIndex | src/components/VendorDashboard/ShortcutTab.jsx:415 | the row at the index is dropped; an index out of range drops nothing |
| ShortcutTab.RemoveGameRow | src/components/VendorDashboard/ShortcutTab.jsx:406-419 | only that customer's rows change, losing the indexed row |
| ShortcutTab.RemoveGameRowSubtracts | src/components/VendorDashboard/ShortcutTab.jsx:406-419 | removing a row takes exactly its contribution off the column totals and the income |
| ShortcutTab.RecordRows | src/components/VendorDashboard/ShortcutTab.jsx:446-457 | one posted row per row, id from the clock plus its index, defaults filled in, multiplier dropped |
| ShortcutTab.BuildRecord | src/components/VendorDashboard/ShortcutTab.jsx:462-496 | the posted receipt stores payment 0, no column totals, no pending amount and chuk off; balance and total due are the amount after deduction; the chain figures are the entry's totals |
| ShortcutTab.RecordChainNeedsNoPayment | src/components/VendorDashboard/ShortcutTab.jsx:475-495 | the stored balance less jama less chuk equals the stored amount after chuk exactly when the rows' payment is 0 |
| ShortcutTab.ToSubmit | src/components/VendorDashboard/ShortcutTab.jsx:422-424 | the ids submitted are exactly those whose entry has an open, a close or a row |
| ShortcutTab.BatchRecords | src/components/VendorDashboard/ShortcutTab.jsx:440-442 | no more records than submitted ids |
| ShortcutTab.BatchRecordsCover | src/components/VendorDashboard/ShortcutTab.jsx:440-442 | a record is posted for every submitted id a listed customer has, and for no other |
| ShortcutTab.RecordFor | src/components/VendorDashboard/ShortcutTab.jsx:441-496 | a record exists exactly when a listed customer has the id, and it carries that id |
| ShortcutTab.CountPosted | src/components/VendorDashboard/ShortcutTab.jsx:502-506 | no more successes than posts |
| ShortcutTab.PostAll | src/components/VendorDashboard/ShortcutTab.jsx:440-507 | the loop posts those records and counts each as a success or an error |
| ShortcutTab.PostNext | src/components/VendorDashboard/ShortcutTab.jsx:441-506 | one turn of the loop: the records posted so far grow by the record for that id, if any, and the counts stay those of the posts |
| ShortcutTab.CreateReceipts | src/components/VendorDashboard/ShortcutTab.jsx:421-528 | nothing is posted when no entry qualifies or the user declines; otherwise all records are posted, and the entries are cleared once one succeeds |
| ShortcutTab.SaveCustomer | src/components/VendorDashboard/ShortcutTab.jsx:530-613 | an empty entry is refused, an unknown customer fails before posting, otherwise the record with the entry's own company is posted and a success deletes that entry |
| ShortcutTab.SaveDeletesOnlyThatEntry | src/components/VendorDashboard/ShortcutTab.jsx:601-606 | a successful save deletes exactly that customer's entry and keeps all the others |
| ViewReceipts.LastSrNo | src/components/VendorDashboard/ViewReceipts.jsx:484-486 | the number left for an id is that of the last listed customer with the id, none when no customer has it |
| ViewReceipts.SrNoMap | src/components/VendorDashboard/ViewReceipts.jsx:482-488 | the map holds exactly the listed ids, each with the serial number of its last listed customer |
| ViewReceipts.FirstNewestSnoc | src/components/VendorDashboard/ViewReceipts.jsx:497-498 | a further receipt becomes the candidate only when it is strictly newer |
| ViewReceipts.ScanStepKeepsLatest | src/components/VendorDashboard/ViewReceipts.jsx:494-500 | each step of the scan keeps, for every customer seen, the first of their receipts with the latest date |
| ViewReceipts.LatestByCustomer | src/components/VendorDashboard/ViewReceipts.jsx:493-500 | the map has a key exactly for each customer with receipts, holding the first of theirs with the latest date |
| ViewReceipts.EnrichFrom | src/components/VendorDashboard/ViewReceipts.jsx:502-506 | each receipt keeps its place and gets its customer's serial number (0 or none as N/A) and whether it is its customer's latest |
| ViewReceipts.Enrich | src/components/VendorDashboard/ViewReceipts.jsx:491-507 | the enriched list has one entry per receipt, in order, with serial number and latest flag |
| ViewReceipts.EnrichOne | src/components/VendorDashboard/ViewReceipts.jsx:503-505 | reading the two maps gives the serial number and the latest flag of the specification |
| ViewReceipts.EnrichReceipts | src/components/VendorDashboard/ViewReceipts.jsx:482-507 | the two maps and the pass over the receipts compute the enriched list |
| ViewReceipts.ExactlyOneLatest | src/components/VendorDashboard/ViewReceipts.jsx:491-506 | with unique ids every customer with receipts has exactly one flagged latest, with the greatest date, and every receipt of theirs listed before it is strictly older |
| ViewReceipts.FilterEnriched | src/components/VendorDashboard/ViewReceipts.jsx:510-535 | a receipt is kept exactly when it matches the search (name, business or serial number) and the date filter |
| ViewReceipts.FilterEnrichedAppend | src/components/VendorDashboard/ViewReceipts.jsx:510-535 | the kept receipts keep their order in the list |
| ViewReceipts.EmptySearchKeepsAll | src/components/VendorDashboard/ViewReceipts.jsx:512-534 | an empty search with the all-time filter keeps the whole list in order |
| ViewReceipts.NoSrNoNeverMatchesBySrNo | src/components/VendorDashboard/ViewReceipts.jsx:511-516 | a receipt without a serial number is never found by number, since the search is lower-cased and N/A is not |
| ViewReceipts.NextSort | src/components/VendorDashboard/ViewReceipts.jsx:560-567 | clicking the sorted field flips the order; another field becomes the sort field, descending |
| ViewReceipts.SortTwiceRestores | src/components/VendorDashboard/ViewReceipts.jsx:560-567 | two clicks on the sorted field restore the sort state |
| ViewReceipts.CompareAsWritten | src/components/VendorDashboard/ViewReceipts.jsx:538-558 | the comparator as written never reports a tie, and compares the serial number as lower-cased text |
| ViewReceipts.Compare | src/components/VendorDashboard/ViewReceipts.jsx:538-558 | the corrected comparator never ties, compares every field but the name by number, and agrees with the one as written on every field but the serial number |
| ViewReceipts.SrNoSortsAsText | src/components/VendorDashboard/ViewReceipts.jsx:548-554 | as written, ascending by serial number puts 10 before 9; the corrected comparator puts 9 first |
| ViewReceipts.SortEnriched | src/components/VendorDashboard/ViewReceipts.jsx:538-558 | the sorted list is a permutation of the filtered one in which no pair is out of order for the comparator |
| ViewReceipts.WithoutId | src/components/VendorDashboard/ViewReceipts.jsx:458 | exactly the receipts with another id are kept |
| ViewReceipts.WithoutAbsentId | src/components/VendorDashboard/ViewReceipts.jsx:458 | deleting an id no receipt has changes nothing |
| ViewReceipts.DeleteRemovesExactlyOne | src/components/VendorDashboard/ViewReceipts.jsx:458 | with unique ids, deleting a listed receipt removes just it and keeps the others in order |
| ViewReceipts.ReceiptsView.constructor | src/components/VendorDashboard/ViewReceipts.jsx:382-393 | no receipts, no customers, empty search, all-time filter, sorted by date descending |
| ViewReceipts.ReceiptsView.ReceiptsLoaded | src/components/VendorDashboard/ViewReceipts.jsx:401-418 | the receipts are stored newest first; nothing else changes |
| ViewReceipts.ReceiptsView.CustomersLoaded | src/components/VendorDashboard/ViewReceipts.jsx:420-440 | the customers are stored by serial number and renumbered from 1; nothing else changes |
| ViewReceipts.ReceiptsView.SetSearch | src/components/VendorDashboard/ViewReceipts.jsx:384 | only the search text changes |
| ViewReceipts.ReceiptsView.SetDateFilter | src/components/VendorDashboard/ViewReceipts.jsx:393 | only the date filter changes |
| ViewReceipts.ReceiptsView.HandleSort | src/components/VendorDashboard/ViewReceipts.jsx:560-567 | the sort state becomes the next one; nothing else changes |
| ViewReceipts.ReceiptsView.DeletedLocally | src/components/VendorDashboard/ViewReceipts.jsx:458 | the deleted id leaves the list; nothing else changes |
| ViewReceipts.ReceiptsView.Displayed | src/components/VendorDashboard/ViewReceipts.jsx:491-558 | the list on screen is the enriched receipts, filtered, then sorted by the corrected comparator `SortEnriched` |
| ReceiptPrint.SpecialHeader | src/components/VendorDashboard/ViewReceipts.jsx:57-62 | the header is बेरीज for a first row of type berij, फरक for frak, जॅकपॉट otherwise |
| ReceiptPrint.CellTotal | src/components/VendorDashboard/ViewReceipts.jsx:66-81 | a total is shown exactly when the row has a multiplier |
| ReceiptPrint.CellTotalsAreContributions | src/components/VendorDashboard/ViewReceipts.jsx:66-70 | the printed cell totals equal the row's contributions to the o, jod and ko column totals |
| ReceiptPrint.PanLabel | src/components/VendorDashboard/ViewReceipts.jsx:91-92 | the pan label is the type upper-cased in brackets, (SP) without a type |
| ReceiptPrint.SpecialLabel | src/components/VendorDashboard/ViewReceipts.jsx:93-96 | the special label is (बे) for berij, (फ) for frak, (जॅ) otherwise |
| ReceiptPrint.BalanceLine | src/components/VendorDashboard/ViewReceipts.jsx:344-352 | a negative amount after chuk prints as (देणे) with its magnitude, any other as (येणे); the signed magnitude gives the amount back |
| Report.SplitBalance | src/components/VendorDashboard/Report.jsx:519-521 | yene and dene are non-negative, at most one is non-zero, and yene less dene is the balance |
| Report.SplitIsUnique | src/components/VendorDashboard/Report.jsx:166-170 | the split is the only such pair for a balance |
| Report.TotalsAgree | src/components/VendorDashboard/Report.jsx:923-948 | the yene, dene and advance totals are non-negative and the net balance is the sum of all balances |
| Report.ComputeTotals | src/components/VendorDashboard/Report.jsx:923-948 | the loop computes the net balance, the yene and dene totals and the total of the positive advances |
| Report.StartValues | src/components/VendorDashboard/Report.jsx:166-174 | the editor starts from the balance split into yene and dene and the advance |
| Report.InputChange | src/components/VendorDashboard/Report.jsx:194-205 | a positive yene clears dene, a positive dene clears yene, anything else sets only its own field, the text read with parseFloat and NaN as 0 |
| Report.InputKeepsSidesExclusive | src/components/VendorDashboard/Report.jsx:432-443 | after a positive amount on either side the other is 0; text that does not parse sets its field to 0 |
| Report.BalanceUpdateThrows | src/components/VendorDashboard/Report.jsx:1030-1062 | the update throws exactly when a token is present and the request fails |
| Report.BalanceEditor.constructor | src/components/VendorDashboard/Report.jsx:162-164 | no row edited, all values 0, not saving |
| Report.BalanceEditor.EditClick | src/components/VendorDashboard/Report.jsx:166-174 | the customer's row is edited, starting from its split balance and advance |
| Report.BalanceEditor.CancelEdit | src/components/VendorDashboard/Report.jsx:176-179 | no row edited and all values 0 |
| Report.BalanceEditor.InputChanged | src/components/VendorDashboard/Report.jsx:737-747 | the values become those of the input change |
| Report.BalanceEditor.SaveEdit | src/components/VendorDashboard/Report.jsx:181-192 | the values being edited are sent; a save that does not throw leaves edit mode and clears them, one that throws keeps both; saving ends false |
| Report.FilterCustomers | src/components/VendorDashboard/Report.jsx:950-958 | an empty search keeps everyone; otherwise exactly the customers matching by name or by serial number |
| Report.FilterCustomersAppend | src/components/VendorDashboard/Report.jsx:950-958 | the kept customers keep their order in the list |
| Report.TotalPages | src/components/VendorDashboard/Report.jsx:960 | the page count is the least number of pages of ten that hold the list |
| Report.PaginationHiddenIffOnePage | src/components/VendorDashboard/Report.jsx:646-647 | the control is hidden exactly when ten or fewer customers are listed |
| Report.PageOf | src/components/VendorDashboard/Report.jsx:961-965 | a page holds at most ten customers, those of the list from its start, and exactly ten when the list runs past its end |
| Report.EveryCustomerOnItsPage | src/components/VendorDashboard/Report.jsx:960-965 | every listed customer is at its place on a page between 1 and the page count |
| Report.ReportView.constructor | src/components/VendorDashboard/Report.jsx:788-798 | no customers, empty search, page 1 |
| Report.ReportView.Loaded | src/components/VendorDashboard/Report.jsx:860 | the customers are replaced; search and page stay |
| Report.ReportView.SearchChanged | src/components/VendorDashboard/Report.jsx:967-969 | a new search returns to page 1 |
| Report.ReportView.PreviousPage | src/components/VendorDashboard/Report.jsx:646-657 | the page goes back one unless it is the first or the control is hidden |
| Report.ReportView.NextPage | src/components/VendorDashboard/Report.jsx:661-667 | the page goes on one unless it is the last or the control is hidden |
| Report.ReportView.CurrentCustomersOnPage | src/components/VendorDashboard/Report.jsx:950-965 | the page on screen is the current page of the filtered customers |
| Report.OwingIsTopTen | src/components/VendorDashboard/Report.jsx:1345-1348 | ten customers of the list, or all those with positive balances when fewer, all with positive balances, largest first, and none left out has more than one listed |
| Report.OwedIsTopTen | src/components/VendorDashboard/Report.jsx:1374-1377 | ten customers of the list, or all those with negative balances when fewer, all with negative balances, most negative first, and none left out owes more than one listed |
| Ordering.StringLessIrreflexive | src/components/VendorDashboard/ViewReceipts.jsx:554 | no string is less than itself under the code-unit order of `<` |
| Ordering.StringLessAsymmetric | src/components/VendorDashboard/ViewReceipts.jsx:554 | two strings are never each less than the other |
| Ordering.StringLessTotal | src/components/VendorDashboard/ViewReceipts.jsx:554 | of two different strings one is less than the other |
| Ordering.StringLessTransitive | src/components/VendorDashboard/ViewReceipts.jsx:554 | the order on strings is transitive |
| Ordering.CompareNum | src/components/VendorDashboard/ViewReceipts.jsx:553-557 | the comparator answers 1 exactly when the first key is greater (ascending) or smaller (descending), -1 otherwise |
| Ordering.CompareText | src/components/VendorDashboard/ViewReceipts.jsx:553-557 | the same comparator on lower-cased strings under `<` |
| Ordering.ComparatorNeverTies | src/components/VendorDashboard/ViewReceipts.jsx:553-557 | the comparator never answers 0: on different keys it is antisymmetric, on equal keys it answers -1 both ways |
| Ordering.SortBy | src/components/VendorDashboard/ViewReceipts.jsx:410-412 | a permutation of its input, in non-decreasing key order |
| Ordering.SortByIsStable | src/components/VendorDashboard/ViewReceipts.jsx:410-412 | the sort is stable: the elements with any one key come out in the order they went in |
| Ordering.InsertAfterEqualKeys | src/components/VendorDashboard/ViewReceipts.jsx:410-412 | insertion puts the new element after every element with the same key |
| Ordering.WhereAppend | src/components/VendorDashboard/Report.jsx:1345 | `filter` keeps the order: filtering a concatenation filters each part |
| Ordering.WhereCons | src/components/VendorDashboard/Report.jsx:1345 | an element is kept at the front exactly when it passes |
| Ordering.FirstMaxIndex | src/components/VendorDashboard/ShortcutTab.jsx:100-102 | the first position holding the greatest key |
| Ordering.TopByKey | src/components/VendorDashboard/Report.jsx:1345-1348 | filtering, sorting and taking the first n keeps n elements of the list that pass the filter, or all of them when fewer pass, in key order, none left out ranking before one kept |
| CustomerTab.WithDisplaySrNo | src/components/VendorDashboard/CustomerTab.jsx:257-260 | each customer keeps its place and is numbered by its position from 1 |
| CustomerTab.FilterListed | src/components/VendorDashboard/CustomerTab.jsx:262-269 | a customer is kept exactly when the lower-cased search occurs in the name, in the displayed number, or in the address when there is one |
| CustomerTab.FilterListedAppend | src/components/VendorDashboard/CustomerTab.jsx:262-269 | the kept customers keep their order in the list |
| CustomerTab.EmptySearchShowsAll | src/components/VendorDashboard/CustomerTab.jsx:262-269 | an empty search shows every customer in order |
| CustomerTab.SearchByNumberFinds | src/components/VendorDashboard/CustomerTab.jsx:266 | typing a customer's displayed number finds that customer |
| CustomerTab.Compare | src/components/VendorDashboard/CustomerTab.jsx:272-292 | the comparator compares the number and balance columns by number and name and address as lower-cased text, and never ties |
| CustomerTab.SortListed | src/components/VendorDashboard/CustomerTab.jsx:272-292 | the sorted list is a permutation of the filtered one in which no pair is out of order for the comparator |
| CustomerTab.NextSort | src/components/VendorDashboard/CustomerTab.jsx:300-307 | clicking the sorted field flips the order; another field becomes the sort field, ascending |
| CustomerTab.SortClicks | src/components/VendorDashboard/CustomerTab.jsx:300-307 | two clicks on the sorted field restore the state; two clicks on a new field sort it descending |
| CustomerTab.CountActive | src/components/VendorDashboard/CustomerTab.jsx:296 | no more customers are active than listed |
| CustomerTab.StatsOfList | src/components/VendorDashboard/CustomerTab.jsx:295-297 | the figures count every customer, the active ones among them, and sum all balances |
| CustomerTab.ActiveAndTotal | src/components/VendorDashboard/CustomerTab.jsx:295-297 | with no active customer the total balance is not positive; with all of them active it is positive |
| CustomerTab.SumOfRemove | src/components/VendorDashboard/CustomerTab.jsx:127-129 | a sum over receipts is one receipt's amount plus the sum over the others |
| CustomerTab.SumOfPermutation | src/components/VendorDashboard/CustomerTab.jsx:124-129 | the receipt sums do not depend on the order of the receipts |
| CustomerTab.Average | src/components/VendorDashboard/CustomerTab.jsx:130 | the average times the count gives the total; with no receipts it is 0 |
| CustomerTab.StatsListsOwnReceipts | src/components/VendorDashboard/CustomerTab.jsx:119-140 | the panel lists exactly the customer's receipts, newest first, counts them, and shows the ten newest |
| CustomerTab.StatsTotals | src/components/VendorDashboard/CustomerTab.jsx:126-129 | income, payment and deduction are summed over exactly the customer's receipts |
| CustomerTab.ReplaceById | src/components/VendorDashboard/CustomerTab.jsx:219-223 | every customer with the id is replaced by the updated one, every other kept |
| CustomerTab.ReplaceOnlyThatOne | src/components/VendorDashboard/CustomerTab.jsx:219-223 | with unique ids, saving replaces just the edited customer; an unknown id changes nothing |
| CustomerTab.WithoutId | src/components/VendorDashboard/CustomerTab.jsx:245-247 | exactly the customers with another id are kept |
| CustomerTab.WithoutAbsentId | src/components/VendorDashboard/CustomerTab.jsx:245-247 | deleting an id no customer has changes nothing |
| CustomerTab.DeleteRemovesExactlyOne | src/components/VendorDashboard/CustomerTab.jsx:245-247 | with unique ids, deleting a listed customer removes just them and keeps the others in order |
| CustomerTab.CustomerList.constructor | src/components/VendorDashboard/CustomerTab.jsx:41-63 | an empty list and search, sorted by serial number ascending, no form, edit or details open |
| CustomerTab.CustomerList.Loaded | src/components/VendorDashboard/CustomerTab.jsx:69-95 | a list is stored sorted by serial number, a reply that is not a list empties it, a failure keeps it |
| CustomerTab.CustomerList.AddCustomer | src/components/VendorDashboard/CustomerTab.jsx:170-196 | a blank name sends nothing; a created customer is appended and the form cleared and closed; a failure changes nothing |
| CustomerTab.CustomerList.StartEdit | src/components/VendorDashboard/CustomerTab.jsx:198-204 | the edit row opens with the customer's name and address, a missing address as '' |
| CustomerTab.CustomerList.SaveEdit | src/components/VendorDashboard/CustomerTab.jsx:211-230 | an accepted edit replaces the customer and closes the edit row; a failure changes nothing |
| CustomerTab.CustomerList.DeleteCustomer | src/components/VendorDashboard/CustomerTab.jsx:232-254 | only a confirmed deletion the server accepts removes the customer |
| CustomerTab.CustomerList.SetSearch | src/components/VendorDashboard/CustomerTab.jsx:46 | only the search text changes |
| CustomerTab.CustomerList.HandleSort | src/components/VendorDashboard/CustomerTab.jsx:300-307 | the sort state becomes the next one; nothing else changes |
| CustomerTab.CustomerList.DetailsFromUrl | src/components/VendorDashboard/CustomerTab.jsx:102-162 | a known id opens the panel with totals over the fetched receipts, an unknown one goes back to the list, no id closes an open panel |
| CustomerTab.CustomerList.Shown | src/components/VendorDashboard/CustomerTab.jsx:257-292 | the rows on screen are exactly the numbered customers the search keeps, in comparator order |
| CustomerTab.LoadedNumbersFollowSrNo | src/components/VendorDashboard/CustomerTab.jsx:87 | after a load a smaller displayed number never has a larger stored serial number |
| Access.Guard | src/components/ProtectedRoute.jsx:8-26 | without a token the visitor goes to the login page; with one the page renders exactly when no roles are required or the role is listed; otherwise an admin goes to /admin, a vendor to /vendor, anyone else to the login page |
| Access.RedirectLandsOnOwnDashboard | src/components/ProtectedRoute.jsx:13-23 | an admin or vendor sent away lands on a page that admits their role |
| Access.MustLeave | src/components/VendorDashboard/VendorDashboard.jsx:118-121 | a dashboard sends the visitor away exactly when there is no token or the role is not its own |
| Access.MountAgreesWithGuard | src/components/AdminDashboard/AdminDashboard.jsx:31-38 | the mount check admits exactly whom the guard admits on a page restricted to that role |
| Language.Split | src/contexts/LanguageContext.jsx:26 | the parts hold no '.', there is at least one, and joining them with '.' gives the key back |
| Language.SplitJoin | src/contexts/LanguageContext.jsx:26 | splitting dot-free parts joined with '.' gives the same parts |
| Language.SplitNoDot | src/contexts/LanguageContext.jsx:26 | a key without a '.' is its own only part |
| Language.SplitPrefix | src/contexts/LanguageContext.jsx:26 | a dot-free head followed by '.' becomes the first part |
| Language.Translate | src/contexts/LanguageContext.jsx:25-38 | the translation is the value the dotted path reaches when that value is present and truthy; the key itself when the path runs into a non-object or ends on a missing or falsy value |
| Language.T | src/contexts/LanguageContext.jsx:25-38 | the loop returns the translation |
| Language.UnknownLanguageGivesKey | src/contexts/LanguageContext.jsx:27 | a language without translations answers every key with the key |
| Language.FoundPathTranslates | src/contexts/LanguageContext.jsx:29-37 | in English or Marathi, a path of fields down to any truthy value translates to that value |
| Language.MissingStepGivesKey | src/contexts/LanguageContext.jsx:29-34 | a path through a missing field or a leaf gives the key |
| Language.Initial | src/contexts/LanguageContext.jsx:14-17 | the saved language when one is saved, "en" otherwise |
| Language.Toggled | src/contexts/LanguageContext.jsx:41-43 | the toggle gives "mr" exactly from "en", and "en" from anything else |
| Language.ToggleTwice | src/contexts/LanguageContext.jsx:41-43 | two toggles return to "en" or "mr", and end on "mr" from any other value |
| Language.LanguageSetting.constructor | src/contexts/LanguageContext.jsx:14-17 | the setting starts at the initial language |
| Language.LanguageSetting.Toggle | src/contexts/LanguageContext.jsx:41-43 | the language becomes the toggled one |
| Language.LanguageSetting.Change | src/contexts/LanguageContext.jsx:46-50 | only "en" and "mr" are accepted; any other value keeps the language |
| VendorDashboard.SectionFor | src/components/VendorDashboard/VendorDashboard.jsx:45-62 | the first of the path checks that holds decides the section, and a path none matches keeps the current one |
| VendorDashboard.Route | src/components/VendorDashboard/VendorDashboard.jsx:79-87 | the table has a route exactly for the seven menu keys |
| VendorDashboard.MenuLandsOnItsSection | src/components/VendorDashboard/VendorDashboard.jsx:75-91 | every menu entry leads to an address that selects its own section |
| VendorDashboard.EditReceiptKeepsSection | src/components/VendorDashboard/VendorDashboard.jsx:45-62 | the receipt editor's address matches no check and keeps the section shown |
| VendorDashboard.NotContains | src/components/VendorDashboard/VendorDashboard.jsx:47-59 | a needle holding a character the text lacks is not found |
| VendorDashboard.MenuClick | src/components/VendorDashboard/VendorDashboard.jsx:75-92 | "logout" logs out, a key of the table navigates to its route, any other key does nothing |
| VendorDashboard.Navigation.constructor | src/components/VendorDashboard/VendorDashboard.jsx:27-29 | the sidebar is expanded, the mobile menu closed, the dashboard shown |
| VendorDashboard.Navigation.ToggleSidebar | src/components/VendorDashboard/VendorDashboard.jsx:65 | only the sidebar flag flips |
| VendorDashboard.Navigation.ToggleMobileMenu | src/components/VendorDashboard/VendorDashboard.jsx:66 | only the mobile menu flag flips |
| VendorDashboard.Navigation.PathChanged | src/components/VendorDashboard/VendorDashboard.jsx:45-62 | the section becomes the one the path selects |
| VendorDashboard.Navigation.HandleMenuClick | src/components/VendorDashboard/VendorDashboard.jsx:75-96 | the click's action is taken and the mobile menu is closed |
| ProfilePage.OrEmpty | src/components/VendorDashboard/components/ProfilePage.jsx:37-41 | a truthy field is kept, a missing one becomes '' |
| ProfilePage.PasswordProblem | src/components/VendorDashboard/components/ProfilePage.jsx:96-119 | the checks run in order (all fields filled, the two new ones equal, at least 6 characters, a token) and the first failure is reported; none exactly when all pass |
| ProfilePage.Profile.constructor | src/components/VendorDashboard/components/ProfilePage.jsx:26-42 | the form starts from the vendor's fields (missing as ''), the password fields empty, no panel, no edit, no messages |
| ProfilePage.Profile.EditClick | src/components/VendorDashboard/components/ProfilePage.jsx:44-55 | with a vendor the form takes its fields and edit mode starts; without one nothing changes |
| ProfilePage.Profile.CancelEdit | src/components/VendorDashboard/components/ProfilePage.jsx:299-303 | edit mode ends; nothing else changes |
| ProfilePage.Profile.ChangeField | src/components/VendorDashboard/components/ProfilePage.jsx:57-60 | only the named form field changes |
| ProfilePage.Profile.ChangePassword | src/components/VendorDashboard/components/ProfilePage.jsx:86-89 | only the named password field changes |
| ProfilePage.Profile.SavePassword | src/components/VendorDashboard/components/ProfilePage.jsx:91-158 | both messages are cleared; a failed check shows its message and sends nothing; a refusal or an error shows its message (or a default) and ends the change; success shows the success message |
| ProfilePage.Profile.ChangeShown | src/components/VendorDashboard/components/ProfilePage.jsx:146-152 | the panel closes, the fields and messages are cleared, the change ends |
| ProfilePage.Profile.OpenPasswordPanel | src/components/VendorDashboard/components/ProfilePage.jsx:397-398 | the panel opens; nothing else changes |
| ProfilePage.Profile.CancelPassword | src/components/VendorDashboard/components/ProfilePage.jsx:500-507 | while a change is being made nothing happens; otherwise the panel closes and the fields and messages are cleared |
| ProfilePage.Profile.SaveProfile | src/components/VendorDashboard/components/ProfilePage.jsx:62-84 | without a token nothing is sent; an accepted update hands the vendor back and leaves edit mode; a failure changes nothing |
| AdminDashboard.WithStatus | src/components/AdminDashboard/AdminDashboard.jsx:79-81 | exactly the vendors with that status, each of them with that status |
| AdminDashboard.WithStatusAppend | src/components/AdminDashboard/AdminDashboard.jsx:79-81 | the vendors with a status keep their order in the list |
| AdminDashboard.StatusListsFit | src/components/AdminDashboard/AdminDashboard.jsx:79-81 | the three status lists together hold no more vendors than the whole list |
| AdminDashboard.FilterVendors | src/components/AdminDashboard/AdminDashboard.jsx:229-231 | exactly the vendors whose business name contains the search, both lower-cased |
| AdminDashboard.FilterVendorsAppend | src/components/AdminDashboard/AdminDashboard.jsx:229-231 | the found vendors keep their order in the list |
| AdminDashboard.EmptySearchListsAll | src/components/AdminDashboard/AdminDashboard.jsx:229-231 | an empty search lists every vendor in order |
| AdminDashboard.SearchIgnoresCase | src/components/AdminDashboard/AdminDashboard.jsx:229-231 | lower-casing the search text finds the same vendors |
| AdminDashboard.SameMatchesSameFilter | src/components/AdminDashboard/AdminDashboard.jsx:229-231 | two search texts equal up to case find the same vendors |
| AdminDashboard.Admin.constructor | src/components/AdminDashboard/AdminDashboard.jsx:42-59 | no vendors, all fields empty, no modal open |
| AdminDashboard.Admin.VendorsLoaded | src/components/AdminDashboard/AdminDashboard.jsx:73-86 | the list and its three status lists are stored; nothing else changes |
| AdminDashboard.Admin.AddVendor | src/components/AdminDashboard/AdminDashboard.jsx:88-117 | with a field empty nothing is sent; an accepted addition clears the six fields; otherwise they stay |
| AdminDashboard.Admin.StartEdit | src/components/AdminDashboard/AdminDashboard.jsx:149-152 | the vendor is being edited and the modal opens |
| AdminDashboard.Admin.SaveEdit | src/components/AdminDashboard/AdminDashboard.jsx:154-176 | the edit is sent exactly when the five profile fields are filled; an accepted one closes the modal |
| AdminDashboard.Admin.StartPasswordChange | src/components/AdminDashboard/AdminDashboard.jsx:178-182 | the password modal opens empty for the vendor |
| AdminDashboard.Admin.SavePassword | src/components/AdminDashboard/AdminDashboard.jsx:184-200 | an empty password sends nothing; an accepted change closes the modal |
| AdminDashboard.Admin.Shown | src/components/AdminDashboard/AdminDashboard.jsx:229-231 | the table shows exactly the listed vendors matching the search |

## Left out

- Server requests (axios and fetch), browser storage, toasts, navigation, `window.confirm`, `window.print` and timers are not performed: what they return, and whether a request that can fail succeeded, are parameters of the operations, and `ProfilePage.Profile.ChangeShown` stands for the two-second timeout after a password change.
- Floating-point rounding, `toFixed` and `Intl` number and date formatting: amounts are exact reals and displayed text is not modelled.
- `Number()` on text in exponent, hexadecimal or `Infinity` form: such text is read as not a number, and so as 0 where the source writes `|| 0`.
- Js.ParseFloat: `parseFloat` reads exponents, but text starting with `Infinity` (after an optional sign) is read as not a number, because amounts are real numbers; JavaScript would give an infinite total.
- Expression.EvaluateExpression: `**` (exponentiation) is refused, so such text evaluates to 0 where JavaScript would compute a power; floating-point overflow to infinity is not modelled either.
- Calendar arithmetic of dayjs and the Marathi date locale: dates are integers and the day, month and weekday come from an abstract calendar.
- JavaScript strings are UTF-16: the model compares and measures characters, and upper- and lower-cases ASCII letters only.
- The browser's order among elements the column comparators of CustomerTab.jsx and ViewReceipts.jsx do not tell apart: those comparators answer -1 both ways on equal keys (`Ordering.ComparatorNeverTies`), so JavaScript leaves that order to the engine. The model fixes one: `SortBy` keeps equal keys in input order (`Ordering.SortByIsStable`), while the ascending text sort reverses the descending one, so there equal keys come out in reverse input order.
- CSV, Excel and PDF exports, screenshots and sharing (ReceiptForm.jsx 842-967, Report.jsx 971-1021, CustomerTab.jsx 322-345, ViewReceipts.jsx 574-599, AdminDashboard.jsx 205-227): they only format and hand data to browser libraries.
- The debounce of the report's search box: only its settled value is modelled.
- Balances and receipt amounts that are not numbers are read as 0; JavaScript's `+` would join them as text.
- ReceiptPrint.PanLabel: the type error thrown on a truthy non-text row type is not modelled.
- The top-five list by absolute balance inside the report's rendering (Report.jsx line 1443, an in-place `sort` of the customer array) is not modelled; the top-ten lists are.
- VendorDashboard.EditReceiptKeepsSection: proved only for numeric receipt ids, not for every id the server may issue.
- Arrays in the translation files are read only for their truthiness, as leaves.
- Approving, rejecting and deleting a vendor on the admin dashboard: each is one server request followed by a fresh `VendorsLoaded`.
- Loading, saving and creating flags are modelled only where they decide what a button does.
- React's effect ordering and refs (the previous serial number, the editing flag, and the payment write-back effects of ReceiptForm.jsx 740-761): carrying a balance forward is an explicit call.
- Presentational files (ReportCharts, DashboardWidgets, StatsCards, QuickActions, DashboardOverview, SidebarNav, MobileHeader, LoadingSpinner, LanguageToggle, App.jsx, Login.jsx, formatters.js, constants.js) are not part of this model.
- Showing or hiding the financial summary and switching view modes change only what is displayed.
- The sort of the customer list fetched by the quick-entry tab is not modelled; the tab looks customers up by id (ShortcutTab.jsx 441 and 531), so their order does not change what is saved.
- ReceiptForm.MarathiDay, VendorDashboard.Route and Language.Translate: keys a JavaScript object inherits (`constructor`, `toString` and the like) count as absent, because the model's tables hold only their own entries; in JavaScript `dayMap["constructor"]` is a function and would be returned as the day.
- ReceiptEditor.Editor.Save: a reload that fails after an accepted save is not modelled; `fetchReceipts` catches its own error, so the source would keep the old list and still clear the form, while the model always loads `fetched`.
- ViewReceipts.ReceiptsView.Displayed: the screen is sorted with the corrected comparator, which orders serial numbers as numbers; the source compares them as lower-cased text (ViewReceipts.jsx 548-554, see "## Findings"), so ascending it shows customer 10 before customer 9.
- Row multipliers are a number or missing: a stored `null` multiplier (present for `multiplier !== undefined`, read as 0 by `Number`) and a stored non-numeric one (NaN in the totals) are not represented. A typed multiplier goes through `Number(value) || 0` (ReceiptForm.jsx 594), which the model follows.
- ShortcutTab.BatchRecords: one clock reading `now` serves every record of a batch and every row id; the source reads `Date.now()` and `new Date()` again for each record (ShortcutTab.jsx 447 and 466, and 544 for a single save), so its ids and dates can differ by the time the earlier posts took.
- ShortcutTab saving an entry for a customer not in the list throws in the source; the model returns `UnknownCustomer` and posts nothing.

## Findings

| source | as written | input that shows it | evidently intended | confidence | as-written member | corrected member |
|---|---|---|---|---|---|---|
| src/components/VendorDashboard/ReceiptForm.jsx:445-446 | on equal dates the comparator tests `b._id > a._id` and then `a._id < b._id`, the same condition, so it never returns -1 | two receipts of one date with ids "1" and "2": one order gives 1, the other 0 | the larger id first, with -1 when `a._id > b._id` | not executed | CarryOver.AsWrittenIsInconsistent | CarryOver.CompareNewestConsistent |
| src/components/VendorDashboard/ReceiptForm.jsx:224-225 | the same comparator, used to pick the day's latest open/close values: on equal dates it tests `b._id > a._id` and then `a._id < b._id`, the same condition, so it never returns -1; `CarryOver.LatestOpenClose` takes the newest of the day by the corrected order | two receipts of one date with ids "1" and "2": one order gives 1, the other 0 | the larger id first, with -1 when `a._id > b._id` | not executed | CarryOver.AsWrittenIsInconsistent | CarryOver.Newest |
| src/components/VendorDashboard/ViewReceipts.jsx:548-554 | the serial number falls into the text branch and is compared as lower-cased text | customers 9 and 10 sorted ascending: "10" comes before "9" | serial numbers compared as numbers, 9 before 10 | not executed | ViewReceipts.SrNoSortsAsText | ViewReceipts.SortEnriched |
