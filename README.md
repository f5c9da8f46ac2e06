# Accounting dashboard: journal-entry rules in Dafny

This project models the logic of a small accounting dashboard that can be checked:

- **The journal-entry form** (`JournalEntryForm`, file `journal_entry_form.dfy`). The form holds a
  list of lines. Each line has an account id, an account name, a side ("debit" or "credit") and
  the amount string the user typed. The class `EntryForm` has these fields and the methods that
  edit them: add a line, remove a line (never below two lines), and update one field of a line.
  Choosing an account also sets the line's account name from the hard-coded account catalogue.
  The debit and credit totals, the balance rule and the error table are functions. `Validate`
  and `Submit` build the error table the way the form does: the form-wide checks first, then a
  per-line loop.
- **The journal-entry POST rule** (`JournalApi`, file `journal_api.dfy`). The entry table is a
  `seq<Entry>` held by the class `JournalStore`. Each entry has an account id, an optional debit
  and an optional credit. `Post` rejects a request that has no account, or that has neither a
  debit nor a credit. It then totals the debits and credits already recorded for that account.
  It refuses a positive debit that would take the account's cumulative debits above its
  cumulative credits. Otherwise it appends the request body. The invariant proved is
  *solvency*: for every account, total debits do not exceed total credits. An accepted request
  keeps it only when the request's credit is not negative. The route accepts a request whose
  only amount is a negative credit, and such a request breaks solvency
  (`NegativeCreditBreaksSolvency`).
- **The account form** (`AccountForm`, file `account_form.dfy`). It prefills the name and type
  when an account is being edited. Its validator records a `name` error for a blank name and a
  `type` error for a missing type. The name input stores what is typed, and the type selector
  stores one of five fixed type names.
- `Text` (file `text.dfy`) models JavaScript's `trim` and its whitespace set. `Wrappers` holds
  `Option`.

Amounts are exact `real`s, not floating point. `Number.parseFloat` is passed in as a function
`Parser = string -> Option<real>`, where `None` plays the role of NaN. Lemmas that depend on how
the empty string parses state that as a precondition (`parse("") == None`, as `parseFloat("")`
is NaN). In the POST model, an account id is its text, and the empty string is the falsy id. A
debit or credit is `None` (absent) or a number, and `Some(0)` is falsy just as 0 is.

A double-entry ledger usually requires the debits of one multi-line entry to equal its credits.
The route does not check that. It stores one single-account entry at a time and checks that
account's cumulative debits against its cumulative credits. The model follows the route.

The form's amount check (`!line.amount || parseFloat(line.amount) <= 0`) does not reject a
non-empty amount that fails to parse, because NaN is not `<= 0`. The model keeps that behaviour
and proves both sides of it:

- `UnparsedLineStillAccepted`: such a line passes validation.
- `AcceptedAmountsPositive`: every validated line has a positive amount, provided amounts come
  from a number input. A number input only yields "" or numeric text.

## Model

| member | source | states |
|---|---|---|
| `JournalEntryForm.EntryForm.constructor` | src/components/journal-entry-form.tsx:33-41 | the initial form has an empty description, an empty error table and exactly two lines: an empty debit line, then an empty credit line |
| `JournalEntryForm.InitialLinesUnbalanced` | src/components/journal-entry-form.tsx:33-40 | both totals of the initial two lines are 0, so the initial form is not balanced |
| `JournalEntryForm.EntryForm.AddLine` | src/components/journal-entry-form.tsx:43-48 | appends one empty debit line; the existing lines are unchanged and the form keeps at least two lines |
| `JournalEntryForm.AddedLineKeepsTotals` | src/components/journal-entry-form.tsx:43-48 | appending the empty line (amount "", NaN) leaves both totals unchanged |
| `JournalEntryForm.EntryForm.RemoveLine` | src/components/journal-entry-form.tsx:50-55 | with more than two lines, exactly the line at `index` is removed and the rest keep their order; with two lines, or an index out of range, nothing changes; at least two lines always remain |
| `JournalEntryForm.DropIndexSplices` | src/components/journal-entry-form.tsx:52 | filtering by `i !== index` equals `s[..index] + s[index+1..]` for an index in range, and `s` otherwise |
| `JournalEntryForm.DropIndexLength` | src/components/journal-entry-form.tsx:50-55 | the filter removes one line for an index in range and none otherwise |
| `JournalEntryForm.SideTotalDrop` | src/components/journal-entry-form.tsx:50-55 | removing a line takes exactly that line's contribution out of each total |
| `JournalEntryForm.EntryForm.UpdateLine` | src/components/journal-entry-form.tsx:57-68 | only line `index` changes, to the line with the one field set (and the account name refreshed when the account id is set); the length and every other line stay the same |
| `JournalEntryForm.FindAccount` | src/components/journal-entry-form.tsx:63 | `find` returns the first catalogue account whose id equals the value, and `None` exactly when no account has that id |
| `JournalEntryForm.NameForMatches` | src/components/journal-entry-form.tsx:62-65 | setting the account id sets the name to the first matching account's name, or to "" when no account matches |
| `JournalEntryForm.AccountEditKeepsTotals` | src/components/journal-entry-form.tsx:57-80 | editing a line's account id or name never changes either total |
| `JournalEntryForm.SideTotalReplace` | src/components/journal-entry-form.tsx:57-80 | replacing one line changes a total by exactly the new line's contribution minus the old one's |
| `JournalEntryForm.TotalDebit` | src/components/journal-entry-form.tsx:70-74 | a positive debit total implies a debit line whose amount parses to a positive number |
| `JournalEntryForm.TotalCredit` | src/components/journal-entry-form.tsx:76-80 | a positive credit total implies a credit line whose amount parses to a positive number |
| `JournalEntryForm.SideTotalAppend` | src/components/journal-entry-form.tsx:70-80 | the side total, which sums parsed amounts (NaN counts as 0) over lines of that side only, is additive over concatenation |
| `JournalEntryForm.PositiveTotalHasPositiveLine` | src/components/journal-entry-form.tsx:70-80 | a positive side total requires a line of that side whose amount parses to a positive number |
| `JournalEntryForm.IsBalanced` | src/components/journal-entry-form.tsx:82-108 | a balanced form (both totals positive and equal) has a positive debit line and a positive credit line; so whenever the "one debit and one credit" check fails, `isBalanced` is false too |
| `JournalEntryForm.HeaderAsWritten` | src/components/journal-entry-form.tsx:91-108 | the form-wide entries written in source order, where the totals message overwrites the "one debit and one credit" message, equal the declared table whenever balance implies both sides |
| `JournalEntryForm.BalanceErrorIffUnbalanced` | src/components/journal-entry-form.tsx:102-108 | the `balance` entry is present exactly when the form is not balanced, and its message is always "Total debits must equal total credits" |
| `JournalEntryForm.CollectLineErrors` | src/components/journal-entry-form.tsx:110-117 | the per-line loop adds an `account` entry for each line without an account and an `amount` entry for each line whose amount is empty or parses to a number <= 0 |
| `JournalEntryForm.LineErrorsExtend` | src/components/journal-entry-form.tsx:110-117 | the per-line table of one more line adds exactly that line's two possible entries |
| `JournalEntryForm.ValidIffAcceptable` | src/components/journal-entry-form.tsx:88-121 | the error table is empty iff the description is non-blank, there are at least two lines, the form is balanced, and every line has an account and an amount that is neither empty nor parsed to a number <= 0 |
| `JournalEntryForm.EntryForm.Validate` | src/components/journal-entry-form.tsx:88-121 | `errors` becomes the full error table, and the result is true iff the table is empty, iff every rule holds |
| `JournalEntryForm.AcceptedAmountsPositive` | src/components/journal-entry-form.tsx:110-120 | when amounts come from a number input, a validated form has an account and a positive parsed amount on every line, and equal positive totals |
| `JournalEntryForm.UnparsedLineStillAccepted` | src/components/journal-entry-form.tsx:114-116 | as written, a line with an account and a non-empty amount that parses to NaN does not stop an otherwise valid form from validating |
| `JournalEntryForm.Posted` | src/components/journal-entry-form.tsx:126-132 | the posted lines are the form's lines, same count and order, each with the same account id, name and side, and its amount replaced by the parsed value |
| `JournalEntryForm.EntryForm.Submit` | src/components/journal-entry-form.tsx:123-135 | an entry is handed over iff validation succeeds; it carries the same date, description and lines, with each amount replaced by its parsed value |
| `JournalApi.Decide` | src/app/api/journal-entries/route.ts:40-69 | an accepted request is created as sent, has a non-empty account id and a non-zero debit or credit, and a positive debit in it does not take the account's debits above its credits |
| `JournalApi.Apply` | src/app/api/journal-entries/route.ts:66-69 | the table is append-only: the old entries stay as they were, and it grows by one entry, the body, exactly when the request is accepted |
| `JournalApi.MissingFieldsIff` | src/app/api/journal-entries/route.ts:40-45 | the request is rejected for missing fields exactly when the account id is falsy, or the debit and the credit are both absent or 0 |
| `JournalApi.ForAccount` | src/app/api/journal-entries/route.ts:48-52 | the existing entries fetched are entries of the table with the request's account id, and every such entry is among them |
| `JournalApi.ForAccountCounts` | src/app/api/journal-entries/route.ts:48-54 | every entry of the account occurs in the selection as many times as in the table, so equal entries each count in the totals; no entry of another account occurs |
| `JournalApi.ForAccountAppend` | src/app/api/journal-entries/route.ts:48-52 | the per-account selection of a table with one more entry is the old selection, plus that entry when it belongs to the account |
| `JournalApi.TotalsAppend` | src/app/api/journal-entries/route.ts:53-54 | the account's debit and credit totals (a missing value counts as 0) grow by exactly the appended entry's debit and credit when it belongs to the account |
| `JournalApi.OtherAccountsUnchanged` | src/app/api/journal-entries/route.ts:48-54 | an entry of one account leaves the totals of every other account unchanged |
| `JournalApi.InsufficientCreditIff` | src/app/api/journal-entries/route.ts:57-64 | once the fields are present, the request is refused for insufficient credit exactly when its debit is positive and existing debits plus that debit exceed existing credits |
| `JournalApi.NonPositiveDebitNeverInsufficient` | src/app/api/journal-entries/route.ts:57 | a request whose debit is absent or <= 0 is never refused by the credit rule |
| `JournalApi.CreatedIsBody` | src/app/api/journal-entries/route.ts:66-74 | an accepted request is created equal to its body with status 201; every refusal has status 400 |
| `JournalApi.JournalStore.constructor` | src/app/api/journal-entries/route.ts:36-74 | the entry table starts empty, which is solvent and holds no negative amount |
| `JournalApi.EmptySolvent` | src/app/api/journal-entries/route.ts:53-64 | the empty table is solvent and holds no negative amount: the base case of the store's invariant |
| `JournalApi.JournalStore.Post` | src/app/api/journal-entries/route.ts:36-74 | the response is the decision on the old table; on acceptance exactly the body is appended, on refusal the table is unchanged; solvency is kept when the credit is not negative |
| `JournalApi.PostPreservesSolvency` | src/app/api/journal-entries/route.ts:53-69 | if every account has total debits <= total credits and the request's credit is not negative, the same holds for every account after the request |
| `JournalApi.PostPreservesLedgerInvariant` | src/app/api/journal-entries/route.ts:53-69 | with non-negative amounts stored and requested, both solvency and non-negativity of the table survive every request |
| `JournalApi.NegativeCreditBreaksSolvency` | src/app/api/journal-entries/route.ts:40-69 | a request carrying only a negative credit is accepted, and it leaves a balanced account with more debits than credits |
| `AccountForm.AccountEditor.constructor` | src/components/account-form.tsx:16-20 | the form starts with an empty name, an empty type and no errors |
| `AccountForm.AccountEditor.Prefill` | src/components/account-form.tsx:22-29 | when an account is supplied, the form's name and type become that account's name and type; otherwise the form is unchanged |
| `AccountForm.AccountErrors` | src/components/account-form.tsx:31-41 | the table has a `name` entry exactly when the name is blank after trimming, and a `type` entry exactly when no type is chosen, each with its message |
| `AccountForm.AccountValidIff` | src/components/account-form.tsx:31-44 | the table is empty iff the name has a non-whitespace character and a type is chosen |
| `AccountForm.AccountEditor.SetName` | src/components/account-form.tsx:60 | typing in the name input sets the name to the typed text and keeps the type |
| `AccountForm.AccountEditor.SelectType` | src/components/account-form.tsx:69-79 | choosing a selector item sets the type to its value and keeps the name; the stored type then names an account type, so no `type` error can follow |
| `AccountForm.AccountEditor.Validate` | src/components/account-form.tsx:31-44 | `errors` becomes that table, and the result is true iff neither error was recorded |
| `AccountForm.AccountEditor.Submit` | src/components/account-form.tsx:46-51 | the form data is handed over unchanged, and only when validation succeeds |
| `AccountForm.TypeFromName` | src/components/account-form.tsx:74-78 | a selector value read back as a type has that type's name |
| `AccountForm.SelectableTypesExact` | src/components/account-form.tsx:74-78 | the selector offers exactly Asset, Liability, Equity, Revenue and Expense, each once, and each reads back as its own type |
| `Text.TrimStart` | src/components/account-form.tsx:34 | leading trim yields the suffix of the string that starts at its first non-whitespace character |
| `Text.TrimEnd` | src/components/account-form.tsx:34 | trailing trim yields the prefix of the string that ends at its last non-whitespace character |
| `Text.BlankIffAllWhitespace` | src/components/journal-entry-form.tsx:91 | `!s.trim()` holds exactly when every character of `s` is whitespace |

## Left out

- Rendering, CSS classes, the select, input and alert widgets, and the submit button's
  `disabled` binding are left out. That binding only mirrors `isBalanced`. The `onChange`
  handlers for date and description are plain field assignments on `EntryForm`.
- The source's `Number.parseFloat` string parsing and JavaScript floating-point arithmetic are
  not modelled. Amounts are exact reals. The parser is a parameter. `Infinity` is not modelled.
- Currency formatting with `toLocaleString` is left out because it is display only.
- The GET handlers, the accounts routes (create, read, update, delete) and the Prisma/HTTP
  plumbing are left out. The entry table is an in-memory sequence.
- The 500 branches are left out. They only wrap foreign exceptions.
- The read-then-create race in the POST handler is left out. Each `Post` runs atomically in the
  model.
- Request bodies are taken to be JSON numbers for debit and credit. String amounts, which
  JavaScript would concatenate, are not modelled. Body fields other than account id, debit and
  credit are not part of `Entry`.
- The dashboard page, the sidebar, and the list pages with their mock data are not part of this
  model.
- Per-entry balancing (debits equal credits within one entry) is not modelled, because the
  route does not check it. The account routes create, update and delete accounts with bare
  database calls, with no unique-name check and no check that a deleted account is unused;
  they are not part of this model.
- `JournalApi.ForAccount`: its contract states membership both ways, and `ForAccountCounts`
  states multiplicity, but neither states that table order is kept. Order is only used through
  `ForAccountAppend`, which is proved from the definition.
- The form's date comes from the clock (`new Date().toISOString().split("T")[0]`). The model
  takes that date as the `today` parameter of the `EntryForm` constructor.
- `JournalEntryForm.EntryForm.UpdateLine`: requires `index < |lines|`. Its only caller passes
  the index of a rendered row.
