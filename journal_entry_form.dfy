/**
 * The journal-entry form: a list of lines edited by the user, the running debit and
 * credit totals, the balance rule, and the validator that fills a per-field error table
 * before the entry is handed to the caller.
 *
 * Amounts are kept as the strings the user typed. `Number.parseFloat` is a parameter of
 * type `Parser`; `None` plays the role of NaN.
 */
module JournalEntryForm {
  import opened Wrappers
  import opened Text

  /** `Number.parseFloat`, with `None` for NaN. */
  type Parser = string -> Option<real>

  /** One row of the form; `kind` is the `type` field, "debit" or "credit". */
  datatype Line = Line(accountId: string, accountName: string, kind: string, amount: string)

  /** The field names `updateLine` is called with. */
  datatype LineField = AccountIdField | AccountNameField | KindField | AmountField

  /** Keys of the error table: `description`, `lines`, `balance`, `line_<i>_account`, `line_<i>_amount`. */
  datatype ErrorKey =
    | DescriptionKey
    | LinesKey
    | BalanceKey
    | LineAccountKey(index: nat)
    | LineAmountKey(index: nat)

  /** An entry of the account catalogue; `id` is the text of the numeric id (`acc.id.toString()`). */
  datatype CatalogAccount = CatalogAccount(id: string, name: string, kind: string)

  /** A line as handed to `onSubmit`: the amount has been run through the parser. */
  datatype PostedLine = PostedLine(accountId: string, accountName: string, kind: string, amount: Option<real>)

  datatype Submission = Submission(date: string, description: string, lines: seq<PostedLine>)

  const Debit: string := "debit"
  const Credit: string := "credit"

  const EmptyDebitLine: Line := Line("", "", Debit, "")
  const EmptyCreditLine: Line := Line("", "", Credit, "")

  const DescriptionRequired: string := "Description is required"
  const LinesRequired: string := "At least 2 lines are required"
  const BothSidesRequired: string := "Must have at least one debit and one credit entry"
  const TotalsMustMatch: string := "Total debits must equal total credits"
  const AccountRequired: string := "Account is required"
  const AmountMustBePositive: string := "Amount must be greater than 0"

  /** The hard-coded account list the account selector offers. */
  const MockAccounts: seq<CatalogAccount> := [
    CatalogAccount("1", "Cash in Hand", "Asset"),
    CatalogAccount("2", "Bank Account", "Asset"),
    CatalogAccount("3", "Accounts Receivable", "Asset"),
    CatalogAccount("4", "Office Equipment", "Asset"),
    CatalogAccount("5", "Accounts Payable", "Liability"),
    CatalogAccount("6", "Bank Loan", "Liability"),
    CatalogAccount("7", "Owner Equity", "Equity"),
    CatalogAccount("8", "Sales Revenue", "Revenue"),
    CatalogAccount("9", "Office Rent", "Expense"),
    CatalogAccount("10", "Utilities", "Expense")
  ]

  // ---------------------------------------------------------------------------
  // Account lookup

  /** `accounts.find(acc => acc.id.toString() === id)`: the first account with that id, if any. */
  function FindAccount(accounts: seq<CatalogAccount>, id: string): (r: Option<CatalogAccount>)
    ensures r.None? <==> forall i :: 0 <= i < |accounts| ==> accounts[i].id != id
    ensures r.Some? ==> exists i :: 0 <= i < |accounts| && accounts[i] == r.value && r.value.id == id
                                    && forall j :: 0 <= j < i ==> accounts[j].id != id
  {
    if accounts == [] then None
    else if accounts[0].id == id then Some(accounts[0])
    else
      var r := FindAccount(accounts[1..], id);
      assert r.Some? ==> exists i :: 0 <= i < |accounts| && accounts[i] == r.value && r.value.id == id
                                     && forall j :: 0 <= j < i ==> accounts[j].id != id by {
        if r.Some? {
          var i :| 0 <= i < |accounts[1..]| && accounts[1..][i] == r.value && r.value.id == id
                   && forall j :: 0 <= j < i ==> accounts[1..][j].id != id;
          assert forall j :: 0 <= j < i + 1 ==> accounts[j].id != id by {
            forall j | 0 <= j < i + 1 ensures accounts[j].id != id {
              if j > 0 { assert accounts[j] == accounts[1..][j - 1]; }
            }
          }
        }
      }
      r
  }

  /** The name of the first account in `accounts` with this id, or "" when no account matches. */
  function NameFor(accounts: seq<CatalogAccount>, id: string): string {
    match FindAccount(accounts, id)
    case Some(account) => account.name
    case None => ""
  }

  /** The name stored with a line when its account id is set. */
  function AccountNameFor(id: string): string {
    NameFor(MockAccounts, id)
  }

  /** The stored name is that of the first catalogue account with the chosen id, and "" when there is none. */
  lemma NameForMatches(accounts: seq<CatalogAccount>, id: string)
    ensures (forall i :: 0 <= i < |accounts| ==> accounts[i].id != id) ==> NameFor(accounts, id) == ""
    ensures forall i :: 0 <= i < |accounts| && accounts[i].id == id && (forall j :: 0 <= j < i ==> accounts[j].id != id)
                        ==> NameFor(accounts, id) == accounts[i].name
  {
    var r := FindAccount(accounts, id);
    if r.Some? {
      var k :| 0 <= k < |accounts| && accounts[k] == r.value && r.value.id == id
               && forall j :: 0 <= j < k ==> accounts[j].id != id;
      forall i | 0 <= i < |accounts| && accounts[i].id == id && (forall j :: 0 <= j < i ==> accounts[j].id != id)
        ensures NameFor(accounts, id) == accounts[i].name
      {
        if i != k {
          assert false;
        }
      }
    }
  }

  // ---------------------------------------------------------------------------
  // Editing the list of lines

  /** `{ ...line, [field]: value }` */
  function SetField(line: Line, field: LineField, value: string): Line {
    match field
    case AccountIdField => line.(accountId := value)
    case AccountNameField => line.(accountName := value)
    case KindField => line.(kind := value)
    case AmountField => line.(amount := value)
  }

  /** The line `updateLine` stores: the field is set, and choosing an account also refreshes its name. */
  function EditedLine(line: Line, field: LineField, value: string): Line {
    var l := SetField(line, field, value);
    if field == AccountIdField then l.(accountName := AccountNameFor(value)) else l
  }

  /** `s.filter((_, i) => i !== index)`, folded from the left. */
  function DropIndex<T>(s: seq<T>, index: int): seq<T>
    decreases |s|
  {
    if s == [] then []
    else DropIndex(s[..|s| - 1], index) + (if |s| - 1 == index then [] else [s[|s| - 1]])
  }

  /** Filtering out one position removes exactly that element and keeps the rest in order; an index out of range removes nothing. */
  lemma {:induction false} DropIndexSplices<T>(s: seq<T>, index: int)
    ensures 0 <= index < |s| ==> DropIndex(s, index) == s[..index] + s[index + 1..]
    ensures !(0 <= index < |s|) ==> DropIndex(s, index) == s
    decreases |s|
  {
    if s != [] {
      var n := |s|;
      var p := s[..n - 1];
      DropIndexSplices(p, index);
      if index == n - 1 {
        assert s[index + 1..] == [];
      } else if 0 <= index < n - 1 {
        assert p[..index] == s[..index];
        assert p[index + 1..] + [s[n - 1]] == s[index + 1..];
      } else {
        assert p + [s[n - 1]] == s;
      }
    }
  }

  /** Removing a line never leaves fewer than `|s| - 1` lines. */
  lemma DropIndexLength<T>(s: seq<T>, index: int)
    ensures |DropIndex(s, index)| == if 0 <= index < |s| then |s| - 1 else |s|
  {
    DropIndexSplices(s, index);
  }

  // ---------------------------------------------------------------------------
  // Totals and balance

  /** `Number.parseFloat(amount) || 0`: a NaN counts as 0. */
  function AmountOrZero(parse: Parser, amount: string): real {
    match parse(amount)
    case Some(v) => v
    case None => 0.0
  }

  /** What one line adds to the total of side `kind`. */
  function Contribution(line: Line, kind: string, parse: Parser): real {
    if line.kind == kind then AmountOrZero(parse, line.amount) else 0.0
  }

  /** `lines.filter(l => l.type === kind).reduce((sum, l) => sum + (parseFloat(l.amount) || 0), 0)` */
  function SideTotal(lines: seq<Line>, kind: string, parse: Parser): real
    decreases |lines|
  {
    if lines == [] then 0.0
    else SideTotal(lines[..|lines| - 1], kind, parse) + Contribution(lines[|lines| - 1], kind, parse)
  }

  /** `getTotalDebit()`; a positive debit total needs a debit line with a positive amount. */
  function TotalDebit(lines: seq<Line>, parse: Parser): (r: real)
    ensures r > 0.0 ==> HasPositive(lines, Debit, parse)
  {
    var t := SideTotal(lines, Debit, parse);
    if t > 0.0 then PositiveTotalHasPositiveLine(lines, Debit, parse); t else t
  }

  /** `getTotalCredit()`; a positive credit total needs a credit line with a positive amount. */
  function TotalCredit(lines: seq<Line>, parse: Parser): (r: real)
    ensures r > 0.0 ==> HasPositive(lines, Credit, parse)
  {
    var t := SideTotal(lines, Credit, parse);
    if t > 0.0 then PositiveTotalHasPositiveLine(lines, Credit, parse); t else t
  }

  /**
   * `isBalanced()`: both totals positive and equal. A balanced form has a positive debit line
   * and a positive credit line, so the "one debit and one credit" check of `validateForm` never
   * fails on its own: whenever it fails, the balance check fails too.
   */
  function IsBalanced(lines: seq<Line>, parse: Parser): (b: bool)
    ensures b ==> HasPositive(lines, Debit, parse) && HasPositive(lines, Credit, parse)
  {
    TotalDebit(lines, parse) > 0.0 && TotalCredit(lines, parse) > 0.0 && TotalDebit(lines, parse) == TotalCredit(lines, parse)
  }

  /** `Number.parseFloat(amount) > 0` (false for NaN). */
  predicate PositiveAmount(parse: Parser, amount: string) {
    parse(amount).Some? && parse(amount).value > 0.0
  }

  /** `lines.some(l => l.type === kind && Number.parseFloat(l.amount) > 0)` */
  predicate HasPositive(lines: seq<Line>, kind: string, parse: Parser) {
    exists i :: 0 <= i < |lines| && lines[i].kind == kind && PositiveAmount(parse, lines[i].amount)
  }

  /** A side total is additive over concatenation of line lists. */
  lemma {:induction false} SideTotalAppend(xs: seq<Line>, ys: seq<Line>, kind: string, parse: Parser)
    ensures SideTotal(xs + ys, kind, parse) == SideTotal(xs, kind, parse) + SideTotal(ys, kind, parse)
    decreases |ys|
  {
    if ys == [] {
      assert xs + ys == xs;
    } else {
      var ys' := ys[..|ys| - 1];
      assert (xs + ys)[..|xs + ys| - 1] == xs + ys';
      SideTotalAppend(xs, ys', kind, parse);
    }
  }

  /** The total of a one-line list is that line's contribution. */
  lemma SideTotalSingle(line: Line, kind: string, parse: Parser)
    ensures SideTotal([line], kind, parse) == Contribution(line, kind, parse)
  {
    assert [line][..0] == [];
  }

  /** Replacing line `i` changes a side total by exactly the difference of the two lines' contributions. */
  lemma SideTotalReplace(lines: seq<Line>, i: nat, line: Line, kind: string, parse: Parser)
    requires i < |lines|
    ensures SideTotal(lines[i := line], kind, parse)
            == SideTotal(lines, kind, parse) - Contribution(lines[i], kind, parse) + Contribution(line, kind, parse)
  {
    var pre, post := lines[..i], lines[i + 1..];
    assert lines == pre + [lines[i]] + post;
    assert lines[i := line] == pre + [line] + post;
    SideTotalAppend(pre + [lines[i]], post, kind, parse);
    SideTotalAppend(pre, [lines[i]], kind, parse);
    SideTotalAppend(pre + [line], post, kind, parse);
    SideTotalAppend(pre, [line], kind, parse);
    SideTotalSingle(lines[i], kind, parse);
    SideTotalSingle(line, kind, parse);
  }

  /** Removing line `i` takes exactly that line's contribution out of a side total. */
  lemma SideTotalDrop(lines: seq<Line>, i: nat, kind: string, parse: Parser)
    requires i < |lines|
    ensures SideTotal(DropIndex(lines, i), kind, parse) == SideTotal(lines, kind, parse) - Contribution(lines[i], kind, parse)
  {
    DropIndexSplices(lines, i);
    var pre, post := lines[..i], lines[i + 1..];
    assert lines == pre + [lines[i]] + post;
    SideTotalAppend(pre + [lines[i]], post, kind, parse);
    SideTotalAppend(pre, [lines[i]], kind, parse);
    SideTotalAppend(pre, post, kind, parse);
    SideTotalSingle(lines[i], kind, parse);
  }

  /** An appended empty line (amount "", which parses to NaN) leaves both totals as they were. */
  lemma AddedLineKeepsTotals(lines: seq<Line>, kind: string, parse: Parser)
    requires parse("") == None
    ensures SideTotal(lines + [EmptyDebitLine], kind, parse) == SideTotal(lines, kind, parse)
  {
    assert (lines + [EmptyDebitLine])[..|lines|] == lines;
  }

  /** Editing a line's account id or name never changes a total. */
  lemma AccountEditKeepsTotals(lines: seq<Line>, i: nat, field: LineField, value: string, kind: string, parse: Parser)
    requires i < |lines|
    requires field == AccountIdField || field == AccountNameField
    ensures SideTotal(lines[i := EditedLine(lines[i], field, value)], kind, parse) == SideTotal(lines, kind, parse)
  {
    SideTotalReplace(lines, i, EditedLine(lines[i], field, value), kind, parse);
  }

  /** A positive side total needs a line of that side whose amount parses to a positive number. */
  lemma {:induction false} PositiveTotalHasPositiveLine(lines: seq<Line>, kind: string, parse: Parser)
    requires SideTotal(lines, kind, parse) > 0.0
    ensures HasPositive(lines, kind, parse)
    decreases |lines|
  {
    var n := |lines|;
    var last := lines[n - 1];
    if Contribution(last, kind, parse) > 0.0 {
      assert lines[n - 1].kind == kind && PositiveAmount(parse, lines[n - 1].amount);
    } else {
      var p := lines[..n - 1];
      PositiveTotalHasPositiveLine(p, kind, parse);
      var i :| 0 <= i < |p| && p[i].kind == kind && PositiveAmount(parse, p[i].amount);
      assert lines[i] == p[i];
    }
  }

  /** The initial form (one empty debit line, one empty credit line) is not balanced. */
  lemma InitialLinesUnbalanced(parse: Parser)
    requires parse("") == None
    ensures TotalDebit([EmptyDebitLine, EmptyCreditLine], parse) == 0.0
    ensures TotalCredit([EmptyDebitLine, EmptyCreditLine], parse) == 0.0
    ensures !IsBalanced([EmptyDebitLine, EmptyCreditLine], parse)
  {
    var lines := [EmptyDebitLine, EmptyCreditLine];
    assert lines == [EmptyDebitLine] + [EmptyCreditLine];
    assert AmountOrZero(parse, "") == 0.0;
    SideTotalAppend([EmptyDebitLine], [EmptyCreditLine], Debit, parse);
    SideTotalAppend([EmptyDebitLine], [EmptyCreditLine], Credit, parse);
    SideTotalSingle(EmptyDebitLine, Debit, parse);
    SideTotalSingle(EmptyCreditLine, Debit, parse);
    SideTotalSingle(EmptyDebitLine, Credit, parse);
    SideTotalSingle(EmptyCreditLine, Credit, parse);
  }

  // ---------------------------------------------------------------------------
  // The error table

  /** `!amount || Number.parseFloat(amount) <= 0` (a NaN is not `<= 0`). */
  predicate AmountRejected(parse: Parser, amount: string) {
    amount == "" || (parse(amount).Some? && parse(amount).value <= 0.0)
  }

  /** Whether the rule behind a per-line key is broken. */
  predicate LineFault(lines: seq<Line>, parse: Parser, k: ErrorKey) {
    match k
    case LineAccountKey(i) => i < |lines| && lines[i].accountId == ""
    case LineAmountKey(i) => i < |lines| && AmountRejected(parse, lines[i].amount)
    case _ => false
  }

  /** The message shown under a per-line key. */
  function LineMessage(k: ErrorKey): string {
    if k.LineAccountKey? then AccountRequired else AmountMustBePositive
  }

  /** The per-line keys a list of `n` lines can report. */
  function LineKeys(n: nat): set<ErrorKey> {
    (set i: nat | i < n :: LineAccountKey(i)) + (set i: nat | i < n :: LineAmountKey(i))
  }

  /** The per-line part of the table: one entry per broken line rule. */
  function LineErrors(lines: seq<Line>, parse: Parser): map<ErrorKey, string> {
    map k | k in LineKeys(|lines|) && LineFault(lines, parse, k) :: LineMessage(k)
  }

  /** The form-wide part of the table: description, line count and balance, each present when its rule is broken. */
  function HeaderErrors(blank: bool, tooFew: bool, balanced: bool): map<ErrorKey, string> {
    var m := if blank then map[DescriptionKey := DescriptionRequired] else map[];
    var m' := if tooFew then m[LinesKey := LinesRequired] else m;
    if balanced then m' else m'[BalanceKey := TotalsMustMatch]
  }

  /** The error table: every broken rule under its key, with its message. */
  function FormErrors(description: string, lines: seq<Line>, parse: Parser): map<ErrorKey, string> {
    HeaderErrors(IsBlank(description), |lines| < 2, IsBalanced(lines, parse)) + LineErrors(lines, parse)
  }

  /** What a submitted entry must satisfy, rule by rule. */
  predicate EntryAcceptable(description: string, lines: seq<Line>, parse: Parser) {
    && !IsBlank(description)
    && |lines| >= 2
    && IsBalanced(lines, parse)
    && forall i :: 0 <= i < |lines| ==> lines[i].accountId != "" && !AmountRejected(parse, lines[i].amount)
  }

  /** The table is empty exactly when every rule holds. */
  lemma ValidIffAcceptable(description: string, lines: seq<Line>, parse: Parser)
    ensures FormErrors(description, lines, parse) == map[] <==> EntryAcceptable(description, lines, parse)
  {
    var header := HeaderErrors(IsBlank(description), |lines| < 2, IsBalanced(lines, parse));
    var perLine := LineErrors(lines, parse);
    var m := FormErrors(description, lines, parse);
    if EntryAcceptable(description, lines, parse) {
      assert header == map[];
      forall k | k in LineKeys(|lines|) ensures !LineFault(lines, parse, k) {
        assert k.index < |lines|;
      }
      assert perLine.Keys == {};
    } else if IsBlank(description) {
      assert DescriptionKey in m;
    } else if |lines| < 2 {
      assert LinesKey in m;
    } else if !IsBalanced(lines, parse) {
      assert BalanceKey in m;
    } else {
      var i :| 0 <= i < |lines| && (lines[i].accountId == "" || AmountRejected(parse, lines[i].amount));
      var k := if lines[i].accountId == "" then LineAccountKey(i) else LineAmountKey(i);
      assert k in LineKeys(|lines|);
      assert k in perLine;
      assert k in m;
    }
  }

  /**
   * The balance entry of the table is present exactly when the form is unbalanced, and its
   * message is always "Total debits must equal total credits".
   */
  lemma BalanceErrorIffUnbalanced(description: string, lines: seq<Line>, parse: Parser)
    ensures BalanceKey in FormErrors(description, lines, parse) <==> !IsBalanced(lines, parse)
    ensures BalanceKey in FormErrors(description, lines, parse) ==> FormErrors(description, lines, parse)[BalanceKey] == TotalsMustMatch
  {
    assert BalanceKey !in LineErrors(lines, parse);
  }

  /**
   * Amount strings as a number input produces them: empty, or text the parser reads as a number.
   */
  predicate NumberInputAmounts(lines: seq<Line>, parse: Parser) {
    forall i :: 0 <= i < |lines| ==> lines[i].amount == "" || parse(lines[i].amount).Some?
  }

  /** With number-input amounts, a form that validates has positive amounts on every line and balanced totals. */
  lemma AcceptedAmountsPositive(description: string, lines: seq<Line>, parse: Parser)
    requires NumberInputAmounts(lines, parse)
    requires FormErrors(description, lines, parse) == map[]
    ensures forall i :: 0 <= i < |lines| ==> PositiveAmount(parse, lines[i].amount) && lines[i].accountId != ""
    ensures TotalDebit(lines, parse) == TotalCredit(lines, parse) > 0.0
  {
    ValidIffAcceptable(description, lines, parse);
  }

  /**
   * Without that restriction, a non-empty amount that does not parse (NaN) passes validation:
   * appending such a line, with an account, to an acceptable form leaves it acceptable.
   */
  lemma UnparsedLineStillAccepted(description: string, lines: seq<Line>, parse: Parser, line: Line)
    requires EntryAcceptable(description, lines, parse)
    requires line.accountId != "" && line.amount != "" && parse(line.amount) == None
    ensures FormErrors(description, lines + [line], parse) == map[]
    ensures !PositiveAmount(parse, (lines + [line])[|lines|].amount)
  {
    var lines' := lines + [line];
    // the unparsed amount adds 0 to both totals
    SideTotalAppend(lines, [line], Debit, parse);
    SideTotalAppend(lines, [line], Credit, parse);
    SideTotalSingle(line, Debit, parse);
    SideTotalSingle(line, Credit, parse);
    assert IsBalanced(lines', parse);
    forall i | 0 <= i < |lines'| ensures lines'[i].accountId != "" && !AmountRejected(parse, lines'[i].amount) {
      if i < |lines| { assert lines'[i] == lines[i]; }
    }
    ValidIffAcceptable(description, lines', parse);
  }

  /** The forEach of `validateForm`: adds the per-line entries, in line order, to the table built so far. */
  method CollectLineErrors(lines: seq<Line>, parse: Parser, base: map<ErrorKey, string>)
    returns (newErrors: map<ErrorKey, string>)
    ensures newErrors == base + LineErrors(lines, parse)
  {
    newErrors := base;
    var index := 0;
    while index < |lines|
      invariant 0 <= index <= |lines|
      invariant newErrors == base + LineErrors(lines[..index], parse)
    {
      var line := lines[index];
      LineErrorsExtend(lines, parse, index);
      ghost var done := LineErrors(lines[..index], parse);
      ghost var done' := done;
      if line.accountId == "" {
        OverrideThenUpdate(base, done', LineAccountKey(index), AccountRequired);
        newErrors := newErrors[LineAccountKey(index) := AccountRequired];
        done' := done'[LineAccountKey(index) := AccountRequired];
      }
      if line.amount == "" || (parse(line.amount).Some? && parse(line.amount).value <= 0.0) {
        OverrideThenUpdate(base, done', LineAmountKey(index), AmountMustBePositive);
        newErrors := newErrors[LineAmountKey(index) := AmountMustBePositive];
        done' := done'[LineAmountKey(index) := AmountMustBePositive];
      }
      index := index + 1;
    }
    assert lines[..index] == lines;
  }

  /** Updating an overridden map is updating its overriding part. */
  lemma OverrideThenUpdate<K, V>(a: map<K, V>, b: map<K, V>, k: K, v: V)
    ensures (a + b)[k := v] == a + b[k := v]
  {
  }

  /** The per-line table of a one-longer prefix adds exactly the entries of the new line. */
  lemma LineErrorsExtend(lines: seq<Line>, parse: Parser, n: nat)
    requires n < |lines|
    ensures var m := LineErrors(lines[..n], parse);
            var m1 := if lines[n].accountId == "" then m[LineAccountKey(n) := AccountRequired] else m;
            var m2 := if AmountRejected(parse, lines[n].amount) then m1[LineAmountKey(n) := AmountMustBePositive] else m1;
            LineErrors(lines[..n + 1], parse) == m2
  {
  }

  /**
   * The form-wide entries as `validateForm` writes them, in order (the "one debit and one
   * credit" message first, then overwritten when the totals differ), give the declared table,
   * because a balanced form always has a debit and a credit line.
   */
  lemma HeaderAsWritten(blank: bool, tooFew: bool, hasBoth: bool, balanced: bool)
    requires balanced ==> hasBoth
    ensures var m0 := if blank then map[DescriptionKey := DescriptionRequired] else map[];
            var m1 := if tooFew then m0[LinesKey := LinesRequired] else m0;
            var m2 := if !hasBoth then m1[BalanceKey := BothSidesRequired] else m1;
            var m3 := if !balanced then m2[BalanceKey := TotalsMustMatch] else m2;
            m3 == HeaderErrors(blank, tooFew, balanced)
  {
  }

  /** `processedData.lines`: the same lines in the same order, each amount replaced by the parsed number. */
  function Posted(lines: seq<Line>, parse: Parser): (r: seq<PostedLine>)
    ensures |r| == |lines|
    ensures forall i :: 0 <= i < |lines| ==>
              && r[i].accountId == lines[i].accountId && r[i].accountName == lines[i].accountName
              && r[i].kind == lines[i].kind && r[i].amount == parse(lines[i].amount)
  {
    seq(|lines|, i requires 0 <= i < |lines| =>
      PostedLine(lines[i].accountId, lines[i].accountName, lines[i].kind, parse(lines[i].amount)))
  }

  // ---------------------------------------------------------------------------
  // The form state

  class EntryForm {
    const parse: Parser
    var date: string
    var description: string
    var lines: seq<Line>
    var errors: map<ErrorKey, string>

    /** The form never holds fewer than two lines. */
    ghost predicate Valid()
      reads this
    {
      |lines| >= 2
    }

    /**
     * The initial state: an empty description and one empty debit line followed by one empty
     * credit line. `today` stands for the clock reading `new Date().toISOString().split("T")[0]`,
     * the current UTC date as YYYY-MM-DD.
     */
    constructor (parse: Parser, today: string)
      ensures Valid()
      ensures this.parse == parse && date == today && description == ""
      ensures lines == [EmptyDebitLine, EmptyCreditLine] && errors == map[]
    {
      this.parse := parse;
      date := today;
      description := "";
      lines := [EmptyDebitLine, EmptyCreditLine];
      errors := map[];
    }

    /** `addLine`: appends one empty debit line. */
    method AddLine()
      requires Valid()
      modifies this`lines
      ensures Valid()
      ensures lines == old(lines) + [EmptyDebitLine]
    {
      lines := lines + [EmptyDebitLine];
    }

    /** `removeLine`: with more than two lines, drops the line at `index`; otherwise does nothing. */
    method RemoveLine(index: int)
      requires Valid()
      modifies this`lines
      ensures Valid()
      ensures |old(lines)| > 2 && 0 <= index < |old(lines)| ==> lines == old(lines)[..index] + old(lines)[index + 1..]
      ensures |old(lines)| <= 2 || !(0 <= index < |old(lines)|) ==> lines == old(lines)
    {
      if |lines| > 2 {
        DropIndexSplices(lines, index);
        lines := DropIndex(lines, index);
      }
    }

    /** `updateLine`: sets one field of line `index` (and the account name with the account id); other lines are untouched. */
    method UpdateLine(index: nat, field: LineField, value: string)
      requires Valid()
      requires index < |lines|
      modifies this`lines
      ensures Valid()
      ensures |lines| == |old(lines)|
      ensures forall i :: 0 <= i < |lines| && i != index ==> lines[i] == old(lines)[i]
      ensures lines[index] == EditedLine(old(lines)[index], field, value)
    {
      var newLines := lines;
      newLines := newLines[index := SetField(newLines[index], field, value)];
      if field == AccountIdField {
        newLines := newLines[index := newLines[index].(accountName := AccountNameFor(value))];
      }
      lines := newLines;
    }

    /** `validateForm`: records every broken rule in `errors` and reports whether the table is empty. */
    method Validate() returns (ok: bool)
      modifies this`errors
      ensures errors == FormErrors(description, lines, parse)
      ensures ok <==> EntryAcceptable(description, lines, parse)
      ensures ok <==> errors == map[]
    {
      var newErrors: map<ErrorKey, string> := map[];
      if Trim(description) == "" {
        newErrors := newErrors[DescriptionKey := DescriptionRequired];
      }
      if |lines| < 2 {
        newErrors := newErrors[LinesKey := LinesRequired];
      }
      var hasDebit := HasPositive(lines, Debit, parse);
      var hasCredit := HasPositive(lines, Credit, parse);
      if !hasDebit || !hasCredit {
        newErrors := newErrors[BalanceKey := BothSidesRequired];
      }
      if !IsBalanced(lines, parse) {
        newErrors := newErrors[BalanceKey := TotalsMustMatch];
      }
      HeaderAsWritten(Trim(description) == "", |lines| < 2, hasDebit && hasCredit, IsBalanced(lines, parse));
      newErrors := CollectLineErrors(lines, parse, newErrors);
      errors := newErrors;
      ValidIffAcceptable(description, lines, parse);
      ok := |errors| == 0;
    }

    /** `handleSubmit`: validates, and only on success hands over the entry with every amount parsed. */
    method Submit() returns (submitted: Option<Submission>)
      modifies this`errors
      ensures errors == FormErrors(description, lines, parse)
      ensures submitted.Some? <==> EntryAcceptable(description, lines, parse)
      ensures submitted.Some? ==> submitted.value.date == date && submitted.value.description == description
      ensures submitted.Some? ==> |submitted.value.lines| == |lines|
      ensures submitted.Some? ==> forall i :: 0 <= i < |lines| ==>
                submitted.value.lines[i] == PostedLine(lines[i].accountId, lines[i].accountName, lines[i].kind, parse(lines[i].amount))
    {
      var ok := Validate();
      if ok {
        submitted := Some(Submission(date, description, Posted(lines, parse)));
      } else {
        submitted := None;
      }
    }
  }
}
