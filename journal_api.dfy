/**
 * The journal-entry POST route: a field check, the totals already recorded for the
 * entry's account, the rule that a debit may not take the account's cumulative debits
 * above its cumulative credits, and the append to the entry table.
 *
 * The table is held in memory as a sequence of entries. An account id is its text
 * ("" is falsy); a debit or credit is absent (`None`) or a number.
 */
module JournalApi {
  import opened Wrappers

  /** A stored journal entry, equal to the request body that created it. */
  datatype Entry = Entry(accountId: string, debit: Option<real>, credit: Option<real>)

  datatype PostError = MissingFields | InsufficientCredit

  datatype Response = Created(entry: Entry) | BadRequest(error: PostError)

  /** The HTTP status of each response. */
  function StatusCode(r: Response): int {
    match r
    case Created(_) => 201
    case BadRequest(_) => 400
  }

  function ErrorMessage(e: PostError): string {
    match e
    case MissingFields => "Missing required fields"
    case InsufficientCredit => "Insufficient credit for this debit transaction"
  }

  /** JavaScript truthiness of an optional number: absent and 0 are falsy. */
  predicate Truthy(x: Option<real>) {
    x.Some? && x.value != 0.0
  }

  /** `x || 0` */
  function OrZero(x: Option<real>): real {
    match x
    case Some(v) => v
    case None => 0.0
  }

  /** `findMany({ where: { accountId } })`: the entries of one account, in table order. */
  function ForAccount(entries: seq<Entry>, accountId: string): (r: seq<Entry>)
    ensures |r| <= |entries|
    ensures forall e :: e in r ==> e in entries && e.accountId == accountId
    ensures forall e :: e in entries && e.accountId == accountId ==> e in r
  {
    if entries == [] then []
    else
      var rest := ForAccount(entries[1..], accountId);
      assert forall e :: e in entries ==> e == entries[0] || e in entries[1..];
      if entries[0].accountId == accountId then [entries[0]] + rest else rest
  }

  /** `entries.reduce((sum, e) => sum + (e.debit || 0), 0)` */
  function SumDebit(entries: seq<Entry>): real
    decreases |entries|
  {
    if entries == [] then 0.0 else SumDebit(entries[..|entries| - 1]) + OrZero(entries[|entries| - 1].debit)
  }

  /** `entries.reduce((sum, e) => sum + (e.credit || 0), 0)` */
  function SumCredit(entries: seq<Entry>): real
    decreases |entries|
  {
    if entries == [] then 0.0 else SumCredit(entries[..|entries| - 1]) + OrZero(entries[|entries| - 1].credit)
  }

  /** Debits already recorded for an account. */
  function DebitTotal(entries: seq<Entry>, accountId: string): real {
    SumDebit(ForAccount(entries, accountId))
  }

  /** Credits already recorded for an account. */
  function CreditTotal(entries: seq<Entry>, accountId: string): real {
    SumCredit(ForAccount(entries, accountId))
  }

  /**
   * The decision `POST` takes on a request body against the current table. An accepted request
   * is created as sent, has an account id and a non-zero debit or credit, and a positive debit
   * in it is covered by the account's recorded credits.
   */
  function Decide(entries: seq<Entry>, body: Entry): (r: Response)
    ensures r.Created? ==> r.entry == body && body.accountId != "" && (Truthy(body.debit) || Truthy(body.credit))
    ensures r.Created? && OrZero(body.debit) > 0.0
            ==> DebitTotal(entries, body.accountId) + OrZero(body.debit) <= CreditTotal(entries, body.accountId)
  {
    if body.accountId == "" || (!Truthy(body.debit) && !Truthy(body.credit)) then
      BadRequest(MissingFields)
    else
      var totalDebit := DebitTotal(entries, body.accountId);
      var totalCredit := CreditTotal(entries, body.accountId);
      if Truthy(body.debit) && body.debit.value > 0.0 && totalDebit + body.debit.value > totalCredit then
        BadRequest(InsufficientCredit)
      else
        Created(body)
  }

  /** The table after a request: the body appended when it is created, otherwise the same table. */
  function Apply(entries: seq<Entry>, body: Entry): (r: seq<Entry>)
    ensures |entries| <= |r| <= |entries| + 1
    ensures r[..|entries|] == entries
    ensures |r| == |entries| + 1 <==> Decide(entries, body).Created?
    ensures |r| == |entries| + 1 ==> r[|entries|] == body
  {
    if Decide(entries, body).Created? then entries + [body] else entries
  }

  // ---------------------------------------------------------------------------
  // The outcome of a request

  /** The field check rejects exactly a falsy account id, or a request with neither a debit nor a credit. */
  lemma MissingFieldsIff(entries: seq<Entry>, body: Entry)
    ensures Decide(entries, body) == BadRequest(MissingFields)
            <==> body.accountId == "" || ((body.debit.None? || body.debit.value == 0.0) && (body.credit.None? || body.credit.value == 0.0))
  {
  }

  /**
   * A request that passes the field check is refused for want of credit exactly when it carries a
   * positive debit that would take the account's debits above its credits.
   */
  lemma InsufficientCreditIff(entries: seq<Entry>, body: Entry)
    requires body.accountId != "" && (Truthy(body.debit) || Truthy(body.credit))
    ensures Decide(entries, body) == BadRequest(InsufficientCredit)
            <==> body.debit.Some? && body.debit.value > 0.0
                 && DebitTotal(entries, body.accountId) + body.debit.value > CreditTotal(entries, body.accountId)
  {
  }

  /** A request whose debit is absent or not positive is never refused by the credit rule. */
  lemma NonPositiveDebitNeverInsufficient(entries: seq<Entry>, body: Entry)
    requires body.debit.None? || body.debit.value <= 0.0
    ensures Decide(entries, body) != BadRequest(InsufficientCredit)
  {
  }

  /** Every accepted request is created as it was sent; every response is 201 or 400. */
  lemma CreatedIsBody(entries: seq<Entry>, body: Entry)
    ensures Decide(entries, body).Created? ==> Decide(entries, body).entry == body
    ensures StatusCode(Decide(entries, body)) == (if Decide(entries, body).Created? then 201 else 400)
  {
  }

  // ---------------------------------------------------------------------------
  // Totals over a growing table

  /** Filtering by account commutes with appending one entry. */
  lemma {:induction false} ForAccountAppend(entries: seq<Entry>, e: Entry, accountId: string)
    ensures ForAccount(entries + [e], accountId)
            == ForAccount(entries, accountId) + (if e.accountId == accountId then [e] else [])
    decreases |entries|
  {
    if entries == [] {
      assert [] + [e] == [e];
    } else {
      assert (entries + [e])[1..] == entries[1..] + [e];
      ForAccountAppend(entries[1..], e, accountId);
    }
  }

  /** Every entry of the account appears in the selection as many times as in the table, and no other entry appears. */
  lemma {:induction false} ForAccountCounts(entries: seq<Entry>, accountId: string)
    ensures forall e :: multiset(ForAccount(entries, accountId))[e]
                        == if e.accountId == accountId then multiset(entries)[e] else 0
    decreases |entries|
  {
    if entries != [] {
      ForAccountCounts(entries[1..], accountId);
      assert entries == [entries[0]] + entries[1..];
    }
  }

  /** Appending one entry adds its debit and credit to the totals of its own account. */
  lemma TotalsAppend(entries: seq<Entry>, e: Entry, accountId: string)
    ensures DebitTotal(entries + [e], accountId)
            == DebitTotal(entries, accountId) + (if e.accountId == accountId then OrZero(e.debit) else 0.0)
    ensures CreditTotal(entries + [e], accountId)
            == CreditTotal(entries, accountId) + (if e.accountId == accountId then OrZero(e.credit) else 0.0)
  {
    ForAccountAppend(entries, e, accountId);
    var f := ForAccount(entries, accountId);
    if e.accountId == accountId {
      assert (f + [e])[..|f|] == f;
      assert SumDebit(f + [e]) == SumDebit(f) + OrZero(e.debit);
      assert SumCredit(f + [e]) == SumCredit(f) + OrZero(e.credit);
    } else {
      assert f + [] == f;
    }
  }

  /** Totals of other accounts are untouched by an entry for a given account. */
  lemma OtherAccountsUnchanged(entries: seq<Entry>, e: Entry, accountId: string)
    requires e.accountId != accountId
    ensures DebitTotal(entries + [e], accountId) == DebitTotal(entries, accountId)
    ensures CreditTotal(entries + [e], accountId) == CreditTotal(entries, accountId)
  {
    TotalsAppend(entries, e, accountId);
  }

  // ---------------------------------------------------------------------------
  // The solvency invariant

  /** No account has recorded more debits than credits. */
  ghost predicate Solvent(entries: seq<Entry>) {
    forall a :: DebitTotal(entries, a) <= CreditTotal(entries, a)
  }

  /** Every recorded debit and credit is absent or non-negative. */
  predicate NonNegative(entries: seq<Entry>) {
    forall i :: 0 <= i < |entries| ==> OrZero(entries[i].debit) >= 0.0 && OrZero(entries[i].credit) >= 0.0
  }

  /**
   * An accepted request keeps every account solvent, provided its credit is not negative
   * (a debit of any sign is either checked or lowers the account's debits).
   */
  lemma PostPreservesSolvency(entries: seq<Entry>, body: Entry)
    requires Solvent(entries)
    requires OrZero(body.credit) >= 0.0
    ensures Solvent(Apply(entries, body))
  {
    if Decide(entries, body).Created? {
      forall a ensures DebitTotal(entries + [body], a) <= CreditTotal(entries + [body], a) {
        TotalsAppend(entries, body, a);
      }
    }
  }

  /** With non-negative amounts throughout, both the sign condition and solvency survive every request. */
  lemma PostPreservesLedgerInvariant(entries: seq<Entry>, body: Entry)
    requires Solvent(entries) && NonNegative(entries)
    requires OrZero(body.debit) >= 0.0 && OrZero(body.credit) >= 0.0
    ensures Solvent(Apply(entries, body)) && NonNegative(Apply(entries, body))
  {
    PostPreservesSolvency(entries, body);
  }

  /** A negative credit is accepted and leaves its account with more debits than credits. */
  lemma NegativeCreditBreaksSolvency(entries: seq<Entry>, accountId: string, amount: real)
    requires Solvent(entries) && accountId != "" && amount > 0.0
    requires DebitTotal(entries, accountId) == CreditTotal(entries, accountId)
    ensures Decide(entries, Entry(accountId, None, Some(-amount))).Created?
    ensures !Solvent(Apply(entries, Entry(accountId, None, Some(-amount))))
  {
    var body := Entry(accountId, None, Some(-amount));
    TotalsAppend(entries, body, accountId);
  }

  /** The empty table is solvent. */
  lemma EmptySolvent()
    ensures Solvent([]) && NonNegative([])
  {
    forall a ensures DebitTotal([], a) <= CreditTotal([], a) {
      assert ForAccount([], a) == [];
    }
  }

  // ---------------------------------------------------------------------------
  // The entry table

  class JournalStore {
    var entries: seq<Entry>

    /** An empty table, which is solvent. */
    constructor ()
      ensures entries == []
      ensures Solvent(entries) && NonNegative(entries)
    {
      entries := [];
      EmptySolvent();
    }

    /** `POST /api/journal-entries`: the checks in order, then the append. */
    method Post(body: Entry) returns (response: Response)
      modifies this
      ensures response == Decide(old(entries), body)
      ensures response.Created? ==> entries == old(entries) + [body]
      ensures response.BadRequest? ==> entries == old(entries)
      ensures Solvent(old(entries)) && OrZero(body.credit) >= 0.0 ==> Solvent(entries)
    {
      if body.accountId == "" || (!Truthy(body.debit) && !Truthy(body.credit)) {
        return BadRequest(MissingFields);
      }
      var existingEntries := ForAccount(entries, body.accountId);
      var totalDebit := SumDebit(existingEntries);
      var totalCredit := SumCredit(existingEntries);
      if Truthy(body.debit) && body.debit.value > 0.0 {
        if totalDebit + body.debit.value > totalCredit {
          return BadRequest(InsufficientCredit);
        }
      }
      if Solvent(entries) && OrZero(body.credit) >= 0.0 {
        PostPreservesSolvency(entries, body);
      }
      entries := entries + [body];
      response := Created(body);
    }
  }
}
