/**
 * The account form: a name and an account type, prefilled from an existing account when
 * one is being edited, validated into a two-key error table before it is handed over.
 */
module AccountForm {
  import opened Wrappers
  import opened Text

  /** The five account types the type selector offers; `SelectType` only ever stores one of their names. */
  datatype AccountType = Asset | Liability | Equity | Revenue | Expense

  /** The value each selector item carries. */
  function TypeName(t: AccountType): string {
    match t
    case Asset => "Asset"
    case Liability => "Liability"
    case Equity => "Equity"
    case Revenue => "Revenue"
    case Expense => "Expense"
  }

  /** The selector's items, in display order. */
  const SelectableTypes: seq<string> := ["Asset", "Liability", "Equity", "Revenue", "Expense"]

  /** Reads a selector value back as an account type. */
  function TypeFromName(s: string): (r: Option<AccountType>)
    ensures r.Some? ==> TypeName(r.value) == s
  {
    if s == "Asset" then Some(Asset)
    else if s == "Liability" then Some(Liability)
    else if s == "Equity" then Some(Equity)
    else if s == "Revenue" then Some(Revenue)
    else if s == "Expense" then Some(Expense)
    else None
  }

  /** The selector offers exactly the five type names, once each, and each reads back as its type. */
  lemma SelectableTypesExact()
    ensures forall t: AccountType :: TypeName(t) in SelectableTypes && TypeFromName(TypeName(t)) == Some(t)
    ensures forall s :: s in SelectableTypes <==> TypeFromName(s).Some?
    ensures forall i, j :: 0 <= i < j < |SelectableTypes| ==> SelectableTypes[i] != SelectableTypes[j]
  {
    forall s ensures TypeFromName(s).Some? ==> s in SelectableTypes {
      if TypeFromName(s).Some? {
        match TypeFromName(s).value
        case Asset => assert s == SelectableTypes[0];
        case Liability => assert s == SelectableTypes[1];
        case Equity => assert s == SelectableTypes[2];
        case Revenue => assert s == SelectableTypes[3];
        case Expense => assert s == SelectableTypes[4];
      }
    }
  }

  /** The form's data; `kind` is the `type` field, "" until a type is chosen. */
  datatype AccountData = AccountData(name: string, kind: string)

  datatype FieldKey = NameKey | TypeKey

  const NameRequired: string := "Account name is required"
  const TypeRequired: string := "Account type is required"

  /** The error table `validateForm` builds: a `name` entry for a blank name, a `type` entry for a missing type. */
  function AccountErrors(data: AccountData): (m: map<FieldKey, string>)
    ensures NameKey in m <==> IsBlank(data.name)
    ensures TypeKey in m <==> data.kind == ""
    ensures NameKey in m ==> m[NameKey] == NameRequired
    ensures TypeKey in m ==> m[TypeKey] == TypeRequired
  {
    var m := if IsBlank(data.name) then map[NameKey := NameRequired] else map[];
    if data.kind == "" then m[TypeKey := TypeRequired] else m
  }

  /** The table is empty exactly when the name has a non-whitespace character and a type is set. */
  lemma AccountValidIff(data: AccountData)
    ensures AccountErrors(data) == map[]
            <==> (exists i :: 0 <= i < |data.name| && !IsWhitespace(data.name[i])) && data.kind != ""
  {
    BlankIffAllWhitespace(data.name);
  }

  /** A table over the two keys has no entries exactly when neither key is present. */
  lemma NoKeysIffEmpty(m: map<FieldKey, string>)
    ensures |m| == 0 <==> NameKey !in m && TypeKey !in m
  {
    if |m| != 0 {
      var k :| k in m;
      assert k == NameKey || k == TypeKey;
    } else {
      assert m.Keys == {};
    }
  }

  class AccountEditor {
    var formData: AccountData
    var errors: map<FieldKey, string>

    /** A blank form with no errors. */
    constructor ()
      ensures formData == AccountData("", "") && errors == map[]
    {
      formData := AccountData("", "");
      errors := map[];
    }

    /** The effect run when an account is supplied: it copies that account's name and type into the form. */
    method Prefill(account: Option<AccountData>)
      modifies this`formData
      ensures account.Some? ==> formData == AccountData(account.value.name, account.value.kind)
      ensures account.None? ==> formData == old(formData)
    {
      if account.Some? {
        formData := AccountData(account.value.name, account.value.kind);
      }
    }

    /** The name input's `onChange`: stores the typed text as the name; the type is kept. */
    method SetName(value: string)
      modifies this`formData
      ensures formData == AccountData(value, old(formData).kind)
    {
      formData := formData.(name := value);
    }

    /**
     * The type selector's `onValueChange`: stores the chosen item's value as the type; the name
     * is kept. The stored value names an account type, so the `type` error cannot follow.
     */
    method SelectType(value: string)
      requires value in SelectableTypes
      modifies this`formData
      ensures formData == AccountData(old(formData).name, value)
      ensures TypeFromName(formData.kind).Some?
      ensures TypeKey !in AccountErrors(formData)
    {
      SelectableTypesExact();
      formData := formData.(kind := value);
    }

    /** `validateForm`: records the broken rules and reports whether there were none. */
    method Validate() returns (ok: bool)
      modifies this`errors
      ensures errors == AccountErrors(formData)
      ensures ok <==> !IsBlank(formData.name) && formData.kind != ""
    {
      var newErrors: map<FieldKey, string> := map[];
      if Trim(formData.name) == "" {
        newErrors := newErrors[NameKey := NameRequired];
      }
      if formData.kind == "" {
        newErrors := newErrors[TypeKey := TypeRequired];
      }
      errors := newErrors;
      NoKeysIffEmpty(errors);
      ok := |errors| == 0;
    }

    /** `handleSubmit`: hands over the form data unchanged, and only when it validates. */
    method Submit() returns (submitted: Option<AccountData>)
      modifies this`errors
      ensures errors == AccountErrors(formData)
      ensures submitted.Some? <==> !IsBlank(formData.name) && formData.kind != ""
      ensures submitted.Some? ==> submitted.value == formData
    {
      var ok := Validate();
      submitted := if ok then Some(formData) else None;
    }
  }
}
