/** The `zipper` program as its macros assemble it: `accounts_struct!(N)` for
    N in 0..=31 expands the `TokenAccounts` template under
    `#[token_account_struct(N)]`, and `#[verify(31)]` fills the program
    module with the entry points `verify_0 ..= verify_31`. The lemmas here
    show that the two macros and the handler family agree on every arity. */
module Program {
  import opened Unsigned
  import opened TokenTrees
  import opened Macros
  import Guard

  datatype Option<T> = None | Some(value: T)

  /** `seq!(N in 0..=31 { accounts_struct!(N); })`: the largest N with an account struct. */
  const LastAccountsStruct: nat := 31

  /** The argument of `#[verify(31)]`. */
  const VerifyAttr: seq<Token> := [Lit(IntLit("31"))]

  /** The body of the template struct: the read-only `user` account. */
  const UserBody: seq<Token> := [
    Punct('#'), Group(Bracket, [Ident("doc"), Punct('='), Lit(OtherLit("\" CHECK: read-only\""))]),
    Punct('#'), Group(Bracket, [Ident("account"), Group(Parenthesis, [])]),
    Ident("user"), Punct(':'), Ident("AccountInfo"),
    Punct('<'), Punct('\''), Ident("info"), Punct('>'), Punct(',')
  ]

  /** The item `#[token_account_struct($num)]` receives: the `#[derive(Accounts)]`
      attribute below it, then `pub struct TokenAccounts<'info> { ... }`. */
  const AccountsTemplate: seq<Token> := [
    Punct('#'), Group(Bracket, [Ident("derive"), Group(Parenthesis, [Ident("Accounts")])]),
    Ident("pub"), Ident("struct"), Ident("TokenAccounts"),
    Punct('<'), Punct('\''), Ident("info"), Punct('>'),
    Group(Brace, UserBody)
  ]

  /** The body of `pub mod zipper`. */
  const ModBody: seq<Token> := [
    Ident("use"), Ident("super"), Punct(':'), Punct(':'), Punct('*'), Punct(';')
  ]

  /** The item `#[verify(31)]` receives: `#[program] pub mod zipper { ... }`. */
  const ModTemplate: seq<Token> := [
    Punct('#'), Group(Bracket, [Ident("program")]),
    Ident("pub"), Ident("mod"), Ident("zipper"),
    Group(Brace, ModBody)
  ]

  /** The attribute `#[token_account_struct($num)]` receives from
      `accounts_struct!(N)`: the literal `seq!` writes for `N`, which
      `macro_rules!` passes on as a `$num:literal` fragment, that is, inside an
      invisible group. */
  function AccountsAttr(n: nat): seq<Token> {
    [Group(NoDelimiter, [Lit(IntLit(Format(n)))])]
  }

  /** `TokenAccounts{n}` as the program declares it. */
  function AccountsStruct(n: nat): seq<Token> {
    [
      Punct('#'), Group(Bracket, [Ident("derive"), Group(Parenthesis, [Ident("Accounts")])]),
      Ident("pub"), Ident("struct"), Ident(AccountsName(n)),
      Punct('<'), Punct('\''), Ident("info"), Punct('>'),
      Group(Brace, AccountFields(n) + UserBody)
    ]
  }

  /** `pub mod zipper` as the program declares it. */
  function ProgramMod(): seq<Token> {
    [
      Punct('#'), Group(Bracket, [Ident("program")]),
      Ident("pub"), Ident("mod"), Ident("zipper"),
      Group(Brace, Instructions(31) + ModBody)
    ]
  }

  /** The name after the first `struct` keyword of an item. */
  function StructName(item: seq<Token>): Option<string> {
    if |item| < 2 then None
    else if item[0] == Ident("struct") && item[1].Ident? then Some(item[1].name)
    else StructName(item[1..])
  }

  /** The contents of an item's closing brace group. */
  function BodyOf(item: seq<Token>): seq<Token> {
    if item != [] && IsBraceGroup(item[|item| - 1]) then item[|item| - 1].stream else []
  }

  /** The names of the generated token-account fields in a struct body, in order. */
  function TokenFields(body: seq<Token>): seq<string> {
    if body == [] then []
    else (if body[0].Generated? && body[0].decl.AccountField? then [body[0].decl.name] else [])
         + TokenFields(body[1..])
  }

  lemma {:induction false} TokenFieldsAppend(a: seq<Token>, b: seq<Token>)
    ensures TokenFields(a + b) == TokenFields(a) + TokenFields(b)
  {
    if a == [] {
      assert a + b == b;
    } else {
      assert (a + b)[1..] == a[1..] + b;
      TokenFieldsAppend(a[1..], b);
    }
  }

  lemma {:induction false} NoGeneratedNoFields(body: seq<Token>)
    requires forall t :: t in body ==> !t.Generated?
    ensures TokenFields(body) == []
  {
    if body != [] {
      assert forall t :: t in body[1..] ==> t in body;
      NoGeneratedNoFields(body[1..]);
    }
  }

  /** The generated fields of `token_account_struct(n)` are exactly
      `token_account_1 ..= token_account_n`, in that order. */
  lemma {:induction false} TokenFieldsOfAccountFields(n: nat)
    ensures |TokenFields(AccountFields(n))| == n
    ensures forall j :: 0 <= j < n ==> TokenFields(AccountFields(n))[j] == FieldName(j + 1)
  {
    if n > 0 {
      TokenFieldsOfAccountFields(n - 1);
      var last := Generated(AccountField(FieldName(n)));
      TokenFieldsAppend(AccountFields(n - 1), [last]);
      assert TokenFields([last]) == [FieldName(n)];
    }
  }

  /** Before `struct` the walk changes nothing. */
  lemma AccountsTemplateScanHead(n: U64, j: nat)
    requires j <= 3
    ensures Scan(StructRewrite(n), AccountsTemplate, false)[j] == AccountsStruct(n)[j]
  {
    ScanAt(StructRewrite(n), AccountsTemplate, false, j);
    assert Ident("struct") !in AccountsTemplate[..j];
  }

  /** From `struct` on the name is numbered and the body gets its fields. */
  lemma AccountsTemplateScanTail(n: U64, j: nat)
    requires 3 < j < |AccountsTemplate|
    ensures Scan(StructRewrite(n), AccountsTemplate, false)[j] == AccountsStruct(n)[j]
  {
    ScanAt(StructRewrite(n), AccountsTemplate, false, j);
    assert AccountsTemplate[..j][3] == Ident("struct");
  }

  /** The walk of `token_account_struct(n)` over the template. */
  lemma AccountsTemplateScan(n: U64)
    ensures Scan(StructRewrite(n), AccountsTemplate, false) == AccountsStruct(n)
  {
    forall j | 0 <= j < |AccountsTemplate|
      ensures Scan(StructRewrite(n), AccountsTemplate, false)[j] == AccountsStruct(n)[j]
    {
      if j <= 3 {
        AccountsTemplateScanHead(n, j);
      } else {
        AccountsTemplateScanTail(n, j);
      }
    }
  }

  /** `accounts_struct!(n)` expands to `TokenAccounts{n}`: the template with its
      name numbered and its n token fields in front of `user`. */
  lemma AccountsStructExpansion(n: U64)
    ensures StructMacro(AccountsAttr(n), AccountsTemplate) == Expanded(AccountsStruct(n))
  {
    ParseCountCases([], n);
    AccountsTemplateScan(n);
  }

  /** Up to `mod` the walk changes nothing. */
  lemma ModTemplateScanHead(j: nat)
    requires j <= 3
    ensures Scan(ModRewrite(31), ModTemplate, false)[j] == ProgramMod()[j]
  {
    ScanAt(ModRewrite(31), ModTemplate, false, j);
    assert Ident("mod") !in ModTemplate[..j];
  }

  /** After `mod` the module body gets the entry points. */
  lemma ModTemplateScanTail(j: nat)
    requires 3 < j < |ModTemplate|
    ensures Scan(ModRewrite(31), ModTemplate, false)[j] == ProgramMod()[j]
  {
    ScanAt(ModRewrite(31), ModTemplate, false, j);
    assert ModTemplate[..j][3] == Ident("mod");
  }

  /** The walk of `verify(31)` over the program module. */
  lemma ModTemplateScan()
    ensures Scan(ModRewrite(31), ModTemplate, false) == ProgramMod()
  {
    forall j | 0 <= j < |ModTemplate|
      ensures Scan(ModRewrite(31), ModTemplate, false)[j] == ProgramMod()[j]
    {
      if j <= 3 {
        ModTemplateScanHead(j);
      } else {
        ModTemplateScanTail(j);
      }
    }
  }

  /** `#[verify(31)]` expands the program module to `ProgramMod()`: the entry
      points `verify_0 ..= verify_31` in front of its own items. */
  lemma ProgramModExpansion()
    ensures VerifyMacro(VerifyAttr, ModTemplate) == Expanded(ProgramMod())
  {
    ParseCountCases([], 31);
    assert Format(31) == "31";
    ModTemplateScan();
  }

  /** `TokenAccounts{n}` is named `TokenAccounts{n}`. */
  lemma AccountsStructName(n: nat)
    ensures StructName(AccountsStruct(n)) == Some(AccountsName(n))
  {
    var s := AccountsStruct(n);
    assert StructName(s) == StructName(s[1..]);
    assert s[1..][1..] == s[2..];
    assert StructName(s[1..]) == StructName(s[2..]);
    assert s[2..][1..] == s[3..];
    assert StructName(s[2..]) == StructName(s[3..]);
  }

  lemma UserBodyHasNoFields()
    ensures TokenFields(UserBody) == []
  {
    NoGeneratedNoFields(UserBody);
  }

  /** The body of `TokenAccounts{n}` holds the n generated fields
      `token_account_1 ..= token_account_n` beside `user`. */
  lemma AccountsStructFields(n: nat)
    ensures |TokenFields(BodyOf(AccountsStruct(n)))| == n
    ensures forall j :: 0 <= j < n ==> TokenFields(BodyOf(AccountsStruct(n)))[j] == FieldName(j + 1)
  {
    var s := AccountsStruct(n);
    assert s[|s| - 1] == Group(Brace, AccountFields(n) + UserBody);
    TokenFieldsAppend(AccountFields(n), UserBody);
    UserBodyHasNoFields();
    TokenFieldsOfAccountFields(n);
  }

  /** Every entry point `verify_i` of the expanded program names an account
      struct that exists, `TokenAccounts{i}`, and no other; it takes one
      balance per account of that struct (`user` and the i token fields, whose
      position M is `token_account_M`); and it calls `handler_i`, a handler
      that exists and whose types that struct and balance array meet. */
  lemma {:induction false} EntryPointsMatchAccountStructs(i: nat)
    requires i <= 31
    ensures BodyOf(ProgramMod())[i] == Generated(InstructionDecl(i))
    ensures i <= LastAccountsStruct && StructName(AccountsStruct(i)) == Some(InstructionDecl(i).accounts)
    ensures forall n: nat :: n <= LastAccountsStruct && StructName(AccountsStruct(n)) == Some(InstructionDecl(i).accounts)
              ==> n == i
    ensures InstructionDecl(i).balancesLen == |TokenFields(BodyOf(AccountsStruct(i)))| + 1
    ensures forall j :: 0 <= j < i ==> TokenFields(BodyOf(AccountsStruct(i)))[j] == FieldName(j + 1)
    ensures InstructionDecl(i).handler == HandlerName(i) && i <= Guard.MaxTokenAccounts
    ensures forall accounts: Guard.TokenAccounts, balances: seq<U64> ::
              |accounts.tokens| == |TokenFields(BodyOf(AccountsStruct(i)))| && |balances| == InstructionDecl(i).balancesLen
              ==> Guard.Arity(i, accounts, balances)
  {
    AccountsStructName(i);
    AccountsStructFields(i);
    forall n: nat | n <= LastAccountsStruct && StructName(AccountsStruct(n)) == Some(InstructionDecl(i).accounts)
      ensures n == i
    {
      AccountsStructName(n);
      PrefixedFormatInjective("TokenAccounts", n, i);
    }
  }
}
