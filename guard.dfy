/** The post-condition balance guard `handler_N` (N = 0 ..= 31): the last
    instruction of a transaction, which aborts the whole transaction unless
    the user's lamports and each of its N token accounts hold at least the
    balance the caller expected. */
module Guard {
  import opened Unsigned

  /** `seq!(N in 0..=31 { fn handler_~N ... })`: the largest N with a handler. */
  const MaxTokenAccounts: nat := 31

  datatype Pubkey = Pubkey(bytes: seq<bv8>)

  /** The read-only `user` account: its key and its lamports. */
  datatype UserAccount = UserAccount(key: Pubkey, lamports: U64)

  /** A token account: its key and the token `amount` it holds. */
  datatype TokenAccount = TokenAccount(key: Pubkey, amount: U64)

  /** `TokenAccountsN`: `user`, then `token_account_1 ..= token_account_N`
      (`tokens[M - 1]` is `token_account_M`). */
  datatype TokenAccounts = TokenAccounts(user: UserAccount, tokens: seq<TokenAccount>)

  /** `Ok(())`, or the first failed `assert!` with the expected value, the key
      and the actual value its panic message reports. */
  datatype Outcome = Ok | Fail(index: nat, expected: U64, key: Pubkey, actual: U64)

  /** The types of `handler_N`: N is one of the generated arities, the context
      holds N token accounts and `balances` is a `[u64; N + 1]`. */
  predicate Arity(n: nat, accounts: TokenAccounts, balances: seq<U64>) {
    n <= MaxTokenAccounts && |accounts.tokens| == n && |balances| == n + 1
  }

  /** The balance checked at position m: lamports for 0, `token_account_m.amount` after. */
  function Actual(accounts: TokenAccounts, m: nat): U64
    requires m <= |accounts.tokens|
  {
    if m == 0 then accounts.user.lamports else accounts.tokens[m - 1].amount
  }

  /** The key reported for position m. */
  function KeyAt(accounts: TokenAccounts, m: nat): Pubkey
    requires m <= |accounts.tokens|
  {
    if m == 0 then accounts.user.key else accounts.tokens[m - 1].key
  }

  /** Position m holds at least its expected balance (`>=`, no tolerance). */
  predicate Satisfied(accounts: TokenAccounts, balances: seq<U64>, m: nat)
    requires m <= |accounts.tokens| && m < |balances|
  {
    Actual(accounts, m) >= balances[m]
  }

  /** `handler_N(ctx, balances)`: the SOL check, then the token checks in order. */
  function Handler(n: nat, accounts: TokenAccounts, balances: seq<U64>): (r: Outcome)
    requires Arity(n, accounts, balances)
    ensures r.Fail? ==> r.index <= n && r.actual < r.expected
    ensures r.Fail? ==> r.expected == balances[r.index] && r.actual == Actual(accounts, r.index)
                        && r.key == KeyAt(accounts, r.index)
  {
    if accounts.user.lamports >= balances[0] then CheckTokens(accounts, balances, 1)
    else Fail(0, balances[0], accounts.user.key, accounts.user.lamports)
  }

  /** The unrolled `seq!(M in 1..=N { assert!(...) })`, from position m on. */
  function CheckTokens(accounts: TokenAccounts, balances: seq<U64>, m: nat): (r: Outcome)
    requires 1 <= m <= |balances| == |accounts.tokens| + 1
    ensures r.Fail? ==> m <= r.index < |balances| && r.actual < r.expected
    ensures r.Fail? ==> r.expected == balances[r.index] && r.actual == Actual(accounts, r.index)
                        && r.key == KeyAt(accounts, r.index)
    decreases |balances| - m
  {
    if m == |balances| then Ok
    else if accounts.tokens[m - 1].amount >= balances[m] then CheckTokens(accounts, balances, m + 1)
    else Fail(m, balances[m], accounts.tokens[m - 1].key, accounts.tokens[m - 1].amount)
  }

  lemma {:induction false} CheckTokensOk(accounts: TokenAccounts, balances: seq<U64>, m: nat)
    requires 1 <= m <= |balances| == |accounts.tokens| + 1
    ensures CheckTokens(accounts, balances, m) == Ok <==>
              forall j :: m <= j < |balances| ==> Satisfied(accounts, balances, j)
    decreases |balances| - m
  {
    if m < |balances| {
      CheckTokensOk(accounts, balances, m + 1);
      if accounts.tokens[m - 1].amount < balances[m] {
        assert !Satisfied(accounts, balances, m);
      }
    }
  }

  lemma {:induction false} CheckTokensFirst(accounts: TokenAccounts, balances: seq<U64>, m: nat)
    requires 1 <= m <= |balances| == |accounts.tokens| + 1
    ensures CheckTokens(accounts, balances, m).Fail? ==>
              forall j :: m <= j < CheckTokens(accounts, balances, m).index ==> Satisfied(accounts, balances, j)
    decreases |balances| - m
  {
    if m < |balances| && accounts.tokens[m - 1].amount >= balances[m] {
      CheckTokensFirst(accounts, balances, m + 1);
    }
  }

  /** The guard passes exactly when every position, SOL and tokens 1..N,
      holds at least its expected balance. */
  lemma HandlerOkIff(n: nat, accounts: TokenAccounts, balances: seq<U64>)
    requires Arity(n, accounts, balances)
    ensures Handler(n, accounts, balances) == Ok <==>
              forall m :: 0 <= m <= n ==> Satisfied(accounts, balances, m)
  {
    CheckTokensOk(accounts, balances, 1);
    if accounts.user.lamports < balances[0] {
      assert !Satisfied(accounts, balances, 0);
    } else {
      assert Satisfied(accounts, balances, 0);
    }
  }

  /** The guard fails at position i exactly when i is the first position,
      in checking order, that falls short. */
  lemma HandlerFailsAtFirstShortfall(n: nat, accounts: TokenAccounts, balances: seq<U64>, i: nat)
    requires Arity(n, accounts, balances) && i <= n
    ensures (Handler(n, accounts, balances).Fail? && Handler(n, accounts, balances).index == i) <==>
              (!Satisfied(accounts, balances, i) && forall j :: 0 <= j < i ==> Satisfied(accounts, balances, j))
  {
    var r := Handler(n, accounts, balances);
    HandlerOkIff(n, accounts, balances);
    if accounts.user.lamports >= balances[0] {
      CheckTokensFirst(accounts, balances, 1);
    }
    if r.Fail? {
      assert !Satisfied(accounts, balances, r.index);
    }
  }

  /** One shortfall anywhere aborts the call, however many other positions
      pass; the failure reported is at or before it. */
  lemma SingleShortfallAborts(n: nat, accounts: TokenAccounts, balances: seq<U64>, m: nat)
    requires Arity(n, accounts, balances) && m <= n
    requires Actual(accounts, m) < balances[m]
    ensures Handler(n, accounts, balances).Fail?
    ensures Handler(n, accounts, balances).index <= m
  {
    HandlerOkIff(n, accounts, balances);
    var r := Handler(n, accounts, balances);
    if accounts.user.lamports >= balances[0] {
      CheckTokensFirst(accounts, balances, 1);
    }
    assert !Satisfied(accounts, balances, m);
    if r.Fail? {
      assert !Satisfied(accounts, balances, r.index);
    }
  }

  /** Balances exactly equal to the expected ones pass, zero included. */
  lemma ExactBalancesPass(n: nat, accounts: TokenAccounts, balances: seq<U64>)
    requires Arity(n, accounts, balances)
    requires forall m :: 0 <= m <= n ==> balances[m] == Actual(accounts, m)
    ensures Handler(n, accounts, balances) == Ok
  {
    HandlerOkIff(n, accounts, balances);
  }

  /** With no token accounts only the SOL check runs. */
  lemma SolOnly(accounts: TokenAccounts, balances: seq<U64>)
    requires Arity(0, accounts, balances)
    ensures Handler(0, accounts, balances) ==
              if accounts.user.lamports >= balances[0] then Ok
              else Fail(0, balances[0], accounts.user.key, accounts.user.lamports)
  {
  }
}
