# zipper: post-condition balance guard, fixed-arity form

This project models the core of `zipper`, a Solana/Anchor program. Its job is
to be the last instruction of a transaction. It checks that the user's
lamports and each token account hold at least a balance the caller expected.
If one of them holds less, it aborts the whole transaction. The program ships
one handler per number of token accounts, `handler_0 ..= handler_31`. Two
attribute macros generate the matching account structs and entry points:

- `#[token_account_struct(k)]` renames `TokenAccounts` to `TokenAccounts{k}`
  and puts the fields `token_account_1 ..= token_account_k` in front of the
  struct body.
- `#[verify(k)]` puts the entry points `verify_0 ..= verify_k` in front of the
  program module's items. Each `verify_i` takes `Context<TokenAccounts{i}>`
  and `[u64; i + 1]` and calls `handler_i`.

Modules, one concept each:

- `Unsigned` (`unsigned.dfy`): Rust's `u64` range, the decimal `{}` of
  `format!`, and reading decimal digits back.
- `TokenTrees` (`tokens.dfy`): proc-macro token trees as a datatype
  (`Ident | Punct | Lit | Group`). The declarations the macros emit are kept as
  opaque `Generated` tokens carrying their name and arity.
- `Macros` (`macros.dfy`): `macros/src/lib.rs`. The attribute parse is a
  function that, like syn, sees through invisible groups. Each macro is a
  method that parses and then runs a loop that carries the "keyword seen" flag
  and builds an output sequence. Each method is proved equal to a
  specification function, and lemmas state what that function does to every
  top-level token.
- `Guard` (`guard.dfy`): `handler_N` from `programs/zipper/src/lib.rs`, as a
  pure first-failure function with its lemmas.
- `Program` (`program.dfy`): the item templates of `programs/zipper/src/lib.rs`
  and how the macros expand them. It ends with the cross-file property: every
  generated entry point names an existing account struct with the right number
  of token fields, and a handler whose types match.

The integration test `programs/zipper/tests/spoof.rs` calls a dynamic-arity
interface, `AccountZipper::zip_accounts` with a `Vec` of balances, that would
check every pair, log each check and classify accounts. That interface is not
in `programs/zipper/src/lib.rs`. The code's `handler_N` stops at the first
failing `assert!` and writes no trace, so `Guard.Handler` returns the first
failure only.

## Model

| member | source | states |
|---|---|---|
| `Guard.Handler` | programs/zipper/src/lib.rs:29-40 | a failure names a position 0..=N whose actual balance is below the expected one, and reports `balances[i]`, that account's key and its actual value |
| `Guard.CheckTokens` | programs/zipper/src/lib.rs:34-37 | the token checks from position m on fail only at a position m..=N that falls short, and report that position's expected value, key and amount |
| `Guard.CheckTokensOk` | programs/zipper/src/lib.rs:34-37 | the token checks from m on pass iff every token account m..=N holds at least its expected amount |
| `Guard.CheckTokensFirst` | programs/zipper/src/lib.rs:34-37 | every token position checked before the reported failure passed |
| `Guard.HandlerOkIff` | programs/zipper/src/lib.rs:31-38 | `handler_N` returns Ok iff lamports >= balances[0] and token_account_M.amount >= balances[M] for every M in 1..=N |
| `Guard.HandlerFailsAtFirstShortfall` | programs/zipper/src/lib.rs:33-37 | the handler fails at position i iff i falls short and every earlier position (SOL first, then tokens in order) passes |
| `Guard.SingleShortfallAborts` | programs/zipper/src/lib.rs:33-37 | one shortfall anywhere makes the whole call fail, however many others pass, and the reported position is at or before it (so actual == expected - 1 always fails) |
| `Guard.ExactBalancesPass` | programs/zipper/src/lib.rs:33-36 | the comparison has no tolerance: balances exactly equal to the expected ones pass, expected 0 included |
| `Guard.SolOnly` | programs/zipper/src/lib.rs:31-34 | for N = 0 only the SOL check runs |
| `Unsigned.Format` | macros/src/lib.rs:38 | `format!("{}", n)` yields a non-empty run of decimal digits with a leading zero only for 0 |
| `Unsigned.ValueOfFormat` | macros/src/lib.rs:13 | reading back the decimal digits of n gives n |
| `Unsigned.PrefixedFormatInjective` | macros/src/lib.rs:119 | names built as a prefix plus a decimal number are equal iff the numbers are |
| `Macros.VisibleFlat` | macros/src/lib.rs:11 | the parse looks through invisible (`Delimiter::None`) groups: what it sees holds none, and a stream without one is seen as it is |
| `Macros.ParseCountCases` | macros/src/lib.rs:9-16 | the literal for n parses to n, bare or inside the invisible group a `$num:literal` arrives in; `-` before an integer literal panics in `base10_parse().unwrap()`; anything that does not read as one integer literal, negated or not, is a parse error; a literal beyond `u64` panics; a count is the literal's value |
| `Macros.InvisibleGroupTransparent` | macros/src/lib.rs:21 | wrapping the whole attribute in an invisible group does not change how it parses |
| `Macros.AccountFields` | macros/src/lib.rs:50-66 | exactly `count` fields, the j-th named `token_account_{j+1}`, ascending |
| `Macros.Instructions` | macros/src/lib.rs:113-135 | exactly count + 1 entry points; the i-th is `verify_i` over `TokenAccounts{i}`, `[u64; i + 1]`, calling `handler_i` |
| `Macros.Scan` | macros/src/lib.rs:23-24 | the walk maps top-level tokens one to one: as many out as in |
| `Macros.ScanAt` | macros/src/lib.rs:22-31 | output token i is input token i under the match arms, with the flag set iff the keyword occurs before i |
| `Macros.StructRewriteSpec` | macros/src/lib.rs:20-78 | every top-level `TokenAccounts` becomes `TokenAccounts{n}`; a brace group after `struct` becomes the n fields followed by its original contents; every other token, brace groups before `struct` included, is unchanged |
| `Macros.ModRewriteSpec` | macros/src/lib.rs:95-147 | a brace group after `mod` becomes `verify_0 ..= verify_n` followed by its original items; every other token is unchanged |
| `Macros.FieldDecls` | macros/src/lib.rs:50-66 | the fold over 1..=count builds exactly `AccountFields(count)` |
| `Macros.InstructionDecls` | macros/src/lib.rs:113-135 | the fold over 0..=count builds exactly `Instructions(count)` |
| `Macros.StructItems` | macros/src/lib.rs:22-77 | the walk with the `found_struct` flag yields exactly `Scan` under the struct rule |
| `Macros.ModItems` | macros/src/lib.rs:97-146 | the walk with the `found_mod` flag yields exactly `Scan` under the mod rule |
| `Macros.TokenAccountStruct` | macros/src/lib.rs:20-78 | the flag-carrying loop yields the compile error, the panic or the rewritten item that `StructMacro` specifies |
| `Macros.Verify` | macros/src/lib.rs:95-147 | the flag-carrying loop yields the compile error, the panic or the rewritten item that `VerifyMacro` specifies |
| `Program.TokenFieldsOfAccountFields` | macros/src/lib.rs:52-60 | the generated fields of `token_account_struct(n)` are `token_account_1 ..= token_account_n` in that order |
| `Program.AccountsStructExpansion` | programs/zipper/src/lib.rs:14-27 | `accounts_struct!(n)`, whose literal reaches the macro inside an invisible group, expands to the template named `TokenAccounts{n}` with the n token fields in front of `user` |
| `Program.ProgramModExpansion` | programs/zipper/src/lib.rs:8-12 | `#[verify(31)]` expands the program module to `verify_0 ..= verify_31` followed by `use super::*;` |
| `Program.AccountsStructName` | programs/zipper/src/lib.rs:18 | the struct generated for n is named `TokenAccounts{n}` |
| `Program.AccountsStructFields` | programs/zipper/src/lib.rs:17-22 | the struct generated for n holds `user` plus exactly the token fields 1..=n, in order |
| `Program.EntryPointsMatchAccountStructs` | programs/zipper/src/lib.rs:8-40 | each `verify_i` (i in 0..=31) names exactly one existing struct, `TokenAccounts{i}`; its i + 1 balances are one for `user` plus one per token field; and it calls `handler_i`, which exists, with arguments that meet that handler's types |

## Left out

- The dynamic-arity interface the integration test calls (`AccountZipper::zip_accounts` and a `Vec` of balances) is not in `programs/zipper/src/lib.rs`. Its account classifier, per-check trace and account-list builder are not modelled either.
- `programs/zipper/tests/spoof.rs` is integration-test plumbing (RPC, keypairs, signing, sleeping) and is not modelled.
- Anchor's account deserialization and owner checks are foreign library code. Lamports, token amounts and keys are given as inputs (`Guard.TokenAccounts`).
- Transaction atomicity and rollback belong to the runtime. The model yields a failure result (`Guard.Outcome.Fail`) and nothing more.
- Panic message formatting and `declare_id!` are not modelled. The failure carries the values the message prints.
- Spans, spacing, hygiene and `quote!` expansion are not modelled. Each generated field and entry point is one opaque token carrying its name and arity, not the token sequence `quote!` produces.
- The read-only property has no separate lemma. `Guard.Handler` is a function, so it cannot write anything. The absence of `mut` on the generated `#[account()]` lives inside the opaque field token.
- `seq!` and `macro_rules!` are not modelled as transformations. Their results are written out: `Program.AccountsAttr(n)` is the literal `seq!` writes for `N`, inside the invisible group in which `macro_rules!` passes a `$num:literal` on, and `Program.AccountsTemplate` and `Program.ModTemplate` are the items the two attributes receive.
- Macros.ParseCount: integer literals carry their base-10 digits, so radix, underscores and suffixes are abstracted away. syn's parse is modelled only as far as these attributes need it: invisible groups are seen through, `-` followed by an integer literal is a negative literal that panics in `base10_parse::<u64>().unwrap()`, and any other stream is a parse error.
- Macros.InstructionDecl: `i as usize + 1` is taken as unbounded. Its overflow at `u64::MAX` would need 2^64 loop iterations first, and is not modelled.
