/** An abstract view of `proc_macro` token trees: the input and the output of
    the two attribute macros. Spans, spacing and hygiene are not represented. */
module TokenTrees {
  import opened Unsigned

  /** `proc_macro::Delimiter` */
  datatype Delimiter = Parenthesis | Brace | Bracket | NoDelimiter

  /** A literal token. An integer literal carries its base-10 digits (leading
      zeros, underscores and type suffix already dealt with, as syn's
      `base10_digits` does); every other literal is kept as text. */
  datatype Literal =
    | IntLit(digits: Digits)
    | OtherLit(text: string)

  /** A declaration that one of the macros emits through `quote!`, kept as one
      opaque token that carries its name and its arity:
      - `AccountField(name)`: `#[account()] pub <name>: Box<Account<'info, TokenAccount>>,`
      - `Instruction(name, accounts, balancesLen, handler)`:
        `pub fn <name>(ctx: Context<<accounts>>, balances: [u64; <balancesLen>]) -> Result<()> { <handler>(ctx, balances) }` */
  datatype Decl =
    | AccountField(name: string)
    | Instruction(name: string, accounts: string, balancesLen: nat, handler: string)

  /** `proc_macro::TokenTree`, plus the generated declarations above. */
  datatype Token =
    | Ident(name: string)
    | Punct(ch: char)
    | Lit(lit: Literal)
    | Group(delimiter: Delimiter, stream: seq<Token>)
    | Generated(decl: Decl)

  predicate IsBraceGroup(t: Token) {
    t.Group? && t.delimiter == Brace
  }

  /** A group without delimiters, as `macro_rules!` wraps a substituted fragment. */
  predicate IsInvisibleGroup(t: Token) {
    t.Group? && t.delimiter == NoDelimiter
  }
}
