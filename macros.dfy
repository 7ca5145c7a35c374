/** The two attribute macros of `zipper_macros`: `#[token_account_struct(k)]`
    builds the account struct for k token accounts, `#[verify(k)]` builds the
    entry points `verify_0 ..= verify_k`. Each parses its attribute argument
    and then walks the top-level token trees of the item once, in order,
    remembering whether its keyword (`struct`, `mod`) has gone by. */
module Macros {
  import opened Unsigned
  import opened TokenTrees

  /** The attribute argument after `TokenAccountInput::parse` or
      `InstructionInput::parse`: a count, a syn parse error (the macro then
      expands to a compile error), or a panic of `base10_parse().unwrap()`. */
  datatype Input = Count(n: U64) | ParseError | Panic

  /** What a macro invocation yields. */
  datatype Expansion = Expanded(tokens: seq<Token>) | CompileError | Panicked

  /** The tokens syn's cursor sees in a stream: it steps into every invisible
      (`Delimiter::None`) group and out of it again at its end, so such a group
      reads as its own contents. */
  function Visible(ts: seq<Token>): seq<Token> {
    if ts == [] then []
    else (if IsInvisibleGroup(ts[0]) then Visible(ts[0].stream) else [ts[0]]) + Visible(ts[1..])
  }

  /** The cursor never stops on an invisible group, and a stream without one
      reads as itself. */
  lemma {:induction false} VisibleFlat(ts: seq<Token>)
    ensures forall t :: t in Visible(ts) ==> !IsInvisibleGroup(t)
    ensures (forall t :: t in ts ==> !IsInvisibleGroup(t)) ==> Visible(ts) == ts
  {
    if ts != [] {
      if IsInvisibleGroup(ts[0]) {
        VisibleFlat(ts[0].stream);
      }
      VisibleFlat(ts[1..]);
      if forall t :: t in ts ==> !IsInvisibleGroup(t) {
        assert forall t :: t in ts[1..] ==> t in ts;
        assert ts == [ts[0]] + ts[1..];
      }
    }
  }

  predicate IsIntLit(t: Token) {
    t.Lit? && t.lit.IntLit?
  }

  /** `input.parse::<syn::LitInt>()` followed by `base10_parse::<u64>().unwrap()`,
      with `parse_macro_input!` rejecting any token left over. The attribute
      must read as one integer literal whose value fits a `u64`; syn also reads
      `-` followed by an integer literal as a negative `LitInt`, which
      `base10_parse::<u64>` rejects, so `unwrap` panics on it. */
  function ParseCount(attr: seq<Token>): Input {
    var ts := Visible(attr);
    if |ts| == 1 && IsIntLit(ts[0]) then
      var v := Value(ts[0].lit.digits);
      if v < U64Limit then Count(v) else Panic
    else if |ts| == 2 && ts[0] == Punct('-') && IsIntLit(ts[1]) then
      Panic
    else
      ParseError
  }

  /** The literal `seq!` writes for a count is read back as that count, bare or
      inside the invisible group `macro_rules!` wraps a `$num:literal` in; its
      negation panics. An attribute that does not read as one integer literal,
      negated or not, is a parse error; one whose value does not fit a `u64`
      panics; otherwise the count is the literal's value. */
  lemma ParseCountCases(attr: seq<Token>, n: U64)
    ensures ParseCount([Lit(IntLit(Format(n)))]) == Count(n)
    ensures ParseCount([Group(NoDelimiter, [Lit(IntLit(Format(n)))])]) == Count(n)
    ensures ParseCount([Punct('-'), Lit(IntLit(Format(n)))]) == Panic
    ensures ParseCount(attr).ParseError? <==>
              !(|Visible(attr)| == 1 && IsIntLit(Visible(attr)[0])) &&
              !(|Visible(attr)| == 2 && Visible(attr)[0] == Punct('-') && IsIntLit(Visible(attr)[1]))
    ensures ParseCount(attr).Panic? <==>
              (|Visible(attr)| == 1 && IsIntLit(Visible(attr)[0]) && Value(Visible(attr)[0].lit.digits) >= U64Limit) ||
              (|Visible(attr)| == 2 && Visible(attr)[0] == Punct('-') && IsIntLit(Visible(attr)[1]))
    ensures ParseCount(attr).Count? ==>
              |Visible(attr)| == 1 && IsIntLit(Visible(attr)[0]) &&
              ParseCount(attr).n == Value(Visible(attr)[0].lit.digits)
  {
    ValueOfFormat(n);
    var lit := Lit(IntLit(Format(n)));
    assert Visible([lit]) == [lit];
    assert Visible([Group(NoDelimiter, [lit])]) == Visible([lit]) + Visible([]);
    assert Visible([Punct('-'), lit]) == [Punct('-'), lit];
  }

  /** An invisible group around the whole attribute changes nothing. */
  lemma InvisibleGroupTransparent(attr: seq<Token>)
    ensures ParseCount([Group(NoDelimiter, attr)]) == ParseCount(attr)
  {
    assert Visible([Group(NoDelimiter, attr)]) == Visible(attr) + Visible([]);
  }

  /** `format!("{}{}", "TokenAccounts", n)` */
  function AccountsName(n: nat): string {
    "TokenAccounts" + Format(n)
  }

  /** `format!("token_account_{}", i)` */
  function FieldName(i: nat): string {
    "token_account_" + Format(i)
  }

  /** `format!("verify_{}", i)` */
  function InstructionName(i: nat): string {
    "verify_" + Format(i)
  }

  /** `format!("handler_{}", i)` */
  function HandlerName(i: nat): string {
    "handler_" + Format(i)
  }

  /** The fields `token_account_struct` pushes for `1..=count`, in that order. */
  function AccountFields(count: nat): (fields: seq<Token>)
    ensures |fields| == count
    ensures forall j :: 0 <= j < count ==> fields[j] == Generated(AccountField(FieldName(j + 1)))
  {
    if count == 0 then [] else AccountFields(count - 1) + [Generated(AccountField(FieldName(count)))]
  }

  /** The entry point `verify` emits for index `i`: it takes
      `Context<TokenAccounts{i}>` and `[u64; i + 1]` and calls `handler_{i}`. */
  function InstructionDecl(i: nat): Decl {
    Instruction(InstructionName(i), AccountsName(i), i + 1, HandlerName(i))
  }

  /** The entry points `verify` pushes for `0..=count`, in that order. */
  function Instructions(count: nat): (decls: seq<Token>)
    ensures |decls| == count + 1
    ensures forall i :: 0 <= i <= count ==> decls[i] == Generated(InstructionDecl(i))
  {
    if count == 0 then [Generated(InstructionDecl(0))]
    else Instructions(count - 1) + [Generated(InstructionDecl(count))]
  }

  /** Which of the two macros walks the item, with its parsed count. */
  datatype Rewrite = StructRewrite(fieldCount: U64) | ModRewrite(instructionCount: U64) {

    /** The keyword that switches brace-group rewriting on. */
    function Keyword(): string {
      if StructRewrite? then "struct" else "mod"
    }

    /** The match arms of the macro's `map` closure, given the flag as it
        stands when token `t` is reached. */
    function Rule(found: bool, t: Token): Token {
      match this
      case StructRewrite(n) =>
        if t == Ident("struct") then t
        else if t == Ident("TokenAccounts") then Ident(AccountsName(n))
        else if IsBraceGroup(t) && found then Group(Brace, AccountFields(n) + t.stream)
        else t
      case ModRewrite(n) =>
        if t == Ident("mod") then t
        else if IsBraceGroup(t) && found then Group(Brace, Instructions(n) + t.stream)
        else t
    }
  }

  /** The walk over the item's top-level tokens, `found` being the flag on entry. */
  function Scan(rw: Rewrite, item: seq<Token>, found: bool): (out: seq<Token>)
    ensures |out| == |item|
  {
    if item == [] then []
    else [rw.Rule(found, item[0])] + Scan(rw, item[1..], found || item[0] == Ident(rw.Keyword()))
  }

  /** Token `i` of the walk's output is token `i` of the input under the rule,
      with the flag set exactly when the keyword occurs before position `i`. */
  lemma {:induction false} ScanAt(rw: Rewrite, item: seq<Token>, found: bool, i: nat)
    requires i < |item|
    ensures Scan(rw, item, found)[i] == rw.Rule(found || Ident(rw.Keyword()) in item[..i], item[i])
  {
    if i > 0 {
      var rest := item[1..];
      ScanAt(rw, rest, found || item[0] == Ident(rw.Keyword()), i - 1);
      assert item[..i] == [item[0]] + rest[..i - 1];
    }
  }

  /** `#[token_account_struct(attr)] item` */
  function StructMacro(attr: seq<Token>, item: seq<Token>): Expansion {
    match ParseCount(attr)
    case ParseError => CompileError
    case Panic => Panicked
    case Count(n) => Expanded(Scan(StructRewrite(n), item, false))
  }

  /** `#[verify(attr)] item` */
  function VerifyMacro(attr: seq<Token>, item: seq<Token>): Expansion {
    match ParseCount(attr)
    case ParseError => CompileError
    case Panic => Panicked
    case Count(n) => Expanded(Scan(ModRewrite(n), item, false))
  }

  /** What `token_account_struct` does to each top-level token: the output has
      as many top-level tokens as the input; every `TokenAccounts` is renamed
      to `TokenAccounts{n}`; a brace group after `struct` gets the n fields in
      front of its own contents; every other token, every other identifier and
      every brace group before `struct` included, comes out unchanged. */
  lemma StructRewriteSpec(n: U64, item: seq<Token>, i: nat)
    requires i < |item|
    ensures |Scan(StructRewrite(n), item, false)| == |item|
    ensures item[i] == Ident("TokenAccounts") ==>
              Scan(StructRewrite(n), item, false)[i] == Ident(AccountsName(n))
    ensures IsBraceGroup(item[i]) && Ident("struct") in item[..i] ==>
              Scan(StructRewrite(n), item, false)[i] == Group(Brace, AccountFields(n) + item[i].stream)
    ensures item[i] != Ident("TokenAccounts") && !(IsBraceGroup(item[i]) && Ident("struct") in item[..i]) ==>
              Scan(StructRewrite(n), item, false)[i] == item[i]
  {
    ScanAt(StructRewrite(n), item, false, i);
  }

  /** What `verify` does to each top-level token: a brace group after `mod`
      gets the entry points `verify_0 ..= verify_n` in front of its own items;
      every other token comes out unchanged. */
  lemma ModRewriteSpec(n: U64, item: seq<Token>, i: nat)
    requires i < |item|
    ensures |Scan(ModRewrite(n), item, false)| == |item|
    ensures Scan(ModRewrite(n), item, false)[i] ==
              if IsBraceGroup(item[i]) && Ident("mod") in item[..i]
              then Group(Brace, Instructions(n) + item[i].stream)
              else item[i]
  {
    ScanAt(ModRewrite(n), item, false, i);
  }

  /** The fold of `token_account_struct`: one field per `i` in `1..=count`. */
  method FieldDecls(fieldCount: U64) returns (fields: seq<Token>)
    ensures fields == AccountFields(fieldCount)
  {
    fields := [];
    var i: nat := 1;
    while i <= fieldCount
      invariant 1 <= i <= fieldCount + 1
      invariant fields == AccountFields(i - 1)
    {
      fields := fields + [Generated(AccountField(FieldName(i)))];
      i := i + 1;
    }
  }

  /** The fold of `verify`: one entry point per `i` in `0..=count`. */
  method InstructionDecls(instructionCount: U64) returns (decls: seq<Token>)
    ensures decls == Instructions(instructionCount)
  {
    decls := [];
    var i: nat := 0;
    while i <= instructionCount
      invariant 0 <= i <= instructionCount + 1
      invariant i == 0 ==> decls == []
      invariant i > 0 ==> decls == Instructions(i - 1)
    {
      decls := decls + [Generated(InstructionDecl(i))];
      i := i + 1;
    }
  }

  /** `item.into_iter().map(...).collect()` of `token_account_struct`: the walk
      with the `found_struct` flag. */
  method StructItems(fieldCount: U64, item: seq<Token>) returns (out: seq<Token>)
    ensures out == Scan(StructRewrite(fieldCount), item, false)
  {
    var foundStruct := false;
    out := [];
    var i := 0;
    while i < |item|
      invariant 0 <= i <= |item|
      invariant foundStruct == (Ident("struct") in item[..i])
      invariant |out| == i
      invariant forall j :: 0 <= j < i ==> out[j] == Scan(StructRewrite(fieldCount), item, false)[j]
    {
      var t := item[i];
      if t == Ident("struct") {
        foundStruct := true;
      } else if t == Ident("TokenAccounts") {
        t := Ident(AccountsName(fieldCount));
      } else if t.Group? && t.delimiter == Brace && foundStruct {
        var fields := FieldDecls(fieldCount);
        t := Group(Brace, fields + t.stream);
      }
      ScanAt(StructRewrite(fieldCount), item, false, i);
      assert t == Scan(StructRewrite(fieldCount), item, false)[i];
      out := out + [t];
      assert item[..i + 1] == item[..i] + [item[i]];
      i := i + 1;
    }
  }

  /** `token_account_struct(attr, item)` */
  method TokenAccountStruct(attr: seq<Token>, item: seq<Token>) returns (r: Expansion)
    ensures r == StructMacro(attr, item)
  {
    var input := ParseCount(attr);
    if input.ParseError? {
      return CompileError;
    } else if input.Panic? {
      return Panicked;
    }
    var out := StructItems(input.n, item);
    return Expanded(out);
  }

  /** `item.into_iter().map(...).collect()` of `verify`: the walk with the
      `found_mod` flag. */
  method ModItems(instructionCount: U64, item: seq<Token>) returns (out: seq<Token>)
    ensures out == Scan(ModRewrite(instructionCount), item, false)
  {
    var foundMod := false;
    out := [];
    var i := 0;
    while i < |item|
      invariant 0 <= i <= |item|
      invariant foundMod == (Ident("mod") in item[..i])
      invariant |out| == i
      invariant forall j :: 0 <= j < i ==> out[j] == Scan(ModRewrite(instructionCount), item, false)[j]
    {
      var t := item[i];
      if t == Ident("mod") {
        foundMod := true;
      } else if t.Group? && t.delimiter == Brace && foundMod {
        var decls := InstructionDecls(instructionCount);
        t := Group(Brace, decls + t.stream);
      }
      ScanAt(ModRewrite(instructionCount), item, false, i);
      assert t == Scan(ModRewrite(instructionCount), item, false)[i];
      out := out + [t];
      assert item[..i + 1] == item[..i] + [item[i]];
      i := i + 1;
    }
  }

  /** `verify(attr, item)` */
  method Verify(attr: seq<Token>, item: seq<Token>) returns (r: Expansion)
    ensures r == VerifyMacro(attr, item)
  {
    var input := ParseCount(attr);
    if input.ParseError? {
      return CompileError;
    } else if input.Panic? {
      return Panicked;
    }
    var out := ModItems(input.n, item);
    return Expanded(out);
  }
}
