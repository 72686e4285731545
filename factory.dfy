/** The token factory's symbol registry: each canonical (upper-cased) symbol is
    registered once, to one account, and is never re-assigned. */
module Registry {
  import opened Base

  datatype FactoryError = SymbolUsed

  /** Upper-cases one character; letters outside ASCII are left as they are. */
  function UpperChar(c: char): char {
    if 'a' <= c <= 'z' then (c as int - 'a' as int + 'A' as int) as char else c
  }

  /** The canonical form of a symbol (`String::to_uppercase`, on ASCII letters). */
  function ToUppercase(s: string): (u: string)
    ensures |u| == |s|
    ensures forall i :: 0 <= i < |s| ==> u[i] == UpperChar(s[i])
  {
    seq(|s|, i requires 0 <= i < |s| => UpperChar(s[i]))
  }

  /** `create_token` on the registry map: fails when the canonical symbol is taken. */
  function CreateTokenIn(registry: map<string, AccountId>, symbol: string, account: AccountId)
    : (r: Result<map<string, AccountId>, FactoryError>)
    ensures r.Err? <==> ToUppercase(symbol) in registry
    ensures r.Ok? ==> r.value.Keys == registry.Keys + {ToUppercase(symbol)}
    ensures r.Ok? ==> r.value[ToUppercase(symbol)] == account
    ensures r.Ok? ==> forall k :: k in registry ==> r.value[k] == registry[k]
  {
    var s := ToUppercase(symbol);
    if s in registry then Err(SymbolUsed) else Ok(registry[s := account])
  }

  /** A sequence of `create_token` calls; failed calls leave the registry as it was. */
  function CreateTokens(registry: map<string, AccountId>, calls: seq<(string, AccountId)>): map<string, AccountId>
    decreases |calls|
  {
    if |calls| == 0 then registry
    else
      var next := match CreateTokenIn(registry, calls[0].0, calls[0].1)
        case Ok(updated) => updated
        case Err(_) => registry;
      CreateTokens(next, calls[1..])
  }

  /** Whatever calls follow, a registered symbol keeps its account. */
  lemma {:induction false} RegisteredEntryNeverOverwritten(registry: map<string, AccountId>,
                                                          calls: seq<(string, AccountId)>, key: string)
    requires key in registry
    ensures key in CreateTokens(registry, calls)
    ensures CreateTokens(registry, calls)[key] == registry[key]
    decreases |calls|
  {
    if |calls| > 0 {
      var next := match CreateTokenIn(registry, calls[0].0, calls[0].1)
        case Ok(updated) => updated
        case Err(_) => registry;
      RegisteredEntryNeverOverwritten(next, calls[1..], key);
    }
  }

  /** Two symbols with the same upper-cased form name the same entry: once one
      is registered, no account can claim the other. */
  lemma SymbolsEqualUpToCaseCollide(registry: map<string, AccountId>, a: string, b: string,
                                    account: AccountId, other: AccountId)
    requires ToUppercase(a) == ToUppercase(b)
    requires CreateTokenIn(registry, a, account).Ok?
    ensures CreateTokenIn(CreateTokenIn(registry, a, account).value, b, other) == Err(SymbolUsed)
  {
  }

  /** A concrete pair: "usdc" and "USDC" share the entry "USDC". */
  lemma LowerAndUpperCaseShareEntry()
    ensures ToUppercase("usdc") == ToUppercase("USDC") == "USDC"
  {
    assert ToUppercase("usdc") == "USDC";
  }

  class Factory {
    var registry: map<string, AccountId>

    /** `Factory::new`: an empty registry. */
    constructor ()
      ensures registry == map[]
    {
      registry := map[];
    }

    /** `get_token`: the account registered under the symbol's canonical form. */
    function GetToken(symbol: string): (r: Option<AccountId>)
      reads this
      ensures r.Some? <==> ToUppercase(symbol) in registry
      ensures r.Some? ==> r.value == registry[ToUppercase(symbol)]
    {
      var s := ToUppercase(symbol);
      if s in registry then Some(registry[s]) else None
    }

    /** `create_token`: registers the account under the symbol's canonical form,
        failing with SymbolUsed if that form is already registered. */
    method CreateToken(symbol: string, account: AccountId) returns (r: Result<(), FactoryError>)
      modifies this
      ensures r.Err? <==> ToUppercase(symbol) in old(registry)
      ensures r.Err? ==> r.error == SymbolUsed && registry == old(registry)
      ensures r.Ok? ==> registry == old(registry)[ToUppercase(symbol) := account]
      ensures r.Ok? ==> GetToken(symbol) == Some(account)
      ensures match CreateTokenIn(old(registry), symbol, account)
        case Ok(updated) => r.Ok? && registry == updated
        case Err(e) => r == Err(e) && registry == old(registry)
    {
      var s := ToUppercase(symbol);
      if s in registry {
        return Err(SymbolUsed);
      }
      registry := registry[s := account];
      return Ok(());
    }
  }

  /** A new factory knows no symbol. */
  method NewFactoryIsEmpty(symbol: string) returns (found: Option<AccountId>)
    ensures found == None
  {
    var f := new Factory();
    found := f.GetToken(symbol);
  }
}
