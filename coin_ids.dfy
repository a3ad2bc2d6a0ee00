/** Turning a user's coin symbol or CoinGecko id into a CoinGecko id. */
module CoinIds {
  import opened Text

  /** The common ticker symbols and the CoinGecko id each stands for
      ("mon" is taken to mean Monero). */
  const SymbolToId: map<string, string> := map[
    "btc" := "bitcoin",
    "eth" := "ethereum",
    "mon" := "monero",
    "usdt" := "tether",
    "bnb" := "binancecoin",
    "sol" := "solana",
    "xrp" := "ripple",
    "ada" := "cardano",
    "doge" := "dogecoin"
  ]

  /** No id in the table is itself a symbol of the table. */
  lemma IdsAreNotSymbols()
    ensures forall s :: s in SymbolToId ==> SymbolToId[s] !in SymbolToId
  {
    forall s | s in SymbolToId ensures SymbolToId[s] !in SymbolToId {
      assert s in {"btc", "eth", "mon", "usdt", "bnb", "sol", "xrp", "ada", "doge"};
    }
  }

  /** Every id in the table is lower-case. */
  lemma IdsAreLowerCase()
    ensures forall s :: s in SymbolToId ==> IsLowerCase(SymbolToId[s])
  {
    forall s | s in SymbolToId ensures IsLowerCase(SymbolToId[s]) {
      assert s in {"btc", "eth", "mon", "usdt", "bnb", "sol", "xrp", "ada", "doge"};
    }
  }


  /** The lower-cased input's id when it is a known symbol, otherwise the
      lower-cased input itself, taken to be an id already. The result is
      always lower-case, it is the lower-cased input exactly when that is not
      a known symbol, and a known symbol gives its own id. */
  function ResolveCoinId(symbolOrId: string): (r: string)
    ensures IsLowerCase(r)
    ensures r == Lower(symbolOrId) <==> Lower(symbolOrId) !in SymbolToId
    ensures Lower(symbolOrId) in SymbolToId ==> r == SymbolToId[Lower(symbolOrId)]
  {
    var key := Lower(symbolOrId);
    LowerIsLowerCase(symbolOrId);
    IdsAreNotSymbols();
    IdsAreLowerCase();
    if key in SymbolToId then SymbolToId[key] else key
  }

  /** The symbols of the table are lower-case. */
  lemma SymbolsAreLowerCase()
    ensures forall s :: s in SymbolToId ==> IsLowerCase(s)
  {
    forall s | s in SymbolToId ensures IsLowerCase(s) {
      assert s in {"btc", "eth", "mon", "usdt", "bnb", "sol", "xrp", "ada", "doge"};
    }
  }

  /** Every symbol of the table, as written there, resolves to its own id. */
  lemma TableSymbolsResolve()
    ensures forall s :: s in SymbolToId ==> ResolveCoinId(s) == SymbolToId[s]
  {
    forall s | s in SymbolToId ensures ResolveCoinId(s) == SymbolToId[s] {
      SymbolsAreLowerCase();
      LowerIsLowerCase(s);
    }
  }

  /** Symbols are matched whatever their case. */
  lemma CaseInsensitive(s: string, t: string)
    requires Lower(s) == Lower(t)
    ensures ResolveCoinId(s) == ResolveCoinId(t)
  {
  }

  /** Resolving an id that came out of `ResolveCoinId` changes nothing. */
  lemma Idempotent(symbolOrId: string)
    ensures ResolveCoinId(ResolveCoinId(symbolOrId)) == ResolveCoinId(symbolOrId)
  {
    var r := ResolveCoinId(symbolOrId);
    LowerIsLowerCase(r);
    IdsAreNotSymbols();
  }

  /** Different known symbols resolve to different ids. */
  lemma KnownSymbolsDistinct(s: string, t: string)
    requires s in SymbolToId && t in SymbolToId && s != t
    ensures SymbolToId[s] != SymbolToId[t]
  {
    assert s in {"btc", "eth", "mon", "usdt", "bnb", "sol", "xrp", "ada", "doge"};
    assert t in {"btc", "eth", "mon", "usdt", "bnb", "sol", "xrp", "ada", "doge"};
  }

  /** Examples: a symbol in any case, and an id that is not a symbol. */
  lemma Examples()
    ensures ResolveCoinId("BTC") == "bitcoin"
    ensures ResolveCoinId("Eth") == "ethereum"
    ensures ResolveCoinId("doge") == "dogecoin"
    ensures ResolveCoinId("Bitcoin") == "bitcoin"
  {
    assert Lower("BTC") == "btc";
    assert Lower("Eth") == "eth";
    assert Lower("doge") == "doge";
    assert Lower("Bitcoin") == "bitcoin";
    assert "bitcoin" !in SymbolToId;
  }

  /** The symbols the route tests look up: btc, eth, sol and xrp. */
  lemma TestedSymbols()
    ensures ResolveCoinId("btc") == "bitcoin"
    ensures ResolveCoinId("eth") == "ethereum"
    ensures ResolveCoinId("sol") == "solana"
    ensures ResolveCoinId("xrp") == "ripple"
  {
    assert Lower("btc") == "btc";
    assert Lower("eth") == "eth";
    assert Lower("sol") == "sol";
    assert Lower("xrp") == "xrp";
  }
}
