/** `CoinManager`: the process-wide set of symbols claimed by some bot. Names are
    stored upper-cased; an empty name (Python's falsy `""` or `None`) is ignored.
    Each locked section of the source is one method here. */
module Registry {
  import opened Common

  /** `is_coin_active` on a given set. */
  predicate Claimed(coins: set<string>, symbol: string) {
    symbol != "" && Upper(symbol) in coins
  }

  /** The set after `register_coin(symbol)`. */
  function Registered(coins: set<string>, symbol: string): set<string> {
    if symbol == "" then coins else coins + {Upper(symbol)}
  }

  /** The set after `unregister_coin(symbol)`. */
  function Unregistered(coins: set<string>, symbol: string): set<string> {
    if symbol == "" then coins else coins - {Upper(symbol)}
  }

  /** Claims are case-insensitive: a name and its upper-cased form are claimed together. */
  lemma ClaimedIgnoresCase(coins: set<string>, symbol: string)
    ensures Claimed(coins, symbol) == Claimed(coins, Upper(symbol))
  {
    UpperIdempotent(symbol);
    assert symbol == "" <==> Upper(symbol) == "";
  }

  /** After registering a name, it is claimed under any spelling of its case; after
      unregistering it, under none; other claims are untouched by both. */
  lemma RegisterUnregister(coins: set<string>, symbol: string, other: string)
    requires symbol != "" && Upper(other) == Upper(symbol)
    ensures Claimed(Registered(coins, symbol), other)
    ensures !Claimed(Unregistered(coins, symbol), other)
    ensures forall c :: c in coins && c != Upper(symbol) ==> c in Unregistered(coins, symbol) && c in Registered(coins, symbol)
  {
    assert |Upper(other)| == |Upper(symbol)| > 0;
  }

  class CoinManager {
    var activeCoins: set<string>

    /** Every stored name is upper-case. */
    ghost predicate Valid()
      reads this
    {
      forall c :: c in activeCoins ==> IsUpper(c)
    }

    constructor ()
      ensures Valid() && activeCoins == {}
    {
      activeCoins := {};
    }

    method RegisterCoin(symbol: string)
      requires Valid()
      modifies this
      ensures Valid()
      ensures activeCoins == Registered(old(activeCoins), symbol)
    {
      if symbol == "" {
        return;
      }
      UpperIdempotent(symbol);
      activeCoins := activeCoins + {Upper(symbol)};
    }

    method UnregisterCoin(symbol: string)
      requires Valid()
      modifies this
      ensures Valid()
      ensures activeCoins == Unregistered(old(activeCoins), symbol)
    {
      if symbol == "" {
        return;
      }
      activeCoins := activeCoins - {Upper(symbol)};
    }

    method IsCoinActive(symbol: string) returns (active: bool)
      ensures active <==> symbol != "" && Upper(symbol) in activeCoins
    {
      if symbol == "" {
        return false;
      }
      active := Upper(symbol) in activeCoins;
    }

    /** `list(self.active_coins)`: a fresh list holding each claimed name once. */
    method GetActiveCoins() returns (coins: seq<string>)
      ensures forall c :: c in coins <==> c in activeCoins
      ensures Distinct(coins)
      ensures |coins| == |activeCoins|
    {
      coins := [];
      var rest := activeCoins;
      while rest != {}
        invariant rest <= activeCoins
        invariant forall c :: c in coins ==> c in activeCoins && c !in rest
        invariant forall c :: c in activeCoins ==> c in coins || c in rest
        invariant Distinct(coins)
        invariant |coins| + |rest| == |activeCoins|
        decreases |rest|
      {
        var c :| c in rest;
        DistinctSnoc(coins, c);
        coins := coins + [c];
        rest := rest - {c};
      }
    }
  }

  lemma DistinctSnoc<T>(s: seq<T>, x: T)
    requires Distinct(s) && x !in s
    ensures Distinct(s + [x])
  {
  }
}
