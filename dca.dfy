/** The DCA playbook (neobabix/playbooks/dca.py): long-only; its entry hook
    checks the free balance of the symbol's quote currency against MODAL_DUID,
    and none of its hooks places an order. */
module Dca {
  import opened Common
  import opened Playbooks

  // ---------------------------------------------------------------------------
  // Symbols

  /** str.split(c): the pieces of s between the occurrences of c. */
  function Split(s: string, c: char): (parts: seq<string>)
    ensures |parts| >= 1
    decreases |s|
  {
    match IndexOf(s, c)
    case None => [s]
    case Some(k) => [s[..k]] + Split(s[k + 1..], c)
  }

  /** c.join(parts). */
  function Join(parts: seq<string>, c: char): string
    requires |parts| >= 1
  {
    if |parts| == 1 then parts[0] else parts[0] + [c] + Join(parts[1..], c)
  }

  /** Joining the pieces with the separator gives back the string. */
  lemma {:induction false} JoinSplit(s: string, c: char)
    ensures Join(Split(s, c), c) == s
    decreases |s|
  {
    SplitFirst(s, c);
    if IndexOf(s, c).Some? {
      var k := IndexOf(s, c).value;
      var tail := s[k + 1..];
      calc {
        Join(Split(s, c), c);
        Join([s[..k]] + Split(tail, c), c);
        { assert ([s[..k]] + Split(tail, c))[1..] == Split(tail, c); }
        s[..k] + [c] + Join(Split(tail, c), c);
        { JoinSplit(tail, c); }
        s[..k] + [c] + tail;
        s;
      }
    }
  }

  /** The first piece is everything before the first separator. */
  lemma SplitFirst(s: string, c: char)
    ensures IndexOf(s, c).None? ==> Split(s, c) == [s]
    ensures IndexOf(s, c).Some? ==> (Split(s, c)[0] == s[..IndexOf(s, c).value] &&
      Split(s, c)[1..] == Split(s[IndexOf(s, c).value + 1..], c))
  {
  }

  /** base_currency: the second '/'-separated piece of the symbol, that is the
      text after the first '/' up to the next '/' or the end; IndexError when
      the symbol has no '/'. */
  function BaseCurrency(symbol: string): (r: Result<string>)
    ensures r.Ok? <==> '/' in symbol
    ensures r.Err? ==> r.error == IndexError
    ensures r.Ok? ==> var rest := symbol[IndexOf(symbol, '/').value + 1..];
      '/' !in r.value && r.value <= rest && (|r.value| == |rest| || rest[|r.value|] == '/')
  {
    var parts := Split(symbol, '/');
    if |parts| < 2 then Err(IndexError)
    else
      SplitFirst(symbol, '/');
      var rest := symbol[IndexOf(symbol, '/').value + 1..];
      SplitFirst(rest, '/');
      Ok(parts[1])
  }

  lemma BaseCurrencyOfPair()
    ensures BaseCurrency("BTC/USD") == Ok("USD")
  {
    BaseCurrencyOfPieces("BTC", "USD", "");
    assert "BTC" + "/" + "USD" == "BTC/USD";
  }

  /** The first separator in a + [c] + t is the one after a, when a has none. */
  lemma {:induction false} IndexOfAfter(a: string, c: char, t: string)
    requires c !in a
    ensures IndexOf(a + [c] + t, c) == Some(|a|)
  {
    if a != [] {
      assert (a + [c] + t)[1..] == a[1..] + [c] + t;
      IndexOfAfter(a[1..], c, t);
    }
  }

  /** For pieces a and b without '/', the quote currency of a/b, and of a/b/rest
      whatever rest holds, is b. */
  lemma BaseCurrencyOfPieces(a: string, b: string, rest: string)
    requires '/' !in a && '/' !in b
    ensures BaseCurrency(a + "/" + b) == Ok(b)
    ensures BaseCurrency(a + "/" + b + "/" + rest) == Ok(b)
  {
    IndexOfAfter(a, '/', b);
    assert a + "/" + b == a + ['/'] + b;
    assert (a + "/" + b)[|a| + 1..] == b;
    SplitFirst(a + "/" + b, '/');
    assert IndexOf(b, '/') == None;
    SplitFirst(b, '/');
    IndexOfAfter(a, '/', b + "/" + rest);
    assert a + "/" + b + "/" + rest == a + ['/'] + (b + "/" + rest);
    assert (a + "/" + b + "/" + rest)[|a| + 1..] == b + "/" + rest;
    SplitFirst(a + "/" + b + "/" + rest, '/');
    IndexOfAfter(b, '/', rest);
    assert b + "/" + rest == b + ['/'] + rest;
    assert (b + "/" + rest)[..|b|] == b;
    SplitFirst(b + "/" + rest, '/');
  }

  lemma BaseCurrencyWithoutSeparator()
    ensures BaseCurrency("BTCUSD") == Err(IndexError)
  {
    assert '/' !in "BTCUSD";
  }

  // ---------------------------------------------------------------------------
  // Balance

  /** free_balance over the reply of fetch_free_balance (None, or a map from
      currency codes to amounts that may be None): zero when the reply is empty
      or the upper-cased quote currency has no non-zero amount, that amount
      otherwise. The quote currency is only read for a non-empty reply. */
  function FreeBalance(fetched: Option<map<string, Option<real>>>, symbol: string): (r: Result<real>)
    ensures (fetched.None? || fetched.value == map[]) ==> r == Ok(0.0)
    ensures r.Err? ==> r == Err(IndexError) && fetched.Some? && fetched.value != map[] && '/' !in symbol
    ensures r.Ok? && r.value != 0.0 ==> (fetched.Some? && '/' in symbol &&
      var key := Upper(BaseCurrency(symbol).value);
      key in fetched.value && fetched.value[key] == Some(r.value))
  {
    if fetched.None? || fetched.value == map[] then Ok(0.0)
    else
      var base :- BaseCurrency(symbol);
      var key := Upper(base);
      if key !in fetched.value || fetched.value[key].None? || fetched.value[key] == Some(0.0) then Ok(0.0)
      else Ok(fetched.value[key].value)
  }

  /** A non-zero amount for the symbol's quote currency is the balance. */
  lemma FreeBalanceReadsQuote(fetched: map<string, Option<real>>, symbol: string, amount: real)
    requires '/' in symbol && amount != 0.0
    requires Upper(BaseCurrency(symbol).value) in fetched && fetched[Upper(BaseCurrency(symbol).value)] == Some(amount)
    ensures FreeBalance(Some(fetched), symbol) == Ok(amount)
  {
  }

  /** The quote currency is upper-cased before the lookup. */
  lemma FreeBalanceUpperCases()
    ensures FreeBalance(Some(map["USD" := Some(250.0), "BTC" := Some(0.5)]), "btc/usd") == Ok(250.0)
  {
    LowerPairQuote();
    UpperUsd();
    var m := map["USD" := Some(250.0), "BTC" := Some(0.5)];
    assert "USD" in m && m["USD"] == Some(250.0);
    FreeBalanceReadsQuote(m, "btc/usd", 250.0);
  }

  lemma LowerPairQuote()
    ensures '/' in "btc/usd" && BaseCurrency("btc/usd") == Ok("usd")
  {
    BaseCurrencyOfPieces("btc", "usd", "");
    assert "btc" + "/" + "usd" == "btc/usd";
  }

  lemma UpperUsd()
    ensures Upper("usd") == "USD"
  {
    assert Upper("d") == "D";
    assert Upper("sd") == "SD";
  }

  /** A None amount and a missing currency both read as zero. */
  lemma FreeBalanceMissingIsZero()
    ensures FreeBalance(Some(map["USD" := None]), "BTC/USD") == Ok(0.0)
    ensures FreeBalance(Some(map["EUR" := Some(5.0)]), "BTC/USD") == Ok(0.0)
  {
    BaseCurrencyOfPair();
    assert Upper("USD") == "USD";
  }

  /** entry's gate: the trade is declined when the balance is zero or below MODAL_DUID. */
  predicate Declines(balance: real, modalDuid: real)
  {
    balance == 0.0 || balance < modalDuid
  }

  /** For a positive MODAL_DUID the zero test adds nothing: the trade is declined
      exactly when the balance is below MODAL_DUID. For a non-positive one a
      zero balance is still declined. */
  lemma DeclinesBelowModal(balance: real, modalDuid: real)
    ensures modalDuid > 0.0 ==> (Declines(balance, modalDuid) <==> balance < modalDuid)
    ensures modalDuid <= 0.0 ==> (Declines(balance, modalDuid) <==> balance == 0.0 || balance < modalDuid)
    ensures Declines(0.0, modalDuid)
  {
  }

  // ---------------------------------------------------------------------------
  // The playbook object

  class DCA {
    const base: Playbook
    const action: Action
    /** MODAL_DUID, which dca.py reads from the environment when it is imported. */
    const modalDuid: real

    constructor (base: Playbook, action: Action, modalDuid: real)
      requires action != Short
      ensures this.base == base && this.action == action && this.modalDuid == modalDuid
    {
      this.base := base;
      this.action := action;
      this.modalDuid := modalDuid;
    }

    /** __init__: the playbook base takes the trade lock, then a SHORT action is
        refused, leaving the lock taken. */
    static method Build(action: Action, lock: TradeLock, symbol: string, timeframe: string, recursive: bool,
                        marketOrders: bool, modalDuid: real)
      returns (r: Result<DCA>)
      modifies lock
      ensures lock.locked
      ensures action == Short ==> r == Err(RuntimeError("DCA Playbook is not configured to Short"))
      ensures action != Short ==> (r.Ok? && fresh(r.value) && fresh(r.value.base) && r.value.action == action &&
        r.value.modalDuid == modalDuid && r.value.base.lock == lock && r.value.base.symbol == symbol &&
        r.value.base.recursive == recursive && r.value.base.marketOrders == marketOrders &&
        r.value.base.trace == (if old(lock.locked) then [] else [LockAcquired]))
    {
      var base := new Playbook(lock, symbol, timeframe, recursive, marketOrders);
      if action == Short {
        return Err(RuntimeError("DCA Playbook is not configured to Short"));
      }
      var d := new DCA(base, action, modalDuid);
      r := Ok(d);
    }

    /** entry(): reads the free balance and declines when it is not enough; in
        neither case is an order placed. declined reports the branch that logs
        the refusal; a symbol without '/' makes a non-empty balance reply raise. */
    method Entry(fetched: Option<map<string, Option<real>>>) returns (o: Outcome, declined: bool)
      ensures var b := FreeBalance(fetched, base.symbol);
        (b.Err? ==> o == Fail(b.error) && !declined) &&
        (b.Ok? ==> o == Pass && declined == Declines(b.value, modalDuid))
    {
      var balance := FreeBalance(fetched, base.symbol);
      if balance.Err? {
        return Fail(balance.error), false;
      }
      o := Pass;
      declined := Declines(balance.value, modalDuid);
    }

    /** after_entry(): nothing ever assigns order_entry, so reading it raises. */
    method AfterEntry() returns (o: Outcome)
      ensures o == Fail(NoAttribute("DCA", "order_entry"))
    {
      o := Fail(NoAttribute("DCA", "order_entry"));
    }

    /** exit() and after_exit() only log. */
    method Exit() returns (o: Outcome)
      ensures o == Pass
    {
      o := Pass;
    }

    method AfterExit() returns (o: Outcome)
      ensures o == Pass
    {
      o := Pass;
    }

    /** play() with DCA's own hooks: entry, then after_entry, which always raises,
        so exit and after_exit never run, no order is placed and the lock is
        never released, recursive or not. */
    method Play(fetched: Option<map<string, Option<real>>>) returns (o: Outcome)
      modifies base
      ensures var b := FreeBalance(fetched, base.symbol);
        var failed := if b.Err? then HookFailure(EntryHook, b.error)
                      else HookFailure(AfterEntryHook, NoAttribute("DCA", "order_entry"));
        o == Fail(failed.error) && base.trace == old(base.trace) + HooksRun(Some(failed))
      ensures base.lock.locked == old(base.lock.locked)
    {
      var _ := base.StartHook(EntryHook, None);
      var declined;
      o, declined := Entry(fetched);
      if o.Fail? {
        return;
      }
      var _ := base.StartHook(AfterEntryHook, None);
      o := AfterEntry();
    }

    /** The price properties are all None. */
    function ExitPrice(): (p: Option<real>)
      ensures p.None?
    {
      None
    }

    function StopPrice(): (p: Option<real>)
      ensures p.None?
    {
      None
    }

    function StopActionPrice(): (p: Option<real>)
      ensures p.None?
    {
      None
    }
  }
}
