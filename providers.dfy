/**
 * The endpoint pool (ProviderManager): the configured RPC endpoints, the ones that
 * answered when the pool was first filled, the index of the one in use, and the
 * reconnect step the timer runs every few seconds.
 *
 * Which endpoints answer is an oracle `up`: `up(url)` says whether connecting to
 * `url` and asking it for its network succeeds at that moment.
 */
module Providers {
  import opened Wrappers

  /** A connected provider: the endpoint it talks to, and which connection it is. */
  datatype Connection = Connection(url: string, serial: nat)

  const NO_PROVIDERS: string := "No available providers"

  /** The endpoints of `urls` that answer, in configuration order. */
  function Live(urls: seq<string>, up: string -> bool): (r: seq<string>)
    ensures |r| <= |urls|
  {
    if urls == [] then []
    else
      var last := urls[|urls| - 1];
      Live(urls[..|urls| - 1], up) + if up(last) then [last] else []
  }

  /** The pool holds exactly the configured endpoints that answer. */
  lemma {:induction false} LiveMembers(urls: seq<string>, up: string -> bool)
    ensures forall u :: u in Live(urls, up) <==> u in urls && up(u)
  {
    if urls != [] {
      LiveMembers(urls[..|urls| - 1], up);
      assert urls == urls[..|urls| - 1] + [urls[|urls| - 1]];
    }
  }

  /** One more configured endpoint joins the live ones exactly when it answers. */
  lemma LiveStep(urls: seq<string>, i: nat, up: string -> bool)
    requires i < |urls|
    ensures Live(urls[..i + 1], up) == Live(urls[..i], up) + if up(urls[i]) then [urls[i]] else []
  {
    assert urls[..i + 1][..i] == urls[..i];
  }

  /** The endpoints a pool talks to, in pool order. */
  function Urls(pool: seq<Connection>): (r: seq<string>)
    ensures |r| == |pool|
  {
    if pool == [] then [] else Urls(pool[..|pool| - 1]) + [pool[|pool| - 1].url]
  }

  /** A connection pushed onto the pool adds its endpoint at the end. */
  lemma UrlsStep(pool: seq<Connection>, c: Connection)
    ensures Urls(pool + [c]) == Urls(pool) + [c.url]
  {
    assert (pool + [c])[..|pool|] == pool;
  }

  /** Giving a pool member a new connection to the same endpoint leaves the pool's endpoints as they were. */
  lemma {:induction false} UrlsReplace(pool: seq<Connection>, k: nat, c: Connection)
    requires k < |pool| && c.url == pool[k].url
    ensures Urls(pool[k := c]) == Urls(pool)
  {
    var n := |pool| - 1;
    if k < n {
      UrlsReplace(pool[..n], k, c);
      assert pool[k := c][..n] == pool[..n][k := c];
    } else {
      assert pool[k := c][..n] == pool[..n];
    }
  }

  /** Every connection of the pool was made before the `n`-th one. */
  predicate SerialsBelow(pool: seq<Connection>, n: nat) {
    forall p :: p in pool ==> p.serial < n
  }

  /** A new connection, numbered `n`, keeps every serial of the pool below `n + 1`. */
  lemma SerialsPush(pool: seq<Connection>, n: nat, c: Connection)
    requires SerialsBelow(pool, n) && c.serial == n
    ensures SerialsBelow(pool + [c], n + 1)
  {
  }

  /** `(i + 1) % n` on non-negative operands: the next index of a pool of `n`, wrapping round. */
  function Rotate(i: nat, n: nat): (r: nat)
    requires n > 0
    ensures r < n
    ensures i + 1 < n ==> r == i + 1
    ensures i + 1 == n ==> r == 0
  {
    (i + 1) % n
  }

  /** The index after `k` failed reconnects in a row. */
  function RotateTimes(i: nat, n: nat, k: nat): nat
    requires n > 0 && i < n
  {
    if k == 0 then i else Rotate(RotateTimes(i, n, k - 1), n)
  }

  /** Fewer than `n` failed reconnects in a row move the index that many places round the pool. */
  lemma {:induction false} RotateTimesBelow(i: nat, n: nat, k: nat)
    requires n > 0 && i < n && k < n
    ensures RotateTimes(i, n, k) == if i + k < n then i + k else i + k - n
  {
    if k > 0 {
      RotateTimesBelow(i, n, k - 1);
    }
  }

  /** `n` failed reconnects in a row bring the index of a pool of `n` back where it was. */
  lemma RotateFullCycle(i: nat, n: nat)
    requires n > 0 && i < n
    ensures RotateTimes(i, n, n) == i
  {
    RotateTimesBelow(i, n, n - 1);
  }

  /** Within `n` failed reconnects in a row every member of a pool of `n` has its turn. */
  lemma RotationVisitsAll(i: nat, n: nat, j: nat)
    requires n > 0 && i < n && j < n
    ensures exists k :: 0 <= k < n && RotateTimes(i, n, k) == j
  {
    var k := if i <= j then j - i else n - i + j;
    RotateTimesBelow(i, n, k);
  }

  /** The endpoint the reconnect step probes, as written: the configured URL at the pool's index. */
  function ProbeAsWritten(urls: seq<string>, current: nat): string
    requires current < |urls|
  {
    urls[current]
  }

  /** The endpoint the reconnect step is meant to probe: the one of the pool member in use. */
  function Probe(pool: seq<Connection>, current: nat): string
    requires current < |pool|
  {
    pool[current].url
  }

  /**
   * With endpoints `a`, `b`, `c` of which only `b` answered at start-up the pool is
   * `[b]`, yet the reconnect step probes `a`: while `a` stays down every reconnect
   * fails although the endpoint in use answers, and once `a` comes up its connection
   * takes the place of `b`'s.
   */
  lemma ProbeMisaligned()
    ensures var urls := ["a", "b", "c"];
            var pool := [Connection("b", 0)];
            && Urls(pool) == Live(urls, u => u == "b")
            && ProbeAsWritten(urls, 0) == "a" != Probe(pool, 0)
  {
    var urls := ["a", "b", "c"];
    assert urls[..2][..1] == ["a"] && urls[..2] == ["a", "b"];
    assert Live(["a"], u => u == "b") == [];
  }

  class ProviderManager {
    /** `providerUrls`. */
    const urls: seq<string>
    /** `providers`: the connected pool. */
    var providers: seq<Connection>
    /** `currentProviderIndex`. */
    var current: nat
    /** Whether `startReconnectionTimer` has armed the reconnect step. */
    var timerStarted: bool
    /** How many connections have been made, so that each one is told apart. */
    var connections: nat

    /**
     * The index is inside the pool once the pool is filled, the pool never outgrows the
     * configuration, and the timer runs exactly when the pool is not empty.
     */
    ghost predicate Valid()
      reads this
    {
      && (providers == [] ==> current == 0)
      && (providers != [] ==> current < |providers|)
      && |providers| <= |urls|
      && (timerStarted <==> providers != [])
      && SerialsBelow(providers, connections)
    }

    constructor (urls: seq<string>)
      ensures Valid() && this.urls == urls
      ensures providers == [] && current == 0 && !timerStarted
    {
      this.urls := urls;
      providers := [];
      current := 0;
      timerStarted := false;
      connections := 0;
    }

    /**
     * The loop of `initializeProviders`: connect to every configured endpoint in order and
     * push the connection of each one that answers; an endpoint that fails is skipped.
     */
    method ConnectAll(up: string -> bool)
      requires providers == []
      modifies this`providers, this`connections
      ensures Urls(providers) == Live(urls, up) && |providers| <= |urls|
      ensures SerialsBelow(providers, connections)
    {
      for i := 0 to |urls|
        invariant Urls(providers) == Live(urls[..i], up) && |providers| <= i
        invariant SerialsBelow(providers, connections)
      {
        LiveStep(urls, i, up);
        if up(urls[i]) {
          var connection := Connection(urls[i], connections);
          UrlsStep(providers, connection);
          SerialsPush(providers, connections, connection);
          connections := connections + 1;
          providers := providers + [connection];
        }
      }
      assert urls[..|urls|] == urls;
    }

    /**
     * `initializeProviders`: connect to every configured endpoint in order, keep the ones
     * that answer, and arm the reconnect timer when any did.
     */
    method InitializeProviders(up: string -> bool)
      requires Valid() && providers == []
      modifies this
      ensures Valid()
      ensures Urls(providers) == Live(urls, up)
      ensures current == 0 && timerStarted == (providers != [])
    {
      ConnectAll(up);
      if providers != [] {
        timerStarted := true;
      }
    }

    /**
     * `getProvider`: fill the pool while it is empty, then hand out the member in use
     * without changing the pool, or fail with "No available providers".
     */
    method GetProvider(up: string -> bool) returns (r: Result<Connection, string>)
      requires Valid()
      modifies this
      ensures Valid() && current == old(current)
      ensures old(providers) != [] ==> providers == old(providers) && timerStarted == old(timerStarted)
      ensures old(providers) == [] ==> Urls(providers) == Live(urls, up)
      ensures r.Err? <==> providers == []
      ensures r.Err? ==> r.error == NO_PROVIDERS
      ensures r.Ok? ==> r.value == providers[current]
    {
      if providers == [] {
        InitializeProviders(up);
      }
      if providers == [] {
        return Err(NO_PROVIDERS);
      }
      r := Ok(providers[current]);
    }

    /**
     * The `reconnect` step as written: probe the configured URL at the pool's index; on
     * success its new connection replaces the pool member in use, on failure the index
     * moves on round the pool.
     */
    method ReconnectAsWritten(up: string -> bool)
      requires Valid() && timerStarted
      modifies this
      ensures Valid() && timerStarted
      ensures var url := ProbeAsWritten(urls, old(current));
              if up(url) then
                && providers == old(providers)[old(current) := Connection(url, old(connections))]
                && current == old(current)
              else
                && providers == old(providers)
                && current == Rotate(old(current), |providers|)
    {
      var url := urls[current];
      if up(url) {
        providers := providers[current := Connection(url, connections)];
        connections := connections + 1;
      } else {
        current := (current + 1) % |providers|;
      }
    }

    /**
     * The `reconnect` step as evidently intended: probe the endpoint of the pool member
     * in use. The pool keeps its endpoints; on success only the member in use gets a new
     * connection, on failure only the index moves on.
     */
    method Reconnect(up: string -> bool)
      requires Valid() && timerStarted
      modifies this
      ensures Valid() && timerStarted
      ensures Urls(providers) == Urls(old(providers))
      ensures var url := Probe(old(providers), old(current));
              if up(url) then
                && providers == old(providers)[old(current) := Connection(url, old(connections))]
                && current == old(current)
              else
                && providers == old(providers)
                && current == Rotate(old(current), |providers|)
    {
      var url := providers[current].url;
      if up(url) {
        UrlsReplace(providers, current, Connection(url, connections));
        providers := providers[current := Connection(url, connections)];
        connections := connections + 1;
      } else {
        current := (current + 1) % |providers|;
      }
    }
  }
}
