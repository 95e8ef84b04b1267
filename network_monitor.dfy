/**
 * The DNS view of the VPN plugin's network monitor: the reachable networks
 * (a Kotlin insertion-ordered `mutableSetOf<Network>`), and the aggregate
 * `networks.flatMap { resolveDns(it) }.toSet().joinToString(",")` pushed to
 * the UI layer after every change.
 */
module NetworkMonitor {
  import opened Text

  /** A platform network handle; only its identity matters here. */
  datatype Network = Network(id: nat)

  predicate NoDuplicates<T(==)>(s: seq<T>)
  {
    forall i, j :: 0 <= i < j < |s| ==> s[i] != s[j]
  }

  /** `networks.add(n)` on an insertion-ordered set: appended only when new. */
  function AddNetwork(networks: seq<Network>, n: Network): (r: seq<Network>)
    requires NoDuplicates(networks)
    ensures NoDuplicates(r)
    ensures forall m :: m in r <==> m in networks || m == n
    ensures |networks| <= |r| && r[..|networks|] == networks
  {
    if n in networks then networks else networks + [n]
  }

  /** `networks.remove(n)`: the network is cut out where it stands, the others keep their order. */
  function RemoveNetwork(networks: seq<Network>, n: Network): (r: seq<Network>)
    requires NoDuplicates(networks)
    ensures NoDuplicates(r)
    ensures forall m :: m in r <==> m in networks && m != n
    ensures |r| == if n in networks then |networks| - 1 else |networks|
    ensures n !in networks ==> r == networks
    ensures n in networks ==>
              var k := FirstIndex(networks, n);
              r == networks[..k] + networks[k + 1..]
  {
    if n in networks then
      var k := FirstIndex(networks, n);
      CutAt(networks, k);
      networks[..k] + networks[k + 1..]
    else networks
  }

  /** Cutting one element out of a sequence without repeats leaves exactly the others, still without repeats. */
  lemma CutAt<T>(s: seq<T>, k: nat)
    requires NoDuplicates(s) && k < |s|
    ensures NoDuplicates(s[..k] + s[k + 1..])
    ensures forall m :: m in s[..k] + s[k + 1..] <==> m in s && m != s[k]
  {
    var r := s[..k] + s[k + 1..];
    assert forall i :: 0 <= i < |r| ==> r[i] == s[if i < k then i else i + 1];
    forall m | m in s && m != s[k]
      ensures m in r
    {
      var j :| 0 <= j < |s| && s[j] == m;
      assert r[if j < k then j else j - 1] == m;
    }
  }

  /** `flatMap`: every network's DNS servers, network by network. */
  function FlatDns(networks: seq<Network>, dnsOf: Network -> seq<string>): seq<string>
    decreases |networks|
  {
    if |networks| == 0 then [] else dnsOf(networks[0]) + FlatDns(networks[1..], dnsOf)
  }

  /** A server is flattened exactly when some network in the set lists it. */
  lemma {:induction false} FlatDnsMembers(networks: seq<Network>, dnsOf: Network -> seq<string>)
    ensures forall x :: x in FlatDns(networks, dnsOf) <==> exists i :: 0 <= i < |networks| && x in dnsOf(networks[i])
    decreases |networks|
  {
    if |networks| > 0 {
      FlatDnsMembers(networks[1..], dnsOf);
      assert forall i :: 0 < i < |networks| ==> networks[i] == networks[1..][i - 1];
    }
  }

  /** `flatMap` distributes over concatenation: servers come network by network, in set order. */
  lemma {:induction false} FlatDnsConcat(a: seq<Network>, b: seq<Network>, dnsOf: Network -> seq<string>)
    ensures FlatDns(a + b, dnsOf) == FlatDns(a, dnsOf) + FlatDns(b, dnsOf)
    decreases |a|
  {
    if |a| > 0 {
      assert (a + b)[1..] == a[1..] + b;
      FlatDnsConcat(a[1..], b, dnsOf);
    } else {
      assert a + b == b;
    }
  }

  /** A new network's servers come after all others; a known network changes nothing. */
  lemma AddNetworkServersLast(networks: seq<Network>, n: Network, dnsOf: Network -> seq<string>)
    requires NoDuplicates(networks)
    ensures n !in networks ==> FlatDns(AddNetwork(networks, n), dnsOf) == FlatDns(networks, dnsOf) + dnsOf(n)
    ensures n in networks ==> AddNetwork(networks, n) == networks
  {
    if n !in networks {
      FlatDnsConcat(networks, [n], dnsOf);
      assert [n][1..] == [];
      assert FlatDns([n], dnsOf) == dnsOf(n) + FlatDns([], dnsOf);
    }
  }

  /** A lost network's servers are cut out from between those of its neighbours, which keep their order. */
  lemma RemoveNetworkCutsServers(networks: seq<Network>, n: Network, dnsOf: Network -> seq<string>)
    requires NoDuplicates(networks) && n in networks
    ensures var k := FirstIndex(networks, n);
      && FlatDns(networks, dnsOf) == FlatDns(networks[..k], dnsOf) + (dnsOf(n) + FlatDns(networks[k + 1..], dnsOf))
      && FlatDns(RemoveNetwork(networks, n), dnsOf) == FlatDns(networks[..k], dnsOf) + FlatDns(networks[k + 1..], dnsOf)
  {
    var k := FirstIndex(networks, n);
    FlatDnsAround(networks, k, dnsOf);
    FlatDnsConcat(networks[..k], networks[k + 1..], dnsOf);
  }

  lemma FlatDnsAround(s: seq<Network>, k: nat, dnsOf: Network -> seq<string>)
    requires k < |s|
    ensures FlatDns(s, dnsOf) == FlatDns(s[..k], dnsOf) + (dnsOf(s[k]) + FlatDns(s[k + 1..], dnsOf))
  {
    SplitAt(s, k);
    FlatDnsConcat(s[..k], [s[k]] + s[k + 1..], dnsOf);
    FlatDnsCons(s[k], s[k + 1..], dnsOf);
  }

  lemma SplitAt(s: seq<Network>, k: nat)
    requires k < |s|
    ensures s == s[..k] + ([s[k]] + s[k + 1..])
  {
    assert s[k..] == [s[k]] + s[k + 1..];
    assert s == s[..k] + s[k..];
  }

  lemma FlatDnsCons(n: Network, post: seq<Network>, dnsOf: Network -> seq<string>)
    ensures FlatDns([n] + post, dnsOf) == dnsOf(n) + FlatDns(post, dnsOf)
  {
    assert ([n] + post)[1..] == post;
  }

  /** Kotlin `toSet()`: a linked hash set, so each element once, at its first occurrence. */
  function Dedup<T(==,!new)>(s: seq<T>): (r: seq<T>)
    ensures NoDuplicates(r)
    ensures forall x :: x in r <==> x in s
    decreases |s|
  {
    if |s| == 0 then []
    else
      var d := Dedup(s[..|s| - 1]);
      assert forall x :: x in s <==> x in s[..|s| - 1] || x == s[|s| - 1];
      if s[|s| - 1] in d then d else d + [s[|s| - 1]]
  }

  /** The index of the first occurrence of `x` in `s`. */
  function FirstIndex<T(==)>(s: seq<T>, x: T): (k: nat)
    requires x in s
    ensures k < |s| && s[k] == x && x !in s[..k]
  {
    if s[0] == x then 0 else
      var k := 1 + FirstIndex(s[1..], x);
      assert s[..k] == [s[0]] + s[1..][..k - 1];
      k
  }

  lemma {:induction false} FirstIndexExtend<T>(s: seq<T>, y: T, x: T)
    requires x in s
    ensures FirstIndex(s + [y], x) == FirstIndex(s, x)
  {
    var k := FirstIndex(s, x);
    var k' := FirstIndex(s + [y], x);
    assert (s + [y])[k] == x;
  }

  /** `toSet()` keeps first-occurrence order: earlier in the result means first seen earlier. */
  lemma {:induction false} DedupFirstOccurrenceOrder<T(!new)>(s: seq<T>, i: nat, j: nat)
    requires i < j < |Dedup(s)|
    ensures FirstIndex(s, Dedup(s)[i]) < FirstIndex(s, Dedup(s)[j])
    decreases |s|
  {
    var p := s[..|s| - 1];
    var last := s[|s| - 1];
    var d := Dedup(p);
    assert s == p + [last];
    if j < |d| {
      DedupFirstOccurrenceOrder(p, i, j);
      FirstIndexExtend(p, last, d[i]);
      FirstIndexExtend(p, last, d[j]);
    } else {
      assert last !in d && Dedup(s)[j] == last && last !in p;
      FirstIndexExtend(p, last, d[i]);
    }
  }

  /**
   * The comma-joined, de-duplicated DNS servers of the reachable networks:
   * empty when no network lists a server, and naming every listed server.
   */
  function DnsAggregate(networks: seq<Network>, dnsOf: Network -> seq<string>): (dns: string)
    ensures FlatDns(networks, dnsOf) == [] ==> dns == ""
    ensures forall x :: x in FlatDns(networks, dnsOf) ==> Contains(dns, x)
  {
    var servers := Dedup(FlatDns(networks, dnsOf));
    JoinContainsEvery(servers, ',');
    Join(servers, ',')
  }

  /**
   * The aggregate lists every server of every reachable network exactly once:
   * splitting the report on commas gives back a duplicate-free list holding
   * exactly those servers (DNS addresses are non-empty and hold no comma).
   */
  lemma DnsAggregateServers(networks: seq<Network>, dnsOf: Network -> seq<string>)
    requires forall i, x :: 0 <= i < |networks| && x in dnsOf(networks[i]) ==> x != "" && ',' !in x
    requires exists i :: 0 <= i < |networks| && dnsOf(networks[i]) != []
    ensures Split(DnsAggregate(networks, dnsOf), ',') == Dedup(FlatDns(networks, dnsOf))
    ensures NoDuplicates(Split(DnsAggregate(networks, dnsOf), ','))
    ensures forall x :: x in Split(DnsAggregate(networks, dnsOf), ',') <==>
              exists i :: 0 <= i < |networks| && x in dnsOf(networks[i])
  {
    FlatDnsMembers(networks, dnsOf);
    var servers := Dedup(FlatDns(networks, dnsOf));
    var i :| 0 <= i < |networks| && dnsOf(networks[i]) != [];
    assert dnsOf(networks[i])[0] in servers;
    forall k | 0 <= k < |servers|
      ensures ',' !in servers[k]
    {
      assert servers[k] in FlatDns(networks, dnsOf);
    }
    SplitJoin(servers, ',');
  }

  lemma DedupPair<T(!new)>(x: T, y: T)
    requires x != y
    ensures Dedup([x]) == [x] && Dedup([x, y]) == [x, y] && Dedup([y]) == [y]
  {
    assert [x][..0] == [] && [y][..0] == [];
    assert [x, y][..1] == [x];
  }

  /** Two networks' servers are reported in network order; losing the first leaves the second's. */
  lemma TwoNetworksScenario(a: Network, b: Network, dnsOf: Network -> seq<string>)
    requires a != b
    requires dnsOf(a) == ["1.1.1.1"] && dnsOf(b) == ["8.8.8.8"]
    ensures DnsAggregate(AddNetwork([], a), dnsOf) == "1.1.1.1"
    ensures DnsAggregate(AddNetwork(AddNetwork([], a), b), dnsOf) == "1.1.1.1,8.8.8.8"
    ensures DnsAggregate(RemoveNetwork(AddNetwork(AddNetwork([], a), b), a), dnsOf) == "8.8.8.8"
  {
    var x, y := "1.1.1.1", "8.8.8.8";
    assert x[0] != y[0];
    DedupPair(x, y);
    assert AddNetwork([], a) == [a];
    assert FlatDns([a], dnsOf) == [x];
    assert AddNetwork([a], b) == [a, b];
    assert FlatDns([b], dnsOf) == [y];
    assert FlatDns([a, b], dnsOf) == [x, y];
    assert RemoveNetwork([a, b], a) == [b];
    assert Join([x, y], ',') == x + [','] + y;
  }
}
