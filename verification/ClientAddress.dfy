/** Which address a request is attributed to, and so which throttle bucket it falls into. Parsing
    one address and membership in the trusted networks are parameters. */
module ClientAddress {
  import opened Common
  import opened Text

  type Address = string

  /** How address text is read and which addresses are trusted proxies. */
  datatype Network = Network(parse: string -> Option<Address>, trusted: Address -> bool)

  datatype Headers = Headers(cfConnectingIp: string, forwardedFor: string, realIp: string)

  /** The readable entries of a forwarding list, in order. */
  function Readable(parts: seq<string>, n: Network): seq<Address> {
    if parts == [] then []
    else
      Readable(parts[..|parts| - 1], n)
      + (var a := n.parse(parts[|parts| - 1]); if a.Some? then [a.value] else [])
  }

  function Forwarded(header: string, n: Network): seq<Address> {
    Readable(Split(header, ','), n)
  }

  /** The right-most untrusted hop, or the left-most one when all are trusted. */
  function Select(hops: seq<Address>, n: Network): Option<Address> {
    if hops == [] then None
    else
      var u := LastUntrusted(hops, n);
      Some(if u.Some? then u.value else hops[0])
  }

  function LastUntrusted(hops: seq<Address>, n: Network): Option<Address> {
    if hops == [] then None
    else if !n.trusted(hops[|hops| - 1]) then Some(hops[|hops| - 1])
    else LastUntrusted(hops[..|hops| - 1], n)
  }

  predicate HasUntrusted(hops: seq<Address>, n: Network) {
    exists i :: 0 <= i < |hops| && !n.trusted(hops[i])
  }

  /** The address of a request whose peer text is `peer`. */
  function ClientIp(peer: string, peerLabel: string, h: Headers, n: Network): Address {
    var p := n.parse(peer);
    if p.None? then peerLabel
    else if !n.trusted(p.value) then p.value
    else
      var cf := n.parse(h.cfConnectingIp);
      if cf.Some? then cf.value
      else
        var selected := Select(Forwarded(h.forwardedFor, n), n);
        if selected.Some? then selected.value
        else
          var stated := n.parse(h.realIp);
          if stated.Some? then stated.value else p.value
  }

  // ---------------------------------------------------------------- forged prefixes

  lemma {:induction false} ReadableAppend(a: seq<string>, b: seq<string>, n: Network)
    ensures Readable(a + b, n) == Readable(a, n) + Readable(b, n)
  {
    if b == [] {
      assert a + b == a;
    } else {
      assert (a + b)[..|a + b| - 1] == a + b[..|b| - 1];
      ReadableAppend(a, b[..|b| - 1], n);
    }
  }

  lemma PrefixedForwarded(prefix: string, header: string, n: Network)
    ensures Forwarded(prefix + "," + header, n) == Forwarded(prefix, n) + Forwarded(header, n)
  {
    assert prefix + "," + header == prefix + [','] + header;
    SplitJoin(prefix, header, ',');
    ReadableAppend(Split(prefix, ','), Split(header, ','), n);
  }

  /** The right-most untrusted hop is found exactly when there is one, and everything after it is trusted. */
  lemma {:induction false} LastUntrustedSpec(hops: seq<Address>, n: Network)
    ensures LastUntrusted(hops, n).Some? <==> HasUntrusted(hops, n)
    ensures LastUntrusted(hops, n).Some? ==>
      exists i :: 0 <= i < |hops| && hops[i] == LastUntrusted(hops, n).value && !n.trusted(hops[i])
                  && forall j :: i < j < |hops| ==> n.trusted(hops[j])
  {
    if hops != [] {
      var front := hops[..|hops| - 1];
      LastUntrustedSpec(front, n);
      assert forall i :: 0 <= i < |front| ==> hops[i] == front[i];
      if !n.trusted(hops[|hops| - 1]) {
        assert HasUntrusted(hops, n);
      } else if HasUntrusted(hops, n) {
        var i :| 0 <= i < |hops| && !n.trusted(hops[i]);
        assert !n.trusted(front[i]);
        var k :| 0 <= k < |front| && front[k] == LastUntrusted(front, n).value && !n.trusted(front[k])
                 && forall j :: k < j < |front| ==> n.trusted(front[j]);
        assert hops[k] == front[k];
      }
    }
  }

  lemma {:induction false} LastUntrustedAppend(a: seq<Address>, b: seq<Address>, n: Network)
    ensures LastUntrusted(a + b, n) == if HasUntrusted(b, n) then LastUntrusted(b, n) else LastUntrusted(a, n)
  {
    if b == [] {
      assert a + b == a;
    } else {
      var front := b[..|b| - 1];
      assert (a + b)[..|a + b| - 1] == a + front;
      LastUntrustedAppend(a, front, n);
      assert forall i :: 0 <= i < |front| ==> b[i] == front[i];
      if n.trusted(b[|b| - 1]) && HasUntrusted(b, n) {
        var i :| 0 <= i < |b| && !n.trusted(b[i]);
        assert !n.trusted(front[i]);
      }
    }
  }

  /** Whatever is put in front of a list that holds an untrusted hop, the selected address stays;
      in front of any other non-empty list, an untrusted address of the sender's choice is selected. */
  lemma ForgedPrefix(prefix: string, forged: string, header: string, n: Network)
    requires n.parse(forged).Some? && !n.trusted(n.parse(forged).value) && ',' !in forged
    ensures HasUntrusted(Forwarded(header, n), n) ==>
      Select(Forwarded(prefix + "," + header, n), n) == Select(Forwarded(header, n), n)
    ensures !HasUntrusted(Forwarded(header, n), n) ==>
      Select(Forwarded(forged + "," + header, n), n) == n.parse(forged)
      && (Forwarded(header, n) != [] ==> Select(Forwarded(header, n), n) != n.parse(forged))
  {
    var hops := Forwarded(header, n);
    PrefixedForwarded(prefix, header, n);
    PrefixedForwarded(forged, header, n);
    LastUntrustedAppend(Forwarded(prefix, n), hops, n);
    LastUntrustedAppend(Forwarded(forged, n), hops, n);
    LastUntrustedSpec(hops, n);
    SplitPieces(forged, ',');
    assert Readable([forged], n) == Readable([], n) + [n.parse(forged).value];
  }

  /** The address without the forwarding list: the stated one, or the peer. */
  function Fallback(p: Address, h: Headers, n: Network): Address {
    var stated := n.parse(h.realIp);
    if stated.Some? then stated.value else p
  }

  /** For a trusted peer without a connecting-ip header: the address, and with it the throttle bucket,
      is independent of what is put in front of the forwarding list exactly when that list holds an
      untrusted hop. Two forged addresses are given, so that one differs from any fallback. */
  lemma AddressIgnoresPrefixIff(peer: string, peerLabel: string, h: Headers, forged: string, other: string, n: Network)
    requires n.parse(peer).Some? && n.trusted(n.parse(peer).value)
    requires n.parse(h.cfConnectingIp).None?
    requires n.parse(forged).Some? && !n.trusted(n.parse(forged).value) && ',' !in forged
    requires n.parse(other).Some? && !n.trusted(n.parse(other).value) && ',' !in other
    requires n.parse(forged) != n.parse(other)
    ensures (forall prefix: string ::
               ClientIp(peer, peerLabel, h.(forwardedFor := prefix + "," + h.forwardedFor), n) == ClientIp(peer, peerLabel, h, n))
            <==> HasUntrusted(Forwarded(h.forwardedFor, n), n)
    ensures Forwarded(h.forwardedFor, n) == [] ==>
      ClientIp(peer, peerLabel, h, n) == Fallback(n.parse(peer).value, h, n)
  {
    if HasUntrusted(Forwarded(h.forwardedFor, n), n) {
      forall prefix: string
        ensures ClientIp(peer, peerLabel, h.(forwardedFor := prefix + "," + h.forwardedFor), n) == ClientIp(peer, peerLabel, h, n)
      {
        ForgedPrefix(prefix, forged, h.forwardedFor, n);
      }
    } else {
      ForgedPrefix(forged, forged, h.forwardedFor, n);
      ForgedPrefix(other, other, h.forwardedFor, n);
      var f := ClientIp(peer, peerLabel, h.(forwardedFor := forged + "," + h.forwardedFor), n);
      var g := ClientIp(peer, peerLabel, h.(forwardedFor := other + "," + h.forwardedFor), n);
      assert f == n.parse(forged).value != n.parse(other).value == g;
    }
  }

  // ---------------------------------------------------------------- who is believed

  /** What a peer that is not a trusted proxy claims in its headers is never believed: the address is the
      peer's own, or its label when the peer cannot be read. */
  lemma UntrustedPeerDecides(peer: string, peerLabel: string, h: Headers, n: Network)
    requires n.parse(peer).Some? ==> !n.trusted(n.parse(peer).value)
    ensures n.parse(peer).Some? ==> ClientIp(peer, peerLabel, h, n) == n.parse(peer).value
    ensures n.parse(peer).None? ==> ClientIp(peer, peerLabel, h, n) == peerLabel
  {
  }

  /** A trusted proxy's connecting address comes first, whatever the other headers hold. */
  lemma ConnectingAddressDecides(peer: string, peerLabel: string, h: Headers, forwardedFor: string, realIp: string, n: Network)
    requires n.parse(peer).Some? && n.trusted(n.parse(peer).value) && n.parse(h.cfConnectingIp).Some?
    ensures ClientIp(peer, peerLabel, h.(forwardedFor := forwardedFor, realIp := realIp), n) == n.parse(h.cfConnectingIp).value
  {
  }

  /** Headers can change the address exactly when the peer is a trusted proxy. */
  lemma HeadersMatterIff(peer: string, peerLabel: string, one: string, other: string, n: Network)
    requires n.parse(one).Some? && n.parse(other).Some? && n.parse(one) != n.parse(other)
    ensures (exists g: Headers, h: Headers :: ClientIp(peer, peerLabel, g, n) != ClientIp(peer, peerLabel, h, n))
            <==> n.parse(peer).Some? && n.trusted(n.parse(peer).value)
  {
    if n.parse(peer).Some? && n.trusted(n.parse(peer).value) {
      var g, h := Headers(one, "", ""), Headers(other, "", "");
      ConnectingAddressDecides(peer, peerLabel, g, "", "", n);
      ConnectingAddressDecides(peer, peerLabel, h, "", "", n);
      assert ClientIp(peer, peerLabel, g, n) != ClientIp(peer, peerLabel, h, n);
    } else {
      forall g: Headers, h: Headers ensures ClientIp(peer, peerLabel, g, n) == ClientIp(peer, peerLabel, h, n) {
        UntrustedPeerDecides(peer, peerLabel, g, n);
        UntrustedPeerDecides(peer, peerLabel, h, n);
      }
    }
  }

  /** Behind a trusted proxy without a connecting address: the right-most untrusted hop, with nothing but
      trusted hops after it; the left-most hop when all are trusted; and without any hop the stated
      address, or else the peer. */
  lemma ForwardedAddressIs(peer: string, peerLabel: string, h: Headers, n: Network)
    requires n.parse(peer).Some? && n.trusted(n.parse(peer).value) && n.parse(h.cfConnectingIp).None?
    ensures var hops, ip := Forwarded(h.forwardedFor, n), ClientIp(peer, peerLabel, h, n);
      && ((exists i :: 0 <= i < |hops| && !n.trusted(hops[i])) ==>
            exists i :: 0 <= i < |hops| && ip == hops[i] && !n.trusted(hops[i]) && forall j :: i < j < |hops| ==> n.trusted(hops[j]))
      && (hops != [] && (forall i :: 0 <= i < |hops| ==> n.trusted(hops[i])) ==> ip == hops[0])
      && (hops == [] ==> ip == if n.parse(h.realIp).Some? then n.parse(h.realIp).value else n.parse(peer).value)
  {
    LastUntrustedSpec(Forwarded(h.forwardedFor, n), n);
  }

  /** The hops are the entries of the list that can be read. */
  lemma {:induction false} ReadableHolds(parts: seq<string>, n: Network, a: Address)
    ensures a in Readable(parts, n) <==> exists i :: 0 <= i < |parts| && n.parse(parts[i]) == Some(a)
  {
    if parts != [] {
      var front := parts[..|parts| - 1];
      ReadableHolds(front, n, a);
      assert forall i :: 0 <= i < |front| ==> front[i] == parts[i];
      if a in Readable(front, n) {
        var i :| 0 <= i < |front| && n.parse(front[i]) == Some(a);
        assert n.parse(parts[i]) == Some(a);
      }
      if n.parse(parts[|parts| - 1]) == Some(a) {
        assert a in [a];
      }
    }
  }

  /** They come in the order of the list. */
  lemma {:induction false} ReadableInOrder(parts: seq<string>, n: Network)
    requires forall i :: 0 <= i < |parts| ==> n.parse(parts[i]).Some?
    ensures |Readable(parts, n)| == |parts|
    ensures forall i :: 0 <= i < |parts| ==> Readable(parts, n)[i] == n.parse(parts[i]).value
  {
    if parts != [] {
      var front := parts[..|parts| - 1];
      assert forall i :: 0 <= i < |front| ==> front[i] == parts[i];
      ReadableInOrder(front, n);
    }
  }

  /** The walk over the hops, right to left. */
  method SelectHop(hops: seq<Address>, n: Network) returns (selected: Option<Address>)
    ensures selected == Select(hops, n)
  {
    if hops == [] {
      return None;
    }
    var i := |hops|;
    assert hops[..i] == hops;
    while i > 0
      invariant 0 <= i <= |hops|
      invariant LastUntrusted(hops, n) == LastUntrusted(hops[..i], n)
    {
      if !n.trusted(hops[i - 1]) {
        return Some(hops[i - 1]);
      }
      assert hops[..i][..i - 1] == hops[..i - 1];
      i := i - 1;
    }
    return Some(hops[0]);
  }
}
