/** Endpoint selection: parseURL, and the two loops over the endpoints a cluster reports. */
module Endpoints {
  import opened Types

  /** The two's-complement reading of the low 32 bits: what Go's int32(port) does. */
  function ToInt32(n: int): (r: int)
    ensures -0x8000_0000 <= r < 0x8000_0000
    ensures (n - r) % 0x1_0000_0000 == 0
    ensures -0x8000_0000 <= n < 0x8000_0000 ==> r == n
  {
    var low := n % 0x1_0000_0000;
    if low < 0x8000_0000 then low else low - 0x1_0000_0000
  }

  /** parseURL: fails on a malformed address, a missing port, or a port that overflows int. */
  function ParseUrl(u: Url): Option<APIEndpoint> {
    match u
    case Malformed => None
    case Url(host, None) => None
    case Url(host, Some(port)) =>
      if port < 0x8000_0000_0000_0000 then Some(APIEndpoint(host, ToInt32(port))) else None
  }

  /** One loop: entries of another kind are skipped, every entry of `kind` overwrites the endpoint, and the
      first one that does not parse stops the loop. The second result is false when the loop failed. */
  function Scan(kind: EndpointKind, list: seq<EndpointEntry>, ep: APIEndpoint): (APIEndpoint, bool) {
    if list == [] then (ep, true)
    else if list[0].kind != kind then Scan(kind, list[1..], ep)
    else match ParseUrl(list[0].url)
      case None => (ep, false)
      case Some(e) => Scan(kind, list[1..], e)
  }

  /** Both loops of reconcileCluster: Internal entries first, then External ones. A nil list changes nothing. */
  function Choose(list: Option<seq<EndpointEntry>>, ep: APIEndpoint): (APIEndpoint, bool) {
    match list
    case None => (ep, true)
    case Some(entries) =>
      var (inner, ok) := Scan(Internal, entries, ep);
      if ok then Scan(External, entries, inner) else (inner, false)
  }

  // ---------------------------------------------------------------- what the selection means

  predicate AllParse(kind: EndpointKind, list: seq<EndpointEntry>) {
    forall e :: e in list && e.kind == kind ==> ParseUrl(e.url).Some?
  }

  /** `ep` is what the last entry of the kind parses to. */
  predicate IsLast(kind: EndpointKind, list: seq<EndpointEntry>, ep: APIEndpoint) {
    exists i :: 0 <= i < |list| && list[i].kind == kind && ParseUrl(list[i].url) == Some(ep)
      && forall j :: i < j < |list| ==> list[j].kind != kind
  }

  predicate Absent(kind: EndpointKind, list: seq<EndpointEntry>) {
    forall i :: 0 <= i < |list| ==> list[i].kind != kind
  }

  lemma {:induction false} ScanMeaning(kind: EndpointKind, list: seq<EndpointEntry>, ep: APIEndpoint)
    ensures Scan(kind, list, ep).1 <==> AllParse(kind, list)
    ensures Scan(kind, list, ep).1 ==>
              if Absent(kind, list) then Scan(kind, list, ep).0 == ep
              else IsLast(kind, list, Scan(kind, list, ep).0)
  {
    if list != [] {
      var next := if list[0].kind == kind then ParseUrl(list[0].url) else Some(ep);
      assert forall e :: e in list <==> e == list[0] || e in list[1..];
      if next.Some? {
        ScanMeaning(kind, list[1..], next.value);
        if Scan(kind, list, ep).1 {
          if Absent(kind, list[1..]) {
            assert forall j :: 0 < j < |list| ==> list[j] == list[1..][j - 1];
          } else {
            var i :| 0 <= i < |list[1..]| && list[1..][i].kind == kind
              && ParseUrl(list[1..][i].url) == Some(Scan(kind, list[1..], next.value).0)
              && forall j :: i < j < |list[1..]| ==> list[1..][j].kind != kind;
            assert list[i + 1] == list[1..][i];
            assert forall j :: i + 1 < j < |list| ==> list[j] == list[1..][j - 1];
          }
        }
      }
    }
  }

  /** A URL is understood exactly when it is well-formed and has a port that fits 64 bits; the port is then cut to
      32 bits. */
  lemma ParseUrlMeaning(u: Url)
    ensures ParseUrl(u).Some? <==> u.Url? && u.port.Some? && u.port.value <= 9223372036854775807
    ensures ParseUrl(u).Some? ==>
              && ParseUrl(u).value.host == u.host && -2147483648 <= ParseUrl(u).value.port <= 2147483647
              && (u.port.value - ParseUrl(u).value.port) % 4294967296 == 0
  {
  }

  /** What a loop that failed leaves: the last entry of the kind before the first one that does not parse, else the
      endpoint it started with. */
  predicate StopsAt(kind: EndpointKind, list: seq<EndpointEntry>, i: nat, start: APIEndpoint, ep: APIEndpoint) {
    && i < |list| && list[i].kind == kind && ParseUrl(list[i].url).None?
    && AllParse(kind, list[..i])
    && if Absent(kind, list[..i]) then ep == start else IsLast(kind, list[..i], ep)
  }

  lemma {:induction false} FirstBad(kind: EndpointKind, list: seq<EndpointEntry>) returns (i: nat)
    requires !AllParse(kind, list)
    ensures i < |list| && list[i].kind == kind && ParseUrl(list[i].url).None? && AllParse(kind, list[..i])
  {
    if list[0].kind == kind && ParseUrl(list[0].url).None? {
      i := 0;
    } else {
      assert forall e :: e in list ==> e == list[0] || e in list[1..];
      i := FirstBad(kind, list[1..]);
      i := i + 1;
      assert list[..i] == [list[0]] + list[1..][..i - 1];
    }
  }

  lemma {:induction false} ScanUpTo(kind: EndpointKind, list: seq<EndpointEntry>, i: nat, ep: APIEndpoint)
    requires i < |list| && list[i].kind == kind && ParseUrl(list[i].url).None? && AllParse(kind, list[..i])
    ensures Scan(kind, list, ep) == (Scan(kind, list[..i], ep).0, false)
  {
    if i > 0 {
      assert list[0] in list[..i];
      assert list[..i][1..] == list[1..][..i - 1];
      assert forall e :: e in list[1..][..i - 1] ==> e in list[..i];
      ScanUpTo(kind, list[1..], i - 1, if list[0].kind == kind then ParseUrl(list[0].url).value else ep);
    }
  }

  lemma ScanStops(kind: EndpointKind, list: seq<EndpointEntry>, ep: APIEndpoint) returns (i: nat)
    requires !AllParse(kind, list)
    ensures StopsAt(kind, list, i, ep, Scan(kind, list, ep).0)
  {
    i := FirstBad(kind, list);
    ScanUpTo(kind, list, i, ep);
    ScanMeaning(kind, list[..i], ep);
  }

  /** Choose when it fails: the loop over the Internal entries failed, or it did not and the loop over the External
      ones failed; Close persists what is left. */
  lemma ChooseStops(entries: seq<EndpointEntry>, ep: APIEndpoint) returns (i: nat)
    requires !Choose(Some(entries), ep).1
    ensures if !AllParse(Internal, entries) then StopsAt(Internal, entries, i, ep, Choose(Some(entries), ep).0)
            else StopsAt(External, entries, i, Scan(Internal, entries, ep).0, Choose(Some(entries), ep).0)
  {
    ScanMeaning(Internal, entries, ep);
    ScanMeaning(External, entries, Scan(Internal, entries, ep).0);
    if !AllParse(Internal, entries) {
      i := ScanStops(Internal, entries, ep);
    } else {
      i := ScanStops(External, entries, Scan(Internal, entries, ep).0);
    }
  }

  /** The endpoint a pass ends with: the last External entry, else the last Internal one, else the old value;
      and the pass fails exactly when some entry of either kind does not parse. */
  lemma ChooseMeaning(entries: seq<EndpointEntry>, ep: APIEndpoint)
    ensures Choose(Some(entries), ep).1 <==> AllParse(Internal, entries) && AllParse(External, entries)
    ensures Choose(Some(entries), ep).1 ==>
              var r := Choose(Some(entries), ep).0;
              if !Absent(External, entries) then IsLast(External, entries, r)
              else if !Absent(Internal, entries) then IsLast(Internal, entries, r)
              else r == ep
  {
    ScanMeaning(Internal, entries, ep);
    ScanMeaning(External, entries, Scan(Internal, entries, ep).0);
  }

  /** Choosing again from the same list changes nothing. */
  lemma ChooseAgain(list: Option<seq<EndpointEntry>>, ep: APIEndpoint)
    requires Choose(list, ep).1
    ensures Choose(list, Choose(list, ep).0) == Choose(list, ep)
  {
    match list
    case None =>
    case Some(entries) =>
      var r := Choose(list, ep).0;
      var inner := Scan(Internal, entries, ep).0;
      ScanOnce(Internal, entries, ep, r);
      ScanOnce(External, entries, inner, Scan(Internal, entries, r).0);
      if Absent(External, entries) {
        ScanMeaning(External, entries, inner);
        ScanMeaning(Internal, entries, ep);
        ScanMeaning(Internal, entries, r);
        ScanMeaning(External, entries, Scan(Internal, entries, r).0);
      }
  }

  /** The starting endpoint matters only when no entry has the kind. */
  lemma {:induction false} ScanOnce(kind: EndpointKind, list: seq<EndpointEntry>, ep: APIEndpoint, other: APIEndpoint)
    ensures Scan(kind, list, ep).1 == Scan(kind, list, other).1
    ensures !Absent(kind, list) && Scan(kind, list, ep).1 ==> Scan(kind, list, ep) == Scan(kind, list, other)
  {
    if list != [] {
      if list[0].kind != kind {
        ScanOnce(kind, list[1..], ep, other);
        if !Absent(kind, list) {
          var i :| 0 <= i < |list| && list[i].kind == kind;
          assert list[1..][i - 1].kind == kind;
        }
      }
    }
  }

  /** The loop of reconcileCluster over the entries of one kind. */
  method ScanLoop(kind: EndpointKind, list: seq<EndpointEntry>, start: APIEndpoint) returns (ep: APIEndpoint, ok: bool)
    ensures (ep, ok) == Scan(kind, list, start)
  {
    ep := start;
    for i := 0 to |list|
      invariant Scan(kind, list, start) == Scan(kind, list[i..], ep)
    {
      if list[i].kind == kind {
        var parsed := ParseUrl(list[i].url);
        if parsed.None? {
          return ep, false;
        }
        ep := parsed.value;
      }
      assert list[i..][1..] == list[i + 1..];
    }
    ok := true;
  }
}
