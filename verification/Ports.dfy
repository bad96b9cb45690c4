/** internal/resources/meta.go: the port set of a WebApp, shared by the builders and
    by admission. */
module Ports {
  import opened Base
  import opened Text
  import opened Api

  const DEFAULT_PORT_NAME := "http"

  function Protocol(p: Port): string {
    if p.protocol == "" then TCP else p.protocol
  }

  function PortName(p: Port): string {
    if p.name != "" then p.name
    else if Protocol(p) == UDP then "port-" + Decimal(p.number) + "-udp"
    else "port-" + Decimal(p.number)
  }

  /** The key of the deduplication map. */
  datatype PortKey = PortKey(number: int, protocol: string)

  function KeyOf(p: Port): PortKey { PortKey(p.number, Protocol(p)) }

  /** Every declared port, containers in order. */
  function Declared(cs: seq<Container>): seq<Port> {
    if cs == [] then [] else Declared(cs[..|cs| - 1]) + cs[|cs| - 1].ports
  }

  predicate KeySeen(ps: seq<Port>, k: PortKey) {
    exists i :: 0 <= i < |ps| && KeyOf(ps[i]) == k
  }

  function FirstOccurrences(ps: seq<Port>): seq<Port> {
    if ps == [] then []
    else
      var (init, last) := (ps[..|ps| - 1], ps[|ps| - 1]);
      FirstOccurrences(init) + if KeySeen(init, KeyOf(last)) then [] else [last]
  }

  function AllPorts(spec: WebAppSpec): seq<Port> {
    FirstOccurrences(Declared(spec.containers))
  }

  function NamesOf(ps: seq<Port>): seq<string> {
    seq(|ps|, i requires 0 <= i < |ps| => PortName(ps[i]))
  }

  function PortNames(spec: WebAppSpec): seq<string> { NamesOf(AllPorts(spec)) }

  datatype BuildError = NoPorts | UnknownIngressPort | NoMaxReplicas

  datatype Built<+T> = Good(value: T) | Bad(error: BuildError)

  function BackendPort(spec: WebAppSpec): Built<string> {
    var ports := AllPorts(spec);
    var want := spec.ingressPortName;
    if ports == [] then Bad(NoPorts)
    else if want != "" then
      if want in NamesOf(ports) then Good(want) else Bad(UnknownIngressPort)
    else if exists i :: 0 <= i < |ports| && ports[i].name == DEFAULT_PORT_NAME then Good(DEFAULT_PORT_NAME)
    else Good(PortName(ports[0]))
  }

  /* The loops. */

  function KeysOf(ps: seq<Port>): set<PortKey> {
    set p | p in ps :: KeyOf(p)
  }

  lemma KeysOfSeen(ps: seq<Port>)
    ensures forall k :: k in KeysOf(ps) <==> KeySeen(ps, k)
  {
    forall k ensures k in KeysOf(ps) <==> KeySeen(ps, k) {
      if k in KeysOf(ps) {
        var p :| p in ps && KeyOf(p) == k;
        var i :| 0 <= i < |ps| && ps[i] == p;
      }
    }
  }

  /** One more port: its key joins the set, and it is kept unless the key was there. */
  lemma {:induction false} WalkOne(ps: seq<Port>, p: Port)
    ensures KeysOf(ps + [p]) == KeysOf(ps) + {KeyOf(p)}
    ensures FirstOccurrences(ps + [p]) == FirstOccurrences(ps) + if KeyOf(p) in KeysOf(ps) then [] else [p]
  {
    assert (ps + [p])[..|ps|] == ps;
    KeysOfSeen(ps);
    forall k ensures k in KeysOf(ps + [p]) <==> k in KeysOf(ps) + {KeyOf(p)} {
      if k in KeysOf(ps + [p]) {
        var q :| q in ps + [p] && KeyOf(q) == k;
      } else {
        assert p in ps + [p];
        assert forall q :: q in ps ==> q in ps + [p];
      }
    }
  }

  lemma WalkNothing(cs: seq<Container>)
    ensures Declared(cs[..0]) == [] && FirstOccurrences([]) == [] && KeysOf([]) == {}
  {
  }

  lemma DeclaredSnoc(cs: seq<Container>, i: nat)
    requires i < |cs|
    ensures Declared(cs[..i + 1]) == Declared(cs[..i]) + cs[i].ports
  {
    assert cs[..i + 1][..i] == cs[..i];
  }

  method CollectPorts(spec: WebAppSpec) returns (out: seq<Port>)
    ensures out == AllPorts(spec)
  {
    hide FirstOccurrences, KeysOf, Declared, KeySeen;
    var cs := spec.containers;
    WalkNothing(cs);
    var seen: map<PortKey, bool> := map[];
    out := [];
    ghost var walked: seq<Port> := [];
    for i := 0 to |cs|
      invariant walked == Declared(cs[..i])
      invariant out == FirstOccurrences(walked) && seen.Keys == KeysOf(walked)
    {
      var c := cs[i];
      for j := 0 to |c.ports|
        invariant walked == Declared(cs[..i]) + c.ports[..j]
        invariant out == FirstOccurrences(walked) && seen.Keys == KeysOf(walked)
      {
        var p := c.ports[j];
        WalkOne(walked, p);
        assert c.ports[..j + 1] == c.ports[..j] + [p];
        walked := walked + [p];
        if KeyOf(p) in seen {
          continue;
        }
        seen := seen[KeyOf(p) := true];
        out := out + [p];
      }
      DeclaredSnoc(cs, i);
    }
    assert cs[..|cs|] == cs;
  }

  method CollectPortNames(spec: WebAppSpec) returns (out: seq<string>)
    ensures out == PortNames(spec)
  {
    var ports := CollectPorts(spec);
    out := [];
    for i := 0 to |ports|
      invariant out == NamesOf(ports[..i])
    {
      out := out + [PortName(ports[i])];
    }
    assert ports[..|ports|] == ports;
  }

  method FindBackendPort(spec: WebAppSpec) returns (r: Built<string>)
    ensures r == BackendPort(spec)
  {
    var ports := CollectPorts(spec);
    if |ports| == 0 {
      return Bad(NoPorts);
    }
    var want := spec.ingressPortName;
    if want != "" {
      for i := 0 to |ports|
        invariant want !in NamesOf(ports)[..i]
      {
        assert NamesOf(ports)[i] == PortName(ports[i]);
        if PortName(ports[i]) == want {
          return Good(want);
        }
      }
      assert NamesOf(ports)[..|ports|] == NamesOf(ports);
      return Bad(UnknownIngressPort);
    }
    for i := 0 to |ports|
      invariant forall k :: 0 <= k < i ==> ports[k].name != DEFAULT_PORT_NAME
    {
      if ports[i].name == DEFAULT_PORT_NAME {
        return Good(PortName(ports[i]));
      }
    }
    return Good(PortName(ports[0]));
  }

  /* What the deduplication means. */

  /** Position i is the first with its number and effective protocol. */
  predicate IsFirst(ps: seq<Port>, i: int) {
    0 <= i < |ps| && forall j :: 0 <= j < i ==> KeyOf(ps[j]) != KeyOf(ps[i])
  }

  /** The positions that survive, in order. */
  function FirstPositions(ps: seq<Port>, n: nat): seq<nat>
    requires n <= |ps|
  {
    if n == 0 then []
    else FirstPositions(ps, n - 1) + if IsFirst(ps, n - 1) then [n - 1] else []
  }

  ghost predicate OrderedSelection(ps: seq<Port>, chosen: seq<nat>, out: seq<Port>) {
    && |out| == |chosen|
    && (forall a, b :: 0 <= a < b < |chosen| ==> chosen[a] < chosen[b])
    && (forall a :: 0 <= a < |chosen| ==> chosen[a] < |ps| && out[a] == ps[chosen[a]])
  }

  lemma {:induction false} FirstPositionsExact(ps: seq<Port>, n: nat)
    requires n <= |ps|
    ensures forall a, b :: 0 <= a < b < |FirstPositions(ps, n)| ==> FirstPositions(ps, n)[a] < FirstPositions(ps, n)[b]
    ensures forall i :: i in FirstPositions(ps, n) <==> 0 <= i < n && IsFirst(ps, i)
  {
    if n > 0 {
      FirstPositionsExact(ps, n - 1);
      var f := FirstPositions(ps, n - 1);
      assert forall a :: 0 <= a < |f| ==> f[a] in f;
    }
  }

  lemma {:induction false} FirstOccurrencesArePositions(ps: seq<Port>, n: nat)
    requires n <= |ps|
    ensures OrderedSelection(ps, FirstPositions(ps, n), FirstOccurrences(ps[..n]))
  {
    FirstPositionsExact(ps, n);
    if n > 0 {
      FirstOccurrencesArePositions(ps, n - 1);
      assert ps[..n][..n - 1] == ps[..n - 1];
      var init := ps[..n - 1];
      assert KeySeen(init, KeyOf(ps[n - 1])) <==> !IsFirst(ps, n - 1) by {
        if !IsFirst(ps, n - 1) {
          var j :| 0 <= j < n - 1 && KeyOf(ps[j]) == KeyOf(ps[n - 1]);
          assert KeyOf(init[j]) == KeyOf(ps[n - 1]);
        }
      }
    }
  }

  /** The deduplicated list is the order-preserving selection of exactly the first
      occurrences: keys are pairwise distinct and none is lost. */
  lemma DeduplicationExact(spec: WebAppSpec)
    ensures var ps := Declared(spec.containers); var out := AllPorts(spec);
      && OrderedSelection(ps, FirstPositions(ps, |ps|), out)
      && (forall i :: i in FirstPositions(ps, |ps|) <==> 0 <= i < |ps| && IsFirst(ps, i))
      && (forall a, b :: 0 <= a < b < |out| ==> KeyOf(out[a]) != KeyOf(out[b]))
      && (forall k :: KeySeen(ps, k) <==> KeySeen(out, k))
  {
    hide Declared, FirstOccurrences, FirstPositions;
    var ps, out := Declared(spec.containers), AllPorts(spec);
    var f := FirstPositions(ps, |ps|);
    assert ps[..|ps|] == ps;
    FirstOccurrencesArePositions(ps, |ps|);
    FirstPositionsExact(ps, |ps|);
    forall a, b | 0 <= a < b < |out| ensures KeyOf(out[a]) != KeyOf(out[b]) {
      assert f[b] in f && IsFirst(ps, f[b]);
    }
    forall k ensures KeySeen(ps, k) <==> KeySeen(out, k) {
      if KeySeen(ps, k) {
        var i :| 0 <= i < |ps| && KeyOf(ps[i]) == k;
        var j := FirstWith(ps, i);
        assert j in f;
        var a :| 0 <= a < |f| && f[a] == j;
        assert KeyOf(out[a]) == k;
      }
      if KeySeen(out, k) {
        var a :| 0 <= a < |out| && KeyOf(out[a]) == k;
        assert KeyOf(ps[f[a]]) == k;
      }
    }
  }

  lemma {:induction false} FirstWith(ps: seq<Port>, i: nat) returns (j: nat)
    requires i < |ps|
    ensures j <= i && IsFirst(ps, j) && KeyOf(ps[j]) == KeyOf(ps[i])
  {
    if IsFirst(ps, i) {
      j := i;
    } else {
      var e :| 0 <= e < i && KeyOf(ps[e]) == KeyOf(ps[i]);
      j := FirstWith(ps, e);
    }
  }

  /** Without repeated keys nothing is dropped, and only then. */
  lemma NothingDropped(spec: WebAppSpec)
    ensures AllPorts(spec) == Declared(spec.containers) <==>
      forall i, j :: 0 <= i < j < |Declared(spec.containers)| ==>
        KeyOf(Declared(spec.containers)[i]) != KeyOf(Declared(spec.containers)[j])
  {
    var ps := Declared(spec.containers);
    DeduplicationExact(spec);
    if forall i, j :: 0 <= i < j < |ps| ==> KeyOf(ps[i]) != KeyOf(ps[j]) {
      KeepsDistinct(ps);
    }
  }

  lemma {:induction false} KeepsLast(ps: seq<Port>)
    requires ps != [] && forall i :: 0 <= i < |ps| - 1 ==> KeyOf(ps[i]) != KeyOf(ps[|ps| - 1])
    ensures FirstOccurrences(ps) == FirstOccurrences(ps[..|ps| - 1]) + [ps[|ps| - 1]]
  {
    assert !KeySeen(ps[..|ps| - 1], KeyOf(ps[|ps| - 1]));
  }

  lemma {:induction false} KeepsDistinct(ps: seq<Port>)
    requires forall i, j :: 0 <= i < j < |ps| ==> KeyOf(ps[i]) != KeyOf(ps[j])
    ensures FirstOccurrences(ps) == ps
  {
    if ps != [] {
      KeepsLast(ps);
      hide FirstOccurrences;
      KeepsDistinct(ps[..|ps| - 1]);
    }
  }

  /** The flattening is empty only if no container declares a port. */
  lemma {:induction false} DeclaredEmpty(cs: seq<Container>)
    ensures Declared(cs) == [] <==> forall i :: 0 <= i < |cs| ==> cs[i].ports == []
  {
    if cs != [] {
      DeclaredEmpty(cs[..|cs| - 1]);
      assert cs == cs[..|cs| - 1] + [cs[|cs| - 1]];
    }
  }

  predicate HasPort(cs: seq<Container>, i: int, j: int) { 0 <= i < |cs| && 0 <= j < |cs[i].ports| }

  /** The flattening holds the declared ports and nothing else. */
  lemma {:induction false} DeclaredHolds(cs: seq<Container>, p: Port) returns (i: nat, j: nat)
    requires p in Declared(cs)
    ensures HasPort(cs, i, j) && cs[i].ports[j] == p
  {
    var n := |cs| - 1;
    if p in cs[n].ports {
      var l :| 0 <= l < |cs[n].ports| && cs[n].ports[l] == p;
      i, j := n, l;
    } else {
      i, j := DeclaredHolds(cs[..n], p);
    }
  }

  lemma {:induction false} DeclaredCovers(cs: seq<Container>, i: nat, j: nat)
    requires HasPort(cs, i, j)
    ensures cs[i].ports[j] in Declared(cs)
  {
    var n := |cs| - 1;
    if i < n {
      DeclaredCovers(cs[..n], i, j);
    }
  }

  /** Deduplication leaves a port exactly if some container declares one. */
  lemma PortsExist(spec: WebAppSpec)
    ensures AllPorts(spec) != [] <==> exists i, j :: HasPort(spec.containers, i, j)
  {
    hide Declared, FirstOccurrences, FirstPositions;
    var ps, out := Declared(spec.containers), AllPorts(spec);
    DeduplicationExact(spec);
    if out != [] {
      assert KeySeen(out, KeyOf(out[0]));
      var k :| 0 <= k < |ps| && KeyOf(ps[k]) == KeyOf(out[0]);
      var i, j := DeclaredHolds(spec.containers, ps[k]);
    }
    if i, j :| HasPort(spec.containers, i, j) {
      DeclaredCovers(spec.containers, i, j);
      assert KeySeen(ps, KeyOf(spec.containers[i].ports[j]));
    }
  }

  /* Names. */

  /** The protocol a port binds: TCP when it names none. */
  predicate Binds(p: Port, protocol: string) {
    p.protocol == protocol || (p.protocol == "" && protocol == "TCP")
  }

  /** Two ports clash exactly when they bind the same number over the same protocol. */
  lemma KeyMeans(p: Port, q: Port)
    ensures KeyOf(p) == KeyOf(q) <==>
      p.number == q.number && exists protocol :: protocol != "" && Binds(p, protocol) && Binds(q, protocol)
  {
    assert TCP != "";
    if KeyOf(p) == KeyOf(q) {
      assert Binds(p, Protocol(p)) && Binds(q, Protocol(p));
    }
  }

  /** The name a port goes by: its own, or port- and its number, and -udp after that for UDP. */
  lemma PortNameExact(p: Port)
    ensures p.name != "" ==> PortName(p) == p.name
    ensures p.name == "" && p.number >= 0 ==>
      exists digits: string ::
        && PortName(p) == "port-" + digits + (if Binds(p, "UDP") then "-udp" else "")
        && digits != "" && ValueOf(digits) == p.number && (|digits| > 1 ==> digits[0] != '0')
        && forall i :: 0 <= i < |digits| ==> Digit(digits[i])
  {
    assert UDP == "UDP" && |UDP| == |TCP| && UDP[0] != TCP[0];
    if p.name == "" && p.number >= 0 {
      var digits := Natural(p.number);
      NaturalReads(p.number);
      NaturalIsDigits(p.number);
      assert PortName(p) == "port-" + digits + (if Binds(p, "UDP") then "-udp" else "");
    }
  }

  lemma {:induction false} FiveDigits(n: nat)
    requires n <= 65535
    ensures |Natural(n)| <= 5
  {
    assert Pow10(5) == 100000;
    NaturalLength(n, 5);
  }

  /** An unnamed port with a valid number gets a legal service name of at most 14 characters. */
  lemma GeneratedNameLegal(p: Port)
    requires p.name == "" && 1 <= p.number <= 65535
    ensures ServiceName(PortName(p)) && |PortName(p)| <= 14
  {
    hide Natural, Pow10;
    var digits := Natural(p.number);
    NaturalIsDigits(p.number);
    FiveDigits(p.number);
    var name := PortName(p);
    assert name == "port-" + digits || name == "port-" + digits + "-udp";
    assert name[0] == 'p' && Lower(name[0]);
    assert name[..5] == "port-" && name[5..5 + |digits|] == digits;
    forall i | 5 <= i < 5 + |digits| ensures Digit(name[i]) {
      assert name[i] == digits[i - 5];
    }
    assert name[3] == 't';
  }

  /** What a generated name ends in tells whether a suffix follows the digits. */
  lemma GeneratedNameParts(p: Port)
    requires p.name == "" && p.number >= 0
    ensures var s, tail := PortName(p), if Protocol(p) == UDP then 4 else 0;
      && |s| > 5 + tail && s[5..|s| - tail] == Natural(p.number)
      && (Protocol(p) == UDP <==> s[|s| - 1] == 'p')
  {
    hide Natural;
    var digits := Natural(p.number);
    NaturalIsDigits(p.number);
    assert PortName(p) == "port-" + digits + if Protocol(p) == UDP then "-udp" else "";
    assert Digit(digits[|digits| - 1]);
  }

  /** Two unnamed ports with valid numbers share a generated name only if their keys agree
      on the number and on being UDP. */
  lemma GeneratedNamesInjective(p: Port, q: Port)
    requires p.name == "" && q.name == "" && p.number >= 0 && q.number >= 0
    requires PortName(p) == PortName(q)
    ensures p.number == q.number && (Protocol(p) == UDP <==> Protocol(q) == UDP)
  {
    hide Natural, PortName;
    GeneratedNameParts(p);
    GeneratedNameParts(q);
    NaturalInjective(p.number, q.number);
  }

  /** The Ingress backend names a port of the Service, the chosen one, else one called http,
      else the first; when names are distinct it names exactly one. */
  lemma BackendNamesOnePort(spec: WebAppSpec)
    ensures BackendPort(spec).Good? ==>
      var value := BackendPort(spec).value;
      if spec.ingressPortName != "" then value == spec.ingressPortName
      else if exists p :: p in AllPorts(spec) && p.name == DEFAULT_PORT_NAME then value == DEFAULT_PORT_NAME
      else value == PortName(AllPorts(spec)[0])
    ensures BackendPort(spec).Good? ==> BackendPort(spec).value in PortNames(spec)
    ensures BackendPort(spec).Good? && Distinct(PortNames(spec)) ==>
      exists i :: 0 <= i < |AllPorts(spec)| && PortName(AllPorts(spec)[i]) == BackendPort(spec).value &&
        forall j :: 0 <= j < |AllPorts(spec)| && j != i ==> PortName(AllPorts(spec)[j]) != BackendPort(spec).value
    ensures BackendPort(spec) == Bad(NoPorts) <==> AllPorts(spec) == []
    ensures BackendPort(spec).Bad? ==>
      BackendPort(spec).error == NoPorts || BackendPort(spec).error == UnknownIngressPort
    ensures BackendPort(spec).Bad? <==>
        AllPorts(spec) == [] || (spec.ingressPortName != "" && spec.ingressPortName !in PortNames(spec))
  {
    hide AllPorts, Natural, Decimal;
    var ports, names := AllPorts(spec), PortNames(spec);
    var r := BackendPort(spec);
    if r.Good? {
      if spec.ingressPortName == "" {
        if exists i :: 0 <= i < |ports| && ports[i].name == DEFAULT_PORT_NAME {
          var i :| 0 <= i < |ports| && ports[i].name == DEFAULT_PORT_NAME;
          assert names[i] == DEFAULT_PORT_NAME;
        } else {
          assert names[0] == r.value;
        }
      }
      var i :| 0 <= i < |names| && names[i] == r.value;
      if Distinct(names) {
        forall j | 0 <= j < |ports| && j != i ensures PortName(ports[j]) != r.value {
          assert names[j] != names[i];
        }
        assert PortName(ports[i]) == r.value;
      }
    }
  }
}
