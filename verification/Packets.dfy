/** The part of nftables that the rendered tables use: rules that match, set
    marks and give a verdict, chains that jump, and base chains at hooks. */
module Packets {
  import opened Addresses
  import opened Intent

  /** A 32-bit mark as its halves: every mask in the tables selects the upper
      half, its upper byte, or bits of the lower half (see MarkWords). */
  datatype Mark = Mark(owner: nat, low: nat)

  const NAMESPACE: nat := 0x4f

  function Owner(slot: nat): nat { 0x4f00 + slot }

  /** ct mark & 0xff000000 != 0x4f000000 */
  predicate Foreign(m: Mark) { m.owner / 256 != NAMESPACE }

  datatype Range =
    | Router | Multicast4 | Multicast6 | LinkLocal6
    | Local(prefix: Prefix) | Fake4 | Fake6

  datatype Proto = TCP | UDP | OtherProto

  /** `dst` is the set of known ranges the destination lies in; `listener` is
      the local port the packet was handed to, 0 for none. */
  datatype Packet = Packet(
    family: Family, proto: Proto, dns: bool, dst: set<Range>,
    iif: string, oif: string, ct: Mark, meta: Mark,
    listener: nat, rewritten: bool, queue: nat)

  datatype Match =
    | Iif(devices: seq<string>) | Oif(device: string) | OifNot(notDevice: string)
    | TcpUdp | TcpOnly | Dns
    | OfFamily(family: Family) | Daddr(of: Family, range: Range)
    | CtOwner(ct: nat) | MetaOwner(meta: nat) | CtForeign | EngineClear

  predicate Hits(m: Match, p: Packet) {
    match m
    case Iif(devices) => p.iif in devices
    case Oif(device) => p.oif == device
    case OifNot(device) => p.oif != device
    case TcpUdp => !p.proto.OtherProto?
    case TcpOnly => p.proto.TCP?
    case Dns => !p.proto.OtherProto? && p.dns
    case OfFamily(f) => p.family == f
    case Daddr(f, r) => p.family == f && r in p.dst
    case CtOwner(o) => p.ct.owner == o
    case MetaOwner(o) => p.meta.owner == o
    case CtForeign => Foreign(p.ct)
    case EngineClear => p.meta.low / 0x4000 % 4 == 0
  }

  predicate HitsAll(ms: seq<Match>, p: Packet) {
    forall i :: 0 <= i < |ms| ==> Hits(ms[i], p)
  }

  datatype Chain =
    | SelectFlow | DnsClassify | DnsNat | Prerouting | Protect | DnsBlock
    | Forward | ForwardCheck | Postrouting | Dispatch | Output

  datatype Verdict =
    | NoVerdict | Accept | Drop | Return | Jump(chain: Chain)
    | TproxyTo(port: nat) | Dnat | Redirect(front: nat) | Enqueue(num: nat, tag: bool)

  /** Marks are set, keeping their lower half, before the verdict; 0 sets none. */
  datatype Rule = Rule(matches: seq<Match>, setCt: nat, setMeta: nat, verdict: Verdict)

  type Table = map<Chain, seq<Rule>>

  function Marked(r: Rule, p: Packet): Packet {
    var q := if r.setCt == 0 then p else p.(ct := p.ct.(owner := r.setCt));
    if r.setMeta == 0 then q else q.(meta := q.meta.(owner := r.setMeta))
  }

  /** low | 0x4000: the packet has been through an engine. */
  function Tagged(low: nat): nat { if low / 0x4000 % 2 == 0 then low + 0x4000 else low }

  datatype Outcome = Going(p: Packet) | Accepted(p: Packet) | Dropped | Back(p: Packet)

  /** Rules in order; a jump that returns goes on after the jump.  The kernel
      bounds the jump depth and refuses what goes beyond. */
  function Run(t: Table, rules: seq<Rule>, p: Packet, depth: nat): Outcome
    decreases depth, |rules|
  {
    if rules == [] then Going(p)
    else if !HitsAll(rules[0].matches, p) then Run(t, rules[1..], p, depth)
    else
      match Fire(t, rules[0], p, depth)
      case Going(q) => Run(t, rules[1..], q, depth)
      case Accepted(q) => Accepted(q)
      case Dropped => Dropped
      case Back(q) => Back(q)
  }

  /** One rule that matched. */
  function Fire(t: Table, r: Rule, p: Packet, depth: nat): Outcome
    decreases depth, 0
  {
    var q := Marked(r, p);
    match r.verdict
    case NoVerdict => Going(q)
    case Accept => Accepted(q)
    case Drop => Dropped
    case Return => Back(q)
    case TproxyTo(port) => Accepted(q.(listener := port))
    case Redirect(port) => Accepted(q.(listener := port, rewritten := true, dns := false))
    case Dnat => Accepted(q.(rewritten := true))
    case Enqueue(n, tag) => Accepted(if tag then q.(queue := n, meta := q.meta.(low := Tagged(q.meta.low))) else q.(queue := n))
    case Jump(c) =>
      if depth == 0 || c !in t then Dropped
      else
        match Run(t, t[c], q, depth - 1)
        case Going(x) => Going(x)
        case Back(x) => Going(x)
        case Accepted(x) => Accepted(x)
        case Dropped => Dropped
  }

  const JUMPS: nat := 16

  datatype Fate = Lost | Passed(p: Packet)

  /** A base chain with policy accept. */
  function Hook(t: Table, c: Chain, p: Packet): Fate {
    if c !in t then Passed(p) else
      match Run(t, t[c], p, JUMPS)
      case Dropped => Lost
      case Going(q) => Passed(q)
      case Back(q) => Passed(q)
      case Accepted(q) => Passed(q)
  }

  // ----- how rule lists compose

  lemma {:induction false} RunConcat(t: Table, a: seq<Rule>, b: seq<Rule>, p: Packet, depth: nat)
    ensures Run(t, a + b, p, depth) ==
            match Run(t, a, p, depth)
            case Going(q) => Run(t, b, q, depth)
            case Accepted(q) => Accepted(q)
            case Dropped => Dropped
            case Back(q) => Back(q)
    decreases |a|
  {
    if a == [] {
      assert a + b == b;
    } else {
      assert (a + b)[1..] == a[1..] + b;
      if !HitsAll(a[0].matches, p) {
        RunConcat(t, a[1..], b, p, depth);
      } else {
        match Fire(t, a[0], p, depth)
        case Going(q) => RunConcat(t, a[1..], b, q, depth);
        case Accepted(q) =>
        case Dropped =>
        case Back(q) =>
      }
    }
  }

  lemma RunOne(t: Table, r: Rule, p: Packet, depth: nat)
    ensures Run(t, [r], p, depth) == if HitsAll(r.matches, p) then Fire(t, r, p, depth) else Going(p)
  {
    assert [r][1..] == [];
  }
}
