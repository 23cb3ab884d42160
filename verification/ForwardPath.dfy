/** `ForwardPathHelper`: DNS address rewriting with a lazily expired flow table, MSS clamping and the
    QUIC block. */
module ForwardPath {
  import opened Bytes
  import opened MssClamp

  type Address = nat

  datatype Protocol = Udp | Tcp
  datatype Key = Key(protocol: Protocol, client: Address, port: nat)
  datatype Flow = Flow(original: Address, expires: real)
  type FlowTable = map<Key, Flow>

  datatype Lan = Lan(address: Address, gateway: Address, base: Address, size: nat)

  /** The helper's settings; address classes come from the ipaddress library and are taken as given. */
  datatype Config = Config(
    resolver: Address, tcpMss: u16, blockQuic: bool, rewriteDns: bool, ttl: real, lan: Option<Lan>,
    isPrivate: Address -> bool, isExternal: Address -> bool)

  /** The header fields of one packet at the time it is handled. */
  datatype Header = Header(
    now: real, protocol: Protocol, src: Address, dst: Address, srcPort: nat, dstPort: nat)

  predicate InNetwork(lan: Lan, a: Address) { lan.base <= a < lan.base + lan.size }

  predicate IsClient(c: Config, a: Address) {
    && c.lan.Some?
    && var lan := c.lan.value;
    && InNetwork(lan, a) && a != lan.address && a != lan.gateway
    && a != lan.base && a != lan.base + lan.size - 1
  }

  predicate RewritesDns(c: Config, dst: Address) {
    && c.rewriteDns && c.lan.Some?
    && var lan := c.lan.value;
    && (dst == lan.gateway || (c.isPrivate(dst) && !InNetwork(lan, dst)))
  }

  // ---- single packets ----

  predicate IsQuery(c: Config, h: Header) {
    IsClient(c, h.src) && h.dstPort == 53 && RewritesDns(c, h.dst)
  }

  predicate IsReply(c: Config, h: Header) {
    IsClient(c, h.dst) && h.srcPort == 53 && h.src == c.resolver
  }

  function QueryKey(h: Header): Key { Key(h.protocol, h.src, h.srcPort) }
  function ReplyKey(h: Header): Key { Key(h.protocol, h.dst, h.dstPort) }

  /** Nothing addressed to a client is rewritten, so the two branches never compete. */
  lemma QueryOrReply(c: Config, h: Header)
    ensures !(IsQuery(c, h) && IsReply(c, h))
  {
  }

  function Unexpired(flows: FlowTable, now: real): FlowTable {
    map k | k in flows && flows[k].expires > now :: flows[k]
  }

  datatype Handled = Handled(flows: FlowTable, src: Address, dst: Address)

  /** The DNS part of process_packet. */
  function HandleDns(c: Config, flows: FlowTable, h: Header): Handled {
    var live := Unexpired(flows, h.now);
    if IsQuery(c, h) then Handled(live[QueryKey(h) := Flow(h.dst, h.now + c.ttl)], h.src, c.resolver)
    else if IsReply(c, h) && ReplyKey(h) in live then
      Handled(if h.protocol == Udp then live - {ReplyKey(h)} else live, live[ReplyKey(h)].original, h.dst)
    else Handled(live, h.src, h.dst)
  }

  // ---- the history lookup the table refines ----

  /** The address the latest rewritten query of this flow was meant for, if that query is younger than
      the time to live and, on UDP, has not been answered since. */
  function Lookup(c: Config, history: seq<Header>, key: Key, now: real): Option<Address> {
    if history == [] then None
    else
      var last := history[|history| - 1];
      if IsQuery(c, last) && QueryKey(last) == key then
        (if now < last.now + c.ttl then Some(last.dst) else None)
      else if key.protocol == Udp && IsReply(c, last) && ReplyKey(last) == key then None
      else Lookup(c, history[..|history| - 1], key, now)
  }

  function Live(flows: FlowTable, key: Key, now: real): Option<Address> {
    if key in flows && now < flows[key].expires then Some(flows[key].original) else None
  }

  /** From `now` on the table answers like the history. */
  ghost predicate Refines(c: Config, flows: FlowTable, history: seq<Header>, now: real) {
    forall key, t :: t >= now ==> Live(flows, key, t) == Lookup(c, history, key, t)
  }

  function TableAfter(c: Config, history: seq<Header>): FlowTable {
    if history == [] then map[]
    else HandleDns(c, TableAfter(c, history[..|history| - 1]), history[|history| - 1]).flows
  }

  predicate Clocked(history: seq<Header>) {
    forall i, j :: 0 <= i < j < |history| ==> history[i].now <= history[j].now
  }

  lemma StepRefines(c: Config, flows: FlowTable, history: seq<Header>, h: Header)
    requires Refines(c, flows, history, h.now)
    ensures Refines(c, HandleDns(c, flows, h).flows, history + [h], h.now)
  {
    var next := HandleDns(c, flows, h).flows;
    assert (history + [h])[..|history|] == history;
    forall key, t | t >= h.now
      ensures Live(next, key, t) == Lookup(c, history + [h], key, t)
    {
      assert Live(flows, key, t) == Lookup(c, history, key, t);
    }
  }

  lemma {:induction false} TableRefines(c: Config, history: seq<Header>, now: real)
    requires Clocked(history)
    requires history != [] ==> history[|history| - 1].now <= now
    ensures Refines(c, TableAfter(c, history), history, now)
    decreases |history|
  {
    if history != [] {
      var init, h := history[..|history| - 1], history[|history| - 1];
      TableRefines(c, init, h.now);
      StepRefines(c, TableAfter(c, init), init, h);
      assert init + [h] == history;
    }
  }

  lemma ClockedBefore(history: seq<Header>, h: Header)
    requires Clocked(history + [h])
    ensures Clocked(history) && (history != [] ==> history[|history| - 1].now <= h.now)
  {
    var all := history + [h];
    forall i, j | 0 <= i < j < |history|
      ensures history[i].now <= history[j].now
    {
      assert all[i].now <= all[j].now;
    }
    if history != [] {
      assert all[|history| - 1].now <= all[|history|].now;
    }
  }

  /** What one packet gets from a table that agrees with what is known of its flow. */
  lemma Translated(c: Config, flows: FlowTable, h: Header, known: Option<Address>)
    requires IsReply(c, h) ==> Live(flows, ReplyKey(h), h.now) == known
    ensures var out := HandleDns(c, flows, h);
            && out.src == (match (if IsReply(c, h) then known else None)
                           case Some(original) => original
                           case None => h.src)
            && out.dst == if IsQuery(c, h) then c.resolver else h.dst
  {
    QueryOrReply(c, h);
  }

  /** Main result: over any run of packets with a non-decreasing clock, the next packet leaves with the
      source the history names when it is a reply from the resolver to a flow the history still knows,
      with the resolver as destination when it is a rewritten query, and otherwise unchanged. */
  lemma {:induction false} RewriteFollowsHistory(c: Config, history: seq<Header>, h: Header)
    requires Clocked(history + [h])
    ensures var out := HandleDns(c, TableAfter(c, history), h);
            && out.flows == TableAfter(c, history + [h])
            && out.src == (match (if IsReply(c, h) then Lookup(c, history, ReplyKey(h), h.now) else None)
                           case Some(original) => original
                           case None => h.src)
            && out.dst == if IsQuery(c, h) then c.resolver else h.dst
  {
    ClockedBefore(history, h);
    assert (history + [h])[..|history|] == history;
    TableRefines(c, history, h.now);
    Translated(c, TableAfter(c, history), h,
               if IsReply(c, h) then Lookup(c, history, ReplyKey(h), h.now) else None);
  }

  /** A UDP answer uses its query up; a TCP segment does not. */
  lemma AnswersConsumeUdp(c: Config, history: seq<Header>, h: Header, key: Key, now: real)
    requires IsReply(c, h) && ReplyKey(h) == key
    ensures Lookup(c, history + [h], key, now) == if key.protocol == Udp then None else Lookup(c, history, key, now)
  {
    assert (history + [h])[..|history|] == history;
    QueryOrReply(c, h);
  }

  /** The clock matters: a packet stamped late expires a query for good, so a reply stamped earlier is
      no longer mapped although the history still would. */
  lemma BackwardsClockForgets(c: Config, query: Header, late: Header, reply: Header)
    requires IsQuery(c, query) && !IsQuery(c, late) && !IsReply(c, late)
    requires IsReply(c, reply) && ReplyKey(reply) == QueryKey(query)
    requires reply.now < query.now + c.ttl <= late.now
    ensures Lookup(c, [query, late], ReplyKey(reply), reply.now) == Some(query.dst)
    ensures HandleDns(c, TableAfter(c, [query, late]), reply).src == reply.src
  {
    var none: seq<Header> := [];
    assert [query, late][..1] == [query] && [query][..0] == none;
    assert TableAfter(c, none) == map[];
    var first := TableAfter(c, [query]);
    assert first == HandleDns(c, map[], query).flows;
    assert first == map[QueryKey(query) := Flow(query.dst, query.now + c.ttl)];
    assert TableAfter(c, [query, late]) == HandleDns(c, first, late).flows == map[];
    assert Lookup(c, [query], ReplyKey(reply), reply.now) == Some(query.dst);
  }

  // ---- the class ----

  class Packet {
    var src: Address
    var dst: Address
    const srcPort: nat
    const dstPort: nat
    const readable: bool
    const hasTcp: bool
    const hasUdp: bool
    const syn: bool
    const headerLen: int
    const raw: array<byte>

    constructor (src: Address, dst: Address, srcPort: nat, dstPort: nat, readable: bool, hasTcp: bool, hasUdp: bool,
                 syn: bool, headerLen: int, raw: array<byte>)
      ensures this.src == src && this.dst == dst && this.raw == raw
    {
      this.src, this.dst, this.srcPort, this.dstPort := src, dst, srcPort, dstPort;
      this.readable, this.hasTcp, this.hasUdp := readable, hasTcp, hasUdp;
      this.syn, this.headerLen, this.raw := syn, headerLen, raw;
    }

    function HeaderAt(now: real): Header
      reads this
    {
      Header(now, if hasTcp then Tcp else Udp, src, dst, srcPort, dstPort)
    }
  }

  /** SYNs between a client and an external address, judged on the rewritten addresses. */
  predicate ClampsSyn(c: Config, h: Header, out: Handled) {
    (IsClient(c, h.src) && c.isExternal(out.dst)) || (IsClient(c, h.dst) && c.isExternal(out.src))
  }

  predicate DropsQuic(c: Config, hasUdp: bool, h: Header, out: Handled) {
    c.blockQuic && hasUdp && IsClient(c, h.src) && h.dstPort == 443 && c.isExternal(out.dst)
  }

  class Helper {
    const config: Config
    var dnsFlows: FlowTable

    constructor (config: Config)
      ensures this.config == config && dnsFlows == map[]
    {
      this.config := config;
      dnsFlows := map[];
    }

    method ExpireDnsFlows(now: real)
      modifies this
      ensures dnsFlows == Unexpired(old(dnsFlows), now)
    {
      var expired := set k | k in dnsFlows && dnsFlows[k].expires <= now;
      dnsFlows := dnsFlows - expired;
    }

    method RememberDns(key: Key, original: Address, now: real)
      modifies this
      ensures dnsFlows == old(dnsFlows)[key := Flow(original, now + config.ttl)]
    {
      dnsFlows := dnsFlows[key := Flow(original, now + config.ttl)];
    }

    method OriginalDns(key: Key, remove: bool) returns (original: Option<Address>)
      modifies this
      ensures original == if key in old(dnsFlows) then Some(old(dnsFlows)[key].original) else None
      ensures dnsFlows == if remove then old(dnsFlows) - {key} else old(dnsFlows)
    {
      if key !in dnsFlows {
        assert dnsFlows - {key} == dnsFlows;
        return None;
      }
      original := Some(dnsFlows[key].original);
      if remove {
        dnsFlows := dnsFlows - {key};
      }
    }

    /** `process_packet`: the packet's addresses and buffer are edited in place; the result says
        whether it is sent on. */
    method ProcessPacket(packet: Packet, now: real) returns (reinject: bool)
      modifies this, packet, packet.raw
      ensures var h := old(packet.HeaderAt(now));
              var out := HandleDns(config, old(dnsFlows), h);
              if !packet.readable || (!packet.hasTcp && !packet.hasUdp) then
                reinject && dnsFlows == old(dnsFlows) && packet.src == h.src && packet.dst == h.dst
                && packet.raw[..] == old(packet.raw[..])
              else
                && dnsFlows == out.flows && packet.src == out.src && packet.dst == out.dst
                && packet.raw[..] == (if packet.hasTcp && packet.syn && ClampsSyn(config, h, out)
                                      then Clamped(old(packet.raw[..]), packet.headerLen, config.tcpMss)
                                      else old(packet.raw[..]))
                && (reinject <==> !DropsQuic(config, packet.hasUdp, h, out))
    {
      if !packet.readable {
        return true;
      }
      if !packet.hasTcp && !packet.hasUdp {
        return true;
      }
      var protocol := if packet.hasTcp then Tcp else Udp;
      ExpireDnsFlows(now);
      var source, destination := packet.src, packet.dst;
      var sourceIsClient := IsClient(config, source);
      var destinationIsClient := IsClient(config, destination);
      if sourceIsClient && packet.dstPort == 53 && RewritesDns(config, destination) {
        RememberDns(Key(protocol, source, packet.srcPort), destination, now);
        packet.dst := config.resolver;
        destination := config.resolver;
      } else if destinationIsClient && packet.srcPort == 53 && source == config.resolver {
        var original := OriginalDns(Key(protocol, destination, packet.dstPort), protocol == Udp);
        if original.Some? {
          packet.src := original.value;
          source := original.value;
        }
      }
      if packet.hasTcp && packet.syn {
        if (sourceIsClient && config.isExternal(destination)) || (destinationIsClient && config.isExternal(source)) {
          var changed := ClampTcpMss(packet.raw, packet.headerLen, config.tcpMss);
        }
      }
      if config.blockQuic && packet.hasUdp && sourceIsClient && packet.dstPort == 443
         && config.isExternal(destination) {
        return false;
      }
      return true;
    }
  }
}
