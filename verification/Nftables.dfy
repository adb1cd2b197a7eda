/** The rule language the packet filter is rendered in, and what the kernel does with it.

A chain is walked rule by rule.  A rule applies when all its matches hold.  `mark set` changes the
packet and goes on; a verdict ends the walk; `return` ends it too and leaves the decision to the
chain's policy, as running off the end does. */
module Nftables {
  import opened Netip
  import opened Domain

  datatype SetRef =
    | ClientSet(id: string)      // devices whose default egress this is
    | AllowedSet(id: string)     // devices permitted to use this tunnel
    | InternalSet(id: string)    // destinations of this private network
    | DnsClientSet(id: string)   // devices resolving through this egress
    | AdmittedSet                // every device that may resolve at all

  /** None is an element or operand the parser of the ruleset file would reject. */
  datatype SetDecl = SetDecl(ref: SetRef, elements: seq<Option<Cidr>>)

  datatype Operand = Block(cidr: Option<Cidr>) | In(ref: SetRef)

  datatype Match =
    | IifIs(name: string)
    | IifIsNot(name: string)
    | OifIs(name: string)
    | OifIsNot(name: string)
    | Source(operand: Operand)
    | Destination(operand: Operand)
    | DestPort(protocol: Protocol, port: Port)
    | ProtocolIs(protocol: Protocol)
    | OpensTcp
    | Established
    | Marked
    | MarkIs(mark: Mark)
    | Ipv6

  datatype Action =
    | Accept
    | Drop
    | Reject
    | Return
    | SetMark(mark: Mark)
    | SaveMark                                    // ct mark set meta mark
    | ClampMss
    | Dnat(address: Option<Addr>, port: Port)     // None keeps the destination address

  datatype Rule = Rule(matches: seq<Match>, actions: seq<Action>)

  /** An IPv4 packet as the hooks see it. */
  datatype Packet = Packet(
    iif: string, oif: string, saddr: Addr, daddr: Addr, protocol: Protocol, dport: Port,
    opensTcp: bool, established: bool, mark: Mark, ctMark: Mark)

  /** The sets of the table: declared elements, and those the resolver added to a private network's
  set as it answered. */
  datatype Tables = Tables(sets: seq<SetDecl>, learned: map<string, set<Addr>>)

  datatype Verdict = Accepted | Dropped | Rejected

  /** None as a verdict is `return`. */
  datatype Progress = Going(packet: Packet) | Stopped(verdict: Option<Verdict>, packet: Packet)

  predicate Declares(decl: SetDecl, a: Addr) {
    exists k :: 0 <= k < |decl.elements| && decl.elements[k].Some? && Contains(decl.elements[k].value, a)
  }

  predicate Declared(sets: seq<SetDecl>, ref: SetRef, a: Addr) {
    exists i :: 0 <= i < |sets| && sets[i].ref == ref && Declares(sets[i], a)
  }

  predicate InSet(t: Tables, ref: SetRef, a: Addr) {
    || Declared(t.sets, ref, a)
    || (ref.InternalSet? && ref.id in t.learned && a in t.learned[ref.id])
  }

  predicate Holds(operand: Operand, t: Tables, a: Addr) {
    match operand
    case Block(cidr) => cidr.Some? && Contains(cidr.value, a)
    case In(ref) => InSet(t, ref, a)
  }

  predicate Matches(m: Match, t: Tables, p: Packet) {
    match m
    case IifIs(name) => p.iif == name
    case IifIsNot(name) => p.iif != name
    case OifIs(name) => p.oif == name
    case OifIsNot(name) => p.oif != name
    case Source(operand) => Holds(operand, t, p.saddr)
    case Destination(operand) => Holds(operand, t, p.daddr)
    case DestPort(protocol, port) => p.protocol == protocol && p.dport == port
    case ProtocolIs(protocol) => p.protocol == protocol
    case OpensTcp => p.opensTcp
    case Established => p.established
    case Marked => p.mark != 0
    case MarkIs(mark) => p.mark == mark
    case Ipv6 => false
  }

  predicate Applies(rule: Rule, t: Tables, p: Packet) {
    forall i :: 0 <= i < |rule.matches| ==> Matches(rule.matches[i], t, p)
  }

  function Act(actions: seq<Action>, p: Packet): Progress {
    if actions == [] then Going(p)
    else match actions[0]
      case Accept => Stopped(Some(Accepted), p)
      case Drop => Stopped(Some(Dropped), p)
      case Reject => Stopped(Some(Rejected), p)
      case Return => Stopped(None, p)
      case SetMark(mark) => Act(actions[1..], p.(mark := mark))
      case SaveMark => Act(actions[1..], p.(ctMark := p.mark))
      case ClampMss => Act(actions[1..], p)
      case Dnat(address, port) =>
        Stopped(Some(Accepted), p.(daddr := if address.Some? then address.value else p.daddr, dport := port))
  }

  function Walk(rules: seq<Rule>, t: Tables, p: Packet): Progress {
    if rules == [] then Going(p)
    else if !Applies(rules[0], t, p) then Walk(rules[1..], t, p)
    else
      var step := Act(rules[0].actions, p);
      if step.Stopped? then step else Walk(rules[1..], t, step.packet)
  }

  function Decide(progress: Progress, policy: Verdict): Verdict {
    if progress.Stopped? && progress.verdict.Some? then progress.verdict.value else policy
  }

  /** A base chain: the verdict on a packet, and the packet as the chain leaves it. */
  function Filter(rules: seq<Rule>, policy: Verdict, t: Tables, p: Packet): Verdict {
    Decide(Walk(rules, t, p), policy)
  }

  // ---- walking a chain in pieces ----

  lemma {:induction false} WalkAppend(a: seq<Rule>, b: seq<Rule>, t: Tables, p: Packet)
    ensures Walk(a + b, t, p) ==
      (var first := Walk(a, t, p); if first.Stopped? then first else Walk(b, t, first.packet))
  {
    if a == [] {
      assert a + b == b;
    } else {
      assert (a + b)[1..] == a[1..] + b;
      if !Applies(a[0], t, p) {
        WalkAppend(a[1..], b, t, p);
      } else {
        var step := Act(a[0].actions, p);
        if step.Going? { WalkAppend(a[1..], b, t, step.packet); }
      }
    }
  }

  function ActionFor(v: Verdict): Action {
    match v case Accepted => Accept case Dropped => Drop case Rejected => Reject
  }

  ghost predicate AllGive(rules: seq<Rule>, v: Verdict) {
    forall i :: 0 <= i < |rules| ==> rules[i].actions == [ActionFor(v)]
  }

  ghost predicate SomeApplies(rules: seq<Rule>, t: Tables, p: Packet) {
    exists i :: 0 <= i < |rules| && Applies(rules[i], t, p)
  }

  /** A run of rules that all give one verdict gives it to a packet when one of them applies. */
  lemma {:induction false} WalkUniform(rules: seq<Rule>, v: Verdict, t: Tables, p: Packet)
    requires AllGive(rules, v)
    ensures Walk(rules, t, p) == if SomeApplies(rules, t, p) then Stopped(Some(v), p) else Going(p)
  {
    if rules != [] {
      WalkUniform(rules[1..], v, t, p);
      if Applies(rules[0], t, p) {
        assert SomeApplies(rules, t, p);
      } else if SomeApplies(rules, t, p) {
        var i :| 0 <= i < |rules| && Applies(rules[i], t, p);
        assert Applies(rules[1..][i - 1], t, p);
      }
    }
  }

  /** One rule on its own. */
  lemma WalkOne(rule: Rule, t: Tables, p: Packet)
    ensures Walk([rule], t, p) == if Applies(rule, t, p) then Act(rule.actions, p) else Going(p)
  {
    assert [rule][1..] == [];
    if Applies(rule, t, p) && Act(rule.actions, p).Going? {
      assert Walk([rule], t, p) == Walk([], t, Act(rule.actions, p).packet);
    }
  }

  // ---- whether the file loads at all ----

  predicate OperandParses(operand: Operand) { operand.In? || operand.cidr.Some? }

  predicate MatchParses(m: Match) {
    match m
    case Source(operand) => OperandParses(operand)
    case Destination(operand) => OperandParses(operand)
    case _ => true
  }

  predicate RuleParses(rule: Rule) {
    forall i :: 0 <= i < |rule.matches| ==> MatchParses(rule.matches[i])
  }

  predicate ChainParses(rules: seq<Rule>) {
    forall i :: 0 <= i < |rules| ==> RuleParses(rules[i])
  }

  predicate SetParses(decl: SetDecl) {
    forall i :: 0 <= i < |decl.elements| ==> decl.elements[i].Some?
  }

  datatype Ruleset = Ruleset(
    sets: seq<SetDecl>,
    prerouting: seq<Rule>,
    forward: seq<Rule>,
    input: seq<Rule>,
    outputMark: seq<Rule>,
    output: seq<Rule>,
    preroutingNat: seq<Rule>)

  /** A ruleset file is one transaction: a single rule or element that does not parse and none of it loads. */
  predicate Loads(r: Ruleset) {
    && (forall i :: 0 <= i < |r.sets| ==> SetParses(r.sets[i]))
    && ChainParses(r.prerouting) && ChainParses(r.forward) && ChainParses(r.input)
    && ChainParses(r.outputMark) && ChainParses(r.output) && ChainParses(r.preroutingNat)
  }
}
