/**
 The generation counter that both sides of the Apple plugin share, and the rule that no
 central link is opened to a device that holds a server link.
 */
module AppleGenerations {
  import opened Types
  import S = AppleServers
  import C = AppleCentral

  // One identifier names a device on both sides.
  datatype Plugin = Plugin(server: S.Tables, centrals: map<S.CentralId, C.Link>, next: nat)

  datatype Step = ServerSide(step: S.Step) | CentralSide(device: S.CentralId, what: C.Step)

  const EMPTY := Plugin(S.EMPTY, map[], 1)

  function LinkOf(p: Plugin, d: S.CentralId): C.Link { if d in p.centrals then p.centrals[d] else C.FRESH }

  // Either side takes its generations from the shared counter.
  function Next(p: Plugin, s: Step): Plugin {
    match s
    case ServerSide(step) =>
      var t := S.Next(p.server.(nextGeneration := p.next), step);
      p.(server := t, next := t.nextGeneration)
    case CentralSide(d, what) =>
      if what.Connects? && d in p.server.links.byCentral then p
      else
        var l := C.Next(LinkOf(p, d).(next := p.next), what);
        p.(centrals := p.centrals[d := l], next := l.next)
  }

  function Run(steps: seq<Step>): Plugin {
    if steps == [] then EMPTY else Next(Run(steps[..|steps| - 1]), steps[|steps| - 1])
  }

  // ---------- generations in use ----------

  datatype Owner = Server(endpoint: nat) | Central(device: S.CentralId)

  // A server endpoint has one; a central link has those it expects, uses or is closing.
  predicate Uses(p: Plugin, o: Owner, g: nat) {
    match o
    case Server(e) => e in p.server.links.generations && p.server.links.generations[e] == g
    case Central(d) => LinkUses(LinkOf(p, d), g)
  }

  predicate LinkUses(l: C.Link, g: nat) {
    l.expected == Some(g) || C.GenerationOf(l.client) == Some(g) || l.closing == Some(g)
  }

  ghost predicate Inv(p: Plugin) {
    && (forall o: Owner, g: nat :: Uses(p, o, g) ==> g < p.next)
    && (forall a: Owner, b: Owner, g: nat :: Uses(p, a, g) && Uses(p, b, g) ==> a == b)
  }

  // Nothing new is used, but for the counter's value by one endpoint at most.
  ghost predicate ServerGrows(t: S.Tables, t': S.Tables) {
    && t.nextGeneration <= t'.nextGeneration <= t.nextGeneration + 1
    && forall e :: e in t'.links.generations ==>
         || (e in t.links.generations && t'.links.generations[e] == t.links.generations[e])
         || (e == t.next && t'.links.generations[e] == t.nextGeneration && t'.nextGeneration == t.nextGeneration + 1)
  }

  lemma EnsureGrows(t: S.Tables, c: S.CentralId, serving: bool, now: nat)
    ensures ServerGrows(t, S.Ensure(t, c, serving, now).1)
  {
  }

  lemma SubscribedGrows(t: S.Tables, c: S.CentralId, now: nat)
    ensures ServerGrows(t, S.Subscribed(t, c, now))
  {
  }

  lemma WrittenGrows(t: S.Tables, c: S.CentralId, serving: bool, now: nat)
    ensures ServerGrows(t, S.FragmentWritten(t, c, serving, now))
  {
    EnsureGrows(t, c, serving, now);
  }

  lemma EndingGrows(t: S.Tables, s: S.Step)
    requires !s.Writes? && !s.Subscribes?
    ensures ServerGrows(t, S.Next(t, s))
  {
  }

  lemma ServerStepGrows(t: S.Tables, s: S.Step)
    ensures ServerGrows(t, S.Next(t, s))
  {
    match s
    case Writes(c, serving, now) => WrittenGrows(t, c, serving, now);
    case Subscribes(c, now) => SubscribedGrows(t, c, now);
    case _ => EndingGrows(t, s);
  }

  lemma CentralStepGrows(l: C.Link, s: C.Step, g: nat)
    requires LinkUses(C.Next(l, s), g)
    ensures LinkUses(l, g) || (g == l.next && C.Next(l, s).next == l.next + 1)
    ensures l.next <= C.Next(l, s).next <= l.next + 1
  {
  }

  lemma CentralCounter(l: C.Link, s: C.Step)
    ensures l.next <= C.Next(l, s).next <= l.next + 1
  {
  }

  // What one step newly uses is the counter's value, and the counter then moves on.
  lemma NewUse(p: Plugin, s: Step, o: Owner, g: nat)
    requires Uses(Next(p, s), o, g)
    ensures Uses(p, o, g) || (g == p.next && Next(p, s).next == p.next + 1)
  {
    match s
    case ServerSide(step) => ServerStepGrows(p.server.(nextGeneration := p.next), step);
    case CentralSide(d, what) => if o == Central(d) && Next(p, s) != p { CentralStepGrows(LinkOf(p, d).(next := p.next), what, g); }
  }

  // Only one owner can newly use it.
  lemma OneNewUser(p: Plugin, s: Step, a: Owner, b: Owner, g: nat)
    requires Uses(Next(p, s), a, g) && Uses(Next(p, s), b, g) && !Uses(p, a, g) && !Uses(p, b, g)
    ensures a == b
  {
    match s
    case ServerSide(step) =>
      ServerStepGrows(p.server.(nextGeneration := p.next), step);
      assert a.Server? && b.Server?;
    case CentralSide(d, what) => assert a == Central(d) && b == Central(d);
  }

  lemma CounterMoves(p: Plugin, s: Step)
    ensures p.next <= Next(p, s).next <= p.next + 1
  {
    match s
    case ServerSide(step) => ServerStepGrows(p.server.(nextGeneration := p.next), step);
    case CentralSide(d, what) => CentralCounter(LinkOf(p, d).(next := p.next), what);
  }

  lemma NextKeeps(p: Plugin, s: Step)
    requires Inv(p)
    ensures Inv(Next(p, s))
  {
    CounterMoves(p, s);
    forall o: Owner, g: nat | Uses(Next(p, s), o, g) ensures g < Next(p, s).next {
      NewUse(p, s, o, g);
    }
    forall a: Owner, b: Owner, g: nat | Uses(Next(p, s), a, g) && Uses(Next(p, s), b, g) ensures a == b {
      NewUse(p, s, a, g);
      NewUse(p, s, b, g);
      if !Uses(p, a, g) && !Uses(p, b, g) { OneNewUser(p, s, a, b, g); }
    }
  }

  lemma {:induction false} RunKeeps(steps: seq<Step>)
    ensures Inv(Run(steps))
  {
    if steps != [] {
      RunKeeps(steps[..|steps| - 1]);
      NextKeeps(Run(steps[..|steps| - 1]), steps[|steps| - 1]);
    }
  }

  // In every run no two owners, on whichever side, use one generation; every generation
  // in use is older than the counter; and a step that takes a new one takes the counter's
  // value and moves it on. So generations strictly increase and are never shared.
  lemma GenerationsAreFresh(steps: seq<Step>, s: Step, a: Owner, b: Owner, g: nat)
    ensures var p := Run(steps);
            && (Uses(p, a, g) ==> g < p.next)
            && (Uses(p, a, g) && Uses(p, b, g) ==> a == b)
            && (Uses(Next(p, s), a, g) && !Uses(p, a, g) ==> g == p.next && Next(p, s).next == p.next + 1)
            && p.next <= Next(p, s).next
  {
    RunKeeps(steps);
    CounterMoves(Run(steps), s);
    if Uses(Next(Run(steps), s), a, g) { NewUse(Run(steps), s, a, g); }
  }
}
