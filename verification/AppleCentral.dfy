/**
 The central-side link of the Apple plugin to one peripheral. CoreBluetooth's callbacks
 name the peripheral, not the connection, so a callback of a cancelled connection can
 arrive while its replacement is up.
 */
module AppleCentral {
  import opened Types
  import B = GattBackend

  const STALE_GRACE_MS: nat := 2000

  datatype Event =
    | Connected(generation: nat)
    | Disconnected(ended: Option<nat>)
    | Writable(generation: nat)

  datatype Client = Client(generation: nat, writeInFlight: bool, connectedEmitted: bool)

  datatype Link = Link(
    expected: Option<nat>,     // the generation being connected or connected
    client: Option<Client>,
    closing: Option<nat>,      // a generation that was cancelled or has ended
    grace: Option<nat>,        // until when further stale callbacks are ignored
    discovered: bool,
    next: nat,
    trace: seq<Event>)

  const FRESH := Link(None, None, None, None, false, 1, [])

  function Emit(l: Link, e: Event): Link { l.(trace := l.trace + [e]) }

  function First(a: Option<nat>, b: Option<nat>): Option<nat> { if a.Some? then a else b }

  function GenerationOf(c: Option<Client>): Option<nat> { if c.Some? then Some(c.value.generation) else None }

  function Connect(l: Link): (Result<nat>, Link) {
    if !l.discovered then (Err(TransportClosed), l)
    else if l.client.Some? || l.expected.Some? then (Err(InvalidState), l)
    else (Ok(l.next), l.(expected := Some(l.next), next := l.next + 1))
  }

  function Reject(l: Link): Link {
    var generation := First(GenerationOf(l.client), l.expected);
    Emit(l.(expected := None, client := None, discovered := false, closing := First(generation, l.closing)),
         Disconnected(generation))
  }

  function CharacteristicsFound(l: Link): Link {
    if l.expected.None? then Reject(l) else l.(client := Some(Client(l.expected.value, false, false)))
  }

  function NotificationStateUpdated(l: Link, ok: bool): Link {
    if !ok || l.client.None? then Reject(l)
    else if l.client.value.connectedEmitted then l
    else Emit(l.(client := Some(l.client.value.(connectedEmitted := true))), Connected(l.client.value.generation))
  }

  // A replacement is expected, and the marker names another generation.
  predicate Replaced(l: Link) { l.closing.Some? && l.expected.Some? && l.expected != l.closing }

  function DidFailToConnect(l: Link): Link {
    if Replaced(l) then l.(closing := None)
    else Emit(l.(closing := None, expected := None, discovered := false), Disconnected(First(l.closing, l.expected)))
  }

  predicate InGrace(l: Link, now: nat) { l.grace.Some? && l.grace.value > now && l.expected.Some? }

  function DidDisconnect(l: Link, now: nat): Link {
    if Replaced(l) then l.(closing := None, grace := Some(now + STALE_GRACE_MS))
    else if InGrace(l, now) then l
    else
      var generation := First(l.closing, First(GenerationOf(l.client), l.expected));
      Emit(l.(expected := None, client := None, discovered := false, closing := generation, grace := None),
           Disconnected(generation))
  }

  function Close(l: Link, requested: Option<nat>): Link {
    var current := First(GenerationOf(l.client), First(l.expected, l.closing));
    if requested.Some? && current.Some? && requested != current then l
    else if l.client.Some? then
      l.(client := None, expected := None, closing := Some(l.client.value.generation), discovered := false)
    else if l.expected.Some? then l.(expected := None, closing := l.expected, discovered := false)
    else l.(closing := None, discovered := false)
  }

  function DidWriteValue(l: Link, ok: bool): Link {
    if l.client.None? then l
    else
      var free := l.(client := Some(l.client.value.(writeInFlight := false)));
      Emit(free, if ok then Writable(l.client.value.generation) else Disconnected(Some(l.client.value.generation)))
  }

  // A fragment written with response.
  function Submit(l: Link, requested: Option<nat>): (Result<B.Submission>, Link) {
    if l.client.None? || (requested.Some? && requested.value != l.client.value.generation) then (Err(TransportClosed), l)
    else if l.client.value.writeInFlight then (Ok(B.TemporarilyUnavailable), l)
    else (Ok(B.Submitted), l.(client := Some(l.client.value.(writeInFlight := true))))
  }

  // ---------- what each callback decides ----------

  // A connection is attempted to a discovered device without one, under the next generation.
  lemma AttemptDecided(l: Link)
    ensures var (r, l') := Connect(l);
            var free := l.client.None? && l.expected.None?;
            && (r == Err(TransportClosed) <==> !l.discovered) && (r == Err(InvalidState) <==> l.discovered && !free)
            && (r == Ok(l.next) <==> l.discovered && free)
            && l' == (if l.discovered && free then l.(expected := Some(l.next), next := l.next + 1) else l)
  {
  }

  // The link ends and is reported once, with this generation.
  predicate EndReported(l: Link, l': Link, generation: Option<nat>) {
    l'.expected.None? && l'.client.None? && !l'.discovered && l'.trace == l.trace + [Disconnected(generation)] && l'.next == l.next
  }

  // Setting up: the characteristics make a client of the expected generation, its confirmed
  // subscription reports it once, and any failure ends the link.
  lemma SetUpDecided(l: Link, ok: bool)
    ensures var (found, updated) := (CharacteristicsFound(l), NotificationStateUpdated(l, ok));
            && (l.expected.Some? ==> found == l.(client := Some(Client(l.expected.value, false, false))))
            && (l.expected.None? ==> EndReported(l, found, if l.client.Some? then Some(l.client.value.generation) else None))
            && (ok && l.client.Some? && !l.client.value.connectedEmitted ==>
                  updated == l.(client := Some(l.client.value.(connectedEmitted := true)),
                                trace := l.trace + [Connected(l.client.value.generation)]))
            && (ok && l.client.Some? && l.client.value.connectedEmitted ==> updated == l)
            && (!ok || l.client.None? ==> EndReported(l, updated, if l.client.Some? then Some(l.client.value.generation) else l.expected))
            && (!ok || l.client.None? ==>
                  updated.closing
                      == (if l.client.Some? then Some(l.client.value.generation) else if l.expected.Some? then l.expected else l.closing))
  {
  }

  // Stopping forgets the link without a word, but not the counter.
  lemma StopDecided(l: Link)
    ensures Next(l, Stops) == Link(None, None, None, None, false, l.next, l.trace)
    ensures Next(l, Discovers) == l.(discovered := true)
  {
  }

  // A disconnect callback: with a marker of another generation it is the old connection's,
  // and starts two seconds in which further ones are ignored; otherwise the link ends.
  lemma DisconnectDecided(l: Link, now: nat)
    ensures var l' := DidDisconnect(l, now);
            var old_ := l.closing.Some? && l.expected.Some? && l.closing.value != l.expected.value;
            var ignored := l.grace.Some? && now < l.grace.value && l.expected.Some?;
            var reported := if l.closing.Some? then l.closing
                            else if l.client.Some? then Some(l.client.value.generation) else l.expected;
            && (old_ ==> l' == l.(closing := None, grace := Some(now + 2000)))
            && (!old_ && ignored ==> l' == l)
            && (!old_ && !ignored ==> EndReported(l, l', reported) && l'.closing == reported && l'.grace.None?)
  {
  }

  // A failed connection: silent when it is the old one's, reported otherwise.
  lemma FailureDecided(l: Link)
    ensures var l' := DidFailToConnect(l);
            var old_ := l.closing.Some? && l.expected.Some? && l.closing.value != l.expected.value;
            && l'.closing.None? && l'.client == l.client
            && (old_ ==> l'.expected == l.expected && l'.trace == l.trace && l'.discovered == l.discovered)
            && (!old_ ==>
                  && l'.expected.None? && !l'.discovered
                  && l'.trace == l.trace + [Disconnected(if l.closing.Some? then l.closing else l.expected)])
  {
  }

  // A close of the current generation, or of whatever is current: a connection in use or
  // being made leaves its generation as the marker, without one the marker goes. Nothing
  // is reported.
  lemma CloseDecided(l: Link, requested: Option<nat>)
    ensures var l' := Close(l, requested);
            var current := if l.client.Some? then Some(l.client.value.generation) else if l.expected.Some? then l.expected else l.closing;
            var other := requested.Some? && current.Some? && requested.value != current.value;
            && l'.trace == l.trace && (other ==> l' == l)
            && (!other ==>
                  && l'.client.None? && l'.expected.None? && !l'.discovered
                  && l'.closing == (if l.client.Some? || l.expected.Some? then current else None))
  {
  }

  // One write at a time: it goes out on an idle client of the generation asked for; its
  // completion frees the client and is reported.
  lemma WritesDecided(l: Link, requested: Option<nat>, ok: bool)
    ensures var (r, sent) := Submit(l, requested);
            var current := l.client.Some? && (requested.None? || requested.value == l.client.value.generation);
            && (r == Err(TransportClosed) <==> !current)
            && (r == Ok(B.TemporarilyUnavailable) <==> current && l.client.value.writeInFlight)
            && (r == Ok(B.Submitted) <==> current && !l.client.value.writeInFlight)
            && sent == (if r == Ok(B.Submitted) then l.(client := Some(l.client.value.(writeInFlight := true))) else l)
            && (l.client.None? ==> DidWriteValue(l, ok) == l)
            && (l.client.Some? ==>
                  var generation := l.client.value.generation;
                  DidWriteValue(l, ok) == l.(client := Some(l.client.value.(writeInFlight := false)),
                                             trace := l.trace + [if ok then Writable(generation) else Disconnected(Some(generation))]))
  {
  }

  // ---------- runs ----------

  datatype Step =
    | Discovers
    | Connects
    | FindsCharacteristics
    | UpdatesNotification(ok: bool)
    | FailsToConnect
    | Disconnects(now: nat)
    | Closes(requested: Option<nat>)
    | WritesValue(ok: bool)
    | Submits(requested: Option<nat>)
    | Rejects
    | Stops

  function Next(l: Link, s: Step): Link {
    match s
    case Discovers => l.(discovered := true)
    case Connects => Connect(l).1
    case FindsCharacteristics => CharacteristicsFound(l)
    case UpdatesNotification(ok) => NotificationStateUpdated(l, ok)
    case FailsToConnect => DidFailToConnect(l)
    case Disconnects(now) => DidDisconnect(l, now)
    case Closes(requested) => Close(l, requested)
    case WritesValue(ok) => DidWriteValue(l, ok)
    case Submits(requested) => Submit(l, requested).1
    case Rejects => Reject(l)
    case Stops => l.(expected := None, client := None, closing := None, grace := None, discovered := false)
  }

  function Run(l: Link, steps: seq<Step>): Link {
    if steps == [] then l else Next(Run(l, steps[..|steps| - 1]), steps[|steps| - 1])
  }

  // Generations in use are older than the next one, and a marker is never newer than the
  // generation that is expected.
  ghost predicate Inv(l: Link) {
    && (l.expected.Some? ==> l.expected.value < l.next)
    && (l.client.Some? ==> l.client.value.generation < l.next)
    && (l.closing.Some? ==> l.closing.value < l.next)
    && (l.client.Some? && l.expected.Some? ==> l.client.value.generation == l.expected.value)
    && (l.expected.Some? && l.closing.Some? ==> l.closing.value <= l.expected.value)
  }

  lemma NextKeeps(l: Link, s: Step)
    requires Inv(l)
    ensures Inv(Next(l, s)) && l.next <= Next(l, s).next
  {
    match s
    case Connects => assert Connect(l).0.Ok? ==> Connect(l).1.expected == Some(l.next);
    case _ =>
  }

  lemma {:induction false} RunKeeps(l: Link, steps: seq<Step>)
    requires Inv(l)
    ensures Inv(Run(l, steps)) && l.next <= Run(l, steps).next
  {
    if steps != [] {
      RunKeeps(l, steps[..|steps| - 1]);
      NextKeeps(Run(l, steps[..|steps| - 1]), steps[|steps| - 1]);
    }
  }

  // ---------- the life of one connection ----------

  // A step in the ordinary life of an expected or connected link: nothing closes it,
  // rejects it or ends it.
  predicate Ordinary(l: Link, s: Step) {
    match s
    case Discovers => true
    case Connects => l.expected.Some?
    case FindsCharacteristics => l.expected.Some?
    case UpdatesNotification(ok) => ok && l.client.Some?
    case Submits(_) => true
    case WritesValue(_) => true
    case Closes(requested) => requested.Some? && l.expected.Some? && requested != First(GenerationOf(l.client), l.expected)
    case _ => false
  }

  ghost predicate OrdinaryRun(l: Link, steps: seq<Step>) {
    forall i :: 0 <= i < |steps| ==> Ordinary(Run(l, steps[..i]), steps[i])
  }

  lemma OrdinaryKeeps(l: Link, s: Step)
    requires Ordinary(l, s)
    ensures var l' := Next(l, s); l'.expected == l.expected && l'.closing == l.closing && l'.grace == l.grace
    ensures Next(l, s).next == l.next
  {
  }

  lemma {:induction false} OrdinaryRunKeeps(l: Link, steps: seq<Step>)
    requires OrdinaryRun(l, steps)
    ensures var l' := Run(l, steps); l'.expected == l.expected && l'.closing == l.closing && l'.grace == l.grace
    ensures Run(l, steps).next == l.next
  {
    if steps != [] {
      var front, n := steps[..|steps| - 1], |steps| - 1;
      assert forall i :: 0 <= i <= n ==> front[..i] == steps[..i];
      assert OrdinaryRun(l, front) by {
        forall i | 0 <= i < n ensures Ordinary(Run(l, front[..i]), front[i]) { assert Ordinary(Run(l, steps[..i]), steps[i]); }
      }
      OrdinaryRunKeeps(l, front);
      assert Ordinary(Run(l, steps[..n]), steps[n]);
      OrdinaryKeeps(Run(l, front), steps[n]);
    }
  }

  lemma RunSnoc(l: Link, steps: seq<Step>, s: Step)
    ensures Run(l, steps + [s]) == Next(Run(l, steps), s)
  {
    assert (steps + [s])[..|steps|] == steps;
  }

  lemma {:induction false} RunConcat(l: Link, first: seq<Step>, second: seq<Step>)
    ensures Run(l, first + second) == Run(Run(l, first), second)
  {
    if second == [] {
      assert first + second == first;
    } else {
      var front, last := second[..|second| - 1], second[|second| - 1];
      RunConcat(l, first, front);
      assert first + second == (first + front) + [last] && second == front + [last];
      RunSnoc(l, first + front, last);
      RunSnoc(Run(l, first), front, last);
    }
  }

  // ---------- stale callbacks ----------

  // What a disconnect callback must leave alone.
  predicate Untouched(l: Link, l': Link) {
    l'.expected == l.expected && l'.client == l.client && l'.trace == l.trace && l'.discovered == l.discovered
  }

  // Ordinary steps and disconnect callbacks before a given time.
  ghost predicate EarlyRun(l: Link, steps: seq<Step>, until: nat) {
    forall i :: 0 <= i < |steps| ==>
      Ordinary(Run(l, steps[..i]), steps[i]) || (steps[i].Disconnects? && steps[i].now < until)
  }

  lemma GraceStep(l: Link, s: Step, until: nat)
    requires l.closing.None? && l.grace == Some(until) && l.expected.Some?
    requires Ordinary(l, s) || (s.Disconnects? && s.now < until)
    ensures var l' := Next(l, s); l'.closing.None? && l'.grace == Some(until) && l'.expected == l.expected
    ensures s.Disconnects? ==> Untouched(l, Next(l, s))
  {
  }

  // The state that the first stale callback leaves protects the replacement for as long
  // as the grace period lasts.
  lemma {:induction false} GraceKeeps(l: Link, steps: seq<Step>, until: nat)
    requires l.closing.None? && l.grace == Some(until) && l.expected.Some? && EarlyRun(l, steps, until)
    ensures var l' := Run(l, steps); l'.closing.None? && l'.grace == Some(until) && l'.expected == l.expected
  {
    if steps != [] {
      var front, n := steps[..|steps| - 1], |steps| - 1;
      EarlyPrefix(l, steps, until, n);
      GraceKeeps(l, front, until);
      assert Ordinary(Run(l, steps[..n]), steps[n]) || (steps[n].Disconnects? && steps[n].now < until);
      GraceStep(Run(l, front), steps[n], until);
      assert steps == front + [steps[n]];
      RunSnoc(l, front, steps[n]);
    }
  }

  lemma EarlyPrefix(l: Link, steps: seq<Step>, until: nat, n: nat)
    requires n <= |steps| && EarlyRun(l, steps, until)
    ensures EarlyRun(l, steps[..n], until)
  {
    var front := steps[..n];
    forall i | 0 <= i < n
      ensures Ordinary(Run(l, front[..i]), front[i]) || (front[i].Disconnects? && front[i].now < until)
    {
      assert front[..i] == steps[..i];
      assert Ordinary(Run(l, steps[..i]), steps[i]) || (steps[i].Disconnects? && steps[i].now < until);
    }
  }

  lemma FirstCallback(l: Link, lead: seq<Step>, first: nat)
    requires Replaced(l) && OrdinaryRun(l, lead)
    ensures Untouched(Run(l, lead), Run(l, lead + [Disconnects(first)]))
    ensures var m := Run(l, lead + [Disconnects(first)]);
            m.closing.None? && m.grace == Some(first + STALE_GRACE_MS) && m.expected == l.expected
  {
    OrdinaryRunKeeps(l, lead);
    RunSnoc(l, lead, Disconnects(first));
  }

  // From any link whose replacement is expected: whatever the replacement does meanwhile,
  // the first disconnect callback and every further one within the grace period leave it
  // alone and say nothing.
  lemma StaleCallbacksAreIgnored(l: Link, lead: seq<Step>, first: nat, rest: seq<Step>)
    requires Replaced(l) && OrdinaryRun(l, lead)
    requires EarlyRun(Run(l, lead + [Disconnects(first)]), rest, first + STALE_GRACE_MS)
    ensures Untouched(Run(l, lead), Run(l, lead + [Disconnects(first)]))
    ensures forall i :: 0 <= i < |rest| && rest[i].Disconnects? ==>
              var before := Run(l, lead + [Disconnects(first)] + rest[..i]);
              Untouched(before, Next(before, rest[i]))
    ensures Run(l, lead + [Disconnects(first)] + rest).expected == l.expected
  {
    var marked := lead + [Disconnects(first)];
    var m := Run(l, marked);
    FirstCallback(l, lead, first);
    GraceKeeps(m, rest, first + STALE_GRACE_MS);
    RunConcat(l, marked, rest);
    forall i | 0 <= i < |rest| && rest[i].Disconnects?
      ensures Untouched(Run(l, marked + rest[..i]), Next(Run(l, marked + rest[..i]), rest[i]))
    {
      EarlyPrefix(m, rest, first + STALE_GRACE_MS, i);
      GraceKeeps(m, rest[..i], first + STALE_GRACE_MS);
      RunConcat(l, marked, rest[..i]);
      assert Ordinary(Run(m, rest[..i]), rest[i]) || (rest[i].Disconnects? && rest[i].now < first + STALE_GRACE_MS);
      GraceStep(Run(m, rest[..i]), rest[i], first + STALE_GRACE_MS);
    }
  }

  // ---------- which ends are reported ----------

  // The marker or a running grace period takes the callback for a stale one.
  predicate Hides(l: Link, now: nat) { l.closing.Some? || (l.grace.Some? && l.grace.value > now) }

  // After any run of the plugin that leaves no connection: a new connection is opened and
  // lives for any number of ordinary steps. Its end is reported exactly when, at the
  // moment it was opened, there was no marker and no grace period that still runs at its
  // end; otherwise nothing is said and the dead connection stays current.
  lemma NextEndReportedIff(past: seq<Step>, life: seq<Step>, end: nat)
    requires var l := Run(FRESH, past); l.discovered && l.expected.None? && l.client.None?
    requires OrdinaryRun(Run(FRESH, past + [Connects]), life)
    ensures var l := Run(FRESH, past);
            var alive := Run(FRESH, past + [Connects] + life);
            var after := Next(alive, Disconnects(end));
            && alive.expected == Some(l.next)
            && (after.trace == alive.trace + [Disconnected(Some(l.next))] <==> !Hides(l, end))
            && (Hides(l, end) ==> Untouched(alive, after))
  {
    var l := Run(FRESH, past);
    RunKeeps(FRESH, past);
    RunSnoc(FRESH, past, Connects);
    OrdinaryRunKeeps(Run(FRESH, past + [Connects]), life);
    RunConcat(FRESH, past + [Connects], life);
    var alive := Run(FRESH, past + [Connects] + life);
    RunKeeps(FRESH, past + [Connects] + life);
    if Hides(l, end) { assert |alive.trace + [Disconnected(Some(l.next))]| == |alive.trace| + 1; }
  }

  // The order of the owner's close and the callback decides what the next connection
  // meets: a close after the callback clears the marker; a close before it, or none,
  // leaves the marker in place.
  lemma MarkerAfterClose(l: Link, g: nat, now: nat)
    requires Inv(l) && l.client.Some? && l.client.value.generation == g && l.expected == Some(g)
    requires l.closing.None? && l.grace.None?
    ensures !Hides(Run(l, [Disconnects(now), Closes(Some(g))]), now)
    ensures Run(l, [Closes(Some(g)), Disconnects(now)]).closing == Some(g)
    ensures Run(l, [Disconnects(now)]).closing == Some(g)
    ensures Run(l, [Closes(Some(g)), Disconnects(now), Closes(Some(g))]).closing.None?
  {
    var d, c := Disconnects(now), Closes(Some(g));
    assert [d][..0] == [] && [c][..0] == [];
    assert Run(l, [d]) == Next(l, d) && Run(l, [c]) == Next(l, c);
    assert [d, c][..1] == [d] && [c, d][..1] == [c] && [c, d, c][..2] == [c, d];
  }

  // ---------- closing and writing ----------

  // A close with an old generation changes nothing.
  lemma StaleCloseIsIgnored(l: Link, g: nat)
    requires First(GenerationOf(l.client), First(l.expected, l.closing)).Some?
    ensures First(GenerationOf(l.client), First(l.expected, l.closing)) != Some(g) ==> Close(l, Some(g)) == l
  {
  }

  // ---------- the link as the plugin keeps it ----------

  class CentralLink {
    var expected: Option<nat>
    var client: Option<Client>
    var closing: Option<nat>
    var grace: Option<nat>
    var discovered: bool
    var next: nat
    var trace: seq<Event>

    ghost function Contents(): Link
      reads this
    {
      Link(expected, client, closing, grace, discovered, next, trace)
    }

    constructor ()
      ensures Contents() == FRESH
    {
      expected, client, closing, grace, discovered, next, trace := None, None, None, None, false, 1, [];
    }

    method ConnectGatt() returns (r: Result<nat>)
      modifies this
      ensures (r, Contents()) == Connect(old(Contents()))
    {
      if !discovered { return Err(TransportClosed); }
      if client.Some? || expected.Some? { return Err(InvalidState); }
      expected := Some(next);
      next := next + 1;
      r := Ok(expected.value);
    }

    method DidDisconnectPeripheral(now: nat)
      modifies this
      ensures Contents() == DidDisconnect(old(Contents()), now)
    {
      if closing.Some? && expected.Some? && expected != closing {
        closing := None;
        grace := Some(now + STALE_GRACE_MS);
        return;
      }
      if grace.Some? {
        if grace.value > now && expected.Some? { return; }
        grace := None;
      }
      var generation := First(closing, First(GenerationOf(client), expected));
      expected, client, discovered := None, None, false;
      closing := generation;
      trace := trace + [Disconnected(generation)];
    }

    method DidFailToConnectPeripheral()
      modifies this
      ensures Contents() == DidFailToConnect(old(Contents()))
    {
      if closing.Some? && expected.Some? && expected != closing {
        closing := None;
        return;
      }
      var failed := First(closing, expected);
      closing, expected, discovered := None, None, false;
      trace := trace + [Disconnected(failed)];
    }

    method RejectGatt()
      modifies this
      ensures Contents() == Reject(old(Contents()))
    {
      var generation := First(GenerationOf(client), expected);
      expected, client, discovered := None, None, false;
      if generation.Some? { closing := generation; }
      trace := trace + [Disconnected(generation)];
    }

    method CloseGattConnection(requested: Option<nat>)
      modifies this
      ensures Contents() == Close(old(Contents()), requested)
    {
      var current := First(GenerationOf(client), First(expected, closing));
      if requested.Some? && current.Some? && requested != current { return; }
      if client.Some? {
        closing := Some(client.value.generation);
        client, expected := None, None;
      } else if expected.Some? {
        closing := expected;
        expected := None;
      } else {
        closing := None;
      }
      discovered := false;
    }
  }
}
