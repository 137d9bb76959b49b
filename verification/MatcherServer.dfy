/** The matcher in the form of its code: the registration coroutine on the table of pairs, and the pump loop. */
module MatcherServer {
  import opened Options
  import opened RelayCodec
  import opened Matcher
  import opened MatcherProofs

  class RelayServer {
    var pairs: map<Id, Match>
    var peers: map<Conn, Peer>

    ghost function View(): Server
      reads this
    {
      Server(pairs, peers)
    }

    constructor ()
      ensures View() == IDLE
    {
      pairs, peers := map[], map[];
    }

    /** The coroutine of a new connection, from its first frame to its first suspension. */
    method Register(k: Conn, first: Option<Frame>)
      requires k !in peers
      modifies this
      ensures View() == Step(old(View()), Connects(k, first))
    {
      peers := peers[k := Peer(None, Over, false, [], [])];
      if first.None? || first.value.kind != REGISTER {
        return;
      }
      var body := first.value.body;
      if body == [] {
        return;
      }
      var sp := FindSpace(body);
      if sp == |body| || sp + 2 > |body| {
        return;
      }
      var id, letter := body[..sp], body[sp + 1];
      if letter != LETTER_B && letter != LETTER_C {
        return;
      }
      var role := if letter == LETTER_B then Visitor else Provider;
      var m := if id in pairs then pairs[id] else EMPTY;
      if Slot(m, role).Some? {
        peers := peers[k := Peer(None, Refusing, true, [], [])];
        return;
      }
      m := Seat(m, role, k);
      pairs := pairs[id := m];
      var task := if m.b.Some? && m.c.Some? then GreetingB else Waiting;
      peers := peers[k := Peer(Some((id, role)), task, true, [], [])];
    }

    /** A refused connection has been sent its EOF, and goes. */
    method Refused(k: Conn, ok: bool)
      requires k in peers && peers[k].task.Refusing?
      modifies this
      ensures View() == Step(old(View()), Answered(k, ok))
    {
      var p := peers[k];
      if ok {
        p := p.(told := p.told + [EOF_FRAME]);
      }
      peers := peers[k := p.(task := Over, open := false)];
    }

    /** The greeter has written READY to the visitor, then to the provider; then it starts both pumps. */
    method Greeted(k: Conn, ok: bool)
      requires Inv(View()) && k in peers && (peers[k].task.GreetingB? || peers[k].task.GreetingC?)
      modifies this
      ensures View() == Step(old(View()), Answered(k, ok))
    {
      assert Homed(View(), k);
      var id := peers[k].home.value.0;
      assert Ok(View(), id);
      if !ok {
        peers := peers[k := peers[k].(task := Over)];
        return;
      }
      var m := pairs[id];
      var to, next := m.b.value, GreetingC;
      if peers[k].task.GreetingC? {
        to, next := m.c.value, Paired;
        pairs := pairs[id := m.(up := UNBORN.(pc := Reading), down := UNBORN.(pc := Reading))];
      }
      peers := peers[to := Tell(peers[to], READY_FRAME)];
      peers := peers[k := peers[k].(task := next)];
    }
  }

  /** A registered connection: the frames it will still deliver and those written to it. */
  class Connection {
    const role: Role
    var input: seq<Frame>
    var output: seq<Frame>
    var open: bool
  }

  class Pair {
    var dead: bool
  }

  /** The index of the first EOF frame, or the length. */
  function FirstEof(frames: seq<Frame>): (n: nat)
    ensures n <= |frames| && NoEof(frames[..n]) && (n < |frames| ==> frames[n].kind == EOF)
  {
    if frames == [] || frames[0].kind == EOF then 0
    else
      var n := 1 + FirstEof(frames[1..]);
      assert frames[..n] == [frames[0]] + frames[1..][..n - 1];
      n
  }

  lemma FirstEofIs(frames: seq<Frame>, n: nat)
    requires n <= |frames| && NoEof(frames[..n]) && (n < |frames| ==> frames[n].kind == EOF)
    ensures FirstEof(frames) == n
  {
    var m := FirstEof(frames);
    assert forall i :: 0 <= i < n ==> frames[i] in frames[..n];
    assert forall i :: 0 <= i < m ==> frames[i] in frames[..m];
  }

  /**
   `pump_one_way` from start to end, when the other pump does not move meanwhile: `budget` writes to the
   target succeed and all later ones fail.
   */
  method PumpOneWay(from: Connection, to: Connection, pair: Pair, budget: nat)
    requires from != to
    modifies from`input, from`open, to`output, to`open, pair
    ensures var frames, live := old(from.input), old(from.open && to.open);
            var n := FirstEof(frames);
            var passed := if live then if n <= budget then n else budget else 0;
            var relayed := live && n < |frames| && n < budget;
            var closing := !old(pair.dead) && old(to.open) && !relayed && passed < budget;
            && to.output == old(to.output) + Image(from.role, frames[..passed]) + (if relayed || closing then [EOF_FRAME] else [])
            && (to.open <==> old(to.open) && !relayed && !closing)
            && (from.open <==> old(from.open) && !closing)
            && pair.dead
  {
    ghost var frames := from.input;
    var writes := 0;
    var relayed := false;
    while from.open && from.input != []
      invariant !relayed && writes <= |frames| && writes <= budget
      invariant from.input == frames[writes..] && NoEof(frames[..writes])
      invariant from.open == old(from.open) && to.open == old(to.open) && pair.dead == old(pair.dead)
      invariant to.output == old(to.output) + Image(from.role, frames[..writes])
      invariant writes > 0 ==> from.open && to.open
      decreases |from.input|
    {
      var frame := from.input[0];
      from.input := from.input[1..];
      var ok := to.open && writes < budget;
      if frame.kind == EOF {
        FirstEofIs(frames, writes);
        if ok {
          to.output := to.output + [EOF_FRAME];
          to.open := false;
          relayed := true;
        }
        break;
      }
      if !ok {
        break;
      }
      to.output := to.output + [Translate(from.role, frame)];
      ImageSnoc(from.role, frames, writes);
      writes := writes + 1;
    }
    var wasDead := pair.dead;
    pair.dead := true;
    if !wasDead && to.open && writes < budget {
      to.output := to.output + [EOF_FRAME];
      to.open := false;
      from.open := false;
    }
  }
}
