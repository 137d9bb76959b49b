/** The provider node as objects: the session table, its reader, and the connect coroutine of each session. */
module ProviderNode {
  import opened Octet
  import opened Options
  import opened Sequences
  import opened RelayCodec
  import opened RelaySession
  import opened RelaySystem

  class SessionState {
    const uuid: Id
    var remoteOpen: bool
    var remoteShut: bool                   // its send side
    var remoteBroken: bool                 // a write to it has failed
    var arrivalBuffer: seq<seq<Byte>>      // what the drain loop has not yet written
    var remoteConnected: bool
    var connecting: bool
    var halfCloseRecv: bool
    var halfCloseSend: bool
    var closed: bool
    var pump: Pump                         // where the session's coroutine is suspended
    ghost var shutAt: nat
    ghost var io: Flow
    ghost var past: Past
    ghost var race: Race

    constructor (uuid: Id)
      ensures this.uuid == uuid
      ensures forall c, fail :: View(true) == CReceive(c, New, fail)
    {
      this.uuid := uuid;
      remoteOpen, remoteShut, remoteBroken, shutAt := false, false, false, 0;
      arrivalBuffer := [];
      remoteConnected, connecting := false, true;
      halfCloseRecv, halfCloseSend, closed := false, false, false;
      pump := Dialing;
      io, past, race := NO_FLOW, NO_PAST, Race(false, false);
    }

    ghost function View(listed: bool): (c: CSess)
      reads this
      ensures c.listed == listed
    {
      CSess(true, listed, Dial(connecting, remoteConnected), Ends(halfCloseRecv, halfCloseSend, closed), pump,
            arrivalBuffer, Sock(remoteOpen, remoteBroken, remoteShut, shutAt), io, past, race)
    }

    method CloseRemote()
      modifies this
      ensures View(false) == CHalt(old(View(true)))
    {
      if remoteConnected {
        remoteOpen := false;
      }
      past := Faulty(past);
    }

    /** The connect has completed. */
    method Connected(ok: bool, ghost listed: bool)
      requires pump.Dialing?
      modifies this
      ensures View(listed) == CStep(old(View(listed)), if ok then DialOk else DialFail).0
    {
      if !ok {
        past := Faulty(past);
        pump := Sending(Err);
        return;
      }
      remoteOpen, remoteShut, remoteBroken, shutAt := true, false, false, 0;
      remoteConnected := true;
      connecting := false;
      pump := Sending(Ok);
    }

    /** One round of the loop that drains the arrival buffer. */
    method DrainOne(ghost listed: bool)
      requires pump.Draining? && arrivalBuffer != []
      requires (remoteOpen && !remoteShut && !remoteBroken) || arrivalBuffer[0] == []
      modifies this
      ensures View(listed) == CStep(old(View(listed)), RelaySession.DrainOne).0
    {
      io := Write(io, arrivalBuffer[0]);
      arrivalBuffer := arrivalBuffer[1..];
    }

    /** The drain loop is over: a DATA_EOF that came before takes effect, and the pump begins. */
    method EndDrain(ghost listed: bool)
      requires pump.Draining? && arrivalBuffer == []
      modifies this
      ensures closed == old(closed)
      ensures View(listed && !closed) == CStep(old(View(listed)), DrainEnd).0
    {
      if halfCloseRecv {
        remoteShut, shutAt := true, |io.wrote|;
      }
      pump := if closed then Done else Reading;
    }

    /** A write of that loop fails and its exception ends the coroutine. */
    method DrainThrows(count: nat, ghost listed: bool)
      requires pump.Draining? && arrivalBuffer != [] && arrivalBuffer[0] != []
      modifies this
      ensures View(listed) == CStep(old(View(listed)), DrainFail(count)).0
    {
      ghost var p := arrivalBuffer[0];
      ghost var k := if remoteOpen && !remoteShut && !remoteBroken then Min(count, |p|) else 0;
      io := Flow(io.read, io.wrote + p[..k], p[k..] + Flatten(arrivalBuffer[1..]) + io.lost);
      past := Faulty(past);
      remoteBroken := true;
      arrivalBuffer := [];
      pump := Done;
    }

    /** `async_read_some` on the remote returns bytes, end of file or an error. */
    method Read(act: CAct, ghost listed: bool)
      requires pump.Reading?
      requires (act.CRead? && act.bytes != []) || act.CReadEof? || act.CReadErr?
      modifies this
      ensures View(listed) == CStep(old(View(listed)), act).0
    {
      if act.CRead? {
        io := io.(read := io.read + act.bytes);
        pump := Sending(Data(act.bytes));
      } else if act.CReadEof? {
        halfCloseSend := true;
        race := race.(earlyEof := race.earlyEof || !halfCloseRecv);
        pump := Sending(Eof);
      } else {
        past := Faulty(past);
        pump := Sending(Close);
      }
    }

    /** A write to the remote from the provider's reader; it throws if it fails. */
    method WriteRemote(payload: seq<Byte>, fail: Option<nat>, ghost listed: bool) returns (thrown: bool)
      modifies `io, `race, `past, `remoteBroken
      ensures View(listed) == CDirect(old(View(listed)), payload, fail)
      ensures thrown <==> payload != [] && !(old(remoteOpen && !remoteShut && !remoteBroken) && fail.None?)
    {
      if payload == [] {
        return false;
      }
      if remoteOpen && !remoteShut && !remoteBroken && fail.None? {
        io := Write(io, payload);
        race := race.(overtaken := race.overtaken || arrivalBuffer != []);
        return false;
      }
      ghost var k := if remoteOpen && !remoteShut && !remoteBroken then Min(fail.value, |payload|) else 0;
      io := Lose(Write(io, payload[..k]), payload[k..]);
      race := race.(overtaken := race.overtaken || (k > 0 && arrivalBuffer != []));
      past := Faulty(past);
      remoteBroken := true;
      return true;
    }
  }

  lemma HaltedOnce(c: CSess)
    requires !c.listed
    ensures CHalt(c) == c
  {
  }

  class Provider {
    var sessions: map<Id, SessionState>
    var sent: seq<Frame>                       // what it has put on its link
    ghost var known: map<Id, SessionState>     // the last session there has been under each uuid

    ghost predicate Valid()
      reads this, known.Values
    {
      && (forall u | u in sessions :: u in known && sessions[u] == known[u])
      && (forall u | u in known :: known[u].uuid == u)
    }

    /** The record of session `u`. */
    ghost function View(u: Id): CSess
      reads this, known.Values
    {
      if u in known then known[u].View(u in sessions) else FRESH_C
    }

    constructor ()
      ensures Valid() && sessions == map[] && sent == [] && known == map[]
    {
      sessions, sent, known := map[], [], map[];
    }

    /** The frame that a session's coroutine is writing is on the link. */
    method Written(state: SessionState)
      requires Valid() && state.uuid in known && known[state.uuid] == state && state.pump.Sending?
      modifies this, state
      ensures Valid() && View(state.uuid) == CStep(old(View(state.uuid)), CAppend).0
      ensures forall v | v != state.uuid :: View(v) == old(View(v))
      ensures sent == old(sent) + [FrameOf(state.uuid, old(state.pump.m))]
      ensures CStep(old(View(state.uuid)), CAppend).1 == [old(state.pump.m)]
    {
      sent := sent + [FrameOf(state.uuid, state.pump.m)];
      state.pump := Sent(state.pump.m);
    }

    /** The coroutine resumes after that write: it drains, reads on, or ends and erases the session. */
    method Resumed(state: SessionState)
      requires Valid() && state.uuid in known && known[state.uuid] == state && state.pump.Sent?
      modifies this, state
      ensures Valid() && View(state.uuid) == CStep(old(View(state.uuid)), CResume).0
      ensures forall v | v != state.uuid :: View(v) == old(View(v))
      ensures sent == old(sent)
    {
      var m := state.pump.m;
      if m.Ok? {
        state.pump := Draining;
        return;
      }
      if m.Eof? {
        if state.halfCloseRecv {
          state.closed := true;
        }
      } else if !m.Data? {
        state.closed := true;
      } else if !state.closed {
        state.pump := Reading;
        return;
      }
      state.pump := Done;
      sessions := sessions - {state.uuid};
    }

    /** After the drain a session that was closed meanwhile is erased. */
    method Drained(state: SessionState)
      requires Valid() && state.uuid in known && known[state.uuid] == state
      requires state.pump.Draining? && state.arrivalBuffer == []
      modifies this, state
      ensures Valid() && View(state.uuid) == CStep(old(View(state.uuid)), DrainEnd).0
      ensures forall v | v != state.uuid :: View(v) == old(View(v))
      ensures sent == old(sent)
    {
      hide SessionState.View, CStep;
      state.EndDrain(state.uuid in sessions);
      if state.closed {
        sessions := sessions - {state.uuid};
      }
    }

    /** FORWARD_SESSION: a session is made, replacing any of the same uuid, and its coroutine dials. */
    method NewSession(uuid: Id)
      requires Valid()
      modifies this
      ensures Valid() && sent == old(sent)
      ensures forall fail :: View(uuid) == CReceive(old(View(uuid)), New, fail)
      ensures forall v | v != uuid :: View(v) == old(View(v))
    {
      var state := new SessionState(uuid);
      sessions := sessions[uuid := state];
      known := known[uuid := state];
    }

    /** DATA of a listed session: written, parked or dropped. */
    method Deliver(s: SessionState, payload: seq<Byte>, fail: Option<nat>) returns (thrown: bool)
      modifies s
      ensures s.View(true) == CReceive(old(s.View(true)), Data(payload), fail)
      ensures thrown <==> EndsProvider(old(s.View(true)), Data(payload), fail)
    {
      thrown := false;
      if s.closed {
        s.io := Lose(s.io, payload);
      } else if s.remoteConnected {
        thrown := s.WriteRemote(payload, fail, true);
      } else if s.connecting {
        s.arrivalBuffer := s.arrivalBuffer + [payload];
      } else {
        s.io := Lose(s.io, payload);
      }
    }

    /** DATA_EOF of a listed session. */
    method EndOfData(s: SessionState)
      requires s.uuid in sessions && sessions[s.uuid] == s
      modifies `sessions, s
      ensures (sessions == old(sessions) || sessions == old(sessions) - {s.uuid})
      ensures forall fail :: s.View(s.uuid in sessions) == CReceive(old(s.View(true)), Eof, fail)
    {
      s.past := Noted(s.past, Eof);
      s.halfCloseRecv := true;
      if s.remoteConnected {
        s.remoteShut, s.shutAt := true, |s.io.wrote|;
      }
      if s.halfCloseSend {
        s.closed := true;
        sessions := sessions - {s.uuid};
      }
    }

    /** SESSION_CLOSE of a listed session. */
    method CloseSession(s: SessionState)
      requires s.uuid in sessions && sessions[s.uuid] == s
      modifies `sessions, s
      ensures sessions == old(sessions) - {s.uuid}
      ensures forall fail :: s.View(s.uuid in sessions) == CReceive(old(s.View(true)), Close, fail)
    {
      s.closed := true;
      if s.remoteConnected {
        s.remoteOpen := false;
      }
      s.past := Faulty(s.past);
      sessions := sessions - {s.uuid};
    }

    /** One frame in the provider's loop; `thrown` means that the loop is left by an exception. */
    method OnFrame(frame: Frame, fail: Option<nat>) returns (thrown: bool)
      requires Valid()
      modifies this, known.Values
      ensures Valid() && sent == old(sent)
      ensures match ProviderReads(frame)
              case None => !thrown && forall v :: View(v) == old(View(v))
              case Some((u, m)) =>
                && (u in old(known) || m == New ==> View(u) == CReceive(old(View(u)), m, fail))
                && (u !in old(known) && m != New ==> View(u) == old(View(u)))
                && (forall v | v != u :: View(v) == old(View(v)))
                && (thrown <==> EndsProvider(old(View(u)), m, fail))
    {
      hide CReceive, SessionState.View, FRESH_C;
      thrown := false;
      if frame.kind == FORWARD_SESSION {
        NewSession(frame.body);
      } else if frame.kind == DATA {
        if |frame.body| >= UUID_BYTES {
          var uuid := frame.body[..UUID_BYTES];
          if uuid in sessions {
            thrown := Deliver(sessions[uuid], frame.body[UUID_BYTES..], fail);
          } else {
            Stray(uuid, Data(frame.body[UUID_BYTES..]), fail);
          }
        }
      } else if frame.kind == DATA_EOF && frame.body in sessions {
        EndOfData(sessions[frame.body]);
      } else if frame.kind == SESSION_CLOSE && frame.body in sessions {
        CloseSession(sessions[frame.body]);
      } else if ProviderReads(frame).Some? {
        Stray(ProviderReads(frame).value.0, ProviderReads(frame).value.1, fail);
      }
    }

    /** A frame for a session that is not in the table, or that the provider has no use for. */
    ghost method Stray(uuid: Id, m: Msg, fail: Option<nat>)
      requires Valid() && m != New && (uuid in sessions ==> m.Ok? || m.Err?)
      modifies known.Values
      ensures Valid() && forall v | v != uuid :: View(v) == old(View(v))
      ensures uuid in known ==> View(uuid) == CReceive(old(View(uuid)), m, fail)
      ensures !EndsProvider(old(View(uuid)), m, fail)
    {
      if uuid in known {
        known[uuid].past := Noted(known[uuid].past, m);
        known[uuid].io := Lose(known[uuid].io, Payload(m));
      }
    }

    /** The loop is over: every remote is closed and the table is cleared. */
    method Disconnected()
      requires Valid()
      modifies this, sessions.Values
      ensures Valid() && sessions == map[] && sent == old(sent)
      ensures forall v :: View(v) == CHalt(old(View(v)))
    {
      hide SessionState.View, CHalt;
      forall c: CSess | !c.listed ensures CHalt(c) == c {
        HaltedOnce(c);
      }
      var todo := sessions.Keys;
      while todo != {}
        invariant todo <= sessions.Keys
        invariant Valid()
        invariant forall v | v in known && v !in sessions :: known[v].View(false) == old(known[v].View(false))
        invariant forall v | v in todo :: known[v].View(true) == old(known[v].View(true))
        invariant forall v | v in sessions && v !in todo :: known[v].View(false) == CHalt(old(known[v].View(true)))
        modifies sessions.Values
        decreases todo
      {
        var u :| u in todo;
        sessions[u].CloseRemote();
        todo := todo - {u};
      }
      sessions := map[];
    }
  }
}
