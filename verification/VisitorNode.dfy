/** The visitor node as objects: the session table, its reader and the pump of each client. */
module VisitorNode {
  import opened Octet
  import opened Options
  import opened Sequences
  import opened RelayCodec
  import opened RelaySession
  import opened RelaySystem

  class ClientSession {
    const uuid: Id
    var clientOpen: bool
    var clientShut: bool                 // its send side
    var halfCloseRecv: bool
    var halfCloseSend: bool
    var closed: bool
    var pump: Pump                       // where the session's coroutine is suspended
    var failing: Failing                 // where the reader's error path for it is suspended
    ghost var shutAt: nat
    ghost var io: Flow
    ghost var past: Past

    constructor (uuid: Id)
      ensures this.uuid == uuid && View(true) == BStep(FRESH_B, RelaySession.Accept).0
    {
      this.uuid := uuid;
      clientOpen, clientShut, shutAt := true, false, 0;
      halfCloseRecv, halfCloseSend, closed := false, false, false;
      pump, failing := Sending(New), Calm;
      io, past := NO_FLOW, NO_PAST;
    }

    ghost function View(listed: bool): (b: BSess)
      reads this
      ensures b.listed == listed
    {
      BSess(true, listed, Ends(halfCloseRecv, halfCloseSend, closed), pump, failing,
            Sock(clientOpen, false, clientShut, shutAt), io, past)
    }

    method CloseClient()
      modifies this
      ensures View(false) == BHalt(old(View(true)))
    {
      clientOpen := false;
      past := Faulty(past);
    }
  }

  lemma HaltedOnce(b: BSess)
    requires !b.listed
    ensures BHalt(b) == b
  {
  }

  class Visitor {
    var sessions: map<Id, ClientSession>
    var sent: seq<Frame>                         // what it has put on its link
    ghost var known: map<Id, ClientSession>      // every session there has been

    ghost predicate Valid()
      reads this, known.Values
    {
      && (forall u | u in sessions :: u in known && sessions[u] == known[u])
      && (forall u | u in known :: known[u].uuid == u)
    }

    /** The record of session `u`. */
    ghost function View(u: Id): BSess
      reads this, known.Values
    {
      if u in known then known[u].View(u in sessions) else FRESH_B
    }

    constructor ()
      ensures Valid() && sessions == map[] && sent == [] && known == map[]
    {
      sessions, sent, known := map[], [], map[];
    }

    /** A client is accepted under a fresh uuid, and NEW_SESSION is about to be sent. */
    method Accept(uuid: Id)
      requires Valid() && uuid !in known
      modifies this
      ensures Valid() && View(uuid) == BStep(old(View(uuid)), RelaySession.Accept).0
      ensures forall v | v != uuid :: View(v) == old(View(v))
      ensures sent == old(sent)
    {
      var sess := new ClientSession(uuid);
      sessions := sessions[uuid := sess];
      known := known[uuid := sess];
    }

    /** The frame that a session's coroutine is writing is on the link. */
    method Written(sess: ClientSession)
      requires Valid() && sess.uuid in known && known[sess.uuid] == sess && sess.pump.Sending?
      modifies this, sess
      ensures Valid() && View(sess.uuid) == BStep(old(View(sess.uuid)), Append).0
      ensures forall v | v != sess.uuid :: View(v) == old(View(v))
      ensures sent == old(sent) + [FrameOf(sess.uuid, old(sess.pump.m))]
      ensures BStep(old(View(sess.uuid)), Append).1 == [old(sess.pump.m)]
    {
      sent := sent + [FrameOf(sess.uuid, sess.pump.m)];
      sess.pump := Sent(sess.pump.m);
    }

    /** The coroutine resumes after that write: it ends, or it reads on. */
    method Resumed(sess: ClientSession)
      requires Valid() && sess.uuid in known && known[sess.uuid] == sess && sess.pump.Sent?
      modifies this, sess
      ensures Valid() && View(sess.uuid) == BStep(old(View(sess.uuid)), Resume).0
      ensures forall v | v != sess.uuid :: View(v) == old(View(v))
      ensures sent == old(sent)
    {
      var ending := false;
      match sess.pump.m {
        case Eof =>
          if sess.halfCloseRecv {
            sess.closed := true;
          }
          ending := true;
        case Close =>
          sess.closed := true;
          ending := true;
        case _ =>
      }
      if ending || sess.closed {
        if sess.closed {
          sessions := sessions - {sess.uuid};
        }
        sess.pump := Done;
      } else {
        sess.pump := Reading;
      }
    }

    /** `async_read_some` on the client returns bytes, end of file or an error. */
    method Read(sess: ClientSession, act: BAct)
      requires Valid() && sess.uuid in known && known[sess.uuid] == sess && sess.pump.Reading?
      requires (act.BRead? && act.bytes != []) || act.BReadEof? || act.BReadErr?
      modifies sess
      ensures Valid() && View(sess.uuid) == BStep(old(View(sess.uuid)), act).0
      ensures forall v | v != sess.uuid :: View(v) == old(View(v))
    {
      if act.BRead? {
        sess.io := sess.io.(read := sess.io.read + act.bytes);
        sess.pump := Sending(Data(act.bytes));
      } else if act.BReadEof? {
        sess.halfCloseSend := true;
        sess.pump := Sending(Eof);
      } else {
        sess.past := Faulty(sess.past);
        sess.pump := Sending(Close);
      }
    }

    /** One frame in the reader's loop; `fail` is the fate of a write to the client. */
    method OnFrame(frame: Frame, fail: Option<nat>)
      requires Valid()
      modifies this, known.Values
      ensures Valid() && sent == old(sent)
      ensures match VisitorReads(frame)
              case None => forall v :: View(v) == old(View(v))
              case Some((u, m)) =>
                && (u in old(known) ==> View(u) == BReceive(old(View(u)), m, fail))
                && (u !in old(known) ==> View(u) == old(View(u)))
                && forall v | v != u :: View(v) == old(View(v))
    {
      if |frame.body| < UUID_BYTES {
        return;
      }
      var uuid := frame.body[..UUID_BYTES];
      var payload := frame.body[UUID_BYTES..];
      hide BReceive, ClientSession.View;
      if uuid !in sessions {
        Stray(uuid, frame, fail);
        return;
      }
      Dispatch(sessions[uuid], frame, payload, fail);
    }

    /** The reader's `switch` on a frame of a listed session. */
    method Dispatch(s: ClientSession, frame: Frame, payload: seq<Byte>, fail: Option<nat>)
      requires s.uuid in sessions && sessions[s.uuid] == s
      requires |frame.body| >= UUID_BYTES && s.uuid == frame.body[..UUID_BYTES] && payload == frame.body[UUID_BYTES..]
      modifies `sessions, s
      ensures sessions == old(sessions) || sessions == old(sessions) - {s.uuid}
      ensures match VisitorReads(frame)
              case None => s.View(s.uuid in sessions) == old(s.View(true))
              case Some((_, m)) => s.View(s.uuid in sessions) == BReceive(old(s.View(true)), m, fail)
    {
      ghost var read := VisitorReads(frame);
      if read.Some? {
        s.past := Noted(s.past, read.value.1);
      }
      if frame.kind == SESSION_ERR || frame.kind == SESSION_CLOSE {
        s.closed := true;
        s.clientOpen := false;
        s.past := Faulty(s.past);
        sessions := sessions - {s.uuid};
      } else if frame.kind == DATA {
        if |payload| > 0 {
          if fail.None? {
            s.io := Write(s.io, payload);
          } else {
            ghost var k := Min(fail.value, |payload|);
            s.io := Lose(Write(s.io, payload[..k]), payload[k..]);
            s.failing := Telling;
            s.past := Faulty(s.past);
          }
        }
      } else if frame.kind == DATA_EOF {
        s.halfCloseRecv := true;
        s.clientShut := true;
        s.shutAt := |s.io.wrote|;
        if s.halfCloseSend {
          s.closed := true;
          sessions := sessions - {s.uuid};
        }
      }
    }

    /** A frame for a session that is not in the table is dropped. */
    ghost method Stray(uuid: Id, frame: Frame, fail: Option<nat>)
      requires Valid() && uuid !in sessions
      requires |frame.body| >= UUID_BYTES && uuid == frame.body[..UUID_BYTES]
      modifies known.Values
      ensures Valid()
      ensures match VisitorReads(frame)
              case None => forall v :: View(v) == old(View(v))
              case Some((u, m)) =>
                && (u in old(known) ==> View(u) == BReceive(old(View(u)), m, fail))
                && (u !in old(known) ==> View(u) == old(View(u)))
                && forall v | v != u :: View(v) == old(View(v))
    {
      if uuid in known && VisitorReads(frame).Some? {
        var s, m := known[uuid], VisitorReads(frame).value.1;
        s.past := Noted(s.past, m);
        s.io := Lose(s.io, Payload(m));
      }
    }

    /** The reader's SESSION_CLOSE after a failed client write is on the link. */
    method FailWritten(s: ClientSession)
      requires Valid() && s.uuid in known && known[s.uuid] == s && s.failing.Telling?
      modifies this, s
      ensures Valid() && View(s.uuid) == BStep(old(View(s.uuid)), FailAppend).0
      ensures forall v | v != s.uuid :: View(v) == old(View(v))
      ensures sent == old(sent) + [FrameOf(s.uuid, Close)] && BStep(old(View(s.uuid)), FailAppend).1 == [Close]
    {
      sent := sent + [FrameOf(s.uuid, Close)];
      s.failing := Told;
    }

    method FailResumed(s: ClientSession)
      requires Valid() && s.uuid in known && known[s.uuid] == s && s.failing.Told?
      modifies this, s
      ensures Valid() && View(s.uuid) == BStep(old(View(s.uuid)), FailResume).0
      ensures forall v | v != s.uuid :: View(v) == old(View(v))
      ensures sent == old(sent)
    {
      s.failing := Calm;
      s.closed := true;
      s.clientOpen := false;
      s.past := Faulty(s.past);
      sessions := sessions - {s.uuid};
    }

    /** The reader's loop is over: every client is closed and the table is cleared. */
    method Disconnected()
      requires Valid()
      modifies this, sessions.Values
      ensures Valid() && sessions == map[] && sent == old(sent)
      ensures forall v :: View(v) == BHalt(old(View(v)))
    {
      hide ClientSession.View, BHalt;
      forall b: BSess | !b.listed ensures BHalt(b) == b {
        HaltedOnce(b);
      }
      var todo := sessions.Keys;
      while todo != {}
        invariant todo <= sessions.Keys
        invariant Valid()
        invariant forall v | v in known && v !in sessions :: known[v].View(false) == old(known[v].View(false))
        invariant forall v | v in todo :: known[v].View(true) == old(known[v].View(true))
        invariant forall v | v in sessions && v !in todo :: known[v].View(false) == BHalt(old(known[v].View(true)))
        modifies sessions.Values
        decreases todo
      {
        var u :| u in todo;
        sessions[u].CloseClient();
        todo := todo - {u};
      }
      sessions := map[];
    }
  }
}
