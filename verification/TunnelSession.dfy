/** The session object that both read loops update, proved against the steps of module `Tunnel`. */
module TunnelSession {
  import opened Octet
  import opened Chain
  import opened Duplex
  import opened Tunnel
  import opened ProcessorChainObject

  class SessionState {
    const chain: ProcessorChain
    var localEof: bool
    var remoteEof: bool
    var closed: bool
    var txBytes: nat
    var rxBytes: nat
    var doneCount: nat
    var closeLog: seq<(nat, nat)>
    var remoteShut: bool                  // send side of the remote socket
    var localShut: bool                   // send side of the local socket
    var localPc: Pc                       // where `read_local` is suspended
    var remotePc: Pc                      // where `read_remote` is suspended
    ghost var calls: seq<Call>
    ghost var toRemote: seq<Byte>
    ghost var toLocal: seq<Byte>

    ghost predicate Valid()
      reads this, chain, Targets(chain.processors)
    {
      chain.Ready() && this !in Targets(chain.processors)
    }

    ghost function View(): Session
      reads this, chain
    {
      Session(chain.view, calls,
        Loop(localPc, localEof, txBytes, toRemote, remoteShut),
        Loop(remotePc, remoteEof, rxBytes, toLocal, localShut),
        closed, doneCount, closeLog)
    }

    /** `start_session` on a new connection. */
    constructor (chain: ProcessorChain)
      requires chain.Ready()
      ensures Valid() && this.chain == chain && View() == Launch(chain.view)
    {
      this.chain := chain;
      localEof, remoteEof, closed, remoteShut, localShut := false, false, false, false, false;
      txBytes, rxBytes, doneCount, closeLog := 0, 0, 0, [];
      localPc, remotePc := Spawned, Spawned;
      calls, toRemote, toLocal := [], [], [];
    }

    method LocalData(input: seq<Byte>)
      requires Valid() && localPc.Reading?
      modifies this, chain`view, Targets(chain.processors)
      ensures Valid() && View() == Step(old(View()), LocalSide, ReadData(input))
    {
      hide Forward, Targets, Tracks;
      calls := calls + [Local(input)];
      FlatOut(Forward(chain.view, [input]).out);
      var output, ok := chain.OnLocalData(input, []);
      if !ok {
        closed := true;
        localPc := Ended;
      } else if output == [] {
        localPc := if closed then Ended else Reading;
      } else {
        localPc := Writing(output);
      }
    }

    method RemoteData(input: seq<Byte>)
      requires Valid() && remotePc.Reading?
      modifies this, chain`view, Targets(chain.processors)
      ensures Valid() && View() == Step(old(View()), RemoteSide, ReadData(input))
    {
      hide Backward, Targets, Tracks;
      calls := calls + [Remote(input)];
      FlatOut(Backward(chain.view, [input]).out);
      var output, ok := chain.OnRemoteData(input, []);
      if !ok {
        closed := true;
        remotePc := Ended;
      } else if output == [] {
        remotePc := if closed then Ended else Reading;
      } else {
        remotePc := Writing(output);
      }
    }

    /** The send side is shut before the flush; that is harmless because the flush is empty. */
    method LocalEndOfFile()
      requires Valid() && localPc.Reading?
      modifies this, chain`view, Targets(chain.processors)
      ensures Valid() && View() == Step(old(View()), LocalSide, ReadEof)
    {
      localEof := true;
      remoteShut := true;
      var flushed, ok := chain.FlushLocal();
      assert flushed == [] && ok;
      if remoteEof {
        closed := true;
      }
      localPc := Ended;
    }

    method RemoteEndOfFile()
      requires Valid() && remotePc.Reading?
      modifies this, chain`view, Targets(chain.processors)
      ensures Valid() && View() == Step(old(View()), RemoteSide, ReadEof)
    {
      remoteEof := true;
      localShut := true;
      var flushed, ok := chain.FlushRemote();
      assert flushed == [] && ok;
      if localEof {
        closed := true;
      }
      remotePc := Ended;
    }

    method LocalWritten()
      requires Valid() && localPc.Writing? && localPc.queue != []
      modifies this
      ensures Valid() && View() == Step(old(View()), LocalSide, WriteDone)
    {
      var out := localPc.queue[0];
      txBytes := txBytes + |out|;
      toRemote := toRemote + out;
      if |localPc.queue| > 1 {
        localPc := Writing(localPc.queue[1..]);
      } else {
        localPc := if closed then Ended else Reading;
      }
    }

    method RemoteWritten()
      requires Valid() && remotePc.Writing? && remotePc.queue != []
      modifies this
      ensures Valid() && View() == Step(old(View()), RemoteSide, WriteDone)
    {
      var out := remotePc.queue[0];
      rxBytes := rxBytes + |out|;
      toLocal := toLocal + out;
      if |remotePc.queue| > 1 {
        remotePc := Writing(remotePc.queue[1..]);
      } else {
        remotePc := if closed then Ended else Reading;
      }
    }

    /** Any read error but end of file and cancellation, and every write error. */
    method Fail(side: Side, event: Event)
      requires Valid() && event in {ReadError, WriteFailed}
      requires var pc := if side.LocalSide? then localPc else remotePc;
               if event == ReadError then pc.Reading? else pc.Writing?
      modifies this
      ensures Valid() && View() == Step(old(View()), side, event)
    {
      if !closed {
        closed := true;
      }
      if side.LocalSide? {
        localPc := Ended;
      } else {
        remotePc := Ended;
      }
    }

    /** `on_done`: the second completion writes the close record. */
    method OnDone(side: Side)
      requires Valid() && (if side.LocalSide? then localPc else remotePc).Ended?
      modifies this
      ensures Valid() && View() == Step(old(View()), side, Completed)
    {
      if side.LocalSide? {
        localPc := Reported;
      } else {
        remotePc := Reported;
      }
      doneCount := doneCount + 1;
      if doneCount == 2 {
        closeLog := closeLog + [(rxBytes, txBytes)];
      }
    }
  }

  lemma FlatOut(output: seq<seq<Byte>>)
    ensures [] + output == output
  {
  }
}
