/**
 Two tunnel nodes and the connection between them.  Each event is one `on_local_data` or
 `on_remote_data` call; the wire is a byte queue in each direction and may be read in any pieces.
 */
module TwoHop {
  import opened Octet
  import opened Sequences
  import opened Processor
  import opened Chain
  import opened Builder

  /** The bytes one direction has taken in, holds on the wire, and has given out. */
  datatype Lane = Lane(fed: seq<Byte>, wire: seq<Byte>, got: seq<Byte>)

  /** `failed` records that some call threw, which ends the session. */
  datatype State = State(entry: seq<Proc>, exit: seq<Proc>, forth: Lane, back: Lane, failed: bool)

  datatype Event =
    | ClientData(input: seq<Byte>)   // the entry node reads from its client
    | WireToExit(count: nat)          // the exit node reads some bytes off the wire
    | ServiceData(input: seq<Byte>)   // the exit node reads from the service behind it
    | WireToEntry(count: nat)        // the entry node reads some bytes off the wire

  ghost predicate Ready(s: State) {
    AllLive(s.entry) && AllLive(s.exit)
  }

  function Send(lane: Lane, input: seq<Byte>, out: seq<seq<Byte>>): Lane {
    lane.(fed := lane.fed + input, wire := lane.wire + Flatten(out))
  }

  function Receive(lane: Lane, n: nat, out: seq<seq<Byte>>): Lane
    requires n <= |lane.wire|
  {
    lane.(wire := lane.wire[n..], got := lane.got + Flatten(out))
  }

  function Step(s: State, event: Event): (s': State)
    requires Ready(s)
    ensures Ready(s')
  {
    match event
    case ClientData(input) =>
      var f := Forward(s.entry, [input]);
      if !f.ok then s.(entry := f.procs, failed := true)
      else s.(entry := f.procs, forth := Send(s.forth, input, f.out))
    case WireToExit(count) =>
      var n := Min(count, |s.forth.wire|);
      var f := Forward(s.exit, [s.forth.wire[..n]]);
      if !f.ok then s.(exit := f.procs, failed := true)
      else s.(exit := f.procs, forth := Receive(s.forth, n, f.out))
    case ServiceData(input) =>
      var f := Backward(s.exit, [input]);
      if !f.ok then s.(exit := f.procs, failed := true)
      else s.(exit := f.procs, back := Send(s.back, input, f.out))
    case WireToEntry(count) =>
      var n := Min(count, |s.back.wire|);
      var f := Backward(s.entry, [s.back.wire[..n]]);
      if !f.ok then s.(entry := f.procs, failed := true)
      else s.(entry := f.procs, back := Receive(s.back, n, f.out))
  }

  function Run(s: State, events: seq<Event>): (s': State)
    requires Ready(s)
    ensures Ready(s')
  {
    if events == [] then s
    else Step(Run(s, events[..|events| - 1]), events[|events| - 1])
  }

  /** Both nodes as the builder makes them for one connection. */
  function Start(a: Node, b: Node, specs: seq<Spec>): (s: State)
    requires AllAccepted(specs)
  {
    BuildRefuses(a, specs, false);
    BuildRefuses(b, specs, true);
    State(Build(a, specs, false).value, Build(b, specs, true).value, Lane([], [], []), Lane([], [], []), false)
  }

  // ----- one direction -----

  /** What the receiving chain would emit if the wire were drained now completes what was fed. */
  ghost predicate InStep(es: seq<Encoder>, ds: seq<Decoder>, lane: Lane) {
    && EncodersLive(es) && AllSettled(ds) && Aligned(es, ds)
    && var rest := Decode(ds, lane.wire);
       rest.ok && lane.fed == lane.got + rest.plain && ChainPaired(es, rest.next)
  }

  lemma SendKeeps(es: seq<Encoder>, ds: seq<Decoder>, lane: Lane, input: seq<Byte>)
    requires InStep(es, ds, lane)
    ensures var (es', out) := ChainPack(es, [input]); InStep(es', ds, Send(lane, input, out))
  {
    hide Decode, ChainPack, ChainUnpack, Paired;
    var (es', out) := ChainPack(es, [input]);
    var rest := Decode(ds, lane.wire);
    PackDecode(es, rest.next, [input]);
    DecodeSplit(ds, lane.wire, Flatten(out));
    RolesStay(es, ds, [input], []);
    FlattenOne(input);
    Assoc(lane.got, rest.plain, input);
  }

  lemma ReceiveKeeps(es: seq<Encoder>, ds: seq<Decoder>, lane: Lane, n: nat)
    requires InStep(es, ds, lane) && n <= |lane.wire|
    ensures var u := ChainUnpack(ds, [lane.wire[..n]]);
            u.ok && InStep(es, u.next, Receive(lane, n, u.out))
  {
    hide Decode, ChainPack, ChainUnpack, Paired;
    var a, b := lane.wire[..n], lane.wire[n..];
    assert a + b == lane.wire;
    DecodeSplit(ds, a, b);
    UnpackIsDecode(ds, [a]);
    FlattenOne(a);
    RolesStay(es, ds, [], [a]);
    var u := ChainUnpack(ds, [a]);
    Assoc(lane.got, Flatten(u.out), Decode(u.next, b).plain);
  }

  ghost predicate Delivered(lane: Lane) {
    lane.got <= lane.fed && (lane.wire == [] ==> lane.got == lane.fed)
  }

  lemma InStepDelivers(es: seq<Encoder>, ds: seq<Decoder>, lane: Lane)
    requires InStep(es, ds, lane)
    ensures Delivered(lane)
  {
    hide Decode;
    if lane.wire == [] {
      DecodeNothing(ds);
    }
  }

  // ----- both directions -----

  /** Which stages pack and unpack each direction. */
  datatype Halves = Halves(es: seq<Encoder>, ds: seq<Decoder>, backEs: seq<Encoder>, backDs: seq<Decoder>)

  ghost predicate Inv(s: State, h: Halves) {
    && !s.failed
    && InStep(h.es, h.ds, s.forth) && InStep(h.backEs, h.backDs, s.back)
    && |h.es| == |h.backDs| && |h.backEs| == |h.ds|
    && Aligned(h.backEs, h.ds)
    && s.entry == Entry(h.es, h.backDs)
    && s.exit == Exit(h.backEs, h.ds)
  }

  lemma StepKeeps(s: State, h: Halves, event: Event) returns (h': Halves)
    requires Ready(s) && Inv(s, h)
    ensures Inv(Step(s, event), h')
  {
    hide Decode, ChainPack, ChainUnpack, Forward, Backward, Entry, Exit, InStep;
    assert EncodersLive(h.es) && EncodersLive(h.backEs) by { InStepLive(h, s); }
    match event
    case ClientData(input) =>
      EntryLocal(h.es, h.backDs, [input]);
      SendKeeps(h.es, h.ds, s.forth, input);
      h' := h.(es := ChainPack(h.es, [input]).0);
    case WireToExit(count) =>
      var n := Min(count, |s.forth.wire|);
      ExitLocal(h.backEs, h.ds, [s.forth.wire[..n]]);
      ReceiveKeeps(h.es, h.ds, s.forth, n);
      RolesStay(h.backEs, h.ds, [], [s.forth.wire[..n]]);
      h' := h.(ds := ChainUnpack(h.ds, [s.forth.wire[..n]]).next);
    case ServiceData(input) =>
      ExitRemote(h.backEs, h.ds, [input]);
      SendKeeps(h.backEs, h.backDs, s.back, input);
      RolesStay(h.backEs, h.ds, [input], []);
      h' := h.(backEs := ChainPack(h.backEs, [input]).0);
    case WireToEntry(count) =>
      var n := Min(count, |s.back.wire|);
      EntryRemote(h.es, h.backDs, [s.back.wire[..n]]);
      ReceiveKeeps(h.backEs, h.backDs, s.back, n);
      h' := h.(backDs := ChainUnpack(h.backDs, [s.back.wire[..n]]).next);
  }

  lemma InStepLive(h: Halves, s: State)
    requires InStep(h.es, h.ds, s.forth) && InStep(h.backEs, h.backDs, s.back)
    ensures EncodersLive(h.es) && EncodersLive(h.backEs)
  {
  }

  lemma {:induction false} RunKeeps(s: State, h: Halves, events: seq<Event>) returns (h': Halves)
    requires Ready(s) && Inv(s, h)
    ensures Inv(Run(s, events), h')
  {
    hide Step, Inv;
    if events == [] {
      h' := h;
    } else {
      var n := |events| - 1;
      var mid := RunKeeps(s, h, events[..n]);
      h' := StepKeeps(Run(s, events[..n]), mid, events[n]);
    }
  }

  lemma StartInv(a: Node, b: Node, specs: seq<Spec>) returns (h: Halves)
    requires AllAccepted(specs) && AllFinish(specs)
    requires a.mac == b.mac && a.hash == b.hash
    ensures Ready(Start(a, b, specs)) && Inv(Start(a, b, specs), h)
  {
    hide Build, Decode;
    var s := InForce(specs);
    BuildShape(a, specs);
    BuildShape(b, specs);
    BuildPairs(a, b, s, false);
    BuildPairs(b, a, s, true);
    BuildPairs(b, b, s, true);
    h := Halves(Encoders(a, s, false), Decoders(b, s), Encoders(b, s, true), Decoders(a, s));
    DecodeNothing(h.ds);
    DecodeNothing(h.backDs);
  }

  /**
   Two-hop correctness.  For every accepted specification list without `chunk=0`, all keys and
   random draws of both nodes, and every order and size of reads: no call ever throws, each side has
   given out a prefix of what the other took in, and everything once the wire is drained.
   */
  lemma {:induction false} TwoHopCorrect(a: Node, b: Node, specs: seq<Spec>, events: seq<Event>)
    requires AllAccepted(specs) && AllFinish(specs)
    requires a.mac == b.mac && a.hash == b.hash
    ensures Ready(Start(a, b, specs))
    ensures var s := Run(Start(a, b, specs), events);
            !s.failed && Delivered(s.forth) && Delivered(s.back)
  {
    hide InStep, Step, Build, Delivered;
    var h := StartInv(a, b, specs);
    var h' := RunKeeps(Start(a, b, specs), h, events);
    var s := Run(Start(a, b, specs), events);
    InStepDelivers(h'.es, h'.ds, s.forth);
    InStepDelivers(h'.backEs, h'.backDs, s.back);
  }
}
