/** The optional concealer and the position ring that moves with it. */
module Lookahead {
  import opened Common
  import opened Mute
  import opened Engine
  import P = Plc
  import PlcSpec

  class Lookahead {
    const plc: P.Plc?
    const positions: array<Option<Position>>
    var position: nat
    /** Every object a call may change. */
    ghost const footprint: set<object>

    ghost function Parts(): set<object> {
      {this, positions} +
      if plc == null then {} else {plc, plc.history, plc.frozen, plc.lastQuarter, plc.overlap, plc.fromPcm}
    }

    /** No concealer and no ring, or both, the ring as long as the concealer's delay. */
    ghost predicate Valid()
      reads footprint
    {
      footprint == Parts() &&
      if plc == null then positions.Length == 0 && position == 0
      else
        && plc.Valid() && positions.Length == PlcSpec.Delay(plc.rate) && position < positions.Length
        && {this as object, positions} !!
             {plc as object, plc.history, plc.frozen, plc.lastQuarter, plc.overlap, plc.fromPcm}
    }

    /** Supports of the waiting samples, oldest first. */
    ghost function Queue(): seq<Option<Position>>
      requires Valid()
      reads footprint
    {
      P.Unrolled(positions[..], position)
    }

    ghost function Concealing(): Option<PlcSpec.State>
      requires Valid()
      reads footprint
    {
      if plc == null then None else Some(plc.Model())
    }

    constructor (engaged: bool, outputRate: nat)
      requires 1 <= outputRate <= PlcSpec.RATE_MAX
      ensures Valid() && fresh(footprint)
      ensures Concealing() == if engaged then Some(PlcSpec.Fresh(outputRate)) else None
      ensures plc != null ==> plc.rate == outputRate
      ensures Queue() == seq(if engaged then PlcSpec.Delay(outputRate) else 0, _ => None)
    {
      PlcSpec.LookaheadFits(outputRate);
      var delay := if engaged then CeilDiv(outputRate * 15, 4000) else 0;
      positions := new Option<Position>[delay](_ => None);
      position := 0;
      if engaged {
        var concealer := new P.Plc(outputRate);
        plc := concealer;
        footprint := {this, positions, concealer, concealer.history, concealer.frozen, concealer.lastQuarter,
                      concealer.overlap, concealer.fromPcm};
      } else {
        plc := null;
        footprint := {this, positions};
      }
    }

    /** Empty both: zeros wait, without positions. */
    method Reset()
      requires Valid()
      modifies footprint
      ensures Valid() && Queue() == seq(|old(Queue())|, _ => None)
      ensures Concealing() == if old(Concealing()).Some? then Some(PlcSpec.Reset(old(Concealing()).value)) else None
    {
      forall i | 0 <= i < positions.Length {
        positions[i] := None;
      }
      position := 0;
      if plc != null {
        plc.Reset();
      }
    }

    /** Exchange the oldest support for a new one; without a ring the new one passes through. */
    method Exchange(at: Option<Position>) returns (oldest: Option<Position>)
      requires Valid()
      modifies footprint
      ensures Valid() && Concealing() == old(Concealing())
      ensures oldest == (old(Queue()) + [at])[0]
      ensures Queue() == (old(Queue()) + [at])[1..]
    {
      if positions.Length == 0 {
        return at;
      }
      P.UnrolledAfterWrite(positions[..], position, at);
      ghost var was := positions[..];
      oldest := positions[position];
      positions[position] := at;
      assert positions[..] == was[position := at];
      position := (position + 1) % positions.Length;
    }

    /** Conceal and delay one converted sample, or pass it through. */
    method Process(input: Option<real>) returns (played: real, isPcm: bool)
      requires Valid()
      modifies footprint
      ensures Valid() && Queue() == old(Queue())
      ensures
        if old(Concealing()).None? then
          Concealing().None? && isPcm == input.Some? && played == (if input.Some? then input.value else 0.0)
        else
          var call := PlcSpec.Process(plc.rate, old(Concealing()).value, input);
          Concealing() == Some(call.state) && PlcSpec.Played(played, isPcm) == call.played
    {
      hide PlcSpec.Process, PlcSpec.Valid;
      if plc != null {
        played, isPcm := plc.Process(input);
      } else {
        played, isPcm := if input.Some? then input.value else 0.0, input.Some?;
      }
    }

    /** Release the oldest waiting sample with its support. */
    method DrainOldest() returns (played: real, isPcm: bool, at: Option<Position>)
      requires Valid() && plc != null
      modifies footprint
      ensures Valid() && Queue() == old(Queue())[1..] + [old(Queue())[0]] && at == old(Queue())[0]
      ensures
        var call := PlcSpec.Drain(plc.rate, old(Concealing()).value);
        Concealing() == Some(call.state) && PlcSpec.Played(played, isPcm) == call.played
    {
      hide PlcSpec.Drain, PlcSpec.Valid;
      played, isPcm := plc.DrainSample();
      P.UnrolledAfterWrite(positions[..], position, positions[position]);
      at := positions[position];
      position := (position + 1) % positions.Length;
    }
  }
}
