// The pot registry ("zynpots"): a fixed table of slots, each naming a
// backend and the index of the device that backend serves, and the
// callback flag that tells the encoders whether to report their moves.
//
// The source binds a slot to its backend through C function addresses; here
// the binding is a Backend value and the calls dispatch on it.  The RV112
// backend lives in zynrv112.c, which is not part of this model: what its
// calls return is a parameter.
module Zynpot {
  import opened CTypes
  import opened Limits
  import opened Tables
  import opened Zyncoder

  /** Slot types, as zynpot.h numbers them. */
  const ZYNPOT_NONE: byte := 0
  const ZYNPOT_ZYNCODER: byte := 1
  const ZYNPOT_RV112: byte := 2

  /**
   * The `setup_behaviour`/`get_value` pair a slot calls through.  It is
   * only rebound by a setup with a known type, so a slot set up again
   * with an unknown type keeps its previous pair.
   */
  datatype Backend = Unbound | ZyncoderBackend | Rv112Backend

  /** One entry of `zynpots`; `linked` is whether `data` points at the device. */
  datatype Pot = Pot(kind: byte, index: byte, backend: Backend, linked: bool)

  const ZeroPot := Pot(ZYNPOT_NONE, 0, Unbound, false)

  predicate PotActive(p: Pot) {
    p.kind != ZYNPOT_NONE
  }

  /** The guard of setup_zynpot and setup_behaviour_zynpot as written: it refuses only `i > MAX_NUM_ZYNPOTS`. */
  predicate SetupIndexAcceptedAsWritten(i: byte) {
    !(i > MAX_NUM_ZYNPOTS)
  }

  /** The guard as written lets through the index one past the last slot. */
  lemma SetupIndexAsWrittenAdmitsPastEnd()
    ensures exists i: byte :: SetupIndexAcceptedAsWritten(i) && i >= MAX_NUM_ZYNPOTS
  {
    assert SetupIndexAcceptedAsWritten(MAX_NUM_ZYNPOTS as byte);
  }

  /** The guard that keeps the index inside the table, which the model uses. */
  predicate SetupIndexAccepted(i: byte)
  {
    i < MAX_NUM_ZYNPOTS
  }

  /** Whether setup_zynpot binds a backend for the type. */
  predicate KnownKind(kind: byte) {
    kind == ZYNPOT_ZYNCODER || kind == ZYNPOT_RV112
  }

  /**
   * The slot setup_zynpot leaves: the type and device index; a known type
   * also binds its backend and links the device, any other keeps both.
   */
  function SlotAfterSetup(p: Pot, kind: byte, ii: byte): (r: Pot)
    ensures r.kind == kind && r.index == ii
    ensures KnownKind(kind) ==>
      r.linked && (r.backend.ZyncoderBackend? <==> kind == ZYNPOT_ZYNCODER) && (r.backend.Rv112Backend? <==> kind == ZYNPOT_RV112)
    ensures !KnownKind(kind) ==> r.backend == p.backend && r.linked == p.linked
  {
    Pot(kind, ii,
        if kind == ZYNPOT_ZYNCODER then ZyncoderBackend else if kind == ZYNPOT_RV112 then Rv112Backend else p.backend,
        KnownKind(kind) || p.linked)
  }

  /**
   * setup_behaviour_zynpot and get_value_zynpot as written: a slot in use
   * passes their guard and they call through its function pointers, which
   * are NULL while the slot has never been bound.
   */
  predicate CallsNullAsWritten(p: Pot) {
    PotActive(p) && p.backend.Unbound?
  }

  /**
   * A never-bound slot set up with a type other than none, encoder or
   * RV112 (setup_zynpot(0, 7, 0) on a fresh table) is in use with no
   * backend: the next get_value_zynpot(0) calls a NULL pointer.
   */
  lemma UnknownKindAsWrittenCallsNull(p: Pot, kind: byte, ii: byte)
    requires p.backend.Unbound? && kind != ZYNPOT_NONE && !KnownKind(kind)
    ensures CallsNullAsWritten(SlotAfterSetup(p, kind, ii))
  {
  }

  class Pots {
    /** `zynpots` */
    var pots: array<Pot>
    /** Whether `zynpot_cb` is set. */
    var callback: bool

    ghost predicate Valid()
      reads this
    {
      pots.Length == MAX_NUM_ZYNPOTS
    }

    constructor ()
      ensures Valid() && fresh(pots) && !callback
      ensures forall i :: 0 <= i < MAX_NUM_ZYNPOTS ==> pots[i] == ZeroPot
    {
      pots := new Pot[MAX_NUM_ZYNPOTS](_ => ZeroPot);
      callback := false;
    }

    /** reset_zynpots: every slot unused and unlinked, no callback; nothing counts afterwards. */
    method Reset()
      requires Valid()
      modifies pots, this`callback
      ensures Valid() && !callback
      ensures forall i :: 0 <= i < MAX_NUM_ZYNPOTS ==> pots[i] == old(pots[i]).(kind := ZYNPOT_NONE, linked := false)
      ensures CountWhere(pots[..], PotActive) == 0
    {
      for i := 0 to MAX_NUM_ZYNPOTS
        invariant forall k :: 0 <= k < i ==> pots[k] == old(pots[k]).(kind := ZYNPOT_NONE, linked := false)
        invariant forall k :: i <= k < MAX_NUM_ZYNPOTS ==> pots[k] == old(pots[k])
      {
        pots[i] := pots[i].(kind := ZYNPOT_NONE, linked := false);
      }
      callback := false;
      CountWhereZero(pots[..], PotActive);
    }

    /** get_num_zynpots: the number of slots in use, 0 exactly when none is. */
    method GetNum() returns (n: int)
      requires Valid()
      ensures n == CountWhere(pots[..], PotActive)
      ensures n == 0 <==> forall k :: 0 <= k < MAX_NUM_ZYNPOTS ==> pots[k].kind == ZYNPOT_NONE
    {
      n := 0;
      for i := 0 to MAX_NUM_ZYNPOTS
        invariant n == CountWhere(pots[..i], PotActive)
      {
        CountWhereStep(pots[..], i, PotActive);
        if pots[i].kind != ZYNPOT_NONE {
          n := n + 1;
        }
      }
      assert pots[..MAX_NUM_ZYNPOTS] == pots[..];
      CountWhereZero(pots[..], PotActive);
    }

    /** setup_zynpot_cb */
    method SetupCallback(cb: bool)
      modifies this`callback
      ensures callback == cb
    {
      callback := cb;
    }

    /**
     * setup_zynpot, with the guard corrected to refuse `i ==
     * MAX_NUM_ZYNPOTS` (see SetupIndexAcceptedAsWritten).  The slot takes
     * the type and device index; an encoder slot also tells encoder `ii`
     * which slot it reports as.  The source does not check `ii`.
     */
    method SetupZynpot(i: byte, kind: byte, ii: byte, inputs: Inputs) returns (r: int)
      requires Valid() && inputs.Valid()
      requires kind == ZYNPOT_ZYNCODER ==> ii < MAX_NUM_ZYNCODERS
      modifies pots, inputs.encoders
      ensures Valid() && inputs.Valid()
      ensures r == if SetupIndexAccepted(i) then 1 else 0
      ensures r == 0 ==> pots[..] == old(pots[..]) && inputs.encoders[..] == old(inputs.encoders[..])
      ensures r == 1 ==>
        && pots[..] == old(pots[..])[i := SlotAfterSetup(old(pots[i]), kind, ii)]
        && inputs.encoders[..] == if kind == ZYNPOT_ZYNCODER
             then old(inputs.encoders[..])[ii := old(inputs.encoders[ii]).(zpotI := i as int8)]
             else old(inputs.encoders[..])
    {
      if !SetupIndexAccepted(i) {
        return 0;
      }
      pots[i] := pots[i].(kind := kind, index := ii);
      if kind == ZYNPOT_ZYNCODER {
        inputs.encoders[ii] := inputs.encoders[ii].(zpotI := i as int8);
        pots[i] := pots[i].(linked := true, backend := ZyncoderBackend);
      } else if kind == ZYNPOT_RV112 {
        pots[i] := pots[i].(linked := true, backend := Rv112Backend);
      }
      return 1;
    }

    /**
     * setup_behaviour_zynpot, with the corrected guard: 0 for an index
     * outside the table or an unused slot, otherwise what the slot's
     * backend answers.  An encoder backend is setup_behaviour_zyncoder on
     * the slot's device; `rv112` is what setup_behaviour_rv112 returns.
     * A slot in use with no backend also answers 0, where the source calls
     * a NULL pointer (see CallsNullAsWritten).
     */
    method SetupBehaviour(i: byte, step: int32, inputs: Inputs, rv112: int) returns (r: int)
      requires Valid() && inputs.Valid()
      modifies inputs.encoders
      ensures Valid() && inputs.Valid()
      ensures !(SetupIndexAccepted(i) && PotActive(pots[i])) ==> r == 0 && inputs.encoders[..] == old(inputs.encoders[..])
      ensures SetupIndexAccepted(i) && PotActive(pots[i]) && pots[i].backend.ZyncoderBackend? ==>
        var ii := pots[i].index;
        var e := old(inputs.encoders[..]);
        && r == (if ii < MAX_NUM_ZYNCODERS && e[ii].enabled then 1 else 0)
        && inputs.encoders[..] == if r == 1
             then e[ii := e[ii].(step := if step == 0 then 0 else 1, value := 0, tsms := 0, shortHistory := 0, longHistory := 0)]
             else e
      ensures SetupIndexAccepted(i) && PotActive(pots[i]) && !pots[i].backend.ZyncoderBackend? ==>
        r == (if pots[i].backend.Rv112Backend? then rv112 else 0) && inputs.encoders[..] == old(inputs.encoders[..])
    {
      if !SetupIndexAccepted(i) || pots[i].kind == ZYNPOT_NONE {
        return 0;
      }
      match pots[i].backend {
        case ZyncoderBackend =>
          var ok := inputs.SetupBehaviourEncoder(pots[i].index, step);
          r := if ok then 1 else 0;
        case Rv112Backend =>
          r := rv112;
        case Unbound =>
          r := 0;
      }
    }

    /**
     * get_value_zynpot: 0 for an index outside the table or an unused
     * slot, otherwise the value its backend reads.  An encoder backend is
     * get_value_zyncoder on the slot's device, which also clears the
     * encoder's value; `rv112` is what get_value_rv112 returns.  A slot
     * in use with no backend answers 0 and changes nothing, where the
     * source calls a NULL pointer (see CallsNullAsWritten).
     */
    method GetValue(i: byte, inputs: Inputs, rv112: int32) returns (r: int32)
      requires Valid() && inputs.Valid()
      modifies inputs.encoders
      ensures Valid() && inputs.Valid()
      ensures !(i < MAX_NUM_ZYNPOTS && PotActive(pots[i])) ==> r == 0 && inputs.encoders[..] == old(inputs.encoders[..])
      ensures i < MAX_NUM_ZYNPOTS && PotActive(pots[i]) && pots[i].backend.ZyncoderBackend? ==>
        var ii := pots[i].index;
        var e := old(inputs.encoders[..]);
        if ii < MAX_NUM_ZYNCODERS && e[ii].enabled
        then r == e[ii].value && inputs.encoders[..] == e[ii := e[ii].(value := 0)]
        else r == 0 && inputs.encoders[..] == e
      ensures i < MAX_NUM_ZYNPOTS && PotActive(pots[i]) && !pots[i].backend.ZyncoderBackend? ==>
        r == (if pots[i].backend.Rv112Backend? then rv112 else 0) && inputs.encoders[..] == old(inputs.encoders[..])
    {
      if i >= MAX_NUM_ZYNPOTS || pots[i].kind == ZYNPOT_NONE {
        return 0;
      }
      match pots[i].backend {
        case ZyncoderBackend =>
          r := inputs.GetValueEncoder(pots[i].index);
        case Rv112Backend =>
          r := rv112;
        case Unbound =>
          r := 0;
      }
    }
  }
}
