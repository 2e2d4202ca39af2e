// The router's MIDI filter: `midi_filter.event_map`, a table indexed by
// event kind, channel and number that says what each incoming channel
// event becomes: passed through as itself, turned into another event, or
// ignored.
module MidiFilter {
  import opened CTypes
  import opened MidiCodec

  /** `midi_event_t`: a kind (the `midi_event_type` enum), a channel and a number. */
  datatype MidiEvent = MidiEvent(kind: int32, chan: byte, num: byte)

  /** The entry of an unmapped event: passed through on its own channel and number. */
  function Thru(chan: byte, num: byte): MidiEvent {
    MidiEvent(THRU_EVENT, chan, num)
  }

  /**
   * validate_midi_event: the kind is at most 0xE, the channel at most 15
   * and the number at most 127.  Kinds below 0x8, the router's negative
   * pseudo-kinds included, pass.
   */
  predicate ValidEvent(ev: MidiEvent) {
    ev.kind <= 0xE && ev.chan <= 15 && ev.num <= 127
  }

  /** `type & 0x7`, the first index into the table (two's complement, so -1 gives 7). */
  function KindIndex(kind: int32): (r: nat)
    ensures r < 8
    ensures NOTE_OFF <= kind < 0x10 ==> r == kind - 8
  {
    kind % 8
  }

  /** The channel message kinds NOTE_OFF..PITCH_BEND each have a table row of their own. */
  lemma {:induction false} ChannelKindsHaveOwnRows(k1: int32, k2: int32)
    requires NOTE_OFF <= k1 <= PITCH_BEND && NOTE_OFF <= k2 <= PITCH_BEND
    ensures KindIndex(k1) == KindIndex(k2) <==> k1 == k2
  {
  }

  /**
   * The validation lets other kinds through, and they share the rows of
   * the channel kinds: IGNORE_EVENT (-2) shares PITCH_BEND's row and kind
   * 0 shares NOTE_OFF's.
   */
  lemma OtherKindsShareRows()
    ensures ValidEvent(MidiEvent(IGNORE_EVENT, 0, 0)) && KindIndex(IGNORE_EVENT) == KindIndex(PITCH_BEND)
    ensures ValidEvent(MidiEvent(0, 0, 0)) && KindIndex(0) == KindIndex(NOTE_OFF)
  {
  }

  class EventMap {
    /** `midi_filter.event_map[8][16][128]` */
    var eventMap: array3<MidiEvent>

    ghost predicate Valid()
      reads this
    {
      eventMap.Length0 == 8 && eventMap.Length1 == 16 && eventMap.Length2 == 128
    }

    /** The entry a valid event is looked up at; None for an invalid one (NULL). */
    function Lookup(ev: MidiEvent): (r: Option<MidiEvent>)
      requires Valid()
      reads this, eventMap
      ensures r.Some? <==> ValidEvent(ev)
    {
      if ValidEvent(ev) then Some(eventMap[KindIndex(ev.kind), ev.chan, ev.num]) else None
    }

    /** init_midi_router: every event passes through as itself. */
    constructor ()
      ensures Valid() && fresh(eventMap)
      ensures forall i: int, j: byte, k: byte :: 0 <= i < 8 && j < 16 && k < 128 ==> eventMap[i, j, k] == Thru(j, k)
    {
      eventMap := new MidiEvent[8, 16, 128];
      new;
      Reset();
    }

    /** reset_midi_filter_event_map: every entry back to its own pass-through. */
    method Reset()
      requires Valid()
      modifies eventMap
      ensures Valid()
      ensures forall i: int, j: byte, k: byte :: 0 <= i < 8 && j < 16 && k < 128 ==> eventMap[i, j, k] == Thru(j, k)
    {
      for i := 0 to 8
        invariant forall a: int, b: byte, c: byte :: 0 <= a < i && b < 16 && c < 128 ==> eventMap[a, b, c] == Thru(b, c)
      {
        for j := 0 to 16
          invariant forall a: int, b: byte, c: byte :: 0 <= a < i && b < 16 && c < 128 ==> eventMap[a, b, c] == Thru(b, c)
          invariant forall b: byte, c: byte :: b < j && c < 128 ==> eventMap[i, b, c] == Thru(b, c)
        {
          for k := 0 to 128
            invariant forall a: int, b: byte, c: byte :: 0 <= a < i && b < 16 && c < 128 ==> eventMap[a, b, c] == Thru(b, c)
            invariant forall b: byte, c: byte :: b < j && c < 128 ==> eventMap[i, b, c] == Thru(b, c)
            invariant forall c: byte :: c < k ==> eventMap[i, j, c] == Thru(j, c)
          {
            eventMap[i, j, k] := Thru(j, k);
          }
        }
      }
    }

    /**
     * set_midi_filter_event_map(_st): with both events valid, the entry of
     * `from` takes the kind, channel and number of `to`, and no other
     * entry changes; otherwise nothing changes.
     */
    method SetEventMap(from: MidiEvent, to: MidiEvent)
      requires Valid()
      modifies eventMap
      ensures Valid()
      ensures ValidEvent(from) && ValidEvent(to) ==> Lookup(from) == Some(to)
      ensures forall i, j, k :: 0 <= i < 8 && 0 <= j < 16 && 0 <= k < 128 ==>
        eventMap[i, j, k] == if ValidEvent(from) && ValidEvent(to) && (i, j, k) == (KindIndex(from.kind), from.chan as int, from.num as int)
                        then to else old(eventMap[i, j, k])
    {
      if ValidEvent(from) && ValidEvent(to) {
        eventMap[KindIndex(from.kind), from.chan, from.num] := to;
      }
    }

    /** set_midi_filter_event_ignore(_st): a valid event's entry keeps its channel and number and becomes IGNORE_EVENT. */
    method IgnoreEvent(from: MidiEvent)
      requires Valid()
      modifies eventMap
      ensures Valid()
      ensures ValidEvent(from) ==> Lookup(from) == Some(old(Lookup(from)).value.(kind := IGNORE_EVENT))
      ensures forall i, j, k :: 0 <= i < 8 && 0 <= j < 16 && 0 <= k < 128 ==>
        eventMap[i, j, k] == if ValidEvent(from) && (i, j, k) == (KindIndex(from.kind), from.chan as int, from.num as int)
                        then old(eventMap[i, j, k]).(kind := IGNORE_EVENT) else old(eventMap[i, j, k])
    {
      if ValidEvent(from) {
        var i := KindIndex(from.kind);
        eventMap[i, from.chan, from.num] := eventMap[i, from.chan, from.num].(kind := IGNORE_EVENT);
      }
    }

    /** get_midi_filter_event_map(_st): the entry of a valid event, None (NULL) for an invalid one. */
    method GetEventMap(from: MidiEvent) returns (r: Option<MidiEvent>)
      requires Valid()
      ensures r == Lookup(from)
      ensures ValidEvent(from) <==> r.Some?
    {
      if ValidEvent(from) {
        return Some(eventMap[KindIndex(from.kind), from.chan, from.num]);
      }
      return None;
    }

    /** del_midi_filter_event_map(_st): a valid event's entry goes back to its own pass-through. */
    method DelEventMap(from: MidiEvent)
      requires Valid()
      modifies eventMap
      ensures Valid()
      ensures ValidEvent(from) ==> Lookup(from) == Some(Thru(from.chan, from.num))
      ensures forall i, j, k :: 0 <= i < 8 && 0 <= j < 16 && 0 <= k < 128 ==>
        eventMap[i, j, k] == if ValidEvent(from) && (i, j, k) == (KindIndex(from.kind), from.chan as int, from.num as int)
                        then Thru(from.chan, from.num) else old(eventMap[i, j, k])
    {
      if ValidEvent(from) {
        eventMap[KindIndex(from.kind), from.chan, from.num] := Thru(from.chan, from.num);
      }
    }

    /** set_midi_filter_cc_map: a controller on one channel becomes another controller, possibly on another channel. */
    method SetCcMap(chanFrom: byte, ccFrom: byte, chanTo: byte, ccTo: byte)
      requires Valid()
      modifies eventMap
      ensures Valid()
      ensures chanFrom < 16 && ccFrom < 128 && chanTo < 16 && ccTo < 128 ==>
        Lookup(MidiEvent(CTRL_CHANGE, chanFrom, ccFrom)) == Some(MidiEvent(CTRL_CHANGE, chanTo, ccTo))
      ensures forall i, j, k :: 0 <= i < 8 && 0 <= j < 16 && 0 <= k < 128 ==>
        eventMap[i, j, k] == if chanFrom < 16 && ccFrom < 128 && chanTo < 16 && ccTo < 128 && (i, j, k) == (3, chanFrom as int, ccFrom as int)
                        then MidiEvent(CTRL_CHANGE, chanTo, ccTo) else old(eventMap[i, j, k])
    {
      SetEventMap(MidiEvent(CTRL_CHANGE, chanFrom, ccFrom), MidiEvent(CTRL_CHANGE, chanTo, ccTo));
    }

    /** set_midi_filter_cc_ignore */
    method IgnoreCc(chan: byte, ccFrom: byte)
      requires Valid()
      modifies eventMap
      ensures Valid()
      ensures forall i, j, k :: 0 <= i < 8 && 0 <= j < 16 && 0 <= k < 128 ==>
        eventMap[i, j, k] == if chan < 16 && ccFrom < 128 && (i, j, k) == (3, chan as int, ccFrom as int)
                        then old(eventMap[i, j, k]).(kind := IGNORE_EVENT) else old(eventMap[i, j, k])
    {
      IgnoreEvent(MidiEvent(CTRL_CHANGE, chan, ccFrom));
    }

    /**
     * get_midi_filter_cc_map: the number a controller is mapped to.  The
     * source dereferences the lookup unchecked, so the channel and the
     * controller must be valid.
     */
    method GetCcMap(chan: byte, ccFrom: byte) returns (r: byte)
      requires Valid() && chan < 16 && ccFrom < 128
      ensures Lookup(MidiEvent(CTRL_CHANGE, chan, ccFrom)) == Some(eventMap[3, chan, ccFrom])
      ensures r == eventMap[3, chan, ccFrom].num
    {
      var ev := GetEventMap(MidiEvent(CTRL_CHANGE, chan, ccFrom));
      return ev.value.num;
    }

    /** del_midi_filter_cc_map */
    method DelCcMap(chan: byte, ccFrom: byte)
      requires Valid()
      modifies eventMap
      ensures Valid()
      ensures forall i, j, k :: 0 <= i < 8 && 0 <= j < 16 && 0 <= k < 128 ==>
        eventMap[i, j, k] == if chan < 16 && ccFrom < 128 && (i, j, k) == (3, chan as int, ccFrom as int)
                        then Thru(chan, ccFrom) else old(eventMap[i, j, k])
    {
      DelEventMap(MidiEvent(CTRL_CHANGE, chan, ccFrom));
    }

    /** reset_midi_filter_cc_map: every controller entry back to pass-through; the other kinds keep theirs. */
    method ResetCcMap()
      requires Valid()
      modifies eventMap
      ensures Valid()
      ensures forall j: byte, k: byte :: j < 16 && k < 128 ==> eventMap[3, j, k] == Thru(j, k)
      ensures forall i, j, k :: 0 <= i < 8 && i != 3 && 0 <= j < 16 && 0 <= k < 128 ==> eventMap[i, j, k] == old(eventMap[i, j, k])
    {
      for i := 0 to 16
        invariant forall b: byte, c: byte :: b < i && c < 128 ==> eventMap[3, b, c] == Thru(b, c)
        invariant forall a, b, c :: 0 <= a < 8 && a != 3 && 0 <= b < 16 && 0 <= c < 128 ==> eventMap[a, b, c] == old(eventMap[a, b, c])
      {
        for j := 0 to 128
          invariant forall b: byte, c: byte :: b < i && c < 128 ==> eventMap[3, b, c] == Thru(b, c)
          invariant forall c: byte :: c < j ==> eventMap[3, i, c] == Thru(i, c)
          invariant forall a, b, c :: 0 <= a < 8 && a != 3 && 0 <= b < 16 && 0 <= c < 128 ==> eventMap[a, b, c] == old(eventMap[a, b, c])
        {
          DelCcMap(i, j);
        }
      }
    }
  }
}
