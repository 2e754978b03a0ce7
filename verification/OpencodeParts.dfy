/** The 1.x text relay (internal/agent/opencode.go: relayPart, relayDelta and
    partDelta): a part streams as deltas once announced open, and each of its
    own events carries its text whole. */
module OpencodeParts {
  import opened OpencodeText

  datatype Update =
    | Opened(id: string)
    | Streams(id: string, delta: string)
    | Whole(id: string, full: string)

  datatype Parts = Parts(open: set<string>, partLen: Lengths, out: seq<Slice>)

  const NO_PARTS := Parts({}, map[], [])

  /** What of the whole text no delta carried; all of it when the part shrank. */
  function PartDelta(prev: nat, full: string): string {
    if |full| >= prev then full[prev..] else full
  }

  function Update1(s: Parts, u: Update): Parts {
    match u
    case Opened(id) => s.(open := s.open + {id})
    case Streams(id, delta) =>
      if delta == "" || id !in s.open then s
      else s.(partLen := s.partLen[id := LengthAt(s.partLen, id) + |delta|], out := s.out + [Slice(id, delta)])
    case Whole(id, full) =>
      Parts(s.open - {id}, s.partLen[id := |full|], s.out + [Slice(id, PartDelta(LengthAt(s.partLen, id), full))])
  }

  function Updates(s: Parts, us: seq<Update>): Parts {
    if us == [] then s else Update1(Updates(s, us[..|us| - 1]), us[|us| - 1])
  }

  /** Each whole text a part reports extends what was relayed of it. */
  predicate Extending(us: seq<Update>) {
    us == [] || (
      var before, u := us[..|us| - 1], us[|us| - 1];
      && Extending(before)
      && (u.Whole? ==> TextOf(Updates(NO_PARTS, before).out, u.id) <= u.full))
  }

  /** A whole text completes the part if and only if it extends what was
      relayed. */
  lemma WholeCompletesThePart(s: Parts, id: string, full: string)
    requires LengthAt(s.partLen, id) == |TextOf(s.out, id)|
    ensures TextOf(Update1(s, Whole(id, full)).out, id) == full <==> TextOf(s.out, id) <= full
  {
    var got := TextOf(s.out, id);
    var rest := PartDelta(|got|, full);
    TextSnoc(s.out, Slice(id, rest), id);
    if got + rest == full { assert full[..|got|] == got; }
  }

  /** The lengths kept stay the lengths relayed. */
  lemma {:induction false} LengthsAreRelayed(us: seq<Update>, id: string)
    requires Extending(us)
    ensures var s := Updates(NO_PARTS, us); LengthAt(s.partLen, id) == |TextOf(s.out, id)|
  {
    if us != [] {
      var before, u := us[..|us| - 1], us[|us| - 1];
      var s := Updates(NO_PARTS, before);
      LengthsAreRelayed(before, id);
      match u
      case Opened(_) =>
      case Streams(i, delta) => TextSnoc(s.out, Slice(i, delta), id);
      case Whole(i, full) =>
        TextSnoc(s.out, Slice(i, PartDelta(LengthAt(s.partLen, i), full)), id);
        if i == id { WholeCompletesThePart(s, id, full); }
    }
  }

  /** Each report of a part relays what was missing, and a repeated one
      nothing. */
  lemma EachWholeIsRelayedOnce(us: seq<Update>, id: string, full: string)
    requires Extending(us + [Whole(id, full)])
    ensures var s := Updates(NO_PARTS, us + [Whole(id, full)]);
            TextOf(s.out, id) == full && TextOf(Update1(s, Whole(id, full)).out, id) == full
  {
    var all := us + [Whole(id, full)];
    assert all[..|all| - 1] == us;
    LengthsAreRelayed(us, id);
    WholeCompletesThePart(Updates(NO_PARTS, us), id, full);
    LengthsAreRelayed(all, id);
    WholeCompletesThePart(Updates(NO_PARTS, all), id, full);
  }

  /** A part that comes back shorter than what was relayed of it is relayed again
      whole; a longer one from where the relay stood, whatever was relayed. */
  lemma WholeAdds(s: Parts, id: string, full: string)
    requires LengthAt(s.partLen, id) == |TextOf(s.out, id)|
    ensures var got, after := TextOf(s.out, id), Update1(s, Whole(id, full));
            && TextOf(after.out, id) == (if |full| < |got| then got + full else got + full[|got|..])
            && LengthAt(after.partLen, id) == |full| && id !in after.open
  {
    TextSnoc(s.out, Slice(id, PartDelta(LengthAt(s.partLen, id), full)), id);
  }

  /** The part was announced open and not reported whole since. */
  predicate Announced(us: seq<Update>, id: string) {
    exists i :: 0 <= i < |us| && us[i] == Opened(id) && NotWhole(us, i, id)
  }

  predicate NotWhole(us: seq<Update>, i: nat, id: string) {
    forall j :: i < j < |us| ==> !(us[j].Whole? && us[j].id == id)
  }

  lemma AnnouncedNext(us: seq<Update>, id: string)
    requires us != []
    ensures var before, u := us[..|us| - 1], us[|us| - 1];
            Announced(us, id) <==> u == Opened(id) || (Announced(before, id) && !(u.Whole? && u.id == id))
  {
    var before, u := us[..|us| - 1], us[|us| - 1];
    if u == Opened(id) { assert NotWhole(us, |before|, id); }
    if Announced(before, id) && !(u.Whole? && u.id == id) {
      var i :| 0 <= i < |before| && before[i] == Opened(id) && NotWhole(before, i, id);
      assert forall j :: 0 <= j < |before| ==> before[j] == us[j];
      assert us[i] == Opened(id) && NotWhole(us, i, id);
    }
    if Announced(us, id) && u != Opened(id) {
      var i :| 0 <= i < |us| && us[i] == Opened(id) && NotWhole(us, i, id);
      assert before[i] == Opened(id) && NotWhole(before, i, id);
    }
  }

  lemma {:induction false} OpenIsAnnounced(us: seq<Update>, id: string)
    ensures id in Updates(NO_PARTS, us).open <==> Announced(us, id)
  {
    if us != [] {
      OpenIsAnnounced(us[..|us| - 1], id);
      AnnouncedNext(us, id);
    }
  }

  /** A delta is relayed, as it is, if and only if its part is open. */
  lemma {:induction false} DeltaIsRelayedIff(us: seq<Update>, id: string, delta: string)
    requires delta != ""
    ensures var before, after := Updates(NO_PARTS, us), Updates(NO_PARTS, us + [Streams(id, delta)]);
            after.out == if Announced(us, id) then before.out + [Slice(id, delta)] else before.out
  {
    OpenIsAnnounced(us, id);
    assert (us + [Streams(id, delta)])[..|us|] == us;
  }

  class PartRelay {
    var open: set<string>
    var partLen: Lengths
    var out: seq<Slice>

    ghost function View(): Parts
      reads this
    {
      Parts(open, partLen, out)
    }

    constructor ()
      ensures View() == NO_PARTS
    {
      open, partLen, out := {}, map[], [];
    }

    method OnOpened(id: string)
      modifies this
      ensures View() == Update1(old(View()), Opened(id))
    {
      open := open + {id};
    }

    method OnDelta(id: string, delta: string)
      modifies this
      ensures View() == Update1(old(View()), Streams(id, delta))
    {
      if delta == "" {
        return;
      }
      if id in open {
        partLen := partLen[id := LengthAt(partLen, id) + |delta|];
        out := out + [Slice(id, delta)];
      }
    }

    method OnWhole(id: string, full: string)
      modifies this
      ensures View() == Update1(old(View()), Whole(id, full))
    {
      open := open - {id};
      var prev := LengthAt(partLen, id);
      partLen := partLen[id := |full|];
      var rest := full;
      if |full| >= prev {
        rest := full[prev..];
      }
      out := out + [Slice(id, rest)];
    }
  }
}
