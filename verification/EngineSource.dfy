/** Where every source slot is, with any adapter replies and any interleaving of the producer. */
module EngineSource {
  import opened Common
  import opened Mute
  import opened Engine
  import Settings

  function Pcm(slots: seq<Slot>): (r: seq<real>)
    ensures |r| == |slots|
  {
    seq(|slots|, i requires 0 <= i < |slots| => slots[i].pcm)
  }

  /** Source PCM waiting in the workspace; padding zeros are not source. */
  function Waiting(w: Window): seq<real> {
    if w.padding then [] else w.input
  }

  /**
   log is every slot published since the last reset, in order. What the
   converter accepted, what waits and what is still in the FIFO account for it.
   */
  predicate Accounted(w: Window, log: seq<Slot>) {
    && w.taken <= |log|
    && |w.fed| == w.accepted
    && w.taken == w.accepted + |Waiting(w)|
    && (w.padded > 0 ==> w.padding)
    && w.fed + Waiting(w) == Pcm(log[..w.taken])
  }

  /** Nothing is lost, repeated or reordered, gaps being zeros. */
  lemma StreamConserved(w: Window, log: seq<Slot>)
    requires Accounted(w, log)
    ensures w.fed + Waiting(w) + Pcm(log[w.taken..]) == Pcm(log)
    ensures w.taken == w.accepted + |Waiting(w)|
  {
    assert log == log[..w.taken] + log[w.taken..];
  }

  // ---------------------------------------------------------------- gaps

  predicate InSpan(gaps: seq<GapSpan>, at: int) {
    exists k | 0 <= k < |gaps| :: gaps[k].start <= at < gaps[k].end
  }

  /** Nonempty, ascending and not touching. */
  predicate Apart(gaps: seq<GapSpan>) {
    && (forall k | 0 <= k < |gaps| :: gaps[k].start < gaps[k].end)
    && (forall j, k | 0 <= j < k < |gaps| :: gaps[j].end < gaps[k].start)
  }

  /** The spans are exactly the missing slots taken, from the pruned floor on. */
  predicate GapsExact(w: Window, log: seq<Slot>)
    requires w.taken <= |log|
  {
    && w.floor <= Total(w)
    && Apart(w.gaps)
    && (forall k | 0 <= k < |w.gaps| :: w.floor < w.gaps[k].end <= w.taken)
    && (forall i | 0 <= i < w.taken && InSpan(w.gaps, i) :: log[i].missing)
    && (forall i | 0 <= i < w.taken && w.floor <= i && log[i].missing :: InSpan(w.gaps, i))
  }

  /** Once tagging has started every next slot carries the next stamp. */
  predicate Stamped(log: seq<Slot>) {
    forall i | 0 <= i < |log| - 1 && log[i].stamp.Some? ::
      log[i + 1].stamp == Some(Stamp(log[i].stamp.value.generation, log[i].stamp.value.source + 1))
  }

  /** The consumer's base agrees with the last stamp it saw. */
  predicate BaseAgrees(w: Window, log: seq<Slot>)
    requires w.taken <= |log|
  {
    if w.base.None? then w.taken > 0 ==> log[w.taken - 1].stamp.None?
    else
      && w.taken > 0 && log[w.taken - 1].stamp.Some?
      && log[w.taken - 1].stamp.value.generation == w.base.value.generation
      && log[w.taken - 1].stamp.value.source == w.base.value.offset + (w.taken - 1)
  }

  /** Everything the window remembers of the log. */
  predicate SourceInv(w: Window, log: seq<Slot>) {
    Accounted(w, log) && GapsExact(w, log) && (Stamped(log) ==> BaseAgrees(w, log))
  }

  lemma EmptyWindowInv(log: seq<Slot>)
    ensures SourceInv(EMPTY_WINDOW, log)
  {
  }

  /** A growing log changes nothing already remembered. */
  lemma LogGrows(w: Window, log: seq<Slot>, more: seq<Slot>)
    requires SourceInv(w, log)
    ensures SourceInv(w, log + more)
  {
    assert (log + more)[..w.taken] == log[..w.taken];
    if Stamped(log + more) {
      forall i | 0 <= i < |log| - 1 && log[i].stamp.Some?
        ensures log[i + 1].stamp == Some(Stamp(log[i].stamp.value.generation, log[i].stamp.value.source + 1))
      {
        assert (log + more)[i] == log[i] && (log + more)[i + 1] == log[i + 1];
      }
    }
  }

  // ---------------------------------------------------------------- taking

  lemma MarkStaysApart(gaps: seq<GapSpan>, at: nat)
    requires Apart(gaps) && forall k | 0 <= k < |gaps| :: gaps[k].end <= at
    ensures Apart(Mark(gaps, at))
    ensures forall k | 0 <= k < |Mark(gaps, at)| ::
        Mark(gaps, at)[k].end == at + 1 || (k < |gaps| && Mark(gaps, at)[k] == gaps[k])
  {
  }

  lemma MarkAdds(gaps: seq<GapSpan>, at: nat, x: int)
    requires Apart(gaps) && forall k | 0 <= k < |gaps| :: gaps[k].end <= at
    ensures InSpan(Mark(gaps, at), x) <==> InSpan(gaps, x) || x == at
  {
    var marked := Mark(gaps, at);
    var last := |marked| - 1;
    if InSpan(gaps, x) {
      var k :| 0 <= k < |gaps| && gaps[k].start <= x < gaps[k].end;
      assert marked[k].start <= x < marked[k].end;
    }
    assert marked[last].start <= at < marked[last].end;
    if InSpan(marked, x) && x != at {
      var k :| 0 <= k < |marked| && marked[k].start <= x < marked[k].end;
      assert gaps[k].start <= x < gaps[k].end;
    }
  }

  lemma TakeAccounts(c: Config, w: Window, log: seq<Slot>)
    requires Accounted(w, log) && w.taken < |log| && !w.padding && TakeSlot(c, w, log[w.taken]).Kept?
    ensures Accounted(TakeSlot(c, w, log[w.taken]).window, log)
  {
    assert log[..w.taken + 1] == log[..w.taken] + [log[w.taken]];
    assert Pcm(log[..w.taken + 1]) == Pcm(log[..w.taken]) + [log[w.taken].pcm];
  }

  lemma TakeKeepsGaps(c: Config, w: Window, log: seq<Slot>)
    requires w.taken < |log| && Accounted(w, log) && GapsExact(w, log) && !w.padding
        && TakeSlot(c, w, log[w.taken]).Kept?
    ensures GapsExact(TakeSlot(c, w, log[w.taken]).window, log)
  {
    if log[w.taken].missing {
      MarkStaysApart(w.gaps, w.taken);
      forall x: int
        ensures InSpan(Mark(w.gaps, w.taken), x) <==> InSpan(w.gaps, x) || x == w.taken
      {
        MarkAdds(w.gaps, w.taken, x);
      }
      hide Mark, InSpan, Apart;
    }
  }

  /** With consecutive stamps the fence never trips. */
  lemma StampsContinue(c: Config, w: Window, log: seq<Slot>)
    requires w.taken < |log| && Stamped(log) && BaseAgrees(w, log)
    ensures !TakeSlot(c, w, log[w.taken]).Fenced?
    ensures TakeSlot(c, w, log[w.taken]).Kept? ==> BaseAgrees(TakeSlot(c, w, log[w.taken]).window, log)
  {
    if w.taken > 0 {
      assert log[w.taken - 1].stamp.Some? ==> log[w.taken - 1 + 1].stamp.Some?;
    }
  }

  /**
   The stamp fence is exact: a slot is fenced if and only if it is stamped, tagging
   has begun, and its stamp is not the one after the last slot's.
   */
  lemma FenceIsExact(c: Config, w: Window, log: seq<Slot>, slot: Slot)
    requires w.taken <= |log| && BaseAgrees(w, log)
    ensures TakeSlot(c, w, slot).Fenced? <==>
      && slot.stamp.Some? && w.base.Some?
      && var last := log[w.taken - 1].stamp.value;
        slot.stamp.value != Stamp(last.generation, last.source + 1)
  {
  }

  /**
   The occupancy steered by is the whole backlog: every slot published and not yet
   accepted by the converter, wherever it is, and what the converter still holds.
   */
  lemma SteeredByBacklog(c: Config, e: Engine, log: seq<Slot>, finite: bool, available: nat, queued: nat)
    requires Accounted(e.window, log) && !e.window.padding && available == |log| - e.window.taken
    requires c.settings.inputRate > 0
    ensures e.window.accepted <= |log|
    ensures Steered(c, e, finite, available, queued) ==
      e.(control := Settings.Steer(c.settings, e.control, 1000 * (|log| - e.window.accepted + queued), finite))
  {
    hide Settings.Steer, Pcm;
  }

  /** What a fill does to the counters, whatever the slots say. */
  lemma {:induction false} FillCounts(c: Config, w: Window, offered: seq<Slot>, room: nat)
    requires Fill(c, w, offered, room).Kept?
    ensures
      var n := Fill(c, w, offered, room).window;
      var count := if w.padding then 0 else Min(room, |offered|);
      && n == w.(input := n.input, taken := w.taken + count, gaps := n.gaps, base := n.base)
      && |n.input| == |w.input| + count
    decreases room
  {
    if room > 0 && !w.padding && offered != [] {
      FillCounts(c, TakeSlot(c, w, offered[0]).window, offered[1..], room - 1);
    }
  }

  lemma TakeKeeps(c: Config, w: Window, log: seq<Slot>)
    requires SourceInv(w, log) && !w.padding && w.taken < |log|
    ensures
      var t := TakeSlot(c, w, log[w.taken]);
      && (t.Kept? ==> SourceInv(t.window, log) && t.window.taken == w.taken + 1 && !t.window.padding)
      && (Stamped(log) ==> !t.Fenced?)
  {
    if Stamped(log) {
      StampsContinue(c, w, log);
    }
    if TakeSlot(c, w, log[w.taken]).Kept? {
      TakeAccounts(c, w, log);
      TakeKeepsGaps(c, w, log);
    }
    hide Accounted, Apart, InSpan, Stamped, Mark;
  }

  lemma NextOffered(log: seq<Slot>, taken: nat, offered: seq<Slot>)
    requires taken <= |log| && offered <= log[taken..] && offered != []
    ensures taken < |log| && offered[0] == log[taken] && offered[1..] <= log[taken + 1..]
  {
    assert offered[0] == log[taken..][0];
    assert log[taken..][1..] == log[taken + 1..];
  }

  /** Whatever a fill takes, the window still remembers the log exactly. */
  lemma {:induction false} FillKeeps(c: Config, w: Window, log: seq<Slot>, offered: seq<Slot>, room: nat)
    requires SourceInv(w, log) && w.taken <= |log| && offered <= log[w.taken..]
    ensures
      var t := Fill(c, w, offered, room);
      && (t.Kept? ==> SourceInv(t.window, log))
      && (Stamped(log) ==> !t.Fenced?)
    decreases room
  {
    hide SourceInv, TakeSlot, Stamped;
    if room > 0 && !w.padding && offered != [] {
      NextOffered(log, w.taken, offered);
      TakeKeeps(c, w, log);
      var t := TakeSlot(c, w, offered[0]);
      if t.Kept? {
        FillKeeps(c, t.window, log, offered[1..], room - 1);
      }
    }
  }

  // ---------------------------------------------------------------- converting

  lemma PadKeeps(w: Window, log: seq<Slot>, finite: bool)
    requires SourceInv(w, log)
    ensures SourceInv(Pad(w, finite), log)
  {
    hide Apart, InSpan, Stamped;
  }

  /** Pruning removes the spans that end at or before the position and nothing else. */
  lemma {:induction false} PruneIsExact(gaps: seq<GapSpan>, position: nat)
    requires Apart(gaps)
    ensures
      var r := Prune(gaps, position);
      && Apart(r)
      && (forall k | 0 <= k < |r| :: position < r[k].end && r[k] in gaps)
      && (forall x: int | x >= position :: InSpan(r, x) <==> InSpan(gaps, x))
    decreases |gaps|
  {
    if gaps != [] && position >= gaps[0].end {
      PruneIsExact(gaps[1..], position);
      forall x: int | x >= position
        ensures InSpan(gaps, x) <==> InSpan(gaps[1..], x)
      {
        InSpanTail(gaps, x);
      }
    } else if gaps != [] {
      assert forall k | 1 <= k < |gaps| :: gaps[0].end < gaps[k].start < gaps[k].end;
    }
  }

  lemma InSpanTail(gaps: seq<GapSpan>, x: int)
    requires gaps != []
    ensures InSpan(gaps, x) <==> gaps[0].start <= x < gaps[0].end || InSpan(gaps[1..], x)
  {
    if InSpan(gaps, x) {
      var k :| 0 <= k < |gaps| && gaps[k].start <= x < gaps[k].end;
      if k > 0 {
        assert gaps[1..][k - 1] == gaps[k];
      }
    }
    if InSpan(gaps[1..], x) {
      var k :| 0 <= k < |gaps[1..]| && gaps[1..][k].start <= x < gaps[1..][k].end;
      assert gaps[k + 1] == gaps[1..][k];
    }
  }

  /** Fewer spans cover no more slots. */
  lemma InSpanSubset(few: seq<GapSpan>, many: seq<GapSpan>, x: int)
    requires (forall k | 0 <= k < |few| :: few[k] in many) && InSpan(few, x)
    ensures InSpan(many, x)
  {
    var k :| 0 <= k < |few| && few[k].start <= x < few[k].end;
    var j :| 0 <= j < |many| && many[j] == few[k];
  }

  lemma SeeKeeps(w: Window, log: seq<Slot>, delay: nat)
    requires SourceInv(w, log)
    ensures SourceInv(See(w, delay), log)
  {
    hide InSpan, Stamped, CeilDiv, Pcm;
  }

  lemma LocateKeepsGaps(w: Window, log: seq<Slot>, delay: nat)
    requires w.taken <= |log| && GapsExact(w, log)
    ensures GapsExact(Locate(w, delay), log)
  {
    var position := Frame(w, delay);
    assert position <= Total(w);
    hide Frame;
    if position >= 0 {
      PruneIsExact(w.gaps, position);
      hide Prune;
      var r := Prune(w.gaps, position);
      forall i | 0 <= i < w.taken && InSpan(r, i)
        ensures log[i].missing
      {
        InSpanSubset(r, w.gaps, i);
      }
    }
    hide InSpan, Apart, Prune;
  }

  lemma LocateKeeps(w: Window, log: seq<Slot>, delay: nat)
    requires SourceInv(w, log)
    ensures SourceInv(Locate(w, delay), log)
  {
    LocateKeepsGaps(w, log, delay);
    hide GapsExact, Stamped, Prune, Frame, Pcm;
  }

  lemma ConsumeAccounts(w: Window, log: seq<Slot>, used: nat)
    requires Accounted(w, log) && used <= |w.input|
    ensures Accounted(Consume(w, used), log)
  {
    assert w.input == w.input[..used] + w.input[used..];
    assert w.fed + w.input == (w.fed + w.input[..used]) + w.input[used..];
    hide Pcm;
  }

  lemma ConsumeKeepsGaps(w: Window, log: seq<Slot>, used: nat)
    requires w.taken <= |log| && GapsExact(w, log) && used <= |w.input|
    ensures GapsExact(Consume(w, used), log) && Total(Consume(w, used)) == Total(w) + used
    ensures Consume(w, used) == w.(input := Consume(w, used).input, padded := Consume(w, used).padded,
                                   accepted := Consume(w, used).accepted, fed := Consume(w, used).fed)
  {
    hide InSpan, Apart;
  }

  lemma StallKeeps(w: Window, log: seq<Slot>, stalled: bool)
    requires SourceInv(w, log)
    ensures SourceInv(w.(zeroProgress := stalled), log)
  {
    hide InSpan, Apart, Stamped, Pcm;
  }

  lemma ConsumeKeeps(w: Window, log: seq<Slot>, used: nat, stalled: bool)
    requires SourceInv(w, log) && used <= |w.input|
    ensures SourceInv(Consume(w, used).(zeroProgress := stalled), log)
    ensures Consume(w, used).taken == w.taken && Total(Consume(w, used)) == Total(w) + used
  {
    ConsumeAccounts(w, log, used);
    ConsumeKeepsGaps(w, log, used);
    assert SourceInv(Consume(w, used), log) by {
      hide Accounted, GapsExact, Stamped, Consume;
    }
    StallKeeps(Consume(w, used), log, stalled);
    hide *;
  }

  lemma ConvertKeeps(c: Config, e: Engine, r: Replies, log: seq<Slot>)
    requires SourceInv(e.window, log)
    ensures SourceInv(Convert(c, e, r).engine.window, log)
    ensures Convert(c, e, r).engine.window.taken == e.window.taken
  {
    hide SourceInv, Locate, See, Consume;
    var gapDelay := InputDelay(r.delayForGaps);
    if e.window.gaps != [] && gapDelay.Some? {
      LocateKeeps(e.window, log, gapDelay.value);
      LocateTaken(e.window, gapDelay.value);
    }
    var w := if e.window.gaps != [] && gapDelay.Some? then Locate(e.window, gapDelay.value) else e.window;
    var before := InputDelay(r.delayBefore);
    var converted := Process(|w.input|, if w.gaps == [] then QUANTUM else 1, e.control.ratio, r.processed);
    if before.Some? {
      SeeKeeps(w, log, before.value);
      LocateTaken(w, before.value);
      if converted.Some? {
        var seen, used := See(w, before.value), converted.value.used;
        ConsumeKeeps(seen, log, used, false);
        ConsumeKeeps(seen, log, used, used == 0);
        ConsumeKeeps(seen, log, used, seen.zeroProgress);
        ConsumeStalled(seen, used);
      }
    }
  }

  lemma LocateTaken(w: Window, delay: nat)
    ensures Locate(w, delay).taken == w.taken && Locate(w, delay).input == w.input
        && Total(Locate(w, delay)) == Total(w)
    ensures See(w, delay).taken == w.taken && See(w, delay).input == w.input && Total(See(w, delay)) == Total(w)
    ensures See(w, delay).zeroProgress == w.zeroProgress
  {
  }

  lemma ConsumeStalled(w: Window, used: nat)
    requires used <= |w.input|
    ensures Consume(w, used).(zeroProgress := w.zeroProgress) == Consume(w, used)
  {
  }

  /** A fill was refused a slot: the stamp fence or the gap list. */
  predicate Refused(c: Config, e: Engine, s: Supply) {
    !e.resetFailed && e.cache.pcm == [] && !Fill(c, e.window, s.offered, Room(c, e.window)).Kept?
  }

  /** Short of a refusal, a refill with any replies keeps the whole account of the source. */
  lemma RefillKeeps(c: Config, e: Engine, finite: bool, s: Supply, log: seq<Slot>)
    requires SourceInv(e.window, log) && e.window.taken <= |log| && s.offered <= log[e.window.taken..]
    ensures !Refused(c, e, s) ==> SourceInv(Refill(c, e, finite, s).engine.window, log)
    ensures Stamped(log) ==> !Fill(c, e.window, s.offered, Room(c, e.window)).Fenced?
  {
    FillKeeps(c, e.window, log, s.offered, Room(c, e.window));
    hide SourceInv, Proceed, Fill, Pad, Stamped;
    if !Refused(c, e, s) && !e.resetFailed && e.cache.pcm == [] {
      var t := Fill(c, e.window, s.offered, Room(c, e.window));
      PadKeeps(t.window, log, finite);
      ProceedKeeps(c, e.(window := Pad(t.window, finite)), finite, s, log);
    }
  }

  lemma ProceedKeeps(c: Config, e: Engine, finite: bool, s: Supply, log: seq<Slot>)
    requires SourceInv(e.window, log)
    ensures SourceInv(Proceed(c, e, finite, s).engine.window, log)
  {
    hide SourceInv, Convert, Settings.Steer;
    if s.replies.queued.Some? {
      ConvertKeeps(c, Steered(c, e, finite, s.available, s.replies.queued.value), s.replies, log);
    }
  }
}
