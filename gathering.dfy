/**
 * The collection loop of one listener's tick: for each nearby player, in
 * order, take the head of that speaker's input queue, skipping (and
 * removing) the frame this listener mixed last time, and remember which
 * frame was taken.
 */
module Gathering {
  import opened Pcm
  import opened Mixing
  import opened Queues
  import opened Registry

  /**
   * An input queue as the producer builds it: frame ids strictly increase
   * from head to tail, every id was issued before `next`, and every frame
   * fits the output frame.
   */
  predicate WellFormedQueue(q: seq<Frame>, next: nat) {
    && (forall a, b | 0 <= a < b < |q| :: q[a].id < q[b].id)
    && (forall k | 0 <= k < |q| :: q[k].id < next && |q[k].data| <= FrameSize)
  }

  predicate WellFormed(queues: map<DiscordId, seq<Frame>>, next: nat) {
    forall d | d in queues :: WellFormedQueue(queues[d], next)
  }

  /**
   * The frame a listener last mixed from a speaker is never behind that
   * speaker's queue head: everything queued after the head is newer.
   */
  predicate Fresh(lastKnown: map<DiscordId, nat>, queues: map<DiscordId, seq<Frame>>) {
    forall d | d in lastKnown && d in queues && queues[d] != [] :: lastKnown[d] <= queues[d][0].id
  }

  /** Every remembered frame was issued before `next`. */
  predicate Behind(lastKnown: map<DiscordId, nat>, next: nat) {
    forall d | d in lastKnown :: lastKnown[d] < next
  }

  /** The state the collection loop works on. */
  datatype Gather = Gather(
    inputQueues: map<DiscordId, seq<Frame>>,
    lastKnown: map<DiscordId, nat>,
    combining: seq<Contributor>)

  /** Record `f` as the frame mixed from `d` and collect it. */
  function Take(g: Gather, d: DiscordId, f: Frame, gain: StereoGain): Gather {
    g.(lastKnown := g.lastKnown[d := f.id], combining := g.combining + [Contributor(f, gain)])
  }

  /**
   * One pass of the loop body for one nearby player. A player without a
   * Discord id, or whose input queue is missing or empty, adds nothing.
   * When the head is the frame mixed last time it is removed and the new
   * head is used instead; if none is left the speaker is skipped. The frame
   * used is remembered and collected with the speaker's weighting.
   */
  function GatherStep(g: Gather, ids: map<Uuid, DiscordId>, speaker: Uuid, gain: StereoGain): (r: Gather)
    ensures speaker !in ids || ids[speaker] !in g.inputQueues || g.inputQueues[ids[speaker]] == [] ==> r == g
    ensures r.inputQueues.Keys == g.inputQueues.Keys
  {
    if speaker !in ids then g
    else
      var d := ids[speaker];
      if d !in g.inputQueues || g.inputQueues[d] == [] then g
      else
        var q := g.inputQueues[d];
        if d in g.lastKnown && g.lastKnown[d] == q[0].id then
          var rest := q[1..];
          var dropped := g.(inputQueues := g.inputQueues[d := rest]);
          if rest == [] then dropped else Take(dropped, d, rest[0], gain)
        else
          Take(g, d, q[0], gain)
  }

  /** The whole loop over the nearby players, in order. */
  function GatherAll(g: Gather, ids: map<Uuid, DiscordId>, speakers: seq<Uuid>, gain: Uuid -> StereoGain): Gather
    decreases |speakers|
  {
    if speakers == [] then g
    else
      var last := speakers[|speakers| - 1];
      GatherStep(GatherAll(g, ids, speakers[..|speakers| - 1], gain), ids, last, gain(last))
  }

  /** The three outcomes of a pass for a speaker with a non-empty queue. */
  lemma GatherStepCases(g: Gather, ids: map<Uuid, DiscordId>, speaker: Uuid, gain: StereoGain)
    requires speaker in ids && ids[speaker] in g.inputQueues && g.inputQueues[ids[speaker]] != []
    ensures var d := ids[speaker];
      var q := g.inputQueues[d];
      var r := GatherStep(g, ids, speaker, gain);
      if d in g.lastKnown && g.lastKnown[d] == q[0].id then
        if |q| == 1 then r == g.(inputQueues := g.inputQueues[d := []])
        else r == Take(g.(inputQueues := g.inputQueues[d := q[1..]]), d, q[1], gain)
      else r == Take(g, d, q[0], gain)
  {
  }

  /**
   * A pass changes only the speaker's queue, and that queue only loses its
   * head.
   */
  lemma GatherStepQueuesFrame(g: Gather, ids: map<Uuid, DiscordId>, speaker: Uuid, gain: StereoGain)
    ensures var r := GatherStep(g, ids, speaker, gain);
      && (forall d | d in g.inputQueues ::
            IsSuffix(r.inputQueues[d], g.inputQueues[d]) && |r.inputQueues[d]| + 1 >= |g.inputQueues[d]|)
      && (forall d | d in g.inputQueues && (speaker !in ids || d != ids[speaker]) ::
            r.inputQueues[d] == g.inputQueues[d])
  {
    var r := GatherStep(g, ids, speaker, gain);
    if speaker in ids && ids[speaker] in g.inputQueues && g.inputQueues[ids[speaker]] != [] {
      var d := ids[speaker];
      var q := g.inputQueues[d];
      GatherStepCases(g, ids, speaker, gain);
      if d in g.lastKnown && g.lastKnown[d] == q[0].id {
        assert r.inputQueues == g.inputQueues[d := q[1..]];
        QueueUpdateFrame(g.inputQueues, d, q[1..]);
      } else {
        assert r.inputQueues == g.inputQueues[d := q];
        QueueUpdateFrame(g.inputQueues, d, q);
      }
    } else {
      assert r == g;
      forall d | d in g.inputQueues ensures IsSuffix(g.inputQueues[d], g.inputQueues[d]) {
        assert g.inputQueues[d][|g.inputQueues[d]| - |g.inputQueues[d]|..] == g.inputQueues[d];
      }
    }
  }

  /** A pass changes no other speaker's memory. */
  lemma GatherStepMemoryFrame(g: Gather, ids: map<Uuid, DiscordId>, speaker: Uuid, gain: StereoGain)
    ensures var r := GatherStep(g, ids, speaker, gain);
      forall d | speaker !in ids || d != ids[speaker] ::
        (d in r.lastKnown <==> d in g.lastKnown) && (d in g.lastKnown ==> r.lastKnown[d] == g.lastKnown[d])
  {
    var r := GatherStep(g, ids, speaker, gain);
    if speaker in ids && ids[speaker] in g.inputQueues && g.inputQueues[ids[speaker]] != [] {
      var d := ids[speaker];
      GatherStepCases(g, ids, speaker, gain);
      assert r.lastKnown - {d} == g.lastKnown - {d};
      forall e | e != d
        ensures (e in r.lastKnown <==> e in g.lastKnown) && (e in g.lastKnown ==> r.lastKnown[e] == g.lastKnown[e])
      {
        assert e in r.lastKnown <==> e in r.lastKnown - {d};
        assert e in g.lastKnown <==> e in g.lastKnown - {d};
      }
    }
  }

  /**
   * Replacing one queue by itself or by its tail keeps every queue a
   * suffix of what it was, at most one shorter, and the others unchanged.
   */
  lemma QueueUpdateFrame(queues: map<DiscordId, seq<Frame>>, d: DiscordId, q: seq<Frame>)
    ensures d in queues && (q == queues[d] || (queues[d] != [] && q == queues[d][1..])) ==>
      var queues': map<DiscordId, seq<Frame>> := queues[d := q];
      && (forall e | e in queues :: IsSuffix(queues'[e], queues[e]) && |queues'[e]| + 1 >= |queues[e]|)
      && (forall e | e in queues && e != d :: queues'[e] == queues[e])
  {
    forall e | e in queues ensures IsSuffix(queues[e], queues[e]) {
      assert queues[e][|queues[e]| - |queues[e]|..] == queues[e];
    }
  }

  /**
   * A pass collects at most one frame: the speaker's queue head after the
   * pass, which becomes the remembered frame. A pass that collects nothing
   * leaves the memory alone, and if it removed a frame the queue is empty.
   */
  lemma GatherStepCollects(g: Gather, ids: map<Uuid, DiscordId>, speaker: Uuid, gain: StereoGain)
    ensures var r := GatherStep(g, ids, speaker, gain);
      && |g.combining| <= |r.combining| <= |g.combining| + 1
      && r.combining[..|g.combining|] == g.combining
      && (|r.combining| > |g.combining| ==>
            && speaker in ids && ids[speaker] in r.inputQueues && r.inputQueues[ids[speaker]] != []
            && r.combining[|g.combining|] == Contributor(r.inputQueues[ids[speaker]][0], gain)
            && ids[speaker] in r.lastKnown && r.lastKnown[ids[speaker]] == r.inputQueues[ids[speaker]][0].id)
      && (|r.combining| == |g.combining| ==> r.lastKnown == g.lastKnown)
      && (|r.combining| == |g.combining| && r.inputQueues != g.inputQueues ==>
            speaker in ids && r.inputQueues[ids[speaker]] == [])
  {
    if speaker in ids && ids[speaker] in g.inputQueues && g.inputQueues[ids[speaker]] != [] {
      GatherStepCases(g, ids, speaker, gain);
    }
  }

  /** Removing the head of a well-formed queue leaves it well formed. */
  lemma DropHeadKeeps(q: seq<Frame>, next: nat)
    requires q != [] && WellFormedQueue(q, next)
    ensures WellFormedQueue(q[1..], next)
    ensures |q| > 1 ==> q[1..][0] == q[1] && q[0].id < q[1].id
  {
    var rest := q[1..];
    forall a, b | 0 <= a < b < |rest| ensures rest[a].id < rest[b].id {
      assert rest[a] == q[a + 1] && rest[b] == q[b + 1];
    }
  }

  /** Replacing one queue by a well-formed one keeps all of them well formed. */
  lemma WellFormedUpdate(queues: map<DiscordId, seq<Frame>>, next: nat, d: DiscordId, q: seq<Frame>)
    requires WellFormed(queues, next) && WellFormedQueue(q, next)
    ensures WellFormed(queues[d := q], next)
  {
  }

  /**
   * Changing one speaker's queue and memory keeps the memory fresh when
   * the new memory is not ahead of the new head.
   */
  lemma FreshUpdate(lastKnown: map<DiscordId, nat>, queues: map<DiscordId, seq<Frame>>,
                    d: DiscordId, q: seq<Frame>, lastKnown': map<DiscordId, nat>)
    requires Fresh(lastKnown, queues)
    requires lastKnown' - {d} == lastKnown - {d}
    requires d in lastKnown' && q != [] ==> lastKnown'[d] <= q[0].id
    ensures Fresh(lastKnown', queues[d := q])
  {
    var queues': map<DiscordId, seq<Frame>> := queues[d := q];
    forall e | e in lastKnown' && e in queues' && queues'[e] != []
      ensures lastKnown'[e] <= queues'[e][0].id
    {
      if e != d {
        assert e in lastKnown' - {d};
        assert lastKnown'[e] == (lastKnown - {d})[e] == lastKnown[e];
      }
    }
  }

  /** One pass keeps the queues well formed, and so every collected frame fits. */
  lemma GatherStepKeepsQueues(g: Gather, ids: map<Uuid, DiscordId>, speaker: Uuid, gain: StereoGain, next: nat)
    requires WellFormed(g.inputQueues, next)
    ensures var r := GatherStep(g, ids, speaker, gain);
      && WellFormed(r.inputQueues, next)
      && (forall k | |g.combining| <= k < |r.combining| :: |r.combining[k].frame.data| <= FrameSize)
  {
    if speaker in ids && ids[speaker] in g.inputQueues && g.inputQueues[ids[speaker]] != [] {
      var d := ids[speaker];
      var q := g.inputQueues[d];
      assert WellFormedQueue(q, next);
      DropHeadKeeps(q, next);
      WellFormedUpdate(g.inputQueues, next, d, q[1..]);
      GatherStepCases(g, ids, speaker, gain);
      if |q| == 1 {
        assert q[1..] == [];
      }
    }
  }

  /** One pass keeps the listener's memory fresh. */
  lemma GatherStepKeepsMemory(g: Gather, ids: map<Uuid, DiscordId>, speaker: Uuid, gain: StereoGain, next: nat)
    requires WellFormed(g.inputQueues, next)
    requires Fresh(g.lastKnown, g.inputQueues)
    requires Behind(g.lastKnown, next)
    ensures var r := GatherStep(g, ids, speaker, gain);
      Fresh(r.lastKnown, r.inputQueues) && Behind(r.lastKnown, next)
  {
    if speaker in ids && ids[speaker] in g.inputQueues && g.inputQueues[ids[speaker]] != [] {
      var d := ids[speaker];
      var q := g.inputQueues[d];
      assert WellFormedQueue(q, next);
      DropHeadKeeps(q, next);
      GatherStepCases(g, ids, speaker, gain);
      assert g.inputQueues[d := q] == g.inputQueues;
      if d in g.lastKnown && g.lastKnown[d] == q[0].id {
        if |q| == 1 {
          FreshUpdate(g.lastKnown, g.inputQueues, d, [], g.lastKnown);
        } else {
          FreshUpdate(g.lastKnown, g.inputQueues, d, q[1..], g.lastKnown[d := q[1].id]);
          BehindUpdate(g.lastKnown, next, d, q[1].id);
        }
      } else {
        FreshUpdate(g.lastKnown, g.inputQueues, d, q, g.lastKnown[d := q[0].id]);
        BehindUpdate(g.lastKnown, next, d, q[0].id);
      }
    }
  }

  /**
   * One pass for any listener keeps every other listener's memory fresh:
   * the only change to the shared queues drops a head, and the next head
   * is newer still.
   */
  lemma GatherStepKeepsOthersFresh(g: Gather, ids: map<Uuid, DiscordId>, speaker: Uuid, gain: StereoGain,
                                   next: nat, other: map<DiscordId, nat>)
    requires WellFormed(g.inputQueues, next)
    requires Fresh(other, g.inputQueues)
    ensures Fresh(other, GatherStep(g, ids, speaker, gain).inputQueues)
  {
    if speaker in ids && ids[speaker] in g.inputQueues && g.inputQueues[ids[speaker]] != [] {
      var d := ids[speaker];
      var q := g.inputQueues[d];
      assert WellFormedQueue(q, next);
      DropHeadKeeps(q, next);
      GatherStepCases(g, ids, speaker, gain);
      if d in g.lastKnown && g.lastKnown[d] == q[0].id {
        FreshUpdate(other, g.inputQueues, d, q[1..], other);
      } else {
        assert GatherStep(g, ids, speaker, gain).inputQueues == g.inputQueues;
      }
    }
  }

  lemma BehindUpdate(lastKnown: map<DiscordId, nat>, next: nat, d: DiscordId, id: nat)
    requires Behind(lastKnown, next) && id < next
    ensures Behind(lastKnown[d := id], next)
  {
  }

  /**
   * A collected frame is strictly newer than the one mixed from that
   * speaker before, so the memory only moves forward and no frame is mixed
   * twice.
   */
  lemma GatherStepNeverRepeats(g: Gather, ids: map<Uuid, DiscordId>, speaker: Uuid, gain: StereoGain, next: nat)
    requires WellFormed(g.inputQueues, next)
    requires Fresh(g.lastKnown, g.inputQueues)
    ensures var r := GatherStep(g, ids, speaker, gain);
      && (forall d | d in g.lastKnown :: d in r.lastKnown && g.lastKnown[d] <= r.lastKnown[d])
      && (|r.combining| > |g.combining| && ids[speaker] in g.lastKnown ==>
            g.lastKnown[ids[speaker]] < r.combining[|g.combining|].frame.id)
  {
    GatherStepCollects(g, ids, speaker, gain);
    if speaker in ids && ids[speaker] in g.inputQueues && g.inputQueues[ids[speaker]] != [] {
      var d := ids[speaker];
      var q := g.inputQueues[d];
      assert WellFormedQueue(q, next);
      DropHeadKeeps(q, next);
      GatherStepCases(g, ids, speaker, gain);
    }
  }

  /** The loop keeps the speakers' queues and collects at most one frame per nearby player. */
  lemma {:induction false} GatherAllShape(g: Gather, ids: map<Uuid, DiscordId>, speakers: seq<Uuid>, gain: Uuid -> StereoGain)
    ensures var r := GatherAll(g, ids, speakers, gain);
      && r.inputQueues.Keys == g.inputQueues.Keys
      && |g.combining| <= |r.combining| <= |g.combining| + |speakers|
      && r.combining[..|g.combining|] == g.combining
    decreases |speakers|
  {
    if speakers != [] {
      var init := speakers[..|speakers| - 1];
      var last := speakers[|speakers| - 1];
      GatherAllShape(g, ids, init, gain);
      var mid := GatherAll(g, ids, init, gain);
      GatherStepCollects(mid, ids, last, gain(last));
      var r := GatherAll(g, ids, speakers, gain);
      assert r.combining[..|g.combining|] == mid.combining[..|g.combining|];
    }
  }

  /** The whole loop keeps the queues well formed, and every collected frame fits. */
  lemma {:induction false} GatherAllKeepsQueues(g: Gather, ids: map<Uuid, DiscordId>, speakers: seq<Uuid>, gain: Uuid -> StereoGain, next: nat)
    requires WellFormed(g.inputQueues, next)
    ensures var r := GatherAll(g, ids, speakers, gain);
      && WellFormed(r.inputQueues, next)
      && (forall k | |g.combining| <= k < |r.combining| :: |r.combining[k].frame.data| <= FrameSize)
    decreases |speakers|
  {
    if speakers != [] {
      var init := speakers[..|speakers| - 1];
      var last := speakers[|speakers| - 1];
      GatherAllKeepsQueues(g, ids, init, gain, next);
      GatherAllShape(g, ids, init, gain);
      var mid := GatherAll(g, ids, init, gain);
      GatherStepKeepsQueues(mid, ids, last, gain(last), next);
      GatherStepCollects(mid, ids, last, gain(last));
      var r := GatherStep(mid, ids, last, gain(last));
      forall k | |g.combining| <= k < |r.combining|
        ensures |r.combining[k].frame.data| <= FrameSize
      {
        if k < |mid.combining| {
          assert r.combining[k] == r.combining[..|mid.combining|][k];
        }
      }
    }
  }

  /**
   * The whole loop keeps the listener's memory fresh, and the memory for
   * every speaker only moves forward.
   */
  lemma {:induction false} GatherAllKeepsMemory(g: Gather, ids: map<Uuid, DiscordId>, speakers: seq<Uuid>, gain: Uuid -> StereoGain, next: nat)
    requires WellFormed(g.inputQueues, next)
    requires Fresh(g.lastKnown, g.inputQueues)
    requires Behind(g.lastKnown, next)
    ensures var r := GatherAll(g, ids, speakers, gain);
      && Fresh(r.lastKnown, r.inputQueues)
      && Behind(r.lastKnown, next)
      && (forall d | d in g.lastKnown :: d in r.lastKnown && g.lastKnown[d] <= r.lastKnown[d])
    decreases |speakers|
  {
    if speakers != [] {
      var init := speakers[..|speakers| - 1];
      var last := speakers[|speakers| - 1];
      GatherAllKeepsMemory(g, ids, init, gain, next);
      GatherAllKeepsQueues(g, ids, init, gain, next);
      var mid := GatherAll(g, ids, init, gain);
      GatherStepKeepsMemory(mid, ids, last, gain(last), next);
      GatherStepNeverRepeats(mid, ids, last, gain(last), next);
    }
  }

  /** The whole loop for one listener keeps every other listener's memory fresh. */
  lemma {:induction false} GatherAllKeepsOthersFresh(g: Gather, ids: map<Uuid, DiscordId>, speakers: seq<Uuid>,
                                                     gain: Uuid -> StereoGain, next: nat, other: map<DiscordId, nat>)
    requires WellFormed(g.inputQueues, next)
    requires Fresh(other, g.inputQueues)
    ensures Fresh(other, GatherAll(g, ids, speakers, gain).inputQueues)
    decreases |speakers|
  {
    if speakers != [] {
      var init := speakers[..|speakers| - 1];
      var last := speakers[|speakers| - 1];
      GatherAllKeepsOthersFresh(g, ids, init, gain, next, other);
      GatherAllKeepsQueues(g, ids, init, gain, next);
      GatherStepKeepsOthersFresh(GatherAll(g, ids, init, gain), ids, last, gain(last), next, other);
    }
  }

  /**
   * The producer's admission of a new frame, issued as `next`, keeps the
   * queues well formed and every listener's memory fresh.
   */
  lemma AdmitKeeps(queues: map<DiscordId, seq<Frame>>, lastKnown: map<DiscordId, nat>, next: nat, d: DiscordId, data: seq<Byte>)
    requires d in queues && |data| <= FrameSize
    requires WellFormed(queues, next)
    requires Fresh(lastKnown, queues)
    requires Behind(lastKnown, next)
    ensures var q := queues[d];
      var next' := if |q| < InputCapacity then next + 1 else next;
      var queues' := queues[d := Admit(q, Frame(next, data))];
      && WellFormed(queues', next')
      && Fresh(lastKnown, queues')
      && Behind(lastKnown, next')
  {
    var q := queues[d];
    var f := Frame(next, data);
    var next' := if |q| < InputCapacity then next + 1 else next;
    var q' := Admit(q, f);
    assert WellFormedQueue(q, next);
    AdmitQueueKeeps(q, next, data);
    WellFormedLater(queues, next, next');
    WellFormedUpdate(queues, next', d, q');
    FreshUpdate(lastKnown, queues, d, q', lastKnown);
  }

  /**
   * Admission into one well-formed queue keeps it well formed, and its head
   * is either a frame at or after the old head, or the new frame.
   */
  lemma AdmitQueueKeeps(q: seq<Frame>, next: nat, data: seq<Byte>)
    requires WellFormedQueue(q, next) && |data| <= FrameSize
    ensures var f := Frame(next, data);
      var next' := if |q| < InputCapacity then next + 1 else next;
      var q' := Admit(q, f);
      && WellFormedQueue(q', next')
      && (q' != [] ==> (q != [] && q[0].id <= q'[0].id) || q'[0] == f)
  {
    var f := Frame(next, data);
    var next' := if |q| < InputCapacity then next + 1 else next;
    var added := if |q| < InputCapacity then q + [f] else q;
    assert WellFormedQueue(added, next') by {
      if |q| < InputCapacity {
        forall a, b | 0 <= a < b < |added| ensures added[a].id < added[b].id {
          if b == |q| { assert added[a] == q[a]; } else { assert added[a] == q[a] && added[b] == q[b]; }
        }
        forall k | 0 <= k < |added| ensures added[k].id < next' && |added[k].data| <= FrameSize {
          if k < |q| { assert added[k] == q[k]; }
        }
      }
    }
    assert added != [] ==> (q != [] && added[0] == q[0]) || added[0] == f;
    if |added| > InputKeep {
      DropHeadKeeps(added, next');
    }
  }

  /** Issuing more ids keeps queues well formed. */
  lemma WellFormedLater(queues: map<DiscordId, seq<Frame>>, next: nat, next': nat)
    requires WellFormed(queues, next) && next <= next'
    ensures WellFormed(queues, next')
  {
    forall d | d in queues ensures WellFormedQueue(queues[d], next') {
      assert WellFormedQueue(queues[d], next);
    }
  }

  /** A new, empty queue or a removed one leaves every listener's memory fresh. */
  lemma SessionChangeKeeps(queues: map<DiscordId, seq<Frame>>, lastKnown: map<DiscordId, nat>, next: nat, d: DiscordId)
    requires WellFormed(queues, next) && Fresh(lastKnown, queues)
    ensures WellFormed(queues[d := []], next) && Fresh(lastKnown, queues[d := []])
    ensures WellFormed(queues - {d}, next) && Fresh(lastKnown, queues - {d})
  {
  }
}
