/**
 `wrapUpstreamStream` in the form of the source: closure variables changed step by step. Every
 method is proved to take the state to `Stream.Next` of it.
 */
module StreamWrapper {
  import opened Options
  import opened Tracker
  import opened Stream

  /** What `reader.read()` resolves to; Failed stands for a rejected read. */
  datatype ReadResult = Chunk(text: string) | End | Failed

  class UpstreamStream {
    const w: Wire
    const tracker: ToolCallArgumentTracker
    var buffer: string
    var sampled: bool
    var finished: bool
    var holdingTail: bool
    var tailFlushed: bool
    var cancelled: bool
    var heldTail: seq<string>
    var chunkMeta: Meta
    var outbox: seq<string>
    var samples: nat                 // recordCacheSample calls
    var delivered: seq<string>       // items the controller accepted
    var verdicts: seq<bool>          // router.recordSuccess (true) and recordFailure calls
    var closed: bool                 // controller.close() took effect
    var errored: bool                // controller.error() took effect
    var pulling: bool                // a pull is suspended at its read
    ghost var ended: bool            // the upstream has reported its end
    ghost var shifted: seq<string>   // items taken off the outbox

    ghost predicate Valid()
      reads this, tracker
    {
      tracker.Valid()
    }

    ghost function LineState(): Lines
      reads this, tracker
    {
      Lines(shifted + outbox, heldTail, finished, holdingTail, tailFlushed, tracker.State(), chunkMeta, sampled, samples)
    }

    ghost function Phase(): Status
      reads this
    {
      if cancelled then Cancelled else if errored then Errored else if closed then Closed else Open
    }

    ghost function StreamState(): State
      reads this, tracker
    {
      State(LineState(), buffer, |shifted|, delivered, Phase(), pulling, ended, verdicts)
    }

    constructor (w: Wire)
      ensures Valid() && this.w == w && fresh(tracker)
      ensures StreamState() == INITIAL
    {
      this.w := w;
      tracker := new ToolCallArgumentTracker();
      buffer, sampled, finished, holdingTail, tailFlushed, cancelled := "", false, false, false, false, false;
      heldTail, chunkMeta, outbox, samples, delivered, verdicts := [], NO_META, [], 0, [], [];
      closed, errored, pulling, ended, shifted := false, false, false, false, [];
    }

    method Enqueue(item: string)
      modifies this`outbox
      ensures outbox == old(outbox) + [item]
      ensures LineState() == old(LineState()).(out := old(LineState().out) + [item])
    {
      outbox := outbox + [item];
      assert shifted + outbox == old(shifted + outbox) + [item];
    }

    /** The repair chunks of `flushTail`, in the tracker's order. */
    method PushRepairs()
      requires Valid()
      modifies this`outbox
      ensures shifted + outbox == old(shifted + outbox) + RepairItems(w, RepairsOf(tracker.State()), chunkMeta)
    {
      hide RepairsOf, RepairItem;
      ghost var before := shifted + outbox;
      var notes := tracker.Repairs();
      var i := 0;
      while i < |notes|
        invariant 0 <= i <= |notes|
        invariant shifted + outbox + RepairItems(w, notes[i..], chunkMeta)
               == before + RepairItems(w, notes, chunkMeta)
      {
        assert notes[i..][1..] == notes[i + 1..];
        outbox := outbox + [RepairItem(w, notes[i], chunkMeta)];
        i := i + 1;
      }
    }

    /** The held-back lines of `flushTail`. */
    method PushTail()
      modifies this`outbox
      ensures shifted + outbox == old(shifted + outbox) + Terminated(heldTail)
    {
      ghost var before := shifted + outbox;
      var j := 0;
      while j < |heldTail|
        invariant 0 <= j <= |heldTail|
        invariant shifted + outbox + Terminated(heldTail[j..]) == before + Terminated(heldTail)
      {
        assert heldTail[j..][1..] == heldTail[j + 1..];
        outbox := outbox + [heldTail[j] + "\n"];
        j := j + 1;
      }
    }

    method FlushTail()
      requires Valid()
      modifies this`outbox, this`heldTail, this`tailFlushed
      ensures Valid() && LineState() == Flush(w, old(LineState()))
    {
      if tailFlushed {
        return;
      }
      tailFlushed := true;
      if finished {
        PushRepairs();
      }
      PushTail();
      heldTail := [];
    }

    method TakeSample(parsed: Payload)
      requires parsed.Payload?
      modifies this`sampled, this`samples
      ensures LineState() == Sample(w, old(LineState()), parsed)
    {
      if !sampled && parsed.promptTokens.Some? {
        sampled := true;
        if w.sampleUsage {
          samples := samples + 1;
        }
      }
    }

    /** The `try` block of `handleLine` on a parsed chunk. */
    method HandleParsed(rawLine: string, parsed: Payload)
      requires Valid()
      modifies this`outbox, this`heldTail, this`finished, this`holdingTail, this`chunkMeta, this`sampled, this`samples, tracker
      ensures Valid() && LineState() == HandlePayload(w, old(LineState()), rawLine, parsed)
    {
      hide PayloadDeltas, FeedAll, Finishes, Sample;
      if parsed.NullPayload? {
        Enqueue(rawLine + "\n");
        return;
      }
      chunkMeta := MergeMeta(chunkMeta, parsed);
      var threw := tracker.Observe(parsed);
      if threw {
        Enqueue(rawLine + "\n");
        return;
      }
      TakeSample(parsed);
      if parsed.choices.List? && Finishes(parsed) {
        finished := true;
        holdingTail := true;
        heldTail := heldTail + [rawLine];
      } else {
        Enqueue(rawLine + "\n");
      }
    }

    method HandleRawLine(rawLine: string)
      requires Valid()
      modifies this`outbox, this`heldTail, this`finished, this`holdingTail, this`tailFlushed, this`chunkMeta, this`sampled,
               this`samples, tracker
      ensures Valid() && LineState() == HandleLine(w, old(LineState()), rawLine)
    {
      if holdingTail {
        heldTail := heldTail + [rawLine];
        return;
      }
      var data := DataOf(rawLine);
      if finished || data.None? {
        Enqueue(rawLine + "\n");
        return;
      }
      if data.value == DONE {
        finished := true;
        holdingTail := true;
        heldTail := heldTail + [rawLine];
        FlushTail();
        return;
      }
      if |data.value| > 0 {
        var parsed := w.decode(data.value);
        if parsed.Some? {
          HandleParsed(rawLine, parsed.value);
          return;
        }
      }
      Enqueue(rawLine + "\n");
    }

    /** The `while` loop over complete lines in the buffer. */
    method DrainBuffer()
      requires Valid()
      modifies this`buffer, this`outbox, this`heldTail, this`finished, this`holdingTail, this`tailFlushed, this`chunkMeta,
               this`sampled, this`samples, tracker
      ensures Valid()
      ensures LineState() == HandleLines(w, old(LineState()), CompleteLines(old(buffer)))
      ensures buffer == Residue(old(buffer))
    {
      ghost var all := old(LineState());
      var newlineIndex := NewlineAt(buffer);
      while newlineIndex != -1
        invariant Valid() && newlineIndex == NewlineAt(buffer)
        invariant HandleLines(w, all, CompleteLines(old(buffer))) == HandleLines(w, LineState(), CompleteLines(buffer))
        invariant Residue(old(buffer)) == Residue(buffer)
        decreases |buffer|
      {
        var rawLine := buffer[..newlineIndex];
        assert CompleteLines(buffer)[1..] == CompleteLines(buffer[newlineIndex + 1..]);
        buffer := buffer[newlineIndex + 1..];
        HandleRawLine(rawLine);
        newlineIndex := NewlineAt(buffer);
      }
    }

    /** outbox.shift() and controller.enqueue(); a cancelled controller refuses the item. */
    method DeliverFirst()
      requires Valid() && outbox != []
      modifies this`outbox, this`shifted, this`delivered, this`pulling
      ensures Valid() && StreamState() == Deliver(old(StreamState()))
    {
      var item := outbox[0];
      ghost var all := shifted + outbox;
      shifted := shifted + [item];
      outbox := outbox[1..];
      assert shifted + outbox == all && all[|old(shifted)|] == item;
      if !cancelled {
        delivered := delivered + [item];
      }
      pulling := false;
    }

    method Pull()
      requires Valid() && Enabled(StreamState(), Event.Pull)
      modifies this
      ensures Valid() && StreamState() == Next(w, old(StreamState()), Event.Pull)
    {
      if outbox != [] {
        DeliverFirst();
      } else {
        pulling := true;
      }
    }

    /** The unterminated last line. */
    method HandleLast()
      requires Valid()
      modifies this`buffer, this`outbox, this`heldTail, this`finished, this`holdingTail, this`tailFlushed, this`chunkMeta,
               this`sampled, this`samples, tracker
      ensures Valid()
      ensures StreamState() == old(StreamState()).(lines := HandleResidue(w, old(LineState()), old(buffer)), buffer := "")
    {
      hide HandleLine, Trim;
      var residual := Trim(buffer);
      buffer := "";
      if |residual| > 0 {
        HandleRawLine(residual);
      }
    }

    /** At the end of an uncancelled upstream: the held tail and the verdict. */
    method Conclude()
      requires Valid()
      modifies this`outbox, this`heldTail, this`tailFlushed, this`verdicts
      ensures Valid()
      ensures StreamState() == if cancelled then old(StreamState())
                               else old(StreamState()).(lines := Flush(w, old(LineState())), verdicts := old(verdicts) + [finished])
    {
      hide Flush;
      if !cancelled {
        FlushTail();
        verdicts := verdicts + [finished];
      }
    }

    /** Hand over the first remaining item, or close. */
    method CompletePull()
      requires Valid() && Sound(StreamState()) && Reading(StreamState())
      modifies this`outbox, this`shifted, this`delivered, this`pulling, this`closed
      ensures Valid() && StreamState() == EndPull(old(StreamState()))
    {
      if outbox != [] {
        DeliverFirst();
      } else {
        if !cancelled {
          closed := true;
        }
        pulling := false;
      }
    }

    method Finish()
      requires Valid() && Enabled(StreamState(), ReadDone)
      modifies this, tracker
      ensures Valid() && StreamState() == Next(w, old(StreamState()), ReadDone)
    {
      ghost var s := StreamState();
      assert Sound(s);
      AtEndSound(w, s);
      hide HandleResidue, Flush, Orderly, LineState, EndPull;
      HandleLast();
      ended := true;
      Conclude();
      CompletePull();
    }

    /** A suspended pull goes on with the result of its read. */
    method OnRead(result: ReadResult)
      requires Valid()
      requires Enabled(StreamState(), match result case Chunk(t) => ReadChunk(t) case End => ReadDone case Failed => ReadError)
      modifies this, tracker
      ensures Valid()
      ensures StreamState() == Next(w, old(StreamState()),
                                    match result case Chunk(t) => ReadChunk(t) case End => ReadDone case Failed => ReadError)
    {
      hide HandleLines, CompleteLines, Residue, HandleResidue, Flush, Orderly;
      match result {
        case Chunk(text) =>
          buffer := buffer + text;
          DrainBuffer();
          if outbox != [] {
            DeliverFirst();
          }
        case End =>
          Finish();
        case Failed =>
          if !cancelled {
            verdicts := verdicts + [false];
            errored := true;
          }
          pulling := false;
      }
    }

    method CancelStream()
      requires Valid() && Enabled(StreamState(), Cancel)
      modifies this`cancelled
      ensures Valid() && StreamState() == Next(w, old(StreamState()), Cancel)
    {
      cancelled := true;
    }
  }
}
