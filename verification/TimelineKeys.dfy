/** When two runtime events of one run are one fact to the event log. */
module TimelineKeys {
  import opened RunSteps
  import opened StepTable

  function KeyOf(id: string, e: RuntimeEvent): string
    requires TimelineOf(id, e).Some?
  {
    TimelineOf(id, e).value.key.value
  }

  lemma SameFraming(a: string, x: string, b: string, y: string)
    ensures a + x + b == a + y + b <==> x == y
  {
    if a + x + b == a + y + b {
      assert |x| == |y|;
      assert (a + x + b)[|a|..|a| + |x|] == x && (a + y + b)[|a|..|a| + |y|] == y;
    }
  }

  lemma EndsDiffer(s: string, b: string, t: string, c: string, k: nat)
    requires 0 < k <= |b| && k <= |c| && b[|b| - k] != c[|c| - k]
    ensures s + b != t + c
  {
    assert (s + b)[|s + b| - k] == b[|b| - k] && (t + c)[|t + c| - k] == c[|c| - k];
  }

  predicate OneFact(e: RuntimeEvent, f: RuntimeEvent) { e == f || (e.ToolEnds? && f.ToolEnds? && e.callId == f.callId) }

  lemma ModelKeys(id: string, e: RuntimeEvent, f: RuntimeEvent)
    requires (e.ModelBegins? || e.ModelFirst? || e.ModelEnds?) && (f.ModelBegins? || f.ModelFirst? || f.ModelEnds?)
    ensures KeyOf(id, e) == KeyOf(id, f) <==> OneFact(e, f)
  {
    var a := "model:";
    SameFraming(a, e.callId, ":started", f.callId);
    SameFraming(a, e.callId, ":first-token", f.callId);
    SameFraming(a, e.callId, ":finished", f.callId);
    var s, t := a + e.callId, a + f.callId;
    EndsDiffer(s, ":started", t, ":first-token", 1);
    EndsDiffer(s, ":started", t, ":finished", 3);
    EndsDiffer(s, ":first-token", t, ":started", 1);
    EndsDiffer(s, ":first-token", t, ":finished", 1);
    EndsDiffer(s, ":finished", t, ":started", 3);
    EndsDiffer(s, ":finished", t, ":first-token", 1);
  }

  lemma ToolKeys(id: string, e: RuntimeEvent, f: RuntimeEvent)
    requires (e.ToolBegins? || e.ToolEnds?) && (f.ToolBegins? || f.ToolEnds?)
    ensures KeyOf(id, e) == KeyOf(id, f) <==> OneFact(e, f)
  {
    var a := "tool:";
    SameFraming(a, e.callId, ":started", f.callId);
    SameFraming(a, e.callId, ":finished", f.callId);
    EndsDiffer(a + e.callId, ":started", a + f.callId, ":finished", 3);
    EndsDiffer(a + e.callId, ":finished", a + f.callId, ":started", 3);
  }

  /** The letters a key begins with. */
  function Initials(e: RuntimeEvent): (char, char) {
    match e
    case SandboxReady(_) => ('s', 'a')
    case ControlReady => ('c', 'o')
    case SessionReady => ('s', 'e')
    case ModelBegins(_) => ('m', 'o')
    case ModelFirst(_) => ('m', 'o')
    case ModelEnds(_) => ('m', 'o')
    case _ => ('t', 'o')
  }

  lemma KeyBegins(id: string, e: RuntimeEvent)
    requires TimelineOf(id, e).Some?
    ensures |KeyOf(id, e)| > 1 && (KeyOf(id, e)[0], KeyOf(id, e)[1]) == Initials(e)
  {
  }

  /**
   Two events of a run have one key if and only if they are the same event or two ends of one tool call:
   of those the log keeps the first, whether it failed or not, and no other event is ever dropped.
   */
  lemma KeysTellEvents(id: string, e: RuntimeEvent, f: RuntimeEvent)
    requires TimelineOf(id, e).Some? && TimelineOf(id, f).Some?
    ensures KeyOf(id, e) == KeyOf(id, f) <==> OneFact(e, f)
  {
    KeyBegins(id, e);
    KeyBegins(id, f);
    if Initials(e) == Initials(f) {
      if e.ModelBegins? || e.ModelFirst? || e.ModelEnds? {
        ModelKeys(id, e, f);
      } else if e.ToolBegins? || e.ToolEnds? {
        ToolKeys(id, e, f);
      } else if e.SandboxReady? {
        SameFraming("sandbox:", e.sandboxId, ":acquired", f.sandboxId);
      }
    } else {
      hide KeyOf, TimelineOf;
    }
  }
}
