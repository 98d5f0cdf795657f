/**
 * Trimming a recipe's transcript: whole turns fall out of the window, and tool
 * outputs that have aged out of the detail width are stubbed where they stand.
 */
module Transcript {
  import opened Wrappers

  datatype Output =
    | Text(value: string)
    | Json(serialized: string)
    | Unserializable
    | ErrorText(value: string)
    | ErrorJson(serialized: string)
    | Denied(reason: string)

  datatype ToolPart = Outcome(callId: string, tool: string, output: Output) | Approval(callId: string)

  datatype AssistantPart = Words(text: string) | Call(callId: string, tool: string, input: string)

  datatype Message =
    | System(text: string)
    | User(text: string)
    | Assistant(said: seq<AssistantPart>)
    | Tool(parts: seq<ToolPart>)

  // ---- the window -------------------------------------------------------------------------

  function Assistants(ms: seq<Message>): nat
    decreases ms
  {
    if ms == [] then 0 else Assistants(ms[..|ms| - 1]) + (if ms[|ms| - 1].Assistant? then 1 else 0)
  }

  /** Where the `k`-th assistant message from the end stands, not counting the seed. */
  function Back(ms: seq<Message>, k: nat): (i: nat)
    requires |ms| > 0 && 1 <= k <= Assistants(ms[1..])
    ensures 1 <= i < |ms|
    decreases |ms|
  {
    var n := |ms| - 1;
    assert n > 0 && ms[1..][..n - 1] == ms[..n][1..];
    if !ms[n].Assistant? then Back(ms[..n], k)
    else if k == 1 then n
    else Back(ms[..n], k - 1)
  }

  /** The seed and the last `window` turns. A window of zero cuts nothing and repeats the seed. */
  function Window(ms: seq<Message>, window: nat): seq<Message> {
    if |ms| <= 1 || Assistants(ms[1..]) <= window then ms
    else if window == 0 then [ms[0]] + ms
    else [ms[0]] + ms[Back(ms, window)..]
  }

  method WindowMessages(messages: seq<Message>, window: nat) returns (r: seq<Message>)
    ensures r == Window(messages, window)
  {
    if |messages| <= 1 {
      return messages;
    }
    var assistantIdx: seq<nat> := [];
    for i := 1 to |messages|
      invariant |assistantIdx| == Assistants(messages[..i][1..])
      invariant forall k :: 1 <= k <= |assistantIdx| ==> assistantIdx[|assistantIdx| - k] == Back(messages[..i], k)
    {
      var next := messages[..i + 1];
      assert next[..i] == messages[..i];
      assert next[1..][..i - 1] == messages[..i][1..];
      if messages[i].Assistant? {
        ghost var before := assistantIdx;
        assistantIdx := assistantIdx + [i];
        forall k | 1 <= k <= |assistantIdx|
          ensures assistantIdx[|assistantIdx| - k] == Back(next, k)
        {
          if k > 1 {
            assert before[|before| - (k - 1)] == Back(messages[..i], k - 1);
          }
        }
      }
    }
    assert messages[..|messages|] == messages;
    if |assistantIdx| <= window {
      return messages;
    }
    if window == 0 {
      return [messages[0]] + messages;
    }
    var start := assistantIdx[|assistantIdx| - window];
    BackStands(messages, window);
    r := [messages[0]] + messages[start..];
  }

  lemma {:induction false} AssistantsAdd(a: seq<Message>, b: seq<Message>)
    ensures Assistants(a + b) == Assistants(a) + Assistants(b)
    decreases b
  {
    if b == [] {
      assert a + b == a;
    } else {
      assert (a + b)[..|a + b| - 1] == a + b[..|b| - 1];
      AssistantsAdd(a, b[..|b| - 1]);
    }
  }

  lemma AssistantsFrom(ms: seq<Message>, i: nat, j: nat)
    requires i <= j <= |ms|
    ensures Assistants(ms[i..]) == Assistants(ms[i..j]) + Assistants(ms[j..])
  {
    assert ms[i..] == ms[i..j] + ms[j..];
    AssistantsAdd(ms[i..j], ms[j..]);
  }

  lemma AssistantHead(ms: seq<Message>)
    requires |ms| > 0
    ensures Assistants(ms) == (if ms[0].Assistant? then 1 else 0) + Assistants(ms[1..])
  {
    assert ms == [ms[0]] + ms[1..];
    assert [ms[0]][..0] == [];
    AssistantsAdd([ms[0]], ms[1..]);
  }

  lemma {:induction false} BackStands(ms: seq<Message>, k: nat)
    requires |ms| > 0 && 1 <= k <= Assistants(ms[1..])
    ensures 1 <= Back(ms, k) < |ms| && ms[Back(ms, k)].Assistant? && Assistants(ms[Back(ms, k)..]) == k
    decreases |ms|
  {
    var n := |ms| - 1;
    assert n > 0 && ms[1..][..n - 1] == ms[..n][1..];
    assert ms[n..] == [ms[n]];
    assert [ms[n]][..0] == [];
    if !ms[n].Assistant? || k > 1 {
      var rest := if ms[n].Assistant? then k - 1 else k;
      BackStands(ms[..n], rest);
      var s := Back(ms[..n], rest);
      assert ms[s..n] == ms[..n][s..];
      AssistantsFrom(ms, s, n);
    }
  }

  /** The place is the only one with that many turns from it on. */
  lemma BackIsThere(ms: seq<Message>, k: nat, s: nat)
    requires 1 <= s < |ms| && ms[s].Assistant? && Assistants(ms[s..]) == k
    ensures 1 <= k <= Assistants(ms[1..]) && Back(ms, k) == s
  {
    hide Assistants, Back;
    AssistantHead(ms[s..]);
    assert ms[s..][1..] == ms[s + 1..];
    AssistantsFrom(ms, 1, s);
    BackStands(ms, k);
    var b := Back(ms, k);
    AssistantHead(ms[b..]);
    assert ms[b..][1..] == ms[b + 1..];
    if b < s {
      AssistantsFrom(ms, b + 1, s);
    } else if s < b {
      AssistantsFrom(ms, s + 1, b);
    }
  }

  /** Windowing again after more turns cuts where windowing once would have. */
  lemma WindowsCompose(m: seq<Message>, s: seq<Message>, window: nat)
    requires window >= 1
    ensures Window(Window(m, window) + s, window) == Window(m + s, window)
  {
    if |m| > 1 && Assistants(m[1..]) > window {
      var b := Back(m, window);
      BackStands(m, window);
      var n := [m[0]] + m[b..] + s;
      assert n[1..] == m[b..] + s && (m + s)[1..] == m[1..] + s && (m + s)[b..] == m[b..] + s;
      AssistantsAdd(m[b..], s);
      AssistantsAdd(m[1..], s);
      CutAgain(m + s, n, b, window);
    }
  }

  /** A transcript cut at `b`, and the same one cut where the window says. */
  lemma CutAgain(ms: seq<Message>, n: seq<Message>, b: nat, window: nat)
    requires window >= 1 && 1 <= b < |ms| && ms[b].Assistant?
    requires n == [ms[0]] + ms[b..] && Assistants(ms[b..]) >= window && Assistants(ms[1..]) > window
    ensures Window(n, window) == Window(ms, window)
  {
    hide Assistants, Back;
    assert n[1..] == ms[b..];
    BackStands(ms, window);
    var e := Back(ms, window);
    if e < b {
      AssistantsFrom(ms, e, b);
      AssistantHead(ms[e..b]);
    }
    assert n[e - b + 1..] == ms[e..];
    if Assistants(ms[b..]) == window {
      BackIsThere(ms, window, b);
    } else {
      BackIsThere(n, window, e - b + 1);
    }
  }

  // ---- the detail width ---------------------------------------------------------------------

  /** A number as the configuration may hold it. */
  datatype Width = NaN | PlusInfinity | MinusInfinity | Finite(value: real)

  /** How many turns keep their detail: all of them, or the last few. */
  datatype Keep = All | Last(turns: nat)

  function Normalized(width: Width): Keep {
    match width
    case NaN => Last(0)
    case PlusInfinity => All
    case MinusInfinity => Last(0)
    case Finite(value) => Last(if value <= 0.0 then 0 else value.Floor)
  }

  const ELIDED := "[output from an earlier turn, trimmed to save context]"
  const MIN_ELIDABLE_OUTPUT: nat := 200

  /** Worth stubbing: no failure, no denial, and not already small. */
  predicate Elidable(output: Output) {
    match output
    case Text(value) => |value| >= MIN_ELIDABLE_OUTPUT
    case Json(serialized) => |serialized| >= MIN_ELIDABLE_OUTPUT
    case Unserializable => true
    case _ => false
  }

  predicate ResultFor(m: Message, tool: string) {
    m.Tool? && exists p :: 0 <= p < |m.parts| && m.parts[p].Outcome? && m.parts[p].tool == tool
  }

  /** Some later message has a result of the same tool. */
  predicate Superseded(ms: seq<Message>, i: nat, tool: string) {
    exists k :: i < k < |ms| && ResultFor(ms[k], tool)
  }

  /** Out of the detail width: that many turns have started since. */
  predicate AgedOut(ms: seq<Message>, i: nat, keep: Keep)
    requires i < |ms|
  {
    keep.Last? && (keep.turns == 0 || (Assistants(ms) > keep.turns && Assistants(ms[i + 1..]) >= keep.turns))
  }

  predicate Stale(ms: seq<Message>, i: nat, part: ToolPart, keep: Keep)
    requires i < |ms|
  {
    part.Outcome? && AgedOut(ms, i, keep) && Superseded(ms, i, part.tool) && Elidable(part.output)
  }

  function Trimmed(ms: seq<Message>, i: nat, part: ToolPart, keep: Keep): ToolPart
    requires i < |ms|
  {
    if Stale(ms, i, part, keep) then part.(output := Text(ELIDED)) else part
  }

  function TrimmedMessage(ms: seq<Message>, i: nat, keep: Keep): Message
    requires i < |ms|
  {
    if ms[i].Tool?
    then Tool(seq(|ms[i].parts|, p requires 0 <= p < |ms[i].parts| => Trimmed(ms, i, ms[i].parts[p], keep)))
    else ms[i]
  }

  function Elide(ms: seq<Message>, keep: Keep): (r: seq<Message>)
    ensures |r| == |ms|
    ensures forall i :: 0 <= i < |ms| ==> r[i] == TrimmedMessage(ms, i, keep)
  {
    seq(|ms|, i requires 0 <= i < |ms| => TrimmedMessage(ms, i, keep))
  }

  /** What a step does to the transcript: window first, then elide what survived. */
  function Trim(ms: seq<Message>, window: nat, keep: Keep): seq<Message> {
    Elide(Window(ms, window), keep)
  }

  // ---- elision as the source runs it -----------------------------------------------------------

  method ElideToolOutputs(messages: seq<Message>, keepRecent: Width) returns (r: seq<Message>)
    ensures r == Elide(messages, Normalized(keepRecent))
  {
    var keep := Normalized(keepRecent);
    var cutoff := Cutoff(messages, keep);
    if cutoff == 0 {
      assert Elide(messages, keep) == messages by {
        NothingAged(messages, keep);
      }
      return messages;
    }
    var newestPerTool := NewestPerTool(messages);
    r := [];
    for i := 0 to |messages|
      invariant |r| == i
      invariant forall k :: 0 <= k < i ==> r[k] == TrimmedMessage(messages, k, keep)
    {
      if messages[i].Tool? {
        var content: seq<ToolPart> := [];
        for p := 0 to |messages[i].parts|
          invariant |content| == p
          invariant forall q :: 0 <= q < p ==> content[q] == Trimmed(messages, i, messages[i].parts[q], keep)
        {
          var part := messages[i].parts[p];
          if part.Outcome? {
            assert ResultFor(messages[i], part.tool);
            if i < cutoff && newestPerTool[part.tool] != i && Elidable(part.output) {
              part := part.(output := Text(ELIDED));
            }
          }
          content := content + [part];
        }
        assert TrimmedMessage(messages, i, keep) == Tool(content);
        r := r + [Tool(content)];
      } else {
        r := r + [messages[i]];
      }
    }
  }

  lemma NothingAged(ms: seq<Message>, keep: Keep)
    requires forall i :: 0 <= i < |ms| && !ms[i].Assistant? ==> !AgedOut(ms, i, keep)
    ensures Elide(ms, keep) == ms
  {
    forall i | 0 <= i < |ms|
      ensures TrimmedMessage(ms, i, keep) == ms[i]
    {
      if ms[i].Tool? {
        assert TrimmedMessage(ms, i, keep).parts == ms[i].parts;
      }
    }
  }

  /** Where the detail starts, counted in assistant messages from the end. */
  method Cutoff(messages: seq<Message>, keep: Keep) returns (cutoff: nat)
    ensures forall i :: 0 <= i < |messages| && !messages[i].Assistant? ==> (i < cutoff <==> AgedOut(messages, i, keep))
  {
    if keep.All? {
      return 0;
    }
    if keep.turns == 0 {
      return |messages|;
    }
    var assistantIdx: seq<nat> := [];
    for i := 0 to |messages|
      invariant |assistantIdx| == Assistants(messages[..i])
      invariant forall k :: 0 <= k < |assistantIdx| ==>
        assistantIdx[k] < i && messages[assistantIdx[k]].Assistant? && Assistants(messages[..assistantIdx[k]]) == k
    {
      assert messages[..i + 1][..i] == messages[..i];
      if messages[i].Assistant? {
        assistantIdx := assistantIdx + [i];
      }
    }
    assert messages[..|messages|] == messages;
    if |assistantIdx| <= keep.turns {
      return 0;
    }
    cutoff := assistantIdx[|assistantIdx| - keep.turns];
    forall i | 0 <= i < |messages| && !messages[i].Assistant?
      ensures i < cutoff <==> Assistants(messages[i + 1..]) >= keep.turns
    {
      CutoffSplits(messages, i, cutoff, keep.turns);
    }
  }

  lemma CutoffSplits(ms: seq<Message>, i: nat, cutoff: nat, turns: nat)
    requires i < |ms| && !ms[i].Assistant? && cutoff < |ms| && ms[cutoff].Assistant?
    requires Assistants(ms[..cutoff]) + turns == Assistants(ms)
    ensures i < cutoff <==> Assistants(ms[i + 1..]) >= turns
  {
    hide Assistants;
    assert ms == ms[..cutoff] + ms[cutoff..];
    AssistantsAdd(ms[..cutoff], ms[cutoff..]);
    if i < cutoff {
      AssistantsFrom(ms, i + 1, cutoff);
    } else {
      AssistantsFrom(ms, cutoff, i + 1);
      AssistantHead(ms[cutoff..i + 1]);
    }
  }

  lemma PartOf(m: Message, tool: string) returns (p: nat)
    requires ResultFor(m, tool)
    ensures m.Tool? && p < |m.parts| && m.parts[p].Outcome? && m.parts[p].tool == tool
  {
    p :| 0 <= p < |m.parts| && m.parts[p].Outcome? && m.parts[p].tool == tool;
  }

  lemma PartIsResult(m: Message, p: nat)
    requires m.Tool? && p < |m.parts| && m.parts[p].Outcome?
    ensures ResultFor(m, m.parts[p].tool)
  {}

  method NewestPerTool(messages: seq<Message>) returns (newest: map<string, nat>)
    ensures forall i, tool :: 0 <= i < |messages| && ResultFor(messages[i], tool) ==>
      tool in newest && (newest[tool] != i <==> Superseded(messages, i, tool))
  {
    hide ResultFor;
    newest := map[];
    for i := 0 to |messages|
      invariant forall tool :: tool in newest ==> newest[tool] < i && ResultFor(messages[newest[tool]], tool)
      invariant forall k, tool :: 0 <= k < i && ResultFor(messages[k], tool) ==> tool in newest && k <= newest[tool]
    {
      if messages[i].Tool? {
        ghost var before := newest;
        for p := 0 to |messages[i].parts|
          invariant forall tool :: tool in newest ==> newest[tool] <= i && ResultFor(messages[newest[tool]], tool)
          invariant forall tool :: tool in before ==> tool in newest && before[tool] <= newest[tool]
          invariant forall q :: 0 <= q < p && messages[i].parts[q].Outcome? ==>
            messages[i].parts[q].tool in newest && newest[messages[i].parts[q].tool] == i
        {
          if messages[i].parts[p].Outcome? {
            PartIsResult(messages[i], p);
            newest := newest[messages[i].parts[p].tool := i];
          }
        }
      }
      forall tool | ResultFor(messages[i], tool)
        ensures tool in newest && newest[tool] == i
      {
        var p := PartOf(messages[i], tool);
      }
    }
  }

  // ---- trimming after every turn is trimming once ------------------------------------------------

  /** Everything the trimming decides by, but the outputs. */
  predicate SameShape(a: Message, b: Message) {
    match (a, b)
    case (Tool(p), Tool(q)) =>
      |p| == |q| && forall k :: 0 <= k < |p| ==>
        p[k].Outcome? == q[k].Outcome? && p[k].callId == q[k].callId && (p[k].Outcome? ==> p[k].tool == q[k].tool)
    case _ => a == b
  }

  ghost predicate SameShapes(a: seq<Message>, b: seq<Message>) {
    |a| == |b| && forall i :: 0 <= i < |a| ==> SameShape(a[i], b[i])
  }

  lemma {:induction false} ShapesCount(a: seq<Message>, b: seq<Message>)
    requires SameShapes(a, b)
    ensures Assistants(a) == Assistants(b)
    decreases a
  {
    if a != [] {
      ShapesCount(a[..|a| - 1], b[..|b| - 1]);
    }
  }

  lemma ShapesSameResults(a: Message, b: Message, tool: string)
    requires SameShape(a, b)
    ensures ResultFor(a, tool) == ResultFor(b, tool)
  {
    if ResultFor(a, tool) {
      var p :| 0 <= p < |a.parts| && a.parts[p].Outcome? && a.parts[p].tool == tool;
      assert b.parts[p].Outcome? && b.parts[p].tool == tool;
    }
    if ResultFor(b, tool) {
      var p :| 0 <= p < |b.parts| && b.parts[p].Outcome? && b.parts[p].tool == tool;
      assert a.parts[p].Outcome? && a.parts[p].tool == tool;
    }
  }

  lemma ShapesAge(a: seq<Message>, b: seq<Message>, i: nat, keep: Keep, tool: string)
    requires SameShapes(a, b) && i < |a|
    ensures AgedOut(a, i, keep) == AgedOut(b, i, keep)
    ensures Superseded(a, i, tool) == Superseded(b, i, tool)
  {
    ShapesCount(a, b);
    ShapesCount(a[i + 1..], b[i + 1..]);
    forall k | i < k < |a|
      ensures ResultFor(a[k], tool) == ResultFor(b[k], tool)
    {
      ShapesSameResults(a[k], b[k], tool);
    }
  }

  lemma ElideKeepsShape(ms: seq<Message>, keep: Keep)
    ensures SameShapes(Elide(ms, keep), ms)
  {}

  /** Equal shapes are cut at the same place: the window of one is the other's, message by message. */
  lemma ShapesWindow(a: seq<Message>, b: seq<Message>, window: nat)
    requires SameShapes(a, b) && window >= 1
    ensures SameShapes(Window(a, window), Window(b, window))
    ensures |a| > 1 && Assistants(a[1..]) > window ==>
      Assistants(b[1..]) > window && Back(a, window) == Back(b, window)
  {
    hide Assistants, Back, SameShape;
    if |a| > 1 {
      ShapesCount(a[1..], b[1..]);
      if Assistants(a[1..]) > window {
        BackStands(a, window);
        var s := Back(a, window);
        SameSpeaker(a[s], b[s]);
        ShapesCount(a[s..], b[s..]);
        BackIsThere(b, window, s);
        CutAlike(a, b, s);
      }
    }
  }

  lemma SameSpeaker(a: Message, b: Message)
    requires SameShape(a, b)
    ensures a.Assistant? <==> b.Assistant?
  {}

  lemma CutAlike(a: seq<Message>, b: seq<Message>, s: nat)
    requires SameShapes(a, b) && 0 < s < |a|
    ensures SameShapes([a[0]] + a[s..], [b[0]] + b[s..])
  {
    hide SameShape;
  }

  /** Where the message at `i` of the windowed transcript stood before. */
  function Origin(ms: seq<Message>, window: nat, i: nat): (o: nat)
    requires window >= 1 && i < |Window(ms, window)|
    ensures o < |ms| && Window(ms, window)[i] == ms[o]
    ensures i == 0 <==> o == 0
  {
    if |ms| <= 1 || Assistants(ms[1..]) <= window then i
    else
      BackStands(ms, window);
      if i == 0 then 0 else Back(ms, window) + i - 1
  }

  /** From a place on, the window holds what was there. */
  lemma WindowTail(ms: seq<Message>, window: nat, i: nat)
    requires window >= 1 && 0 < i < |Window(ms, window)|
    ensures Window(ms, window)[i..] == ms[Origin(ms, window, i)..]
  {
    if |ms| > 1 && Assistants(ms[1..]) > window {
      BackStands(ms, window);
    }
  }

  /** A window never loses turns that an already windowed transcript still had. */
  lemma WindowKeepsTurns(x: seq<Message>, s: seq<Message>, window: nat)
    requires window >= 1 && |x| > 0 && Assistants(x[1..]) <= window
    ensures Assistants(Window(x + s, window)) >= Assistants(x)
  {
    var ms := x + s;
    var z := Window(ms, window);
    AssistantsAdd(x, s);
    AssistantHead(x);
    if |ms| > 1 && Assistants(ms[1..]) > window {
      BackStands(ms, window);
      AssistantHead(z);
      assert z[1..] == ms[Back(ms, window)..];
    }
  }

  lemma WindowedTurns(ms: seq<Message>, window: nat)
    requires window >= 1 && |ms| > 0
    ensures |Window(ms, window)| > 0 && Window(ms, window)[0] == ms[0]
    ensures Assistants(Window(ms, window)[1..]) <= window
  {
    if |ms| > 1 && Assistants(ms[1..]) > window {
      BackStands(ms, window);
      assert Window(ms, window)[1..] == ms[Back(ms, window)..];
    }
  }

  /** What was out of the detail width stays out of it, as long as it is still in the window. */
  lemma AgedStays(x: seq<Message>, s: seq<Message>, window: nat, keep: Keep, i: nat)
    requires window >= 1 && |x| > 0 && Assistants(x[1..]) <= window
    requires 0 < i < |Window(x + s, window)| && Origin(x + s, window, i) < |x|
    requires AgedOut(x, Origin(x + s, window, i), keep)
    ensures AgedOut(Window(x + s, window), i, keep)
  {
    hide Assistants, Origin;
    var ms := x + s;
    var z, o := Window(ms, window), Origin(ms, window, i);
    WindowTail(ms, window, i);
    assert z[i + 1..] == z[i..][1..] && ms[o + 1..] == ms[o..][1..];
    assert ms[o + 1..] == x[o + 1..] + s;
    AssistantsAdd(x[o + 1..], s);
    WindowKeepsTurns(x, s, window);
  }

  /** A later result is still later, and still there. */
  lemma SupersededStays(x: seq<Message>, s: seq<Message>, window: nat, i: nat, tool: string)
    requires window >= 1
    requires 0 < i < |Window(x + s, window)| && Origin(x + s, window, i) < |x|
    requires Superseded(x, Origin(x + s, window, i), tool)
    ensures Superseded(Window(x + s, window), i, tool)
  {
    hide Window, Origin, ResultFor;
    var ms := x + s;
    var z, o := Window(ms, window), Origin(ms, window, i);
    WindowTail(ms, window, i);
    var k :| o < k < |x| && ResultFor(x[k], tool);
    assert x[k] == ms[k] == ms[o..][k - o] == z[i..][k - o] == z[i + k - o];
  }

  /** What was stale stays stale, as long as it is still in the window. */
  lemma StaleStays(x: seq<Message>, s: seq<Message>, window: nat, keep: Keep, i: nat, part: ToolPart)
    requires window >= 1 && |x| > 0 && Assistants(x[1..]) <= window
    requires 0 < i < |Window(x + s, window)| && Origin(x + s, window, i) < |x|
    requires Stale(x, Origin(x + s, window, i), part, keep)
    ensures Stale(Window(x + s, window), i, part, keep)
  {
    hide Window, Origin, AgedOut, Superseded, Elidable;
    AgedStays(x, s, window, keep, i);
    SupersededStays(x, s, window, i, part.tool);
  }

  /** One tool message of the window, elided now, and elided before as well. */
  lemma PartsAgree(x: seq<Message>, s: seq<Message>, window: nat, keep: Keep, i: nat, p: nat)
    requires window >= 1 && |x| > 0 && Assistants(x[1..]) <= window && !x[0].Tool?
    requires i < |Window(x + s, window)| && Window(x + s, window)[i].Tool? && p < |Window(x + s, window)[i].parts|
    requires SameShapes(Window(Elide(x, keep) + s, window), Window(x + s, window))
    requires Origin(Elide(x, keep) + s, window, i) == Origin(x + s, window, i)
    ensures
      var z, y := Window(x + s, window), Window(Elide(x, keep) + s, window);
      y[i].Tool? && |y[i].parts| == |z[i].parts| && Trimmed(y, i, y[i].parts[p], keep) == Trimmed(z, i, z[i].parts[p], keep)
  {
    var z, y, o := Window(x + s, window), Window(Elide(x, keep) + s, window), Origin(x + s, window, i);
    var part := z[i].parts[p];
    assert SameShape(y[i], z[i]);
    if part.Outcome? {
      ShapesAge(y, z, i, keep, part.tool);
    }
    if o < |x| {
      assert z[i] == x[o] && y[i] == TrimmedMessage(x, o, keep);
      assert y[i].parts[p] == Trimmed(x, o, part, keep);
      if Stale(x, o, part, keep) {
        StaleStays(x, s, window, keep, i, part);
      }
    } else {
      assert z[i] == y[i];
    }
  }

  lemma MessagesAgree(x: seq<Message>, s: seq<Message>, window: nat, keep: Keep, i: nat)
    requires window >= 1 && |x| > 0 && Assistants(x[1..]) <= window && !x[0].Tool?
    requires i < |Window(x + s, window)|
    requires SameShapes(Window(Elide(x, keep) + s, window), Window(x + s, window))
    requires Origin(Elide(x, keep) + s, window, i) == Origin(x + s, window, i)
    ensures TrimmedMessage(Window(Elide(x, keep) + s, window), i, keep) == TrimmedMessage(Window(x + s, window), i, keep)
  {
    hide Window, Origin, Stale, Trimmed, Elide;
    var z, y := Window(x + s, window), Window(Elide(x, keep) + s, window);
    assert SameShape(y[i], z[i]);
    if z[i].Tool? {
      forall p | 0 <= p < |z[i].parts|
        ensures Trimmed(y, i, y[i].parts[p], keep) == Trimmed(z, i, z[i].parts[p], keep)
      {
        PartsAgree(x, s, window, keep, i, p);
      }
      assert TrimmedMessage(y, i, keep).parts == TrimmedMessage(z, i, keep).parts;
    }
  }

  /** Equal shapes have equal origins. */
  lemma ShapesOrigin(a: seq<Message>, b: seq<Message>, window: nat, i: nat)
    requires SameShapes(a, b) && window >= 1
    requires i < |Window(a, window)| && i < |Window(b, window)|
    ensures Origin(a, window, i) == Origin(b, window, i)
  {
    if |a| > 1 {
      ShapesCount(a[1..], b[1..]);
    }
    ShapesWindow(a, b, window);
  }

  lemma ElideAgain(x: seq<Message>, s: seq<Message>, window: nat, keep: Keep)
    requires window >= 1 && |x| > 0 && Assistants(x[1..]) <= window && !x[0].Tool?
    ensures Trim(Elide(x, keep) + s, window, keep) == Trim(x + s, window, keep)
  {
    hide Window, Origin, TrimmedMessage;
    ElideKeepsShape(x, keep);
    assert SameShapes(Elide(x, keep) + s, x + s);
    ShapesWindow(Elide(x, keep) + s, x + s, window);
    forall i | 0 <= i < |Window(x + s, window)|
      ensures TrimmedMessage(Window(Elide(x, keep) + s, window), i, keep) == TrimmedMessage(Window(x + s, window), i, keep)
    {
      ShapesOrigin(Elide(x, keep) + s, x + s, window, i);
      MessagesAgree(x, s, window, keep, i);
    }
  }

  /**
   * Trimming what is already trimmed, with more turns behind it, is trimming the
   * whole: for every window of at least one turn and every detail width, when the
   * transcript does not begin with a tool message.
   */
  lemma TrimsCompose(m: seq<Message>, s: seq<Message>, window: nat, keep: Keep)
    requires window >= 1
    requires m != [] ==> !m[0].Tool?
    ensures Trim(Trim(m, window, keep) + s, window, keep) == Trim(m + s, window, keep)
  {
    if m == [] {
      assert Trim(m, window, keep) == [];
    } else {
      WindowedTurns(m, window);
      ElideAgain(Window(m, window), s, window, keep);
      WindowsCompose(m, s, window);
    }
  }

  lemma TrimIsIdempotent(m: seq<Message>, window: nat, keep: Keep)
    requires window >= 1
    requires m != [] ==> !m[0].Tool?
    ensures Trim(Trim(m, window, keep), window, keep) == Trim(m, window, keep)
  {
    TrimsCompose(m, [], window, keep);
    assert m + [] == m && Trim(m, window, keep) + [] == Trim(m, window, keep);
  }

  /** The transcript a run carries: each step's messages appended, and the whole trimmed. */
  function Carried(seed: Message, steps: seq<seq<Message>>, window: nat, keep: Keep): seq<Message>
    decreases steps
  {
    if steps == [] then [seed]
    else
      var n := |steps| - 1;
      Trim(Carried(seed, steps[..n], window, keep) + steps[n], window, keep)
  }

  function Whole(seed: Message, steps: seq<seq<Message>>): seq<Message>
    decreases steps
  {
    if steps == [] then [seed] else Whole(seed, steps[..|steps| - 1]) + steps[|steps| - 1]
  }

  /** Folded over any steps, trimming after each is trimming the untrimmed transcript once. */
  lemma {:induction false} CarriedIsTheWholeTrimmed(seed: Message, steps: seq<seq<Message>>, window: nat, keep: Keep)
    requires window >= 1 && !seed.Tool?
    ensures Carried(seed, steps, window, keep) == Trim(Whole(seed, steps), window, keep)
    ensures |Whole(seed, steps)| > 0 && Whole(seed, steps)[0] == seed
    decreases steps
  {
    if steps == [] {
      assert Elide([seed], keep) == [seed];
    } else {
      var n := |steps| - 1;
      CarriedIsTheWholeTrimmed(seed, steps[..n], window, keep);
      TrimsCompose(Whole(seed, steps[..n]), steps[n], window, keep);
    }
  }

  /** With a window of zero it is not: the seed is repeated by every turn. */
  lemma ZeroWindowRepeatsTheSeed(seed: Message, turn: seq<AssistantPart>)
    requires seed.User?
    ensures Window([seed, Assistant(turn)], 0) == [seed, seed, Assistant(turn)]
    ensures Window(Window([seed, Assistant(turn)], 0), 0) != Window([seed, Assistant(turn)], 0)
  {
    var ms := [seed, Assistant(turn)];
    assert ms[1..] == [Assistant(turn)];
    assert [Assistant(turn)][..0] == [];
    assert Assistants(ms[1..]) == 1;
    var twice := Window(ms, 0);
    assert twice[1..] == ms;
    assert ms[..1] == [seed] && [seed][..0] == [];
    assert Assistants(ms) == 1;
  }

  // ---- no result is cut from its call -----------------------------------------------------------------

  predicate Calls(m: Message, callId: string) {
    m.Assistant? && exists k :: 0 <= k < |m.said| && m.said[k].Call? && m.said[k].callId == callId
  }

  /** The message at `j` makes every call that the tool message at `i` answers, with only tool messages between. */
  ghost predicate Answers(ms: seq<Message>, j: nat, i: nat)
    requires j < i < |ms| && ms[i].Tool?
  {
    && ms[j].Assistant?
    && (forall k :: j < k < i ==> ms[k].Tool?)
    && (forall p :: 0 <= p < |ms[i].parts| && ms[i].parts[p].Outcome? ==> Calls(ms[j], ms[i].parts[p].callId))
  }

  ghost predicate Paired(ms: seq<Message>) {
    forall i :: 0 <= i < |ms| && ms[i].Tool? ==> exists j :: 0 <= j < i && Answers(ms, j, i)
  }

  /** A pair behind an assistant message moves along with what is cut in front of it. */
  lemma AnswerMoves(ms: seq<Message>, s: nat, j: nat, i: nat)
    requires 1 <= s < |ms| && ms[s].Assistant? && 0 < i <= |ms| - s
    requires j < s + i - 1 && ms[s + i - 1].Tool? && Answers(ms, j, s + i - 1)
    ensures
      var z := [ms[0]] + ms[s..];
      j >= s && j - s + 1 < i && Answers(z, j - s + 1, i)
  {
    var z := [ms[0]] + ms[s..];
    assert forall k :: 0 < k < |z| ==> z[k] == ms[s + k - 1];
    assert !ms[s].Tool?;
    assert j >= s;
  }

  lemma WindowKeepsPairs(ms: seq<Message>, window: nat)
    requires window >= 1 && Paired(ms)
    ensures Paired(Window(ms, window))
  {
    hide Assistants, Back;
    if |ms| > 1 && Assistants(ms[1..]) > window {
      BackStands(ms, window);
      CutKeepsPairs(ms, Back(ms, window));
    }
  }

  lemma CutKeepsPairs(ms: seq<Message>, s: nat)
    requires 1 <= s < |ms| && ms[s].Assistant? && Paired(ms)
    ensures Paired([ms[0]] + ms[s..])
  {
    hide Answers;
    var z := [ms[0]] + ms[s..];
    forall i | 0 <= i < |z| && z[i].Tool?
      ensures exists j :: 0 <= j < i && Answers(z, j, i)
    {
      assert i > 0;
      var o := s + i - 1;
      assert z[i] == ms[o];
      var j :| 0 <= j < o && Answers(ms, j, o);
      AnswerMoves(ms, s, j, i);
    }
  }

  /** A transcript whose every result follows its call is trimmed to one. */
  lemma TrimKeepsPairs(ms: seq<Message>, window: nat, keep: Keep)
    requires window >= 1 && Paired(ms)
    ensures Paired(Trim(ms, window, keep))
  {
    WindowKeepsPairs(ms, window);
    ElideKeepsShape(Window(ms, window), keep);
    hide Window, Elide;
    ShapesPair(Trim(ms, window, keep), Window(ms, window));
  }

  lemma ShapesPair(t: seq<Message>, z: seq<Message>)
    requires SameShapes(t, z) && Paired(z)
    ensures Paired(t)
  {
    forall i | 0 <= i < |t| && t[i].Tool?
      ensures exists j :: 0 <= j < i && Answers(t, j, i)
    {
      assert SameShape(t[i], z[i]);
      var j :| 0 <= j < i && Answers(z, j, i);
      assert SameShape(t[j], z[j]);
      assert forall k :: j < k < i ==> SameShape(t[k], z[k]);
      assert Answers(t, j, i);
    }
  }

  // ---- what is kept and what is stubbed, told from the transcript itself -----------------------------

  /** The turns from a place on, by where their assistant messages stand. */
  function TurnsFrom(ms: seq<Message>, from: nat): set<nat> {
    set i | from <= i < |ms| && ms[i].Assistant?
  }

  lemma {:induction false} AssistantsAreTurns(ms: seq<Message>, from: nat)
    requires from <= |ms|
    ensures Assistants(ms[from..]) == |TurnsFrom(ms, from)|
    decreases ms
  {
    if from == |ms| {
      assert ms[from..] == [] && TurnsFrom(ms, from) == {};
    } else {
      var n := |ms| - 1;
      AssistantsAreTurns(ms[..n], from);
      assert ms[from..][..|ms[from..]| - 1] == ms[..n][from..];
      assert TurnsFrom(ms, from) == TurnsFrom(ms[..n], from) + (if ms[n].Assistant? then {n} else {});
    }
  }

  /** The seed, and everything from a turn on that `window` turns start at or behind. */
  ghost predicate IsWindow(z: seq<Message>, ms: seq<Message>, window: nat, s: nat) {
    && 1 <= s < |ms| && ms[s].Assistant? && |TurnsFrom(ms, s)| == window
    && z == [ms[0]] + ms[s..]
  }

  /**
   * The window is the whole transcript when there are no more turns behind its seed
   * than it is wide, and otherwise the seed and exactly the last turns, from the
   * beginning of the first of them.
   */
  lemma WindowKeepsTheLastTurns(ms: seq<Message>, window: nat)
    requires window >= 1
    ensures |TurnsFrom(ms, 1)| <= window ==> Window(ms, window) == ms
    ensures |TurnsFrom(ms, 1)| > window ==> exists s :: IsWindow(Window(ms, window), ms, window, s)
  {
    hide Assistants, Back;
    if |ms| > 1 {
      AssistantsAreTurns(ms, 1);
      if Assistants(ms[1..]) > window {
        var s := Back(ms, window);
        BackStands(ms, window);
        AssistantsAreTurns(ms, s);
        assert IsWindow(Window(ms, window), ms, window, s);
      }
    } else {
      assert TurnsFrom(ms, 1) == {};
    }
  }

  /** An output that is no failure and no denial, and large or of unknown size. */
  predicate Bulky(output: Output) {
    || (output.Text? && |output.value| >= 200)
    || (output.Json? && |output.serialized| >= 200)
    || output.Unserializable?
  }

  /** As many turns follow as the width, a configured number read as the source reads it, keeps in detail. */
  ghost predicate PastDetail(ms: seq<Message>, i: nat, width: Width) {
    match width
    case NaN => true
    case MinusInfinity => true
    case PlusInfinity => false
    case Finite(value) =>
      value < 1.0 || (|TurnsFrom(ms, i + 1)| >= value.Floor && |TurnsFrom(ms, 0)| > value.Floor)
  }

  /** Some later tool message carries a result of the same tool. */
  ghost predicate HasSuccessor(ms: seq<Message>, i: nat, tool: string) {
    exists k, q :: i < k < |ms| && ms[k].Tool? && 0 <= q < |ms[k].parts| && ms[k].parts[q].Outcome? && ms[k].parts[q].tool == tool
  }

  ghost predicate ShouldBeStubbed(ms: seq<Message>, i: nat, part: ToolPart, width: Width) {
    part.Outcome? && Bulky(part.output) && PastDetail(ms, i, width) && HasSuccessor(ms, i, part.tool)
  }

  lemma AgedIsPastDetail(ms: seq<Message>, i: nat, width: Width)
    requires i < |ms|
    ensures AgedOut(ms, i, Normalized(width)) <==> PastDetail(ms, i, width)
  {
    hide Assistants;
    AssistantsAreTurns(ms, i + 1);
    AssistantsAreTurns(ms, 0);
    assert ms[0..] == ms;
  }

  lemma SupersededHasSuccessor(ms: seq<Message>, i: nat, tool: string)
    ensures Superseded(ms, i, tool) <==> HasSuccessor(ms, i, tool)
  {
    if Superseded(ms, i, tool) {
      var k :| i < k < |ms| && ResultFor(ms[k], tool);
      var q := PartOf(ms[k], tool);
    }
    if HasSuccessor(ms, i, tool) {
      var k, q :| i < k < |ms| && ms[k].Tool? && 0 <= q < |ms[k].parts| && ms[k].parts[q].Outcome? && ms[k].parts[q].tool == tool;
      PartIsResult(ms[k], q);
    }
  }

  /**
   * Elision replaces a tool result by the stub exactly when its output is bulky, a
   * later message has a result of the same tool, and it is past the detail width.
   * Everything else, every failure and denial included, stays word for word.
   */
  lemma StubbedExactlyWhen(ms: seq<Message>, width: Width, i: nat)
    requires i < |ms|
    ensures |Elide(ms, Normalized(width))| == |ms|
    ensures !ms[i].Tool? ==> Elide(ms, Normalized(width))[i] == ms[i]
    ensures ms[i].Tool? ==>
      var m := Elide(ms, Normalized(width))[i];
      && m.Tool? && |m.parts| == |ms[i].parts|
      && (forall p :: 0 <= p < |m.parts| ==>
           && (m.parts[p] != ms[i].parts[p] <==> ShouldBeStubbed(ms, i, ms[i].parts[p], width))
           && (m.parts[p] != ms[i].parts[p] ==> m.parts[p] == ms[i].parts[p].(output := Text(ELIDED))))
  {
    if ms[i].Tool? {
      var m := Elide(ms, Normalized(width))[i];
      assert |ELIDED| < 200;
      assert m == TrimmedMessage(ms, i, Normalized(width));
      hide Elide;
      forall p | 0 <= p < |m.parts|
        ensures m.parts[p] == Trimmed(ms, i, ms[i].parts[p], Normalized(width))
        ensures Stale(ms, i, ms[i].parts[p], Normalized(width)) <==> ShouldBeStubbed(ms, i, ms[i].parts[p], width)
      {
        hide AgedOut, PastDetail, Superseded, HasSuccessor;
        AgedIsPastDetail(ms, i, width);
        if ms[i].parts[p].Outcome? {
          SupersededHasSuccessor(ms, i, ms[i].parts[p].tool);
        }
      }
      hide Stale, ShouldBeStubbed, Normalized;
      forall p | 0 <= p < |m.parts|
        ensures m.parts[p] != ms[i].parts[p] <==> ShouldBeStubbed(ms, i, ms[i].parts[p], width)
      {
        StubIsNew(ms, i, ms[i].parts[p], width);
      }
    }
  }

  lemma StubIsNew(ms: seq<Message>, i: nat, part: ToolPart, width: Width)
    ensures ShouldBeStubbed(ms, i, part, width) ==> part.Outcome? && part.output != Text(ELIDED)
  {}
}
