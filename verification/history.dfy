/**
 * The deterministic ids of the Session messages a Task writes, and the parser that
 * recognises a round's acknowledgment.
 */
module History {
  import opened Wrappers
  import Text

  const TASK := "task:"
  const ROUND := ":round:"
  const ACK := ":ack"
  const USER := ":user"
  const FINAL := ":reply:final"

  function UserId(taskId: string): string {
    TASK + taskId + USER
  }

  function AckId(taskId: string, round: nat): string {
    TASK + taskId + ROUND + Text.Decimal(round) + ACK
  }

  function FinalId(taskId: string): string {
    TASK + taskId + FINAL
  }

  datatype Ack = Ack(taskId: string, round: nat)

  /** The characters a regular expression's dot does not match. */
  predicate IsLineBreak(c: char) {
    c in ['\n', '\r', '\U{2028}', '\U{2029}']
  }

  /** A Task id that the acknowledgment pattern can capture. */
  predicate Capturable(taskId: string) {
    taskId != "" && forall i :: 0 <= i < |taskId| ==> !IsLineBreak(taskId[i])
  }

  /** What the pattern `^task:(.+):round:(\d+):ack$` says of a string and its two groups. */
  predicate Matches(id: string, taskId: string, digits: string) {
    && Capturable(taskId)
    && digits != "" && Text.AllDigits(digits)
    && id == TASK + taskId + ROUND + digits + ACK
  }

  predicate EndsWith(s: string, suffix: string) {
    |s| >= |suffix| && s[|s| - |suffix|..] == suffix
  }

  /** Where the run of digits at the end of the string begins. */
  function DigitsFrom(s: string): (k: nat)
    ensures k <= |s| && Text.AllDigits(s[k..])
    ensures k == 0 || !Text.IsDigit(s[k - 1])
  {
    if s == "" || !Text.IsDigit(s[|s| - 1]) then |s|
    else
      var k := DigitsFrom(s[..|s| - 1]);
      assert s[k..] == s[..|s| - 1][k..] + [s[|s| - 1]];
      k
  }

  /** The parser: read from the end, where the suffix and the digits leave no choice. */
  function ParseAck(id: string): Option<Ack> {
    if !EndsWith(id, ACK) then None
    else
      var body := id[..|id| - |ACK|];
      var k := DigitsFrom(body);
      if k == |body| || !EndsWith(body[..k], ROUND) then None
      else
        var head := body[..k - |ROUND|];
        if !(TASK <= head) || !Capturable(head[|TASK|..]) then None
        else Some(Ack(head[|TASK|..], Text.Value(body[k..])))
  }

  lemma DigitsFromEnd(x: string, d: string)
    requires Text.AllDigits(d) && x != "" && !Text.IsDigit(x[|x| - 1])
    ensures DigitsFrom(x + d) == |x|
  {
    var s, k := x + d, DigitsFrom(x + d);
    assert !Text.IsDigit(s[|x| - 1]);
    assert forall i :: |x| <= i < |s| ==> s[i] == d[i - |x|];
    assert forall i :: k <= i < |s| ==> s[i] == s[k..][i - k];
  }

  lemma MatchIsParsed(id: string, taskId: string, digits: string)
    requires Matches(id, taskId, digits)
    ensures ParseAck(id) == Some(Ack(taskId, Text.Value(digits)))
  {
    hide DigitsFrom, Text.Value;
    var head := TASK + taskId + ROUND;
    assert id == head + digits + ACK;
    assert id[|id| - |ACK|..] == ACK && id[..|id| - |ACK|] == head + digits;
    DigitsFromEnd(head, digits);
    assert (head + digits)[..|head|] == head && (head + digits)[|head|..] == digits;
    assert head[|head| - |ROUND|..] == ROUND;
    assert head[..|head| - |ROUND|] == TASK + taskId && TASK <= TASK + taskId;
    assert (TASK + taskId)[|TASK|..] == taskId;
    assert (head + digits)[..|head| - |ROUND|] == TASK + taskId;
  }

  lemma ParsedIsMatch(id: string)
    requires ParseAck(id).Some?
    ensures exists d :: Matches(id, ParseAck(id).value.taskId, d) && Text.Value(d) == ParseAck(id).value.round
  {
    hide Capturable, Text.Value;
    var body := id[..|id| - |ACK|];
    var k := DigitsFrom(body);
    hide DigitsFrom;
    var head := body[..k - |ROUND|];
    assert id == body + ACK;
    assert body == body[..k] + body[k..];
    assert body[..k] == head + ROUND;
    assert head == TASK + head[|TASK|..];
    assert Matches(id, head[|TASK|..], body[k..]);
  }

  /** The greedy pattern has no choice to make: the parser finds its groups whenever there are any, and only then. */
  lemma ParseIsThePattern(id: string, taskId: string, digits: string)
    ensures Matches(id, taskId, digits) ==> ParseAck(id) == Some(Ack(taskId, Text.Value(digits)))
    ensures ParseAck(id).Some? ==> exists d :: Matches(id, ParseAck(id).value.taskId, d) && Text.Value(d) == ParseAck(id).value.round
  {
    hide ParseAck, Matches, Text.Value;
    if Matches(id, taskId, digits) {
      MatchIsParsed(id, taskId, digits);
    }
    if ParseAck(id).Some? {
      ParsedIsMatch(id);
    }
  }

  /** Exactly the Task ids without line breaks come back, whatever else they contain. */
  lemma AckRoundTrip(taskId: string, round: nat)
    ensures ParseAck(AckId(taskId, round)) == if Capturable(taskId) then Some(Ack(taskId, round)) else None
  {
    var id := AckId(taskId, round);
    Text.ValueOfDecimal(round);
    ParseIsThePattern(id, taskId, Text.Decimal(round));
    if ParseAck(id).Some? {
      var t := ParseAck(id).value.taskId;
      var d :| Matches(id, t, d) && Text.Value(d) == ParseAck(id).value.round;
      SameTaskAndDigits(taskId, Text.Decimal(round), t, d);
    }
  }

  /** An acknowledgment id splits in one way only. */
  lemma SameTaskAndDigits(s: string, d: string, t: string, e: string)
    requires Text.AllDigits(d) && Text.AllDigits(e)
    requires TASK + s + ROUND + d + ACK == TASK + t + ROUND + e + ACK
    ensures s == t && d == e
  {
    var x, y := TASK + s + ROUND, TASK + t + ROUND;
    Text.CancelSuffix(x + d, y + e, ACK);
    DigitsFromEnd(x, d);
    DigitsFromEnd(y, e);
    assert (x + d)[..|x|] == x && (y + e)[..|y|] == y;
    assert (x + d)[|x|..] == d && (y + e)[|y|..] == e;
    Text.CancelSuffix(TASK + s, TASK + t, ROUND);
    Text.CancelPrefix(TASK, s, t);
  }

  lemma AckIdInjective(s: string, m: nat, t: string, n: nat)
    requires AckId(s, m) == AckId(t, n)
    ensures s == t && m == n
  {
    SameTaskAndDigits(s, Text.Decimal(m), t, Text.Decimal(n));
    Text.DecimalInjective(m, n);
  }

  /** The keys the ids stand for. */
  datatype Key = UserKey(taskId: string) | AckKey(taskId: string, round: nat) | FinalKey(taskId: string)

  function IdOf(k: Key): string {
    match k
    case UserKey(t) => UserId(t)
    case AckKey(t, r) => AckId(t, r)
    case FinalKey(t) => FinalId(t)
  }

  /** Each family is injective and no two families meet. */
  lemma IdsNeverCollide(j: Key, k: Key)
    requires IdOf(j) == IdOf(k)
    ensures j == k
  {
    var a, b := IdOf(j), IdOf(k);
    assert a[|a| - 1] == b[|b| - 1];
    match j
    case UserKey(t) =>
      Text.CancelSuffix(TASK + t, TASK + k.taskId, USER);
      Text.CancelPrefix(TASK, t, k.taskId);
    case FinalKey(t) =>
      Text.CancelSuffix(TASK + t, TASK + k.taskId, FINAL);
      Text.CancelPrefix(TASK, t, k.taskId);
    case AckKey(t, r) => AckIdInjective(t, r, k.taskId, k.round);
  }

  /** The prefix of the summaries that compaction writes. */
  const COMPACTION := "compaction_"

  /** A random message id: hexadecimal digits and hyphens. */
  predicate UuidShaped(id: string) {
    forall i :: 0 <= i < |id| ==> Text.IsDigit(id[i]) || 'a' <= id[i] <= 'f' || id[i] == '-'
  }

  lemma TaskIdsAreTheirOwn(k: Key)
    ensures !(COMPACTION <= IdOf(k)) && !UuidShaped(IdOf(k))
  {
    assert IdOf(k)[0] == 't';
  }
}
