/**
 * One line of intel read from a chat log, in the layout
 * `[ 2017.05.01 18:24:28 ] Charname > message`: the raw text, the text of
 * its timestamp, the message after the speaker's name, and the channel.
 */
module Intel {
  import opened Wrappers

  /** The channel label every line gets when the operator override is on. */
  const OverrideChannel: string := "(PAY ME YOU AUSTISTS)"

  /**
   * A freshly read intel line. `timeText` is the text the timestamp is
   * parsed from; the parsed date itself is not part of this model.
   */
  datatype IntelData = IntelData(
    rawIntelString: string,
    timeText: string,
    intelString: string,
    intelChannel: string,
    systems: seq<string>,
    clearNotification: bool)

  /** The only way reading a line fails: the timestamp substring would have a negative length. */
  datatype IntelError = TimestampLengthNegative

  // ------------------------------------------------------------ string primitives

  /** `s.IndexOf(c)`: the index of the first `c` in `s`, or -1 when there is none. */
  function IndexOf(s: string, c: char): (r: int)
    ensures -1 <= r < |s|
    ensures r == -1 <==> c !in s
    ensures 0 <= r ==> s[r] == c && c !in s[..r]
  {
    if |s| == 0 then -1
    else if s[0] == c then 0
    else
      var k := IndexOf(s[1..], c);
      if k == -1 then -1
      else
        assert s[..k + 1] == [s[0]] + s[1..][..k];
        k + 1
  }

  /** The index of `c` is determined by the first position that holds it. */
  lemma IndexOfFirst(s: string, c: char, k: nat)
    requires k < |s| && s[k] == c && c !in s[..k]
    ensures IndexOf(s, c) == k
  {
  }

  /** `s.Substring(start, length)`: `None` where .NET throws an out-of-range error. */
  function Substring(s: string, start: int, length: int): (r: Option<string>)
    ensures r.Some? <==> 0 <= start && 0 <= length && start + length <= |s|
    ensures r.Some? ==> |r.value| == length && s[start..start + length] == r.value
  {
    if 0 <= start && 0 <= length && start + length <= |s| then Some(s[start..start + length]) else None
  }

  /** `s.Substring(start)`: `None` where .NET throws an out-of-range error. */
  function SubstringFrom(s: string, start: int): (r: Option<string>)
    ensures r.Some? <==> 0 <= start <= |s|
    ensures r.Some? ==> s == s[..start] + r.value
  {
    if 0 <= start <= |s| then Some(s[start..]) else None
  }

  /** `s.Insert(at, t)`, for an index inside the string or at its end. */
  function Insert(s: string, at: nat, t: string): (r: string)
    requires at <= |s|
    ensures |r| == |s| + |t| && r[..at] == s[..at] && r[at..at + |t|] == t && r[at + |t|..] == s[at..]
  {
    s[..at] + t + s[at..]
  }

  // ------------------------------------------------------------ the constructor

  /** The channel label: the channel name in parentheses, unless the operator override is on. */
  function ChannelLabel(intelChannel: string, operatorOverride: bool): (shown: string)
    ensures !operatorOverride ==> shown == "(" + intelChannel + ")"
    ensures operatorOverride ==> shown == OverrideChannel
  {
    var withOpen := Insert(intelChannel, 0, "(");
    var closed := Insert(withOpen, |withOpen|, ")");
    if operatorOverride then OverrideChannel else closed
  }

  /**
   * Reads one log line. The timestamp text runs from the second character up
   * to the first `]`; the message is everything after the first `>`, or the
   * whole line when there is none. `operatorOverride` stands for the check of
   * the logged-in user's name.
   */
  function NewIntelData(intelText: string, intelChannel: string, operatorOverride: bool): (r: Result<IntelData, IntelError>)
    ensures r.Ok? <==> ']' in intelText && intelText[0] != ']'
    ensures r.Ok? ==>
      && r.value.rawIntelString == intelText
      && r.value.intelChannel == ChannelLabel(intelChannel, operatorOverride)
      && r.value.systems == [] && !r.value.clearNotification
  {
    var start := IndexOf(intelText, '>') + 1;
    var end := IndexOf(intelText, ']');
    match Substring(intelText, 1, end - 1)
    case None => Err(TimestampLengthNegative)
    case Some(stamp) =>
      var message := SubstringFrom(intelText, start).value;
      Ok(IntelData(intelText, stamp, message, ChannelLabel(intelChannel, operatorOverride), [], false))
  }

  /** The timestamp text is what lies between the first character and the first `]`. */
  lemma TimestampBetweenBrackets(intelText: string, intelChannel: string, operatorOverride: bool)
    requires NewIntelData(intelText, intelChannel, operatorOverride).Ok?
    ensures var stamp := NewIntelData(intelText, intelChannel, operatorOverride).value.timeText;
      && |stamp| + 2 <= |intelText|
      && intelText[1..|stamp| + 1] == stamp && intelText[|stamp| + 1] == ']'
      && ']' !in stamp && intelText[0] != ']'
  {
  }

  /**
   * The message is the text after the first `>`: the line is some prefix
   * plus the message, and that prefix is empty when there is no `>` and
   * otherwise ends at the first one.
   */
  lemma MessageAfterFirstArrow(intelText: string, intelChannel: string, operatorOverride: bool)
    requires NewIntelData(intelText, intelChannel, operatorOverride).Ok?
    ensures var message := NewIntelData(intelText, intelChannel, operatorOverride).value.intelString;
      var before := intelText[..|intelText| - |message|];
      && |message| <= |intelText|
      && intelText == before + message
      && ('>' !in intelText ==> before == "")
      && ('>' in intelText ==> |before| > 0 && before[|before| - 1] == '>' && '>' !in before[..|before| - 1])
  {
  }

  /** A log line laid out as a lead character, the timestamp, `]`, the speaker part, `>` and the message. */
  function FormatLine(lead: char, stamp: string, speaker: string, message: string): (line: string)
    ensures |line| == |stamp| + |speaker| + |message| + 3
    ensures line[0] == lead && line[|stamp| + 1] == ']' && line[|stamp| + |speaker| + 2] == '>'
  {
    [lead] + stamp + "]" + speaker + ">" + message
  }

  /**
   * A line in the chat-log layout reads back to its own parts: the timestamp
   * text, the message, and the channel label, with nothing matched yet.
   */
  lemma {:induction false} ReadFormattedLine(lead: char, stamp: string, speaker: string, message: string, intelChannel: string, operatorOverride: bool)
    requires lead != ']' && lead != '>'
    requires ']' !in stamp && '>' !in stamp && '>' !in speaker
    ensures var line := FormatLine(lead, stamp, speaker, message);
      NewIntelData(line, intelChannel, operatorOverride) ==
        Ok(IntelData(line, stamp, message, ChannelLabel(intelChannel, operatorOverride), [], false))
  {
    var line := FormatLine(lead, stamp, speaker, message);
    var close, arrow := |stamp| + 1, |stamp| + |speaker| + 2;
    assert line[..close] == [lead] + stamp;
    IndexOfFirst(line, ']', close);
    assert line[..arrow] == [lead] + stamp + "]" + speaker;
    IndexOfFirst(line, '>', arrow);
    assert line[1..close] == stamp;
    assert line[arrow + 1..] == message;
  }
}
