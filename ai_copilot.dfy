/** The floating assistant: a message log that opens with a welcome, an
    input box, and canned replies chosen by the first keyword the lowered
    input contains. A reply is composed from the statistics and the fleet as
    they were when the message was sent, and is appended one second later;
    that delay is the explicit step `Reply`, with the composed texts waiting
    in `pendingReplies` in the order they were sent. The clock (`Date.now()`)
    and the running rate `toFixed(1)` are parameters. */
module Copilot {
  import opened Types
  import opened Strings
  import opened MachineData
  import opened Dashboard

  datatype Role = Ai | User

  datatype Message = Message(id: int, role: Role, content: string)

  /** The translated texts the component reads. */
  datatype CopilotTexts = CopilotTexts(welcome: string, greeting: string, unknown: string)

  datatype Intent = AlarmIntent | RunningIntent | TotalIntent | OeeIntent | OutputIntent | GreetingIntent | UnknownIntent

  // ------------------------------------------------------------- routing

  /** The keyword chain of the reply timeout, on the lowered input. */
  function IntentOf(input: string): Intent
  {
    var lower := ToLower(input);
    if Includes(lower, "故障") || Includes(lower, "报警") || Includes(lower, "alarm") then AlarmIntent
    else if Includes(lower, "运行") || Includes(lower, "开机") then RunningIntent
    else if Includes(lower, "总数") || Includes(lower, "多少台") then TotalIntent
    else if Includes(lower, "oee") || Includes(lower, "效率") then OeeIntent
    else if Includes(lower, "产量") || Includes(lower, "进度") then OutputIntent
    else if Includes(lower, "你好") || Includes(lower, "hi") then GreetingIntent
    else UnknownIntent
  }

  /** The same router written as data: intents in priority order with their
      keywords. */
  const RouterTable: seq<(Intent, seq<string>)> := [
    (AlarmIntent, ["故障", "报警", "alarm"]),
    (RunningIntent, ["运行", "开机"]),
    (TotalIntent, ["总数", "多少台"]),
    (OeeIntent, ["oee", "效率"]),
    (OutputIntent, ["产量", "进度"]),
    (GreetingIntent, ["你好", "hi"])
  ]

  predicate AnyIncluded(s: string, keys: seq<string>)
  {
    if keys == [] then false else Includes(s, keys[0]) || AnyIncluded(s, keys[1..])
  }

  /** The first row of `table` with a keyword in `s`, or `UnknownIntent`. */
  function FirstMatch(s: string, table: seq<(Intent, seq<string>)>): Intent
  {
    if table == [] then UnknownIntent
    else if AnyIncluded(s, table[0].1) then table[0].0
    else FirstMatch(s, table[1..])
  }

  /** `FirstMatch` is a first-match search: the answer is the intent of the
      earliest matching row, and unknown only when no row matches. */
  lemma {:induction false} FirstMatchIsEarliest(s: string, table: seq<(Intent, seq<string>)>, i: nat)
    requires i < |table| && AnyIncluded(s, table[i].1)
    requires forall j :: 0 <= j < i ==> !AnyIncluded(s, table[j].1)
    ensures FirstMatch(s, table) == table[i].0
  {
    if i > 0 {
      assert !AnyIncluded(s, table[0].1);
      FirstMatchIsEarliest(s, table[1..], i - 1);
    }
  }

  lemma {:induction false} FirstMatchNone(s: string, table: seq<(Intent, seq<string>)>)
    requires forall j :: 0 <= j < |table| ==> !AnyIncluded(s, table[j].1)
    ensures FirstMatch(s, table) == UnknownIntent
  {
    if table != [] {
      FirstMatchNone(s, table[1..]);
    }
  }

  lemma AnyIncludedTwo(s: string, a: string, b: string)
    ensures AnyIncluded(s, [a, b]) == (Includes(s, a) || Includes(s, b))
  {
    assert [a, b][1..] == [b];
    assert [b][1..] == [];
    assert AnyIncluded(s, []) == false;
    assert AnyIncluded(s, [b]) == Includes(s, b);
  }

  lemma AnyIncludedThree(s: string, a: string, b: string, c: string)
    ensures AnyIncluded(s, [a, b, c]) == (Includes(s, a) || Includes(s, b) || Includes(s, c))
  {
    assert [a, b, c][1..] == [b, c];
    AnyIncludedTwo(s, b, c);
  }

  /** The if-chain is the table walk. */
  lemma RouterIsTable(input: string)
    ensures IntentOf(input) == FirstMatch(ToLower(input), RouterTable)
  {
    var l := ToLower(input);
    var t := RouterTable;
    AnyIncludedThree(l, "故障", "报警", "alarm");
    AnyIncludedTwo(l, "运行", "开机");
    AnyIncludedTwo(l, "总数", "多少台");
    AnyIncludedTwo(l, "oee", "效率");
    AnyIncludedTwo(l, "产量", "进度");
    AnyIncludedTwo(l, "你好", "hi");
    var t5 := t[5..];
    var t4 := t[4..];
    var t3 := t[3..];
    var t2 := t[2..];
    var t1 := t[1..];
    assert t5[1..] == [];
    assert FirstMatch(l, t5) == if AnyIncluded(l, t[5].1) then t[5].0 else UnknownIntent;
    assert t4[1..] == t5;
    assert FirstMatch(l, t4) == if AnyIncluded(l, t[4].1) then t[4].0 else FirstMatch(l, t5);
    assert t3[1..] == t4;
    assert FirstMatch(l, t3) == if AnyIncluded(l, t[3].1) then t[3].0 else FirstMatch(l, t4);
    assert t2[1..] == t3;
    assert FirstMatch(l, t2) == if AnyIncluded(l, t[2].1) then t[2].0 else FirstMatch(l, t3);
    assert t1[1..] == t2;
    assert FirstMatch(l, t1) == if AnyIncluded(l, t[1].1) then t[1].0 else FirstMatch(l, t2);
    assert FirstMatch(l, t) == if AnyIncluded(l, t[0].1) then t[0].0 else FirstMatch(l, t1);
  }

  /** Upper case in the input never matters. */
  lemma RouterIgnoresCase(input: string)
    ensures IntentOf(ToLower(input)) == IntentOf(input)
  {
    ToLowerIdempotent(input);
  }

  /** A string lacking one of `t`'s characters cannot include `t`. */
  lemma MissingCharacter(s: string, t: string, c: char)
    requires c in t && c !in s
    ensures !Includes(s, t)
  {
    var k :| 0 <= k < |t| && t[k] == c;
    forall i: nat | i + |t| <= |s| ensures !OccursAt(s, t, i) {
      assert s[i..i + |t|][k] == s[i + k];
    }
    IncludesIff(s, t);
  }

  lemma ToLowerKeepsPlain(s: string)
    requires forall i :: 0 <= i < |s| ==> !('A' <= s[i] <= 'Z')
    ensures ToLower(s) == s
  {
  }

  /** No keyword of a row before the greeting row occurs in `l`. */
  predicate NoEarlierKeyword(l: string)
  {
    !Includes(l, "故障") &&
    !Includes(l, "报警") &&
    !Includes(l, "alarm") &&
    !Includes(l, "运行") &&
    !Includes(l, "开机") &&
    !Includes(l, "总数") &&
    !Includes(l, "多少台") &&
    !Includes(l, "oee") &&
    !Includes(l, "效率") &&
    !Includes(l, "产量") &&
    !Includes(l, "进度") &&
    !Includes(l, "你好")
  }

  lemma GreetingWhen(input: string)
    requires NoEarlierKeyword(ToLower(input)) && Includes(ToLower(input), "hi")
    ensures IntentOf(input) == GreetingIntent
  {
  }

  predicate IsAscii(s: string)
  {
    forall i :: 0 <= i < |s| ==> s[i] < '\U{0080}'
  }

  /** A plain ASCII input never contains a Chinese keyword. */
  lemma AsciiLacksChinese(s: string, t: string)
    requires IsAscii(s) && |t| > 0 && t[0] >= '\U{0080}'
    ensures !Includes(s, t)
  {
    MissingCharacter(s, t, t[0]);
  }

  /** "hi" is matched anywhere, even inside a word: a question that only
      says "machine" gets the greeting. */
  lemma MachineIsAGreeting(s: string)
    requires s == "machine"
    ensures IntentOf(s) == GreetingIntent
  {
    assert s[3..5] == "hi";
    IncludesAt(s, "hi", 3);
    PlainHiGreets(s);
  }

  /** Any lower-case ASCII input without 'l' or 'o' that contains "hi" is
      taken for a greeting. */
  lemma PlainHiGreets(s: string)
    requires IsAscii(s) && (forall i :: 0 <= i < |s| ==> !('A' <= s[i] <= 'Z'))
    requires 'l' !in s && 'o' !in s && Includes(s, "hi")
    ensures IntentOf(s) == GreetingIntent
  {
    ToLowerKeepsPlain(s);
    PlainLacksEarlierKeywords(s);
    GreetingWhen(s);
  }

  /** An ASCII string without 'l' and 'o' names no row before the greeting. */
  lemma PlainLacksEarlierKeywords(s: string)
    requires IsAscii(s) && 'l' !in s && 'o' !in s
    ensures NoEarlierKeyword(s)
  {
    AsciiLacksChinese(s, "故障");
    AsciiLacksChinese(s, "报警");
    MissingCharacter(s, "alarm", 'l');
    AsciiLacksChinese(s, "运行");
    AsciiLacksChinese(s, "开机");
    AsciiLacksChinese(s, "总数");
    AsciiLacksChinese(s, "多少台");
    MissingCharacter(s, "oee", 'o');
    AsciiLacksChinese(s, "效率");
    AsciiLacksChinese(s, "产量");
    AsciiLacksChinese(s, "进度");
    AsciiLacksChinese(s, "你好");
  }

  /** Alarm keywords win over every later row: "运行报警" is an alarm
      question although it also names running. */
  lemma AlarmWinsOverRunning()
    ensures IntentOf("运行报警") == AlarmIntent
  {
    var s := "运行报警";
    ToLowerKeepsPlain(s);
    assert s[2..4] == "报警";
    IncludesAt(s, "报警", 2);
  }

  // ------------------------------------------------------------- replies

  function Names(ms: seq<Machine>): (r: seq<string>)
    ensures |r| == |ms| && forall k :: 0 <= k < |ms| ==> r[k] == ms[k].name
  {
    if ms == [] then [] else [ms[0].name] + Names(ms[1..])
  }

  const AlarmLead: string := "当前共有 "
  const AlarmMid: string := " 台设备处于故障报警状态。"
  const AlarmNamesLead: string := "涉及设备："
  const AlarmAdvice: string := "。建议立即检查。"
  const AlarmCalm: string := "目前运行平稳。"

  /** The names of the ALARM machines, in fleet order. */
  function AlarmNames(machines: seq<Machine>): (r: seq<string>)
    ensures |r| == |AlarmQueue(machines)|
  {
    Names(AlarmQueue(machines))
  }

  function AlarmTail(alarmCount: nat, machines: seq<Machine>): string
  {
    if alarmCount > 0 then AlarmNamesLead + Join(AlarmNames(machines), ", ") + AlarmAdvice
    else AlarmCalm
  }

  /** The reply to an alarm question. */
  function AlarmReply(alarmCount: nat, machines: seq<Machine>): string
  {
    AlarmLead + NatToString(alarmCount) + AlarmMid + AlarmTail(alarmCount, machines)
  }

  /** A number written after a fixed lead reads back from where the lead
      ends. */
  lemma NumberAfterLead(lead: string, n: nat, rest: string)
    ensures var w := lead + NatToString(n) + rest;
      |lead| + |NatToString(n)| <= |w| &&
      w[|lead|..|lead| + |NatToString(n)|] == NatToString(n) &&
      DigitsValue(NatToString(n)) == n
  {
    var w := lead + NatToString(n) + rest;
    assert w[|lead|..|lead| + |NatToString(n)|] == NatToString(n);
    NatToStringRoundTrip(n);
  }

  /** Every element of a joined list occurs in the joined string. */
  lemma {:induction false} JoinContains(xs: seq<string>, sep: string, i: nat)
    requires i < |xs|
    ensures Includes(Join(xs, sep), xs[i])
  {
    var j := Join(xs, sep);
    if |xs| == 1 {
      assert OccursAt(j, xs[0], 0);
      IncludesAt(j, xs[0], 0);
    } else if i == 0 {
      assert j == xs[0] + (sep + Join(xs[1..], sep));
      assert OccursAt(j, xs[0], 0);
      IncludesAt(j, xs[0], 0);
    } else {
      JoinContains(xs[1..], sep, i - 1);
      var rest := Join(xs[1..], sep);
      IncludesIff(rest, xs[i]);
      var p: nat :| OccursAt(rest, xs[i], p);
      var off := |xs[0] + sep|;
      assert j == (xs[0] + sep) + rest;
      assert j[off + p..off + p + |xs[i]|] == rest[p..p + |xs[i]|];
      IncludesAt(j, xs[i], off + p);
    }
  }

  lemma IncludesInfix(a: string, b: string, c: string)
    ensures Includes(a + b + c, b)
  {
    var s := a + b + c;
    assert s[|a|..|a| + |b|] == b;
    IncludesAt(s, b, |a|);
  }

  lemma IncludesGrow(s: string, t: string, before: string, after: string)
    requires Includes(s, t)
    ensures Includes(before + s + after, t)
  {
    IncludesIff(s, t);
    var p: nat :| OccursAt(s, t, p);
    var w := before + s + after;
    assert w[|before| + p..|before| + p + |t|] == s[p..p + |t|];
    IncludesAt(w, t, |before| + p);
  }

  /** The alarm reply states the count it is given, and with the
      dashboard's statistics that count is the length of the alarm queue. */
  lemma AlarmReplyStatesCount(machines: seq<Machine>)
    ensures var c := StatsOf(machines).alarm; var r := AlarmReply(c, machines);
      |AlarmLead| + |NatToString(c)| <= |r| &&
      DigitsValue(r[|AlarmLead|..|AlarmLead| + |NatToString(c)|]) == |AlarmQueue(machines)|
  {
    var c := StatsOf(machines).alarm;
    NumberAfterLead(AlarmLead, c, AlarmMid + AlarmTail(c, machines));
    assert AlarmReply(c, machines) == AlarmLead + NatToString(c) + (AlarmMid + AlarmTail(c, machines));
    AlarmQueueMatchesBadge(machines);
  }

  /** When there are alarms the reply names every ALARM machine. */
  lemma AlarmReplyNamesAll(c: nat, machines: seq<Machine>, k: nat)
    requires c > 0 && k < |AlarmQueue(machines)|
    ensures Includes(AlarmReply(c, machines), AlarmQueue(machines)[k].name)
  {
    var names := AlarmNames(machines);
    var joined := Join(names, ", ");
    var tail := AlarmTail(c, machines);
    var pre := AlarmLead + NatToString(c) + AlarmMid;
    assert names[k] == AlarmQueue(machines)[k].name;
    JoinContains(names, ", ", k);
    assert tail == AlarmNamesLead + joined + AlarmAdvice;
    IncludesGrow(joined, names[k], AlarmNamesLead, AlarmAdvice);
    IncludesGrow(tail, names[k], pre, "");
    assert pre + tail + "" == AlarmReply(c, machines);
  }

  /** Without alarms the reply says all is calm. */
  lemma AlarmReplyCalm(machines: seq<Machine>)
    requires StatsOf(machines).alarm == 0
    ensures Includes(AlarmReply(0, machines), AlarmCalm)
  {
    IncludesInfix(AlarmLead + NatToString(0) + AlarmMid, AlarmCalm, "");
    assert AlarmReply(0, machines) == AlarmLead + NatToString(0) + AlarmMid + AlarmCalm + "";
  }

  const TotalLead: string := "车间当前共有 "

  /** The reply to a fleet-size question. */
  function TotalReply(count: nat): string
  {
    TotalLead + NatToString(count) + " 台联网设备。"
  }

  /** The size reply reads back as the fleet's length. */
  lemma TotalReplyStatesCount(machines: seq<Machine>)
    ensures var r := TotalReply(|machines|);
      |TotalLead| + |NatToString(|machines|)| <= |r| &&
      DigitsValue(r[|TotalLead|..|TotalLead| + |NatToString(|machines|)|]) == |machines|
  {
    NumberAfterLead(TotalLead, |machines|, " 台联网设备。");
  }

  /** The reply to a running question; `rate` is the `toFixed(1)` text. */
  function RunningReply(running: nat, rate: string): string
  {
    "当前有 " + NatToString(running) + " 台设备正在运行中。开机率为 " + rate + "%。"
  }

  const OeeReply: string := "当前的实时 OEE 指标为 82.4%，较昨日提升了 1.2%。保持得不错！"
  const OutputReply: string := "今日累计实际产量已达标，目前生产进度正常，累计产出超 MES 计划约 5%。"

  /** The text the reply timeout appends for `input`. */
  function ReplyFor(input: string, stats: Stats, machines: seq<Machine>, texts: CopilotTexts, rate: string): string
  {
    match IntentOf(input)
    case AlarmIntent => AlarmReply(stats.alarm, machines)
    case RunningIntent => RunningReply(stats.running, rate)
    case TotalIntent => TotalReply(|machines|)
    case OeeIntent => OeeReply
    case OutputIntent => OutputReply
    case GreetingIntent => texts.greeting
    case UnknownIntent => texts.unknown
  }

  // ------------------------------------------------------------ the widget

  class AiCopilot {
    var isOpen: bool
    var messages: seq<Message>
    var inputValue: string
    var isTyping: bool
    /** Replies composed at send time whose timeout has not yet fired. */
    var pendingReplies: seq<string>
    /** Accepted sends so far. */
    ghost var sends: nat

    /** The welcome stays first, and every accepted send contributes its
        user message and, once its timeout fires, its reply. */
    ghost predicate Valid()
      reads this
    {
      |messages| >= 1 && messages[0].id == 1 && messages[0].role == Ai &&
      |messages| + |pendingReplies| == 1 + 2 * sends
    }

    constructor (texts: CopilotTexts)
      ensures messages == [Message(1, Ai, texts.welcome)]
      ensures inputValue == "" && !isTyping && !isOpen && pendingReplies == [] && sends == 0
      ensures Valid()
    {
      isOpen := false;
      messages := [Message(1, Ai, texts.welcome)];
      inputValue := "";
      isTyping := false;
      pendingReplies := [];
      sends := 0;
    }

    /** The launcher button. */
    method ToggleOpen()
      modifies this`isOpen
      ensures isOpen == !old(isOpen)
    {
      isOpen := !isOpen;
    }

    /** Typing into the input box, which is only rendered while the chat
        is open. */
    method SetInput(v: string)
      requires isOpen
      modifies this`inputValue
      ensures inputValue == v
    {
      inputValue := v;
    }

    /** `handleSendMessage` (the send button or Enter) at time `now`; both
        controls are only rendered while the chat is open. */
    method Send(now: int, stats: Stats, machines: seq<Machine>, texts: CopilotTexts, rate: string)
      requires Valid() && isOpen
      modifies this`messages, this`inputValue, this`isTyping, this`pendingReplies, this`sends
      ensures IsBlank(old(inputValue)) ==>
        messages == old(messages) && inputValue == old(inputValue) && isTyping == old(isTyping) &&
        pendingReplies == old(pendingReplies) && sends == old(sends)
      ensures !IsBlank(old(inputValue)) ==>
        messages == old(messages) + [Message(now, User, old(inputValue))] &&
        inputValue == "" && isTyping &&
        pendingReplies == old(pendingReplies) + [ReplyFor(old(inputValue), stats, machines, texts, rate)] &&
        sends == old(sends) + 1
      ensures Valid()
    {
      if !IsBlank(inputValue) {
        var reply := ReplyFor(inputValue, stats, machines, texts, rate);
        messages := messages + [Message(now, User, inputValue)];
        pendingReplies := pendingReplies + [reply];
        inputValue := "";
        isTyping := true;
        sends := sends + 1;
      }
    }

    /** The oldest pending reply timeout fires at time `now`. */
    method Reply(now: int)
      requires Valid() && pendingReplies != []
      modifies this`messages, this`isTyping, this`pendingReplies
      ensures messages == old(messages) + [Message(now + 1, Ai, old(pendingReplies[0]))]
      ensures pendingReplies == old(pendingReplies[1..]) && !isTyping
      ensures Valid()
    {
      messages := messages + [Message(now + 1, Ai, pendingReplies[0])];
      pendingReplies := pendingReplies[1..];
      isTyping := false;
    }
  }
}
