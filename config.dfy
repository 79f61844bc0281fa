/** Validation of the harness configuration (`_validate_config`): every
    broken rule contributes one message, the configuration is rejected
    with all of them joined by newlines when there is at least one, and an
    accepted configuration may still draw warnings. */
module Config {
  import opened Common
  import FanOut

  /** The settings that validation looks at, after loading. */
  datatype Settings = Settings(
    apiKey: string,
    domain: string,
    template: string,
    sandboxTimeout: int,
    sandboxCount: int,
    processCount: int,
    threadPoolSize: int)

  /** The rules, in the order they are checked. */
  datatype Rule =
    | ApiKeySet
    | DomainSet
    | TemplateSet
    | CountPositive
    | ProcessesPositive
    | TimeoutAtLeastMinute
    | PoolPositive

  const Rules: seq<Rule> :=
    [ApiKeySet, DomainSet, TemplateSet, CountPositive, ProcessesPositive, TimeoutAtLeastMinute, PoolPositive]

  /** Sandboxes must live at least this many seconds. */
  const MinSandboxTimeout: int := 60

  predicate Holds(rule: Rule, s: Settings)
  {
    match rule
    case ApiKeySet => s.apiKey != ""
    case DomainSet => s.domain != ""
    case TemplateSet => s.template != ""
    case CountPositive => s.sandboxCount >= 1
    case ProcessesPositive => s.processCount >= 1
    case TimeoutAtLeastMinute => s.sandboxTimeout >= MinSandboxTimeout
    case PoolPositive => s.threadPoolSize >= 1
  }

  /** The setting a numeric rule quotes in its message. */
  function QuotedValue(rule: Rule, s: Settings): Option<int>
  {
    match rule
    case CountPositive => Some(s.sandboxCount)
    case ProcessesPositive => Some(s.processCount)
    case TimeoutAtLeastMinute => Some(s.sandboxTimeout)
    case PoolPositive => Some(s.threadPoolSize)
    case _ => None
  }

  /** The fixed text of a broken rule's message. */
  function MessageText(rule: Rule): string
  {
    match rule
    case ApiKeySet => "E2B_API_KEY not set, please configure in .env file"
    case DomainSet =>
      "E2B_DOMAIN not set, please configure in .env file (e.g., ap-guangzhou.tencentags.com)"
    case TemplateSet => "SANDBOX_TEMPLATE not set, please configure in .env file (e.g., mobile-v1)"
    case CountPositive => "SANDBOX_COUNT must be >= 1, current value: "
    case ProcessesPositive => "PROCESS_COUNT must be >= 1, current value: "
    case TimeoutAtLeastMinute => "SANDBOX_TIMEOUT must be >= 60 seconds, current value: "
    case PoolPositive => "THREAD_POOL_SIZE must be >= 1, current value: "
  }

  /** The message a broken rule contributes; numeric rules end with the
      current value of the setting they check. */
  function Message(rule: Rule, s: Settings): (m: string)
    ensures QuotedValue(rule, s).Some? ==>
      var v := IntToDecimal(QuotedValue(rule, s).value);
      |v| <= |m| && m[|m| - |v|..] == v
  {
    var head := MessageText(rule);
    match QuotedValue(rule, s)
    case None => head
    case Some(value) =>
      var digits := IntToDecimal(value);
      assert (head + digits)[|head + digits| - |digits|..] == digits;
      head + digits
  }

  /** The broken rules among `rules`, in rule order. */
  function Broken(rules: seq<Rule>, s: Settings): (broken: seq<Rule>)
    ensures |broken| <= |rules|
    ensures forall rule :: rule in broken <==> rule in rules && !Holds(rule, s)
  {
    if rules == [] then []
    else
      var rest := Broken(rules[1..], s);
      assert forall rule :: rule in rules <==> rule == rules[0] || rule in rules[1..];
      if Holds(rules[0], s) then rest else [rules[0]] + rest
  }

  /** The broken rules keep the order of `rules`: those of a first run of
      rules come before those of a second, and a single rule gives itself
      exactly when it fails. */
  lemma {:induction false} BrokenInRuleOrder(a: seq<Rule>, b: seq<Rule>, s: Settings)
    ensures Broken(a + b, s) == Broken(a, s) + Broken(b, s)
    ensures forall rule :: Broken([rule], s) == if Holds(rule, s) then [] else [rule]
  {
    if a != [] {
      assert (a + b)[0] == a[0] && (a + b)[1..] == a[1..] + b;
      BrokenInRuleOrder(a[1..], b, s);
    } else {
      assert a + b == b;
    }
    forall rule ensures Broken([rule], s) == if Holds(rule, s) then [] else [rule] {
      assert [rule][1..] == [];
    }
  }

  /** One message line per broken rule, in the same order. */
  function Messages(broken: seq<Rule>, s: Settings): (lines: seq<string>)
  {
    seq(|broken|, i requires 0 <= i < |broken| => Message(broken[i], s))
  }

  /** `"\n".join(lines)`. */
  function JoinLines(lines: seq<string>): (text: string)
    ensures |lines| == 1 ==> text == lines[0]
    ensures |lines| > 0 ==> lines[0] <= text
  {
    if lines == [] then ""
    else if |lines| == 1 then lines[0]
    else lines[0] + "\n" + JoinLines(lines[1..])
  }

  /** Where line `i` starts in `JoinLines(lines)`: after each earlier line and its newline. */
  function LineOffset(lines: seq<string>, i: nat): nat
    requires i < |lines|
  {
    if i == 0 then 0 else |lines[0]| + 1 + LineOffset(lines[1..], i - 1)
  }

  /** Every line appears whole in the joined text, at its offset. */
  lemma {:induction false} JoinHoldsEveryLine(lines: seq<string>, i: nat)
    requires i < |lines|
    ensures var k := LineOffset(lines, i);
      k + |lines[i]| <= |JoinLines(lines)| && JoinLines(lines)[k..k + |lines[i]|] == lines[i]
  {
    var text := JoinLines(lines);
    if i == 0 {
      assert lines[0] <= text;
      assert text[..|lines[0]|] == lines[0];
    } else {
      var rest := lines[1..];
      JoinHoldsEveryLine(rest, i - 1);
      var k0 := LineOffset(rest, i - 1);
      var head := lines[0] + "\n";
      assert text == head + JoinLines(rest);
      assert rest[i - 1] == lines[i];
      assert text[|head| + k0..|head| + k0 + |lines[i]|] == JoinLines(rest)[k0..k0 + |lines[i]|];
    }
  }

  /** What an accepted configuration is warned about. */
  datatype Warning =
    | LargeUnitCount(count: int)
    | MoreProcessesThanUnits

  function WarningText(w: Warning): string
  {
    match w
    case LargeUnitCount(count) =>
      "Warning: SANDBOX_COUNT=" + IntToDecimal(count) + " is large, may exceed quota limits"
    case MoreProcessesThanUnits =>
      "Warning: PROCESS_COUNT > SANDBOX_COUNT, will only start SANDBOX_COUNT processes"
  }

  /** Above this many units the quota warning is issued. */
  const LargeUnitThreshold: int := 100

  /** The warnings, in the order they are issued. */
  function Warnings(s: Settings): (ws: seq<Warning>)
    ensures LargeUnitCount(s.sandboxCount) in ws <==> s.sandboxCount > LargeUnitThreshold
    ensures MoreProcessesThanUnits in ws <==> s.processCount > 1 && s.sandboxCount < s.processCount
    ensures forall w :: w in ws ==> w == LargeUnitCount(s.sandboxCount) || w == MoreProcessesThanUnits
  {
    (if s.sandboxCount > LargeUnitThreshold then [LargeUnitCount(s.sandboxCount)] else [])
    + (if s.processCount > 1 && s.sandboxCount < s.processCount then [MoreProcessesThanUnits] else [])
  }

  datatype Outcome =
    | Accepted(warnings: seq<Warning>)
    | Rejected(broken: seq<Rule>, message: string)

  /** `_validate_config`: reject with every violation, or accept with the warnings. */
  function ValidateConfig(s: Settings): (r: Outcome)
    ensures r.Accepted? <==> forall rule :: rule in Rules ==> Holds(rule, s)
    ensures r.Accepted? ==> r.warnings == Warnings(s)
    ensures r.Rejected? ==> r.broken != [] && forall rule :: rule in r.broken <==> rule in Rules && !Holds(rule, s)
  {
    var broken := Broken(Rules, s);
    if broken != [] then
      assert broken[0] in broken;
      Rejected(broken, JoinLines(Messages(broken, s)))
    else
      assert forall rule :: rule in Rules ==> rule !in broken;
      Accepted(Warnings(s))
  }

  /** A configuration is rejected exactly when some rule is broken, and
      then the rejection names exactly the broken rules. */
  lemma RejectedIffRuleBroken(s: Settings)
    ensures ValidateConfig(s).Rejected? <==> exists rule :: rule in Rules && !Holds(rule, s)
    ensures ValidateConfig(s).Rejected? ==>
      forall rule :: rule in ValidateConfig(s).broken <==> !Holds(rule, s)
  {
    if ValidateConfig(s).Rejected? {
      assert Broken(Rules, s)[0] in Broken(Rules, s);
    }
    forall rule: Rule
      ensures rule in Rules
    {
      match rule
      case ApiKeySet => assert Rules[0] == rule;
      case DomainSet => assert Rules[1] == rule;
      case TemplateSet => assert Rules[2] == rule;
      case CountPositive => assert Rules[3] == rule;
      case ProcessesPositive => assert Rules[4] == rule;
      case TimeoutAtLeastMinute => assert Rules[5] == rule;
      case PoolPositive => assert Rules[6] == rule;
    }
  }

  /** The rejection message is the broken rules' messages, one per line,
      so it starts with the first broken rule's message. */
  lemma RejectionStartsWithFirstBroken(s: Settings)
    requires ValidateConfig(s).Rejected?
    ensures Message(ValidateConfig(s).broken[0], s) <= ValidateConfig(s).message
  {
    var broken := Broken(Rules, s);
    var lines := Messages(broken, s);
    assert lines[0] == Message(broken[0], s);
    assert ValidateConfig(s).message == JoinLines(lines);
  }

  /** Every broken rule's message is printed: the rejection message holds
      the `i`-th broken rule's message whole, on its own line. */
  lemma RejectionListsEveryBroken(s: Settings, i: nat)
    requires ValidateConfig(s).Rejected? && i < |ValidateConfig(s).broken|
    ensures var lines := Messages(ValidateConfig(s).broken, s);
      var k, m := LineOffset(lines, i), ValidateConfig(s).message;
      k + |Message(ValidateConfig(s).broken[i], s)| <= |m|
      && m[k..k + |Message(ValidateConfig(s).broken[i], s)|] == Message(ValidateConfig(s).broken[i], s)
  {
    var broken := Broken(Rules, s);
    var lines := Messages(broken, s);
    JoinHoldsEveryLine(lines, i);
    assert lines[i] == Message(broken[i], s);
  }

  /** An accepted configuration has a positive unit count and process
      count, so the work is split among `min(processCount, sandboxCount)`
      workers whose shares add up to the unit count; the process warning
      is issued exactly when fewer workers start than were requested. */
  lemma AcceptedSplitsWork(s: Settings)
    requires ValidateConfig(s).Accepted?
    ensures var counts := FanOut.SplitCounts(s.sandboxCount, s.processCount);
      |counts| == FanOut.Min(s.processCount, s.sandboxCount) &&
      FanOut.SumTo(counts, |counts|) == s.sandboxCount
    ensures MoreProcessesThanUnits in ValidateConfig(s).warnings
            <==> |FanOut.SplitCounts(s.sandboxCount, s.processCount)| < s.processCount
  {
    assert CountPositive in Rules && ProcessesPositive in Rules;
    FanOut.SplitSumsToTotal(s.sandboxCount, s.processCount);
  }
}
