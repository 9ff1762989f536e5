/** Shrinking a conversation (`compact_context` in `src/agent/runner.rs`, the
    estimates and trims in `src/session.rs`). The token calibration and the
    compaction ratio are rationals. */
module Compaction {
  import opened Wrappers
  import opened Bounded
  import opened Protocol
  import opened Conversation
  import CanonicalJson
  import Utf8

  // ---------------------------------------------------------------- estimates

  function CallsBytes(calls: seq<ToolCall>): nat {
    if calls == [] then 0
    else Utf8.Bytes(calls[0].name) + Utf8.Bytes(CanonicalJson.Canonical(calls[0].arguments)) + CallsBytes(calls[1..])
  }

  function ItemBytes(item: Item): nat {
    match item
    case Message(_, content) => Utf8.Bytes(content)
    case Context(_, content) => Utf8.Bytes(content)
    case ThinkingSummary(_) => 0
    case CompactionSummary(content) => Utf8.Bytes(content)
    case ProviderItem(value) => Utf8.Bytes(CanonicalJson.Canonical(value))
    case AssistantToolCalls(calls) => CallsBytes(calls)
    case ToolOutput(_, output) => Utf8.Bytes(output)
  }

  function ConversationBytes(items: seq<Item>): nat {
    Total(items, ItemBytes)
  }

  function TokensOf(bytes: nat): nat {
    if (bytes + 3) / 4 > 1 then (bytes + 3) / 4 else 1
  }

  function EstimateTokens(items: seq<Item>): nat {
    TokensOf(ConversationBytes(items))
  }

  /** Real usage over estimated usage, kept between one half and two. */
  datatype Ratio = Ratio(num: nat, den: nat)

  predicate IsCalibration(r: Ratio) {
    r.den > 0 && r.den <= 2 * r.num && r.num <= 2 * r.den
  }

  function CeilDiv(a: nat, b: nat): nat
    requires b > 0
  {
    (a + b - 1) / b
  }

  function Calibrated(tokens: nat, c: Ratio): nat
    requires IsCalibration(c)
  {
    CeilDiv(tokens * c.num, c.den)
  }

  function Cost(item: Item, c: Ratio): nat
    requires IsCalibration(c)
  {
    Calibrated(EstimateTokens([item]), c)
  }

  function CostBy(c: Ratio): Item -> nat
    requires IsCalibration(c)
  {
    item => Cost(item, c)
  }

  lemma CeilDivIs(a: nat, b: nat, q: nat)
    requires b > 0
    ensures CeilDiv(a, b) <= q <==> a <= q * b
  {
    var d := CeilDiv(a, b);
    assert d * b <= a + b - 1 < d * b + b;
    if d <= q {
      assert a <= d * b;
      assert d * b <= q * b;
    } else {
      assert (q + 1) * b <= d * b;
    }
  }

  lemma CalibratedAdds(x: nat, y: nat, c: Ratio)
    requires IsCalibration(c)
    ensures Calibrated(x + y, c) <= Calibrated(x, c) + Calibrated(y, c)
  {
    Distribute(x, y, c.num);
    CeilDivAdds(x * c.num, y * c.num, c.den);
  }

  lemma CeilDivAdds(a: nat, b: nat, d: nat)
    requires d > 0
    ensures CeilDiv(a + b, d) <= CeilDiv(a, d) + CeilDiv(b, d)
  {
    var p, q := CeilDiv(a, d), CeilDiv(b, d);
    CeilDivIs(a, d, p);
    CeilDivIs(b, d, q);
    Distribute(p, q, d);
    CeilDivIs(a + b, d, p + q);
  }

  lemma CalibratedGrows(x: nat, y: nat, c: Ratio)
    requires IsCalibration(c) && x <= y
    ensures Calibrated(x, c) <= Calibrated(y, c)
  {
    var q := Calibrated(y, c);
    CeilDivIs(y * c.num, c.den, q);
    Grows(x, y, c.num);
    CeilDivIs(x * c.num, c.den, q);
  }

  /** Estimating a suffix as a whole never exceeds the sum over its items. */
  lemma {:induction false} JointEstimateIsLess(items: seq<Item>, c: Ratio)
    requires IsCalibration(c) && items != []
    ensures Calibrated(EstimateTokens(items), c) <= Total(items, CostBy(c))
  {
    var first, rest := items[0], items[1..];
    assert ConversationBytes(items) == ItemBytes(first) + ConversationBytes(rest);
    assert [first][1..] == [];
    assert Total([first], ItemBytes) == ItemBytes(first) + Total([first][1..], ItemBytes);
    if rest == [] {
      assert items == [first];
      assert Total(rest, CostBy(c)) == 0;
    } else {
      JointEstimateIsLess(rest, c);
      CalibratedAdds(EstimateTokens([first]), EstimateTokens(rest), c);
      CalibratedGrows(EstimateTokens(items), EstimateTokens([first]) + EstimateTokens(rest), c);
    }
  }

  // ------------------------------------------------------------------ the cut

  /** Moves `cut` back to a user message or the start; the end stays. */
  function CutBack(items: seq<Item>, cut: nat): (r: nat)
    requires cut <= |items|
    ensures r <= cut
  {
    if cut == 0 || cut == |items| || IsUserMessage(items[cut]) then cut else CutBack(items, cut - 1)
  }

  /** Where the longest suffix begins whose summed estimates fit the budget. */
  function RecentStart(items: seq<Item>, budget: nat, c: Ratio): (r: nat)
    requires IsCalibration(c)
    ensures r <= |items| && IsLongestFit(items, r, CostBy(c), |items|, budget)
  {
    NewestIsLongestFit(items, CostBy(c), |items|, budget);
    |items| - |Newest(items, CostBy(c), |items|, budget)|
  }

  /** Where `compact_context` cuts: the two backward walks. */
  method FindCut(items: seq<Item>, budget: nat, c: Ratio) returns (cut: nat)
    requires IsCalibration(c)
    ensures cut == CutBack(items, RecentStart(items, budget, c))
  {
    cut := |items|;
    var total := 0;
    while cut > 0
      invariant cut <= |items|
      invariant total == Total(items[cut..], CostBy(c)) <= budget
    {
      var size := Calibrated(EstimateTokens(items[cut - 1..cut]), c);
      assert items[cut - 1..cut] == [items[cut - 1]];
      assert items[cut - 1..][0] == items[cut - 1] && items[cut - 1..][1..] == items[cut..];
      if total + size > budget {
        NoLongerFit(items, cut, c, budget);
        break;
      }
      total := total + size;
      cut := cut - 1;
    }
    ghost var recent := cut;
    LongestFitIsUnique(items, recent, RecentStart(items, budget, c), CostBy(c), |items|, budget);
    while cut > 0 && cut < |items| && !IsUserMessage(items[cut])
      invariant cut <= recent && CutBack(items, cut) == CutBack(items, recent)
    {
      cut := cut - 1;
    }
  }

  lemma NoLongerFit(items: seq<Item>, cut: nat, c: Ratio, budget: nat)
    requires IsCalibration(c) && 0 < cut <= |items| && Total(items[cut - 1..], CostBy(c)) > budget
    ensures forall j :: 0 <= j < cut ==> !Fits(items[j..], CostBy(c), |items|, budget)
  {
    forall j | 0 <= j < cut ensures !Fits(items[j..], CostBy(c), |items|, budget) {
      assert items[j..] == items[j..cut - 1] + items[cut - 1..];
      TotalConcat(items[j..cut - 1], items[cut - 1..], CostBy(c));
    }
  }

  /** The recent part the first walk finds also fits the budget jointly. */
  lemma RecentFitsJointly(items: seq<Item>, budget: nat, c: Ratio)
    requires IsCalibration(c)
    ensures var recent := RecentStart(items, budget, c);
      recent < |items| ==> Calibrated(EstimateTokens(items[recent..]), c) <= budget
  {
    var recent := RecentStart(items, budget, c);
    if recent < |items| {
      JointEstimateIsLess(items[recent..], c);
    }
  }

  /** The second walk stops at the nearest user message at or before, the start,
      or leaves the end. */
  lemma {:induction false} CutBackStops(items: seq<Item>, cut: nat)
    requires cut <= |items|
    ensures var k := CutBack(items, cut);
      && k <= cut
      && (k == 0 || k == |items| || IsUserMessage(items[k]))
      && (cut < |items| ==> k < |items| && forall j :: k < j <= cut ==> !IsUserMessage(items[j]))
      && (cut == |items| ==> k == cut)
  {
    if cut != 0 && cut != |items| && !IsUserMessage(items[cut]) {
      CutBackStops(items, cut - 1);
    }
  }

  /** Call `j` of item `i` is answered by item `k`. */
  predicate Pair(items: seq<Item>, i: nat, j: nat, k: nat) {
    && i < k < |items| && items[i].AssistantToolCalls? && j < |items[i].calls|
    && items[k].ToolOutput? && items[k].callId == items[i].calls[j].id
  }

  /** If no user message lies between a call and its output, the cut does not
      come between them either. */
  lemma CutSplitsNoPair(items: seq<Item>, cut: nat, i: nat, j: nat, k: nat)
    requires cut <= |items| && Pair(items, i, j, k)
    requires forall m :: i < m < k ==> !IsUserMessage(items[m])
    ensures !(i < CutBack(items, cut) <= k)
  {
    CutBackStops(items, cut);
  }

  // --------------------------------------------------------------- compaction

  /** `target` and `capacity` are the window's target share and safe input
      capacity; `None` means the model window is unknown. */
  datatype Settings = Settings(
    window: Option<nat>, target: nat, preserve: Option<nat>, calibration: Ratio, capacity: Option<nat>, maxRetries: nat)

  /** What the summary request and the storage update come to. */
  datatype Outcome = Summarized(text: string, hidden: nat) | EmptySummary | StreamFailed(error: string) | StorageFailed(error: string)

  const NO_ROOM := "compaction target leaves no room for recent context"

  function Reason(outcome: Outcome): string {
    match outcome
    case StreamFailed(error) => error
    case StorageFailed(error) => error
    case EmptySummary => "compaction returned an empty summary"
    case Summarized(_, _) => ""
  }

  function RecentBudget(s: Settings): nat
    requires s.window.Some?
  {
    var quarter := s.window.value / 4;
    var wanted := if s.preserve.Some? then s.preserve.value
      else if quarter < 4000 then 4000 else if quarter > 16000 then 16000 else quarter;
    var room := if s.target > 1024 then s.target - 1024 else 0;
    if wanted < room then wanted else room
  }

  /** A conversation whose first `k` items give way to one new item. */
  function Replaced(items: seq<Item>, first: Item, k: nat): seq<Item>
    requires k <= |items|
  {
    [first] + items[k..]
  }

  /** What compaction sets out to do. */
  datatype Plan = NothingToDo | NoRoom | CutAt(cut: nat)

  function PlanFor(items: seq<Item>, s: Settings): (p: Plan)
    requires IsCalibration(s.calibration)
    ensures p.CutAt? ==> 0 < p.cut <= |items|
  {
    if s.window.None? then NothingToDo
    else if RecentBudget(s) == 0 then NoRoom
    else
      var cut := CutBack(items, RecentStart(items, RecentBudget(s), s.calibration));
      if cut == 0 then NothingToDo else CutAt(cut)
  }

  /** Replaces everything before the cut by a summary, or changes nothing. */
  method CompactContext(items: seq<Item>, s: Settings, outcome: Outcome)
    returns (r: Result<nat, string>, after: seq<Item>, events: seq<Event>)
    requires IsCalibration(s.calibration)
    ensures match PlanFor(items, s)
      case NothingToDo => r == Ok(0) && after == items && events == []
      case NoRoom => r.Err? && after == items && events == []
      case CutAt(cut) =>
        match outcome
        case Summarized(text, hidden) =>
          && r == Ok(hidden) && after == Replaced(items, CompactionSummary(text), cut)
          && events == [CompactionStarted, CompactionCompleted(hidden)]
        case _ => r.Err? && r.error == Reason(outcome) && after == items && events == [CompactionStarted]
    ensures PlanFor(items, s).NoRoom? ==> r == Err(NO_ROOM)
  {
    after, events := items, [];
    if s.window.None? {
      return Ok(0), after, events;
    }
    if RecentBudget(s) == 0 {
      return Err(NO_ROOM), after, events;
    }
    var cut := FindCut(items, RecentBudget(s), s.calibration);
    if cut == 0 {
      return Ok(0), after, events;
    }
    events := [CompactionStarted];
    match outcome {
      case StreamFailed(error) => return Err(error), after, events;
      case EmptySummary => return Err("compaction returned an empty summary"), after, events;
      case StorageFailed(error) => return Err(error), after, events;
      case Summarized(text, hidden) =>
        after := [CompactionSummary(text)] + items[cut..];
        events := events + [CompactionCompleted(hidden)];
        r := Ok(hidden);
    }
  }

  // --------------------------------------------------------------------- trim

  /** The first position from which the rest is within the budget. */
  function FirstFit(items: seq<Item>, budget: nat, from: nat := 0): (r: nat)
    requires from <= |items|
    ensures from <= r <= |items|
    decreases |items| - from
  {
    if from == |items| || EstimateTokens(items[from..]) <= budget then from else FirstFit(items, budget, from + 1)
  }

  function DropOutputs(items: seq<Item>): seq<Item> {
    if items != [] && items[0].ToolOutput? then DropOutputs(items[1..]) else items
  }

  function Decimal(n: nat): string {
    if n < 10 then ["0123456789"[n]] else Decimal(n / 10) + ["0123456789"[n % 10]]
  }

  function TrimNote(removed: nat): Item {
    Message(System, "Earlier context was trimmed to fit the model's input budget (" + Decimal(removed) + " items omitted).")
  }

  /** What is left of the conversation, before the note. */
  function TrimmedRest(items: seq<Item>, budget: nat): seq<Item> {
    DropOutputs(items[FirstFit(items, budget)..])
  }

  function Trimmed(items: seq<Item>, budget: nat): seq<Item> {
    var rest := TrimmedRest(items, budget);
    if |items| > |rest| then [TrimNote(|items| - |rest|)] + rest else items
  }

  /** `trim_conversation_to_budget`: removes from the front, then the outputs
      that lost their call, and leaves a note if anything went. */
  method TrimToBudget(items: seq<Item>, budget: nat) returns (after: seq<Item>, removed: nat)
    ensures after == Trimmed(items, budget) && removed == |items| - |TrimmedRest(items, budget)|
  {
    after, removed := items, 0;
    assert items[0..] == items;
    while after != []
      invariant removed <= |items| && after == items[removed..]
      invariant FirstFit(items, budget) == FirstFit(items, budget, removed)
      decreases |after|
    {
      if EstimateTokens(after) <= budget {
        break;
      }
      after := after[1..];
      removed := removed + 1;
    }
    while after != [] && after[0].ToolOutput?
      invariant removed <= |items| && after == items[removed..]
      invariant DropOutputs(after) == TrimmedRest(items, budget)
      decreases |after|
    {
      after := after[1..];
      removed := removed + 1;
    }
    if removed > 0 {
      after := [TrimNote(removed)] + after;
    }
  }

  lemma {:induction false} DropOutputsIsSuffix(items: seq<Item>)
    ensures |DropOutputs(items)| <= |items| && DropOutputs(items) == items[|items| - |DropOutputs(items)|..]
    ensures DropOutputs(items) == [] || !DropOutputs(items)[0].ToolOutput?
    ensures ConversationBytes(DropOutputs(items)) <= ConversationBytes(items)
  {
    if items != [] && items[0].ToolOutput? {
      DropOutputsIsSuffix(items[1..]);
    }
  }

  lemma {:induction false} FirstFitStops(items: seq<Item>, budget: nat, from: nat)
    requires from <= |items|
    ensures var r := FirstFit(items, budget, from);
      && (r == |items| || EstimateTokens(items[r..]) <= budget)
      && forall j :: from <= j < r ==> EstimateTokens(items[j..]) > budget
    decreases |items| - from
  {
    if from < |items| && EstimateTokens(items[from..]) > budget {
      FirstFitStops(items, budget, from + 1);
    }
  }

  /** Trimming leaves a suffix, which fits the budget and begins with no
      orphaned output, behind a note that counts what went. */
  lemma TrimFits(items: seq<Item>, budget: nat)
    ensures var rest := TrimmedRest(items, budget);
      && |rest| <= |items| && rest == items[|items| - |rest|..]
      && (rest == [] || (!rest[0].ToolOutput? && EstimateTokens(rest) <= budget))
      && (items != [] && EstimateTokens(items) <= budget && !items[0].ToolOutput? ==> Trimmed(items, budget) == items)
  {
    FirstFitStops(items, budget, 0);
    DropOutputsIsSuffix(items[FirstFit(items, budget)..]);
    assert items[0..] == items;
  }

  // -------------------------------------------------- when shrinking shrinks

  lemma ReplacedBytes(items: seq<Item>, first: Item, k: nat)
    requires k <= |items|
    ensures ConversationBytes(Replaced(items, first, k)) == ItemBytes(first) + ConversationBytes(items[k..])
    ensures ConversationBytes(items) == ConversationBytes(items[..k]) + ConversationBytes(items[k..])
  {
    assert Replaced(items, first, k)[1..] == items[k..];
    assert items == items[..k] + items[k..];
    TotalConcat(items[..k], items[k..], ItemBytes);
  }

  /** The new item makes the estimate smaller. */
  predicate Pays(items: seq<Item>, first: Item, k: nat)
    requires k <= |items|
  {
    var kept := ConversationBytes(items[k..]);
    TokensOf(ItemBytes(first) + kept) < TokensOf(ConversationBytes(items[..k]) + kept)
  }

  lemma TokensGrow(a: nat, b: nat)
    ensures a <= b ==> TokensOf(a) <= TokensOf(b)
    ensures a + 4 <= b && b > 4 ==> TokensOf(a) < TokensOf(b)
    ensures TokensOf(a) < TokensOf(b) ==> a < b
  {
  }

  /** The exact condition, for the bytes and for the estimate: the new item
      against what it replaces. At equal tokens a byte saved saves nothing, and
      an estimate of one token cannot become smaller. */
  lemma ReplacingShrinksIff(items: seq<Item>, first: Item, k: nat)
    requires k <= |items|
    ensures var after := Replaced(items, first, k);
      && (ConversationBytes(after) < ConversationBytes(items) <==> ItemBytes(first) < ConversationBytes(items[..k]))
      && (EstimateTokens(after) < EstimateTokens(items) <==> Pays(items, first, k))
      && (EstimateTokens(after) < EstimateTokens(items) ==> ItemBytes(first) < ConversationBytes(items[..k]))
      && (ItemBytes(first) + 4 <= ConversationBytes(items[..k]) && ConversationBytes(items) > 4
        ==> EstimateTokens(after) < EstimateTokens(items))
  {
    ReplacedBytes(items, first, k);
    TokensGrow(ItemBytes(first) + ConversationBytes(items[k..]), ConversationBytes(items));
  }

  lemma TrimmedIs(items: seq<Item>, budget: nat)
    ensures var k := |items| - |TrimmedRest(items, budget)|;
      && 0 <= k <= |items| && items[k..] == DropOutputs(items[FirstFit(items, budget)..])
      && Trimmed(items, budget) == if k == 0 then items else Replaced(items, TrimNote(k), k)
  {
    TrimFits(items, budget);
  }

  /** Trimming makes the conversation smaller if and only if something went and
      the note is smaller than what went. */
  lemma TrimShrinksIff(items: seq<Item>, budget: nat)
    ensures var k, after := |items| - |TrimmedRest(items, budget)|, Trimmed(items, budget);
      && 0 <= k <= |items|
      && (ConversationBytes(after) < ConversationBytes(items) <==>
        k > 0 && ItemBytes(TrimNote(k)) < ConversationBytes(items[..k]))
      && (EstimateTokens(after) < EstimateTokens(items) <==> k > 0 && Pays(items, TrimNote(k), k))
  {
    TrimmedIs(items, budget);
    var k := |items| - |TrimmedRest(items, budget)|;
    ReplacingShrinksIff(items, TrimNote(k), k);
  }

  /** Four bytes more than the note are enough. */
  lemma LargeTrimShrinks(items: seq<Item>, budget: nat)
    requires var k := |items| - |TrimmedRest(items, budget)|;
      0 < k <= |items| && ItemBytes(TrimNote(k)) + 4 <= ConversationBytes(items[..k])
    ensures EstimateTokens(Trimmed(items, budget)) < EstimateTokens(items)
  {
    TrimmedIs(items, budget);
    var k := |items| - |TrimmedRest(items, budget)|;
    NoteIsLong(k);
    ReplacedBytes(items, TrimNote(k), k);
    ReplacingShrinksIff(items, TrimNote(k), k);
  }

  lemma NoteIsLong(k: nat)
    ensures ItemBytes(TrimNote(k)) > 4
  {
    BytesOfAscii(TrimNote(k).content);
  }

  /** Compaction makes the conversation smaller if and only if the summary is
      smaller than the prefix it replaces. */
  lemma CompactionShrinksIff(items: seq<Item>, s: Settings, text: string)
    requires IsCalibration(s.calibration) && PlanFor(items, s).CutAt?
    ensures var k := PlanFor(items, s).cut;
      var after := Replaced(items, CompactionSummary(text), k);
      && (ConversationBytes(after) < ConversationBytes(items) <==> Utf8.Bytes(text) < ConversationBytes(items[..k]))
      && (EstimateTokens(after) < EstimateTokens(items) <==> Pays(items, CompactionSummary(text), k))
  {
    ReplacingShrinksIff(items, CompactionSummary(text), PlanFor(items, s).cut);
  }

  /** The calibrated estimate, which the overflow recovery compares, can only
      become smaller when the plain one does, and does so if that drops by two
      tokens or, with a factor of at least one, by any. */
  lemma CalibratedShrinks(before: nat, after: nat, c: Ratio)
    requires IsCalibration(c)
    ensures Calibrated(after, c) < Calibrated(before, c) ==> after < before
    ensures after + 2 <= before ==> Calibrated(after, c) < Calibrated(before, c)
    ensures after < before && c.num >= c.den ==> Calibrated(after, c) < Calibrated(before, c)
  {
    if before <= after {
      CalibratedGrows(before, after, c);
    } else {
      CalibratedDrop(before, after, c);
    }
  }

  /** The exact condition for the calibrated estimate. */
  lemma CalibratedShrinksIff(before: nat, after: nat, c: Ratio)
    requires IsCalibration(c)
    ensures Calibrated(after, c) < Calibrated(before, c) <==> before * c.num > Calibrated(after, c) * c.den
  {
    CeilDivIs(before * c.num, c.den, Calibrated(after, c));
  }

  /** `Pays` at the calibration: what the overflow recovery goes by. */
  predicate CalibratedPays(items: seq<Item>, first: Item, k: nat, c: Ratio)
    requires k <= |items| && IsCalibration(c)
  {
    var kept := ConversationBytes(items[k..]);
    Calibrated(TokensOf(ItemBytes(first) + kept), c) < Calibrated(TokensOf(ConversationBytes(items[..k]) + kept), c)
  }

  /** It asks at least as much as `Pays`, and the same at factors from one up. */
  lemma CalibratedPaysMeans(items: seq<Item>, first: Item, k: nat, c: Ratio)
    requires k <= |items| && IsCalibration(c)
    ensures CalibratedPays(items, first, k, c) ==> Pays(items, first, k)
    ensures CalibratedPays(items, first, k, c) ==> ItemBytes(first) < ConversationBytes(items[..k])
    ensures c.num >= c.den ==> (CalibratedPays(items, first, k, c) <==> Pays(items, first, k))
  {
    var kept := ConversationBytes(items[k..]);
    CalibratedShrinks(TokensOf(ConversationBytes(items[..k]) + kept), TokensOf(ItemBytes(first) + kept), c);
    TokensGrow(ItemBytes(first) + kept, ConversationBytes(items[..k]) + kept);
  }

  lemma CalibratedDrop(before: nat, after: nat, c: Ratio)
    requires IsCalibration(c) && after < before
    ensures after + 2 <= before || c.num >= c.den ==> Calibrated(after, c) < Calibrated(before, c)
  {
    var q, d := Calibrated(after, c), before - after;
    CeilIsTight(after * c.num, c.den);
    Distribute(after, d, c.num);
    if after + 2 <= before {
      Grows(2, d, c.num);
    } else {
      Grows(1, d, c.num);
    }
    CalibratedShrinksIff(before, after, c);
  }

  lemma CeilIsTight(a: nat, b: nat)
    requires b > 0
    ensures CeilDiv(a, b) * b < a + b
  {
  }

  lemma Distribute(x: nat, y: nat, n: nat)
    ensures (x + y) * n == x * n + y * n
  {
  }

  lemma Grows(x: nat, y: nat, n: nat)
    requires x <= y
    ensures x * n <= y * n
  {
  }

  /** Neither step of the overflow recovery is sure to shrink the estimate, as
      a comment in the run loop has it. The note can outweigh what was trimmed. */
  lemma TrimCanGrow()
    ensures var items := [Message(User, "hello")];
      EstimateTokens(Trimmed(items, 1)) > EstimateTokens(items) > 1
  {
    var items := [Message(User, "hello")];
    TrimOfOne(items[0]);
    BytesOfAscii("hello");
    BytesOfOne(items[0]);
    BytesOfAscii(TrimNote(1).content);
    BytesOfOne(TrimNote(1));
  }

  lemma BytesOfOne(item: Item)
    ensures ConversationBytes([item]) == ItemBytes(item)
  {
    assert [item][1..] == [];
    assert Total([item], ItemBytes) == ItemBytes(item) + Total([item][1..], ItemBytes);
  }

  /** A single item that does not fit goes. */
  lemma TrimOfOne(item: Item)
    ensures EstimateTokens([item]) > 1 ==> Trimmed([item], 1) == [TrimNote(1)]
  {
    var items := [item];
    assert items[0..] == items && items[1..] == [];
    if EstimateTokens([item]) > 1 {
      assert FirstFit(items, 1) == FirstFit(items, 1, 1) == 1;
      assert [TrimNote(1)] + [] == [TrimNote(1)];
    }
  }

  /** And a summary longer than what it replaces makes compaction grow it, for
      every conversation that is compacted. */
  lemma CompactionCanGrow(items: seq<Item>, s: Settings, text: string)
    requires IsCalibration(s.calibration) && PlanFor(items, s).CutAt?
    requires Utf8.Bytes(text) >= ConversationBytes(items[..PlanFor(items, s).cut])
    ensures EstimateTokens(Replaced(items, CompactionSummary(text), PlanFor(items, s).cut)) >= EstimateTokens(items)
  {
    ReplacingShrinksIff(items, CompactionSummary(text), PlanFor(items, s).cut);
  }

  lemma {:induction false} BytesOfAscii(s: string)
    ensures Utf8.Bytes(s) >= |s|
    ensures (forall i :: 0 <= i < |s| ==> s[i] as int < 0x80) ==> Utf8.Bytes(s) == |s|
  {
    if s != [] {
      BytesOfAscii(s[1..]);
    }
  }
}
