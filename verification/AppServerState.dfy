/** What the adapter remembers of the server: the account, rate limits and token usage.

    Notifications are sparse patches merged into what is known; full reads replace it.
 */
module AppServerState {
  import opened Common
  import opened Usage
  import opened Activity
  import opened Strings
  import opened Json

  // ---------------------------------------------------------------- account

  datatype Account = Account(fields: Members, requiresOpenaiAuth: Option<bool>)

  const NO_ACCOUNT := Account(map[], None)

  const AUTH_KEYS := ["requiresOpenaiAuth", "requires_openai_auth"]

  function FoundBool(value: Value, keys: seq<string>): Option<bool> {
    var found := FindValue(value, keys);
    if found.Some? then AsBool(found.value) else None
  }

  function MergedAccount(existing: Account, update: Value): Account {
    var auth, patch := FoundBool(update, AUTH_KEYS), NestedObject(update, "account");
    Account(if patch.Some? then Merged(existing.fields, Object(patch.value)) else existing.fields,
            if auth.Some? then auth else existing.requiresOpenaiAuth)
  }

  function ReadAccount(response: Value): Account {
    var found := FindValue(response, ["account"]);
    Account(if found.Some? && found.value.Object? then found.value.members else map[], FoundBool(response, AUTH_KEYS))
  }

  // ---------------------------------------------------------------- rate limits

  const U32_MAX: nat := 0xFFFF_FFFF

  datatype Window = Window(usedPercent: real, minutes: nat, resetsAt: Option<int>)

  datatype RateLimitsState = RateLimitsState(
    primary: Option<Window>,
    secondary: Option<Window>,
    updatedAt: Option<int>,
    raw: Members,
    resetCredits: Option<Value>)

  const NO_LIMITS := RateLimitsState(None, None, None, map[], None)

  function RealField(entries: Members, keys: seq<string>): Option<real> {
    var found := Field(entries, keys);
    if found.Some? then AsReal(found.value) else None
  }

  function U32Field(entries: Members, keys: seq<string>): Option<nat> {
    var found := Field(entries, keys);
    if found.Some? && AsU64(found.value).Some? && found.value.number <= U32_MAX then Some(found.value.number) else None
  }

  function I64Field(entries: Members, keys: seq<string>): Option<int> {
    var found := Field(entries, keys);
    if found.Some? then AsI64(found.value) else None
  }

  function Else<T>(first: Option<T>, second: T): T { if first.Some? then first.value else second }

  /** A window patch: missing, null or unreadable fields keep what is known. */
  function MergedWindow(existing: Option<Window>, value: Option<Value>): Option<Window> {
    if value.None? || !value.value.Object? then existing
    else
      var patch := value.value.members;
      var known := Else(existing, Window(0.0, 0, None));
      var resets := I64Field(patch, ["resetsAt", "resets_at", "resetsAtUnix", "resets_at_unix"]);
      Some(Window(Else(RealField(patch, ["usedPercent", "used_percent"]), known.usedPercent),
                  Else(U32Field(patch, ["windowDurationMins", "window_duration_mins"]), known.minutes),
                  if resets.Some? then resets else known.resetsAt))
  }

  function LimitsPatch(update: Value): Option<Members> {
    var found := NestedObject(update, "rateLimits");
    if found.Some? then found else NestedObject(update, "rate_limits")
  }

  const UPDATED_KEYS := ["updatedAt", "updated_at"]

  function MergedLimits(existing: RateLimitsState, update: Value): RateLimitsState {
    var found := LimitsPatch(update);
    if found.None? then existing
    else
      var patch := found.value;
      var updated := I64Field(patch, UPDATED_KEYS);
      RateLimitsState(
        MergedWindow(existing.primary, Entry(patch, "primary")),
        MergedWindow(existing.secondary, Entry(patch, "secondary")),
        if updated.Some? then updated else existing.updatedAt,
        Merged(existing.raw, Object(patch)),
        existing.resetCredits)
  }

  function Payload(value: Value): Option<Members> {
    if !value.Object? then None
    else if "result" in value.members && value.members["result"].Object? then Some(value.members["result"].members)
    else if "params" in value.members && value.members["params"].Object? then Some(value.members["params"].members)
    else Some(value.members)
  }

  /** The first of the keys that holds text, unless that text is blank. */
  function TextField(entries: Members, keys: seq<string>): Option<string> {
    if keys == [] then None
    else if keys[0] in entries && entries[keys[0]].Text? then
      if IsBlank(entries[keys[0]].text) then None else Some(entries[keys[0]].text)
    else TextField(entries, keys[1..])
  }

  predicate SameIgnoringCase(a: string, b: string) {
    |a| == |b| && forall i :: 0 <= i < |a| ==> Lower(a[i]) == Lower(b[i])
  }

  predicate NamesCodex(value: Value) {
    value.Object? && var name := TextField(value.members, ["limitId", "limit_id"]);
    name.Some? && SameIgnoringCase(name.value, "codex")
  }

  /** The limits of Codex among several, or the only ones there are. */
  ghost function PreferredLimits(response: Value): Option<Members> {
    var payload := Payload(response);
    if payload.None? then None
    else
      var table := Field(payload.value, ["rateLimitsByLimitId", "rate_limits_by_limit_id"]);
      var byId := if table.Some? && table.value.Object? then table.value.members else map[];
      var named := set k | k in byId && NamesCodex(byId[k]);
      if "codex" in byId && byId["codex"].Object? then Some(byId["codex"].members)
      else if named != {} then Some(byId[First(named)].members)
      else
        var only := Field(payload.value, ["rateLimits", "rate_limits"]);
        if only.Some? then AsMembers(only.value) else None
  }

  /** A full read: windows it omits do not exist any more. */
  ghost function ReadLimits(response: Value): Option<RateLimitsState> {
    var found := PreferredLimits(response);
    if found.None? then None
    else Some(RateLimitsState(
                MergedWindow(None, Entry(found.value, "primary")),
                MergedWindow(None, Entry(found.value, "secondary")),
                I64Field(found.value, UPDATED_KEYS),
                found.value,
                FindValue(response, ["rateLimitResetCredits", "rate_limit_reset_credits"])))
  }

  // ---------------------------------------------------------------- token usage

  datatype TokenState = TokenState(
    thread: Option<string>,
    counts: TokenCounts,
    last: Option<TokenCounts>,
    contextWindow: Option<u64>,
    observedAt: Option<int>,
    raw: Members)

  const NO_COUNTS := TokenCounts(None, None, None, None, None, None)

  const NO_TOKENS := TokenState(None, NO_COUNTS, None, None, None, map[])

  /** The first of the keys that holds a count; otherwise what is known. */
  function MergedNumber(known: Option<u64>, entries: Members, keys: seq<string>): Option<u64> {
    if keys == [] then known
    else if keys[0] in entries && AsU64(entries[keys[0]]).Some? then AsU64(entries[keys[0]])
    else MergedNumber(known, entries, keys[1..])
  }

  function MergedCounts(known: TokenCounts, entries: Members): TokenCounts {
    TokenCounts(
      MergedNumber(known.input, entries, ["inputTokens", "input_tokens"]),
      MergedNumber(known.cachedInput, entries, ["cachedInputTokens", "cached_input_tokens"]),
      MergedNumber(known.cacheWriteInput, entries, ["cacheWriteInputTokens", "cache_write_input_tokens"]),
      MergedNumber(known.output, entries, ["outputTokens", "output_tokens"]),
      MergedNumber(known.reasoningOutput, entries, ["reasoningOutputTokens", "reasoning_output_tokens"]),
      MergedNumber(known.total, entries, ["totalTokens", "total_tokens"]))
  }

  function TextOf(entries: Members, keys: seq<string>): Option<string> {
    var found := Field(entries, keys);
    if found.Some? then AsText(found.value) else None
  }

  function MembersOf(entries: Members, keys: seq<string>): Option<Members> {
    var found := Field(entries, keys);
    if found.Some? then AsMembers(found.value) else None
  }

  function EntryMembers(entries: Members, key: string): Option<Members> {
    if key in entries then AsMembers(entries[key]) else None
  }

  const LAST_KEYS := ["last", "lastTokenUsage", "last_token_usage"]

  const THREAD_KEYS := ["threadId", "thread_id"]

  function OuterThread(update: Value): Option<string> {
    if !update.Object? then None
    else
      var inParams := if "params" in update.members && update.members["params"].Object?
                      then TextOf(update.members["params"].members, THREAD_KEYS) else None;
      if inParams.Some? then inParams else TextOf(update.members, THREAD_KEYS)
  }

  function TokenPatch(update: Value): Option<Members> {
    var first, second := NestedObject(update, "tokenUsage"), NestedObject(update, "token_usage");
    if first.Some? then first
    else if second.Some? then second
    else if !update.Object? then None
    else if "params" in update.members && update.members["params"].Object? then Some(update.members["params"].members)
    else Some(update.members)
  }

  /** Later layers win: the object itself, then `usage` in it, then the running total in it. */
  function LayeredCounts(known: TokenCounts, patch: Members): TokenCounts {
    var usage, total := EntryMembers(patch, "usage"),
      MembersOf(patch, ["total", "totalTokenUsage", "total_token_usage"]);
    var outer := MergedCounts(known, patch);
    var middle := if usage.Some? then MergedCounts(outer, usage.value) else outer;
    if total.Some? then MergedCounts(middle, total.value) else middle
  }

  function MergedTokens(existing: Option<TokenState>, update: Value): Option<TokenState> {
    var found := TokenPatch(update);
    if found.None? then existing
    else
      var patch, known := found.value, Else(existing, NO_TOKENS);
      var outer, inner := OuterThread(update), TextOf(patch, THREAD_KEYS);
      var last := MembersOf(patch, LAST_KEYS);
      Some(TokenState(
             if inner.Some? then inner else if outer.Some? then outer else known.thread,
             LayeredCounts(known.counts, patch),
             if last.Some? then Some(MergedCounts(Else(known.last, NO_COUNTS), last.value)) else known.last,
             MergedNumber(known.contextWindow, patch, ["modelContextWindow", "model_context_window"]),
             known.observedAt,
             Merged(known.raw, Object(patch))))
  }

  // ---------------------------------------------------------------- activity

  datatype ActivityEvent = ActivityEvent(state: ActivityState, thread: Option<string>)

  datatype ActivityRecord = ActivityRecord(event: ActivityEvent, observedAt: int)

  const TERMINAL_NOTICE_MS: int := 10_000

  predicate IsTerminal(state: ActivityState) { state.Idle? || state.Completed? || state.Failed? }

  /** A thread that has ended counts for ten more seconds. */
  predicate StillCounts(r: ActivityRecord, now: int) {
    !IsTerminal(r.event.state) || now - r.observedAt <= TERMINAL_NOTICE_MS
  }

  function CountedStates(threads: map<string, ActivityRecord>, now: int): set<ActivityState> {
    set t | t in threads && StillCounts(threads[t], now) :: threads[t].event.state
  }

  /** The most urgent of all threads that count; without any, the last thing heard. */
  function AggregatedActivity(last: Option<ActivityEvent>, threads: map<string, ActivityRecord>,
                              now: int): Option<ActivityState> {
    var states := CountedStates(threads, now);
    if states != {} then Some(Highest(states)) else if last.Some? then Some(last.value.state) else None
  }

  // ---------------------------------------------------------------- what sparse means

  lemma {:induction false} NumberTwice(known: Option<u64>, entries: Members, keys: seq<string>)
    ensures MergedNumber(MergedNumber(known, entries, keys), entries, keys) == MergedNumber(known, entries, keys)
    ensures MergedNumber(known, entries, keys).None? ==> known.None?
  {
    if keys != [] { NumberTwice(known, entries, keys[1..]); }
  }

  lemma WindowTwice(existing: Option<Window>, value: Option<Value>)
    ensures MergedWindow(MergedWindow(existing, value), value) == MergedWindow(existing, value)
    ensures existing.Some? ==> MergedWindow(existing, value).Some?
  {}

  /** A rate-limit notification received twice changes nothing the second time. */
  lemma LimitsTwice(existing: RateLimitsState, update: Value)
    ensures MergedLimits(MergedLimits(existing, update), update) == MergedLimits(existing, update)
  {
    var found := LimitsPatch(update);
    if found.Some? {
      WindowTwice(existing.primary, Entry(found.value, "primary"));
      WindowTwice(existing.secondary, Entry(found.value, "secondary"));
      MergingTwice(existing.raw, Object(found.value));
    }
  }

  /** The value a field settles on, whatever was known before, or nothing if the patch is silent. */
  function SaidBy(entries: Members, keys: seq<string>): Option<u64> { MergedNumber(None, entries, keys) }

  lemma {:induction false} NumberIsSaid(known: Option<u64>, entries: Members, keys: seq<string>)
    ensures MergedNumber(known, entries, keys) == if SaidBy(entries, keys).Some? then SaidBy(entries, keys) else known
  {
    if keys != [] { NumberIsSaid(known, entries, keys[1..]); }
  }

  function Over(later: TokenCounts, earlier: TokenCounts): TokenCounts {
    TokenCounts(
      if later.input.Some? then later.input else earlier.input,
      if later.cachedInput.Some? then later.cachedInput else earlier.cachedInput,
      if later.cacheWriteInput.Some? then later.cacheWriteInput else earlier.cacheWriteInput,
      if later.output.Some? then later.output else earlier.output,
      if later.reasoningOutput.Some? then later.reasoningOutput else earlier.reasoningOutput,
      if later.total.Some? then later.total else earlier.total)
  }

  /** Merging counts is laying what the patch says over what is known. */
  lemma CountsAreLaidOver(known: TokenCounts, entries: Members)
    ensures MergedCounts(known, entries) == Over(MergedCounts(NO_COUNTS, entries), known)
  {
    NumberIsSaid(known.input, entries, ["inputTokens", "input_tokens"]);
    NumberIsSaid(known.cachedInput, entries, ["cachedInputTokens", "cached_input_tokens"]);
    NumberIsSaid(known.cacheWriteInput, entries, ["cacheWriteInputTokens", "cache_write_input_tokens"]);
    NumberIsSaid(known.output, entries, ["outputTokens", "output_tokens"]);
    NumberIsSaid(known.reasoningOutput, entries, ["reasoningOutputTokens", "reasoning_output_tokens"]);
    NumberIsSaid(known.total, entries, ["totalTokens", "total_tokens"]);
  }

  lemma LayersAreLaidOver(known: TokenCounts, patch: Members)
    ensures LayeredCounts(known, patch) == Over(LayeredCounts(NO_COUNTS, patch), known)
  {
    var usage, total := EntryMembers(patch, "usage"),
      MembersOf(patch, ["total", "totalTokenUsage", "total_token_usage"]);
    CountsAreLaidOver(known, patch);
    if usage.Some? {
      CountsAreLaidOver(MergedCounts(known, patch), usage.value);
      CountsAreLaidOver(MergedCounts(NO_COUNTS, patch), usage.value);
    }
    if total.Some? {
      var before := if usage.Some? then MergedCounts(MergedCounts(known, patch), usage.value)
        else MergedCounts(known, patch);
      var bare := if usage.Some? then MergedCounts(MergedCounts(NO_COUNTS, patch), usage.value)
        else MergedCounts(NO_COUNTS, patch);
      CountsAreLaidOver(before, total.value);
      CountsAreLaidOver(bare, total.value);
    }
  }

  /** A token notification received twice changes nothing the second time, though its layers may
      disagree with each other. */
  lemma TokensTwice(existing: Option<TokenState>, update: Value)
    ensures MergedTokens(MergedTokens(existing, update), update) == MergedTokens(existing, update)
  {
    var found := TokenPatch(update);
    if found.Some? {
      var patch, known := found.value, Else(existing, NO_TOKENS);
      LayersAreLaidOver(known.counts, patch);
      LayersAreLaidOver(LayeredCounts(known.counts, patch), patch);
      var last := MembersOf(patch, LAST_KEYS);
      if last.Some? {
        CountsAreLaidOver(Else(known.last, NO_COUNTS), last.value);
        CountsAreLaidOver(MergedCounts(Else(known.last, NO_COUNTS), last.value), last.value);
      }
      NumberTwice(known.contextWindow, patch, ["modelContextWindow", "model_context_window"]);
      MergingTwice(known.raw, Object(patch));
    }
  }

  // ---------------------------------------------------------------- runs of notifications

  function LimitsAfter(existing: RateLimitsState, updates: seq<Value>): RateLimitsState {
    if updates == [] then existing
    else MergedLimits(LimitsAfter(existing, updates[..|updates| - 1]), updates[|updates| - 1])
  }

  /** The update carries no object for this window: it is missing, null or something else. */
  predicate OmitsWindow(update: Value, name: string) {
    var found := LimitsPatch(update);
    found.None? || name !in found.value || !found.value[name].Object?
  }

  /** No run of notifications makes a known window disappear; one that never mentions a window
      leaves it exactly as it was. */
  lemma {:induction false} WindowsPersist(existing: RateLimitsState, updates: seq<Value>)
    ensures var after := LimitsAfter(existing, updates);
      && (existing.primary.Some? ==> after.primary.Some?) && (existing.secondary.Some? ==> after.secondary.Some?)
      && ((forall u :: u in updates ==> OmitsWindow(u, "primary")) ==> after.primary == existing.primary)
      && ((forall u :: u in updates ==> OmitsWindow(u, "secondary")) ==> after.secondary == existing.secondary)
      && after.resetCredits == existing.resetCredits
  {
    if updates != [] {
      WindowsPersist(existing, updates[..|updates| - 1]);
      assert updates[|updates| - 1] in updates;
    }
  }

  /** A word on the limits: a sparse patch, or a full read. */
  datatype LimitsWord = Patched(update: Value) | ReadInFull(response: Value)

  ghost function AfterWord(existing: RateLimitsState, word: LimitsWord): RateLimitsState {
    match word
    case Patched(update) => MergedLimits(existing, update)
    case ReadInFull(response) => if ReadLimits(response).Some? then ReadLimits(response).value else existing
  }

  ghost function AfterWords(existing: RateLimitsState, words: seq<LimitsWord>): RateLimitsState {
    if words == [] then existing else AfterWord(AfterWords(existing, words[..|words| - 1]), words[|words| - 1])
  }

  ghost predicate IsFullRead(word: LimitsWord) { word.ReadInFull? && ReadLimits(word.response).Some? }

  lemma WordsPushed(x: RateLimitsState, words: seq<LimitsWord>, last: LimitsWord)
    ensures AfterWords(x, words + [last]) == AfterWord(AfterWords(x, words), last)
  {
    assert (words + [last])[..|words|] == words;
  }

  /** A full read forgets everything before it: whatever was known and patched in or read earlier, the
      limits are those of the read and the words after it. */
  lemma {:induction false} ReadForgets(known: RateLimitsState, words: seq<LimitsWord>, read: LimitsWord,
                                       after: seq<LimitsWord>)
    requires IsFullRead(read)
    ensures AfterWords(known, (words + [read]) + after) == AfterWords(ReadLimits(read.response).value, after)
  {
    if after == [] {
      WordsPushed(known, words, read);
      assert (words + [read]) + after == words + [read];
    } else {
      var init, last := after[..|after| - 1], after[|after| - 1];
      ReadForgets(known, words, read, init);
      WordsPushed(known, (words + [read]) + init, last);
      assert (words + [read]) + after == ((words + [read]) + init) + [last];
    }
  }

  /** Right after a full read a window is known exactly if the read carries it. */
  lemma ReadHasItsWindows(response: Value)
    requires ReadLimits(response).Some?
    ensures var read, body := ReadLimits(response).value, PreferredLimits(response).value;
      && (read.primary.None? <==> !("primary" in body && body["primary"].Object?))
      && (read.secondary.None? <==> !("secondary" in body && body["secondary"].Object?))
      && read.raw == body
  {}

  // ---------------------------------------------------------------- the state as an object

  datatype ServerView = ServerView(
    account: Account,
    limits: RateLimitsState,
    tokens: Option<TokenState>,
    usage: Option<Value>,
    last: Option<ActivityEvent>,
    threads: map<string, ActivityRecord>)

  const NOTHING_KNOWN := ServerView(NO_ACCOUNT, NO_LIMITS, None, None, None, map[])

  /** A usable answer to `account/read`. */
  predicate IsAccount(result: Value) {
    result.Object?
    && ("account" in result.members
        || ("requiresOpenaiAuth" in result.members && result.members["requiresOpenaiAuth"].Bool?)
        || ("requires_openai_auth" in result.members && result.members["requires_openai_auth"].Bool?))
  }

  /** A usable answer to `account/usage/read`. */
  predicate IsUsage(result: Value) {
    result.Object? && "summary" in result.members && result.members["summary"].Object?
  }

  datatype Topic = AboutAccount | AboutLimits | AboutTokens | AboutActivity | AboutOther

  predicate StartsWith(name: string, prefix: string) { |prefix| <= |name| && name[..|prefix|] == prefix }

  function TopicOf(name: string): Topic {
    if name == "account/updated" then AboutAccount
    else if name == "account/rateLimits/updated" || name == "account/rate_limits/updated" then AboutLimits
    else if name == "thread/tokenUsage/updated" || name == "thread/token_usage/updated" then AboutTokens
    else if StartsWith(name, "thread/") || StartsWith(name, "turn/") || StartsWith(name, "item/")
            || StartsWith(name, "approval/") || StartsWith(name, "execApproval/")
            || StartsWith(name, "requestUserInput/") then AboutActivity
    else AboutOther
  }

  /** A notification; `activity` is what it says about a thread, if it can be read as that. */
  datatype Notification = Notification(name: string, message: Value, activity: Option<ActivityEvent>, at: int) {
    function Topic(): Topic { TopicOf(name) }
  }

  function Heard(threads: map<string, ActivityRecord>, event: ActivityEvent, at: int): map<string, ActivityRecord> {
    if event.thread.Some? then threads[event.thread.value := ActivityRecord(event, at)] else threads
  }

  function Notified(v: ServerView, n: Notification): ServerView {
    match n.Topic()
    case AboutAccount => v.(account := MergedAccount(v.account, n.message))
    case AboutLimits => v.(limits := MergedLimits(v.limits, n.message))
    case AboutTokens => v.(tokens := MergedTokens(v.tokens, n.message))
    case AboutActivity =>
      if n.activity.None? then v else v.(last := n.activity, threads := Heard(v.threads, n.activity.value, n.at))
    case AboutOther => v
  }

  class AppServer {
    var account: Account
    var limits: RateLimitsState
    var tokens: Option<TokenState>
    var usage: Option<Value>
    var last: Option<ActivityEvent>
    var threads: map<string, ActivityRecord>

    ghost function View(): ServerView reads this { ServerView(account, limits, tokens, usage, last, threads) }

    constructor ()
      ensures View() == NOTHING_KNOWN
    {
      account, limits, tokens, usage, last, threads := NO_ACCOUNT, NO_LIMITS, None, None, None, map[];
    }

    method Forget()
      modifies this
      ensures View() == NOTHING_KNOWN
    {
      account, limits, tokens, usage, last, threads := NO_ACCOUNT, NO_LIMITS, None, None, None, map[];
    }

    method ApplyNotification(n: Notification)
      modifies this
      ensures View() == Notified(old(View()), n)
    {
      match n.Topic()
      case AboutAccount => account := MergedAccount(account, n.message);
      case AboutLimits => limits := MergedLimits(limits, n.message);
      case AboutTokens => tokens := MergedTokens(tokens, n.message);
      case AboutActivity =>
        if n.activity.Some? {
          last := n.activity;
          if n.activity.value.thread.Some? {
            threads := threads[n.activity.value.thread.value := ActivityRecord(n.activity.value, n.at)];
          }
        }
      case AboutOther =>
    }

    method ReplaceAccount(result: Value) returns (valid: bool)
      modifies this
      ensures valid <==> IsAccount(result)
      ensures View() == if valid then old(View()).(account := ReadAccount(result)) else old(View())
    {
      valid := IsAccount(result);
      if valid { account := ReadAccount(result); }
    }

    method ReplaceRateLimits(result: Value) returns (valid: bool)
      modifies this
      ensures valid <==> ReadLimits(result).Some?
      ensures View() == if valid then old(View()).(limits := ReadLimits(result).value) else old(View())
    {
      var found := FindPreferred(result);
      if found.None? { return false; }
      var body := found.value;
      limits := RateLimitsState(
        MergedWindow(None, Entry(body, "primary")),
        MergedWindow(None, Entry(body, "secondary")),
        I64Field(body, UPDATED_KEYS),
        body,
        FindValue(result, ["rateLimitResetCredits", "rate_limit_reset_credits"]));
      valid := true;
    }

    method ReplaceAccountUsage(result: Value) returns (valid: bool)
      modifies this
      ensures valid <==> IsUsage(result)
      ensures View() == if valid then old(View()).(usage := Some(result)) else old(View())
    {
      valid := IsUsage(result);
      if valid { usage := Some(result); }
    }
  }

  method FindPreferred(response: Value) returns (found: Option<Members>)
    ensures found == PreferredLimits(response)
  {
    var payload := Payload(response);
    if payload.None? { return None; }
    var table := Field(payload.value, ["rateLimitsByLimitId", "rate_limits_by_limit_id"]);
    if table.Some? && table.value.Object? {
      var byId := table.value.members;
      if "codex" in byId && byId["codex"].Object? { return Some(byId["codex"].members); }
      var named := set k | k in byId && NamesCodex(byId[k]);
      if named != {} {
        HasFirst(named);
        var first :| first in named && forall k :: k in named ==> !Below(k, first);
        BelowIsTotal(first, First(named));
        return Some(byId[first].members);
      }
    }
    var only := Field(payload.value, ["rateLimits", "rate_limits"]);
    found := if only.Some? then AsMembers(only.value) else None;
  }
}
