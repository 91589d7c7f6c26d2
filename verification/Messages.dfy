/** The usual messages of the server, and the one part of the picture that each of them changes. */
module Messages {
  import opened Common
  import opened Usage
  import opened Activity
  import opened Json
  import opened AppServerState
  import opened TokenFigures
  import opened PublishedFigures

  function Message(name: string, parameters: Members): Value {
    Object(map["method" := Text(name), "params" := Object(parameters)])
  }

  /** A notification is told apart by its name alone, and each kind touches its own part. */
  ghost predicate TouchesOnly(v: ServerView, w: ServerView, topic: Topic) {
    && (w.account == v.account || topic.AboutAccount?) && (w.limits == v.limits || topic.AboutLimits?)
    && (w.tokens == v.tokens || topic.AboutTokens?) && w.usage == v.usage
    && ((w.last == v.last && w.threads == v.threads) || topic.AboutActivity?)
  }

  lemma FieldOfTwo(entries: Members, first: string, second: string)
    ensures Field(entries, [first, second])
      == if first in entries then Some(entries[first]) else if second in entries then Some(entries[second]) else None
  {
    assert [first, second][1..] == [second] && [second][1..] == [];
    assert Field(entries, []) == None;
    assert Field(entries, [second]) == if second in entries then Some(entries[second]) else None;
  }

  lemma NestedIsFound(name: string, key: string, patch: Members)
    requires key != "params" && key != "method"
    ensures NestedObject(Message(name, map[key := Object(patch)]), key) == Some(patch)
  {
    var parameters := Object(map[key := Object(patch)]);
    assert NestedObject(parameters, key) == Some(patch);
  }

  /** New rate limits: each window follows the object under its own name, and nothing else changes. */
  lemma LimitsNotice(v: ServerView, n: Notification, patch: Members)
    requires n.name == "account/rateLimits/updated" || n.name == "account/rate_limits/updated"
    requires n.message == Message(n.name, map["rateLimits" := Object(patch)])
    ensures var w := Notified(v, n);
      && Follows(v.limits.primary, patch, "primary", w.limits.primary)
      && Follows(v.limits.secondary, patch, "secondary", w.limits.secondary)
      && w.limits.resetCredits == v.limits.resetCredits && TouchesOnly(v, w, AboutLimits)
  {
    NestedIsFound(n.name, "rateLimits", patch);
    LimitsFollow(v.limits, n.message);
  }

  /** New token counts: each figure that the patch gives is taken over, and nothing else changes. */
  lemma TokensNotice(v: ServerView, n: Notification, thread: string, patch: Members, f: Figure)
    requires n.name == "thread/tokenUsage/updated" || n.name == "thread/token_usage/updated"
    requires n.message == Message(n.name, map["threadId" := Text(thread), "tokenUsage" := Object(patch)])
    ensures var w := Notified(v, n);
      && Held(w.tokens, f) == Latest(FirstIn(Places(patch, f), FigureKeys(f)), Held(v.tokens, f))
      && TouchesOnly(v, w, AboutTokens)
  {
    assert n.Topic().AboutTokens?;
    PatchOfNotification(n.name, thread, patch);
    FigureMerged(v.tokens, n.message, f);
  }

  /** New account fields: those given are laid over the known ones, and nothing else changes. */
  lemma AccountNotice(v: ServerView, n: Notification, patch: Members, field: string)
    requires n.name == "account/updated" && n.message == Message(n.name, map["account" := Object(patch)])
    requires field in patch && !patch[field].Object?
    ensures var w := Notified(v, n);
      && (if patch[field].Null? then Entry(w.account.fields, field) == Entry(v.account.fields, field)
          else Entry(w.account.fields, field) == Some(patch[field]))
      && w.account.requiresOpenaiAuth == v.account.requiresOpenaiAuth && TouchesOnly(v, w, AboutAccount)
  {
    NestedIsFound(n.name, "account", patch);
    var parameters := map["account" := Object(patch)];
    FieldOfTwo(parameters, "requiresOpenaiAuth", "requires_openai_auth");
    FieldOfTwo(n.message.members, "requiresOpenaiAuth", "requires_openai_auth");
    assert FindValue(Object(parameters), AUTH_KEYS) == None;
    assert FindValue(n.message, AUTH_KEYS) == None;
    assert n.Topic().AboutAccount?;
    var merged := Merged(v.account.fields, Object(patch));
    assert MergedValue(OrNull(v.account.fields, field), patch[field]) == patch[field];
    assert Given(patch, field) ==> field in merged && merged[field] == patch[field];
    assert !Given(patch, field) ==> Entry(merged, field) == Entry(v.account.fields, field);
  }

  const ACTIVITY_PREFIXES: set<string> :=
    {"thread/", "turn/", "item/", "approval/", "execApproval/", "requestUserInput/"}

  lemma PrefixIsActivity(name: string, prefix: string)
    requires prefix in ACTIVITY_PREFIXES && |prefix| <= |name| && name[..|prefix|] == prefix
    requires name != "thread/tokenUsage/updated" && name != "thread/token_usage/updated"
    ensures TopicOf(name).AboutActivity?
  {
    assert name[1] == prefix[1];
    assert StartsWith(name, prefix);
    assert "account/updated"[1] == "account/rateLimits/updated"[1] == "account/rate_limits/updated"[1] == 'c';
  }

  /** What a thread does is filed under that thread, and nothing else changes. */
  lemma ActivityNotice(v: ServerView, n: Notification, prefix: string, rest: string)
    requires prefix in ACTIVITY_PREFIXES && n.name == prefix + rest
    requires n.name != "thread/tokenUsage/updated" && n.name != "thread/token_usage/updated"
    ensures var w := Notified(v, n);
      && TouchesOnly(v, w, AboutActivity)
      && (if n.activity.None? then w == v
          else
            && w.last == n.activity
            && (forall t :: t in w.threads.Keys + v.threads.Keys && Some(t) != n.activity.value.thread ==>
                  t in w.threads && t in v.threads && w.threads[t] == v.threads[t])
            && (n.activity.value.thread.Some? ==>
                  var t := n.activity.value.thread.value;
                  t in w.threads && w.threads[t] == ActivityRecord(n.activity.value, n.at)))
  {
    PrefixIsActivity(n.name, prefix);
  }

  // ---------------------------------------------------------------- full reads

  /** The account is read from its own object, with the flag beside it. */
  lemma AccountIsRead(fields: Members, auth: bool)
    ensures var result := Object(map["account" := Object(fields), "requiresOpenaiAuth" := Bool(auth)]);
      IsAccount(result) && ReadAccount(result) == Account(fields, Some(auth))
  {}

  /** Of several limits those of Codex are read, else the only ones there are; each window from its own object. */
  lemma LimitsAreRead(codex: Members, others: Members, only: Members)
    ensures var byId := Object(others["codex" := Object(codex)]);
      && PreferredLimits(Object(map["rateLimitsByLimitId" := byId, "rateLimits" := Object(only)])) == Some(codex)
      && PreferredLimits(Object(map["rateLimits" := Object(only)])) == Some(only)
  {
    var byId := Object(others["codex" := Object(codex)]);
    var both := map["rateLimitsByLimitId" := byId, "rateLimits" := Object(only)];
    var one := map["rateLimits" := Object(only)];
    FieldOfTwo(both, "rateLimitsByLimitId", "rate_limits_by_limit_id");
    FieldOfTwo(one, "rateLimitsByLimitId", "rate_limits_by_limit_id");
    FieldOfTwo(one, "rateLimits", "rate_limits");
    assert Payload(Object(both)) == Some(both) && Payload(Object(one)) == Some(one);
  }
}
