/**
 * Running a custom command: every chat message whose first word names a command
 * of the channel (or one of its aliases) makes the bot send that command's
 * message, after a cooldown and user-level gate, with its placeholders filled in.
 * `{urlfetch url}` placeholders are rate-limited per channel by a token bucket.
 */
module CommandEvents {
  import opened Wrappers
  import opened Text
  import opened Json
  import opened Seqs
  import opened Data
  import FeatureToggle
  import CustomCommands

  /** Fetches allowed per channel in one refill window. */
  const RateLimit: int := 3
  /** Seconds after which a channel's bucket is refilled. */
  const RefillSeconds: int := 60
  /** What a `{urlfetch}` placeholder becomes once the bucket is empty. */
  const RateLimitMessage: string := "Rate limit reached for {urlfetch} placeholders. Please try again later."

  /** The author of a chat message, with the badges the gate checks. */
  datatype Chatter = Chatter(name: string, isSubscriber: bool, isVip: bool, isMod: bool, isBroadcaster: bool)

  // ---------------------------------------------------------------------------
  // Reading a command record
  // ---------------------------------------------------------------------------

  function Message(e: Json): string requires CustomCommands.EntryShaped(e) { e.fields["message"].s }
  function UsageCount(e: Json): int requires CustomCommands.EntryShaped(e) { e.fields["usage_count"].i }
  function LevelName(e: Json): string requires CustomCommands.EntryShaped(e) { e.fields["user_level"].s }
  function Cooldown(e: Json): int requires CustomCommands.EntryShaped(e) { e.fields["cooldown"].i }
  function LastUsed(e: Json): int requires CustomCommands.EntryShaped(e) { e.fields["last_used"].i }

  /** `command_data.get("aliases", [])` */
  function Aliases(e: Json): seq<Json>
    requires CustomCommands.EntryShaped(e)
  {
    if "aliases" in e.fields then e.fields["aliases"].items else []
  }

  // ---------------------------------------------------------------------------
  // User levels
  // ---------------------------------------------------------------------------

  /** `USER_LEVELS.index(level)` */
  function LevelIndex(level: string): (r: nat)
    requires level in CustomCommands.UserLevels
    ensures r < |CustomCommands.UserLevels| && CustomCommands.UserLevels[r] == level
  {
    if level == "Everyone" then 0
    else if level == "Subscriber" then 1
    else if level == "VIP" then 2
    else if level == "Moderator" then 3
    else 4
  }

  /** The author's level: the highest of the levels their badges give, Everyone without any. */
  function AuthorLevel(a: Chatter): (r: nat)
    ensures r < |CustomCommands.UserLevels|
    ensures a.isSubscriber ==> r >= LevelIndex("Subscriber")
    ensures a.isVip ==> r >= LevelIndex("VIP")
    ensures a.isMod ==> r >= LevelIndex("Moderator")
    ensures a.isBroadcaster ==> r == LevelIndex("Streamer")
    ensures || r == LevelIndex("Everyone")
            || (r == LevelIndex("Subscriber") && a.isSubscriber)
            || (r == LevelIndex("VIP") && a.isVip)
            || (r == LevelIndex("Moderator") && a.isMod)
            || (r == LevelIndex("Streamer") && a.isBroadcaster)
  {
    if a.isBroadcaster then 4
    else if a.isMod then 3
    else if a.isVip then 2
    else if a.isSubscriber then 1
    else 0
  }

  // ---------------------------------------------------------------------------
  // Finding the command
  // ---------------------------------------------------------------------------

  /** The first word names the command itself or one of its aliases. */
  predicate Matches(cmds: map<string, Json>, name: string, base: string)
    requires name in cmds && CustomCommands.EntryShaped(cmds[name])
  {
    base == name || Str(base) in Aliases(cmds[name])
  }

  /** The first command, in the dict's iteration order `keyOrder`, that the word matches. */
  function FirstMatch(cmds: map<string, Json>, keyOrder: seq<string>, base: string): (r: Option<string>)
    requires CustomCommands.AllShaped(cmds) && forall k :: k in keyOrder ==> k in cmds
    ensures r.None? <==> forall i :: 0 <= i < |keyOrder| ==> !Matches(cmds, keyOrder[i], base)
    ensures r.Some? ==>
      exists i :: 0 <= i < |keyOrder| && keyOrder[i] == r.value && Matches(cmds, keyOrder[i], base)
        && forall j :: 0 <= j < i ==> !Matches(cmds, keyOrder[j], base)
    decreases |keyOrder|
  {
    if keyOrder == [] then None
    else if Matches(cmds, keyOrder[0], base) then Some(keyOrder[0])
    else
      var r := FirstMatch(cmds, keyOrder[1..], base);
      assert forall i :: 1 <= i < |keyOrder| ==> keyOrder[1..][i - 1] == keyOrder[i];
      if r.Some? then
        ghost var i :| 0 <= i < |keyOrder[1..]| && keyOrder[1..][i] == r.value && Matches(cmds, keyOrder[1..][i], base)
          && forall j :: 0 <= j < i ==> !Matches(cmds, keyOrder[1..][j], base);
        assert keyOrder[i + 1] == r.value;
        r
      else r
  }

  /** A word that is a command's own name always finds a command. */
  lemma NameAlwaysMatches(cmds: map<string, Json>, keyOrder: seq<string>, base: string)
    requires CustomCommands.AllShaped(cmds) && forall k :: k in keyOrder <==> k in cmds
    requires base in cmds
    ensures FirstMatch(cmds, keyOrder, base).Some?
  {
    var i :| 0 <= i < |keyOrder| && keyOrder[i] == base;
    assert Matches(cmds, keyOrder[i], base);
  }

  /** The search loop of `handle_command_message_event`. */
  method FindCommand(cmds: map<string, Json>, keyOrder: seq<string>, base: string) returns (found: Option<string>)
    requires CustomCommands.AllShaped(cmds) && forall k :: k in keyOrder ==> k in cmds
    ensures found == FirstMatch(cmds, keyOrder, base)
  {
    var i := 0;
    while i < |keyOrder|
      invariant 0 <= i <= |keyOrder|
      invariant FirstMatch(cmds, keyOrder[i..], base) == FirstMatch(cmds, keyOrder, base)
    {
      assert keyOrder[i..][0] == keyOrder[i] && keyOrder[i..][1..] == keyOrder[i + 1..];
      if Matches(cmds, keyOrder[i], base) {
        return Some(keyOrder[i]);
      }
      i := i + 1;
    }
    assert keyOrder[i..] == [];
    found := None;
  }

  // ---------------------------------------------------------------------------
  // Placeholders
  // ---------------------------------------------------------------------------

  /** Splitting once at a space that occurs gives the text before and after the first one. */
  lemma {:induction false} SplitOnceAtFirst(s: string)
    requires ' ' in s
    ensures SplitN(s, ' ', 1) == [s[..Find(s, ' ')], s[Find(s, ' ') + 1..]]
    decreases |s|
  {
    if s[0] != ' ' {
      assert ' ' in s[1..] by {
        var k :| 0 <= k < |s| && s[k] == ' ';
        assert s[1..][k - 1] == ' ';
      }
      SplitOnceAtFirst(s[1..]);
      var k := Find(s[1..], ' ');
      assert Find(s, ' ') == k + 1;
      assert [s[0]] + s[1..][..k] == s[..k + 1];
      assert s[1..][k + 1..] == s[k + 2..];
    }
  }

  /** What `{touser}` becomes: the rest of the message after its first space, stripped, else `@author`. */
  function Touser(content: string, authorName: string): (r: string)
    ensures ' ' in content ==> r == Strip(content[Find(content, ' ') + 1..])
    ensures ' ' !in content ==> r == "@" + authorName
  {
    if ' ' in content then
      SplitOnceAtFirst(content);
      Strip(SplitN(content, ' ', 1)[1])
    else "@" + authorName
  }

  /** `{count}`, then `{touser}`, then `{user}`, each replaced everywhere in turn. */
  function Placeholders(template: string, content: string, authorName: string, count: int): string {
    var text := DropInvisible(content);
    var t1 := ReplaceAll(template, "{count}", IntToString(count));
    var t2 := ReplaceAll(t1, "{touser}", Touser(text, authorName));
    ReplaceAll(t2, "{user}", "@" + authorName)
  }

  /** A message without placeholders is sent as it is. */
  lemma PlainTemplate(template: string, content: string, authorName: string, count: int)
    requires !Contains(template, "{count}") && !Contains(template, "{touser}") && !Contains(template, "{user}")
    ensures Placeholders(template, content, authorName, count) == template
  {
    ReplaceAbsent(template, "{count}", IntToString(count));
    ReplaceAbsent(template, "{touser}", Touser(DropInvisible(content), authorName));
    ReplaceAbsent(template, "{user}", "@" + authorName);
  }

  /** The decimal text of a number holds no brace, so it cannot form a later placeholder. */
  lemma NoBraceInNumber(n: int)
    ensures '{' !in IntToString(n)
  {
    var s := IntToString(n);
    if n < 0 {
      assert s == [s[0]] + s[1..];
      assert forall k :: 0 <= k < |s[1..]| ==> IsDigit(s[1..][k]);
    }
  }

  /** `{count}` alone becomes the count. */
  lemma CountPlaceholder(content: string, authorName: string, count: int)
    ensures Placeholders("{count}", content, authorName, count) == IntToString(count)
  {
    ReplaceWhole("{count}", IntToString(count));
    NoBraceInNumber(count);
    MissingHeadContainsNot(IntToString(count), "{touser}");
    ReplaceAbsent(IntToString(count), "{touser}", Touser(DropInvisible(content), authorName));
    MissingHeadContainsNot(IntToString(count), "{user}");
    ReplaceAbsent(IntToString(count), "{user}", "@" + authorName);
  }

  /** `{user}` alone becomes the author's name with an `@`. */
  lemma UserPlaceholder(content: string, authorName: string, count: int)
    ensures Placeholders("{user}", content, authorName, count) == "@" + authorName
  {
    ShorterContainsNot("{user}", "{count}");
    ReplaceAbsent("{user}", "{count}", IntToString(count));
    ShorterContainsNot("{user}", "{touser}");
    ReplaceAbsent("{user}", "{touser}", Touser(DropInvisible(content), authorName));
    ReplaceWhole("{user}", "@" + authorName);
  }

  /** `{touser}` alone becomes the `{touser}` text, unless that text itself holds `{user}`. */
  lemma TouserPlaceholder(content: string, authorName: string, count: int)
    requires !Contains(Touser(DropInvisible(content), authorName), "{user}")
    ensures Placeholders("{touser}", content, authorName, count) == Touser(DropInvisible(content), authorName)
  {
    var v := Touser(DropInvisible(content), authorName);
    TouserLacksCount();
    ReplaceAbsent("{touser}", "{count}", IntToString(count));
    ReplaceWhole("{touser}", v);
    ReplaceAbsent(v, "{user}", "@" + authorName);
  }

  /** `{touser}` holds no `{count}`. */
  lemma TouserLacksCount()
    ensures !Contains("{touser}", "{count}")
  {
    assert "{touser}"[..7][1] == 't' && "{count}"[1] == 'c';
    assert !StartsWith("{touser}", "{count}");
    assert "{touser}"[1..] == "touser}";
    MissingHeadContainsNot("touser}", "{count}");
  }

  /** The `{touser}` text of a command word, a space and a trimmed rest is that rest. */
  lemma TouserOfRest(word: string, rest: string, authorName: string)
    requires ' ' !in word && '\U{E0000}' !in word && '\U{E0000}' !in rest
    requires rest != [] ==> !IsSpace(rest[0]) && !IsSpace(rest[|rest| - 1])
    ensures Touser(DropInvisible(word + " " + rest), authorName) == rest
  {
    var content := word + [' '] + rest;
    assert word + " " + rest == content;
    DropInvisibleUntagged(content);
    FindAfter(word, ' ', rest);
    assert content[|word| + 1..] == rest;
    StripTrimmed(rest);
  }

  /**
   * The three replacements run in turn, so `{touser}` becomes the `{touser}` text with
   * every `{user}` in it turned into the author.
   */
  lemma TouserThenUser(content: string, authorName: string, count: int)
    ensures Placeholders("{touser}", content, authorName, count)
      == ReplaceAll(Touser(DropInvisible(content), authorName), "{user}", "@" + authorName)
  {
    TouserLacksCount();
    ReplaceAbsent("{touser}", "{count}", IntToString(count));
    ReplaceWhole("{touser}", Touser(DropInvisible(content), authorName));
  }

  /** So `!so {user}` against a `{touser}` command greets the author, not the one typed after it. */
  lemma ShoutoutOfUser(authorName: string, count: int)
    ensures Placeholders("{touser}", "!so {user}", authorName, count) == "@" + authorName
  {
    assert "!so {user}" == "!so" + " " + "{user}";
    TouserOfRest("!so", "{user}", authorName);
    TouserThenUser("!so {user}", authorName, count);
    ReplaceWhole("{user}", "@" + authorName);
  }

  // ---------------------------------------------------------------------------
  // The `{urlfetch}` token bucket
  // ---------------------------------------------------------------------------

  /** A channel's bucket: tokens left, and when it was last refilled (None before the first use). */
  datatype Bucket = Bucket(tokens: int, lastRefill: Option<int>)

  /** What the default dict creates for a channel it has not seen. */
  const FreshBucket: Bucket := Bucket(RateLimit, None)

  /** Tokens within the rate limit, never negative. */
  predicate BucketOk(b: Bucket) { 0 <= b.tokens <= RateLimit }

  /** One fetch attempt at time `now`: refill when due, then take a token if one is left. */
  function TryFetch(b: Bucket, now: int): (r: (Bucket, bool))
    ensures BucketOk(b) ==> BucketOk(r.0)
    ensures (b.lastRefill.None? || now - b.lastRefill.value > RefillSeconds) ==>
      r.1 && r.0 == Bucket(RateLimit - 1, Some(now))
    ensures (b.lastRefill.Some? && now - b.lastRefill.value <= RefillSeconds) ==>
      r.0.lastRefill == b.lastRefill && (r.1 <==> b.tokens > 0)
      && r.0.tokens == (if r.1 then b.tokens - 1 else b.tokens)
  {
    var refilled := if b.lastRefill.None? || now - b.lastRefill.value > RefillSeconds
      then Bucket(RateLimit, Some(now)) else b;
    if refilled.tokens <= 0 then (refilled, false)
    else (refilled.(tokens := refilled.tokens - 1), true)
  }

  /** One `{urlfetch ...}` match: its text, what fetching its URL gives (the page or the error text), and the clock then. */
  datatype UrlMatch = UrlMatch(placeholder: string, fetched: string, time: int)

  predicate UsableMatches(ms: seq<UrlMatch>) {
    forall i :: 0 <= i < |ms| ==> |ms[i].placeholder| > 0
  }

  /** Each match in turn: replaced by what was fetched while tokens last, by the rate-limit text after. */
  function FetchAll(b: Bucket, message: string, ms: seq<UrlMatch>): (r: (Bucket, string))
    requires UsableMatches(ms)
    ensures BucketOk(b) ==> BucketOk(r.0)
    decreases |ms|
  {
    if ms == [] then (b, message)
    else
      var (b1, granted) := TryFetch(b, ms[0].time);
      var text := ReplaceAll(message, ms[0].placeholder, if granted then ms[0].fetched else RateLimitMessage);
      FetchAll(b1, text, ms[1..])
  }

  /** The attempts at the given times, in turn: the bucket they leave, and whether each was granted. */
  function Attempts(b: Bucket, times: seq<int>): (r: (Bucket, seq<bool>))
    ensures |r.1| == |times|
    ensures BucketOk(b) ==> BucketOk(r.0)
    decreases |times|
  {
    if times == [] then (b, [])
    else
      var (b1, granted) := TryFetch(b, times[0]);
      var (b2, rest) := Attempts(b1, times[1..]);
      (b2, [granted] + rest)
  }

  /** How many of the flags are set. */
  function CountTrue(flags: seq<bool>): nat
    decreases |flags|
  {
    if flags == [] then 0 else (if flags[0] then 1 else 0) + CountTrue(flags[1..])
  }

  /** How many of the attempts a bucket grants. */
  function Grants(b: Bucket, times: seq<int>): nat {
    CountTrue(Attempts(b, times).1)
  }

  /** Each match in turn replaced by what was fetched where its flag is set, and by the rate-limit text elsewhere. */
  function Fill(message: string, ms: seq<UrlMatch>, flags: seq<bool>): string
    requires UsableMatches(ms) && |flags| == |ms|
    decreases |ms|
  {
    if ms == [] then message
    else Fill(ReplaceAll(message, ms[0].placeholder, if flags[0] then ms[0].fetched else RateLimitMessage), ms[1..], flags[1..])
  }

  /** The clock readings of the matches. */
  function Times(ms: seq<UrlMatch>): (r: seq<int>)
    ensures |r| == |ms| && forall i :: 0 <= i < |ms| ==> r[i] == ms[i].time
  {
    seq(|ms|, i requires 0 <= i < |ms| => ms[i].time)
  }

  /**
   * The fetch loop makes one attempt per match at the match's time: it leaves the bucket the
   * attempts leave, and puts fetched text exactly at the granted matches.
   */
  lemma {:induction false} FetchAllAttempts(b: Bucket, message: string, ms: seq<UrlMatch>)
    requires UsableMatches(ms)
    ensures FetchAll(b, message, ms) == (Attempts(b, Times(ms)).0, Fill(message, ms, Attempts(b, Times(ms)).1))
    decreases |ms|
  {
    if ms != [] {
      var (b1, granted) := TryFetch(b, ms[0].time);
      var text := ReplaceAll(message, ms[0].placeholder, if granted then ms[0].fetched else RateLimitMessage);
      assert Times(ms)[0] == ms[0].time && Times(ms)[1..] == Times(ms[1..]);
      FetchAllAttempts(b1, text, ms[1..]);
      var flags := Attempts(b, Times(ms)).1;
      assert flags[0] == granted && flags[1..] == Attempts(b1, Times(ms[1..])).1;
    }
  }

  /** Within one refill window the bucket grants exactly as many attempts as it has tokens, and no more. */
  lemma {:induction false} GrantsInWindow(b: Bucket, times: seq<int>)
    requires b.lastRefill.Some? && 0 <= b.tokens
    requires forall i :: 0 <= i < |times| ==> times[i] - b.lastRefill.value <= RefillSeconds
    ensures Grants(b, times) == if |times| < b.tokens then |times| else b.tokens
    decreases |times|
  {
    if times != [] {
      var (b1, granted) := TryFetch(b, times[0]);
      assert forall i :: 0 <= i < |times[1..]| ==> times[1..][i] == times[i + 1];
      GrantsInWindow(b1, times[1..]);
      var flags := Attempts(b, times).1;
      assert flags[0] == granted && flags[1..] == Attempts(b1, times[1..]).1;
    }
  }

  /** A freshly refilled bucket grants at most the rate limit until the window passes. */
  lemma AtMostRateLimitPerWindow(now: int, times: seq<int>)
    requires forall i :: 0 <= i < |times| ==> times[i] - now <= RefillSeconds
    ensures Grants(Bucket(RateLimit, Some(now)), times) <= RateLimit
  {
    GrantsInWindow(Bucket(RateLimit, Some(now)), times);
  }

  /**
   * The rate limit, for the fetch loop: after a refill at `now`, the matches met within the
   * window get fetched text at most `RateLimit` times, and the rate-limit text otherwise.
   */
  lemma FetchAllAtMostRateLimit(now: int, message: string, ms: seq<UrlMatch>)
    requires UsableMatches(ms)
    requires forall i :: 0 <= i < |ms| ==> ms[i].time - now <= RefillSeconds
    ensures var flags := Attempts(Bucket(RateLimit, Some(now)), Times(ms)).1;
      && FetchAll(Bucket(RateLimit, Some(now)), message, ms).1 == Fill(message, ms, flags)
      && CountTrue(flags) <= RateLimit
  {
    FetchAllAttempts(Bucket(RateLimit, Some(now)), message, ms);
    AtMostRateLimitPerWindow(now, Times(ms));
  }

  /** A channel's first burst: while within the window of its first match, at most `RateLimit` fetches are granted. */
  lemma FreshBucketAtMostRateLimit(message: string, ms: seq<UrlMatch>)
    requires UsableMatches(ms) && ms != []
    requires forall i :: 0 <= i < |ms| ==> ms[i].time - ms[0].time <= RefillSeconds
    ensures var flags := Attempts(FreshBucket, Times(ms)).1;
      && FetchAll(FreshBucket, message, ms).1 == Fill(message, ms, flags)
      && CountTrue(flags) <= RateLimit
  {
    FetchAllAttempts(FreshBucket, message, ms);
    var times := Times(ms);
    var (b1, granted) := TryFetch(FreshBucket, times[0]);
    assert b1 == Bucket(RateLimit - 1, Some(ms[0].time)) && granted;
    assert forall i :: 0 <= i < |times[1..]| ==> times[1..][i] == ms[i + 1].time;
    GrantsInWindow(b1, times[1..]);
    var flags := Attempts(FreshBucket, times).1;
    assert flags[0] == granted && flags[1..] == Attempts(b1, times[1..]).1;
  }

  /** Once the window has passed, the first attempt is always granted. */
  lemma GrantedAfterWindow(b: Bucket, now: int)
    requires b.lastRefill.Some? && now - b.lastRefill.value > RefillSeconds
    ensures TryFetch(b, now).1 && TryFetch(b, now).0.tokens == RateLimit - 1
  {
  }

  /** The per-channel buckets (`urlfetch_token_buckets`). */
  class UrlFetchBuckets {
    var buckets: map<string, Bucket>

    /** Every bucket's tokens stay within the rate limit and never go negative. */
    ghost predicate Valid()
      reads this
    {
      forall c :: c in buckets ==> BucketOk(buckets[c])
    }

    constructor ()
      ensures Valid() && buckets == map[]
    {
      buckets := map[];
    }

    /** The channel's bucket, or the default one the dict would create. */
    function BucketOf(channelId: string): (b: Bucket)
      reads this
      ensures Valid() ==> BucketOk(b)
    {
      if channelId in buckets then buckets[channelId] else FreshBucket
    }

    /** The locked section of the fetch loop: refill when due, then take a token if one is left. */
    method Acquire(channelId: string, now: int) returns (granted: bool)
      requires Valid()
      modifies this
      ensures Valid()
      ensures buckets == old(buckets)[channelId := TryFetch(old(BucketOf(channelId)), now).0]
      ensures granted == TryFetch(old(BucketOf(channelId)), now).1
    {
      var b := BucketOf(channelId);
      var tokens := b.tokens;
      if b.lastRefill.None? || now - b.lastRefill.value > RefillSeconds {
        b := Bucket(RateLimit, Some(now));
        tokens := RateLimit;
      }
      if tokens <= 0 {
        buckets := buckets[channelId := b];
        return false;
      }
      buckets := buckets[channelId := b.(tokens := b.tokens - 1)];
      granted := true;
    }
  }

  /** The `{urlfetch}` loop of `replace_placeholders`. */
  method ReplaceUrls(pool: UrlFetchBuckets, channelId: string, message: string, ms: seq<UrlMatch>)
    returns (out: string)
    requires pool.Valid() && UsableMatches(ms)
    modifies pool
    ensures pool.Valid()
    ensures out == FetchAll(old(pool.BucketOf(channelId)), message, ms).1
    ensures pool.buckets == if ms == [] then old(pool.buckets)
      else old(pool.buckets)[channelId := FetchAll(old(pool.BucketOf(channelId)), message, ms).0]
  {
    out := message;
    var i := 0;
    while i < |ms|
      invariant 0 <= i <= |ms| && pool.Valid()
      invariant FetchAll(pool.BucketOf(channelId), out, ms[i..]) == FetchAll(old(pool.BucketOf(channelId)), message, ms)
      invariant pool.buckets == if i == 0 then old(pool.buckets) else old(pool.buckets)[channelId := pool.BucketOf(channelId)]
    {
      assert ms[i..][0] == ms[i] && ms[i..][1..] == ms[i + 1..];
      var granted := pool.Acquire(channelId, ms[i].time);
      if !granted {
        out := ReplaceAll(out, ms[i].placeholder, RateLimitMessage);
      } else {
        out := ReplaceAll(out, ms[i].placeholder, ms[i].fetched);
      }
      i := i + 1;
    }
    assert ms[i..] == [];
  }

  // ---------------------------------------------------------------------------
  // One message
  // ---------------------------------------------------------------------------

  datatype Result =
    | Ignored             // disabled, or no command matches the first word
    | Crashed             // a blank message has no first word: the handler raises
    | Cooling             // used again within its cooldown: nothing is sent
    | Denied              // the author's level is too low: the refusal is sent
    | Sent(text: string)  // the command's message, placeholders filled in

  /** What a message leads to, and the updated command record when it is used. */
  datatype Response = Response(result: Result, used: Option<(string, Json)>)

  /** The command record after a use at `now`: one more use, last used now. */
  function Used(e: Json, now: int): (r: Json)
    requires CustomCommands.EntryShaped(e)
    ensures CustomCommands.EntryShaped(r)
    ensures UsageCount(r) == UsageCount(e) + 1 && LastUsed(r) == now
    ensures Message(r) == Message(e) && Cooldown(r) == Cooldown(e) && LevelName(r) == LevelName(e) && Aliases(r) == Aliases(e)
  {
    SetField(SetField(e, "usage_count", Int(UsageCount(e) + 1)), "last_used", Int(now))
  }

  /** `process_command` for the command `name`. */
  function Process(cmds: map<string, Json>, name: string, content: string, author: Chatter, now: int,
                   b: Bucket, ms: seq<UrlMatch>): Response
    requires CustomCommands.AllShaped(cmds) && name in cmds && UsableMatches(ms)
  {
    var e := cmds[name];
    if now - LastUsed(e) < Cooldown(e) then Response(Cooling, None)
    else if AuthorLevel(author) < LevelIndex(LevelName(e)) then Response(Denied, None)
    else
      var text := Placeholders(Message(e), content, author.name, UsageCount(e) + 1);
      Response(Sent(FetchAll(b, text, ms).1), Some((name, Used(e, now))))
  }

  /** The order of `cmds`' keys as the dict iterates them: each key exactly once. */
  ghost predicate KeyOrder(cmds: map<string, Json>, keyOrder: seq<string>) {
    NoDuplicates(keyOrder) && forall k :: k in keyOrder <==> k in cmds
  }

  /** `handle_command_message_event` for a channel whose record is `c`. */
  function Respond(c: Json, content: string, keyOrder: seq<string>, author: Chatter, now: int,
                   b: Bucket, ms: seq<UrlMatch>): Response
    requires CustomCommands.Shaped(c) && KeyOrder(CustomCommands.Commands(c), keyOrder) && UsableMatches(ms)
  {
    if FeatureToggle.IsDisabled(c, CustomCommands.Feature) then Response(Ignored, None)
    else
      var words := Words(content);
      if words == [] then Response(Crashed, None)
      else
        var cmds := CustomCommands.Commands(c);
        var found := FirstMatch(cmds, keyOrder, Lower(words[0]));
        if found.None? then Response(Ignored, None)
        else Process(cmds, found.value, content, author, now, b, ms)
  }

  /** `process_command`, on the store and the buckets. */
  method ProcessCommand(db: DocumentStore, pool: UrlFetchBuckets, channelId: string, channelData: Json,
                        name: string, content: string, author: Chatter, now: int, ms: seq<UrlMatch>)
    returns (result: Result)
    requires db.Valid() && pool.Valid() && UsableMatches(ms)
    requires channelData == Fetch(db.docs, channelId) && CustomCommands.Shaped(channelData)
    requires name in CustomCommands.Commands(channelData)
    modifies db, pool
    ensures db.Valid() && pool.Valid()
    ensures var r := Process(CustomCommands.Commands(channelData), name, content, author, now, old(pool.BucketOf(channelId)), ms);
      && result == r.result
      && (r.used.None? ==> db.docs == old(db.docs) && db.order == old(db.order) && pool.buckets == old(pool.buckets))
      && (r.used.Some? ==>
            && db.docs == old(db.docs)[channelId := CustomCommands.WithCommands(channelData,
                            CustomCommands.Commands(channelData)[name := r.used.value.1])]
            && db.order == OrderAfterWrite(old(db.order), old(db.docs), channelId)
            && pool.buckets == if ms == [] then old(pool.buckets)
                 else old(pool.buckets)[channelId := FetchAll(old(pool.BucketOf(channelId)),
                        Placeholders(Message(CustomCommands.Commands(channelData)[name]), content, author.name,
                                     UsageCount(CustomCommands.Commands(channelData)[name]) + 1), ms).0])
  {
    var cmds := CustomCommands.Commands(channelData);
    var entry := cmds[name];
    var lastUsed := LastUsed(entry);
    var cooldown := Cooldown(entry);
    if now - lastUsed < cooldown {
      return Cooling;
    }
    var required := LevelIndex(LevelName(entry));
    var actual := 0;
    if author.isSubscriber {
      actual := LevelIndex("Subscriber");
    }
    if author.isVip {
      actual := LevelIndex("VIP");
    }
    if author.isMod {
      actual := LevelIndex("Moderator");
    }
    if author.isBroadcaster {
      actual := LevelIndex("Streamer");
    }
    if actual < required {
      return Denied;
    }
    entry := SetField(entry, "usage_count", Int(UsageCount(entry) + 1));
    var text := Placeholders(Message(entry), content, author.name, UsageCount(entry));
    text := ReplaceUrls(pool, channelId, text, ms);
    entry := SetField(entry, "last_used", Int(now));
    CustomCommands.WriteCommands(db, channelId, channelData, cmds[name := entry]);
    result := Sent(text);
  }

  /** `handle_command_message_event`, on the store and the buckets. */
  method HandleCommandMessage(db: DocumentStore, pool: UrlFetchBuckets, channelId: string, content: string,
                              keyOrder: seq<string>, author: Chatter, now: int, ms: seq<UrlMatch>)
    returns (result: Result)
    requires db.Valid() && pool.Valid() && UsableMatches(ms)
    requires CustomCommands.Shaped(Fetch(db.docs, channelId))
    requires KeyOrder(CustomCommands.Commands(Fetch(db.docs, channelId)), keyOrder)
    modifies db, pool
    ensures db.Valid() && pool.Valid()
    ensures var r := Respond(old(Fetch(db.docs, channelId)), content, keyOrder, author, now, old(pool.BucketOf(channelId)), ms);
      && result == r.result
      && (r.used.None? ==> db.docs == old(db.docs) && db.order == old(db.order) && pool.buckets == old(pool.buckets))
      && (r.used.Some? ==>
            var cmds := CustomCommands.Commands(old(Fetch(db.docs, channelId)));
            var name := r.used.value.0;
            && name in cmds
            && db.docs == old(db.docs)[channelId := CustomCommands.WithCommands(old(Fetch(db.docs, channelId)),
                            cmds[name := r.used.value.1])]
            && db.order == OrderAfterWrite(old(db.order), old(db.docs), channelId)
            && pool.buckets == if ms == [] then old(pool.buckets)
                 else old(pool.buckets)[channelId := FetchAll(old(pool.BucketOf(channelId)),
                        Placeholders(Message(cmds[name]), content, author.name, UsageCount(cmds[name]) + 1), ms).0])
  {
    var channelData := db.GetData(channelId);
    if FeatureToggle.IsDisabled(channelData, CustomCommands.Feature) {
      return Ignored;
    }
    var cmds := CustomCommands.Commands(channelData);
    var words := Words(content);
    if words == [] {
      return Crashed;
    }
    var base := Lower(words[0]);
    var found := FindCommand(cmds, keyOrder, base);
    if found.None? {
      return Ignored;
    }
    result := ProcessCommand(db, pool, channelId, channelData, found.value, content, author, now, ms);
  }

  // ---------------------------------------------------------------------------
  // Properties
  // ---------------------------------------------------------------------------

  /** A command is sent only past its cooldown and to an author of at least its level. */
  lemma SentRule(cmds: map<string, Json>, name: string, content: string, author: Chatter, now: int,
                 b: Bucket, ms: seq<UrlMatch>)
    requires CustomCommands.AllShaped(cmds) && name in cmds && UsableMatches(ms)
    ensures var r := Process(cmds, name, content, author, now, b, ms);
      && (r.result.Sent? <==>
            now - LastUsed(cmds[name]) >= Cooldown(cmds[name]) && AuthorLevel(author) >= LevelIndex(LevelName(cmds[name])))
      && (r.result.Sent? <==> r.used.Some?)
      && (r.used.Some? ==>
            r.used.value.0 == name
            && UsageCount(r.used.value.1) == UsageCount(cmds[name]) + 1 && LastUsed(r.used.value.1) == now)
  {
  }

  /** The broadcaster passes every level check. */
  lemma BroadcasterNeverDenied(cmds: map<string, Json>, name: string, content: string, author: Chatter, now: int,
                               b: Bucket, ms: seq<UrlMatch>)
    requires CustomCommands.AllShaped(cmds) && name in cmds && UsableMatches(ms) && author.isBroadcaster
    ensures Process(cmds, name, content, author, now, b, ms).result != Denied
  {
  }

  /** After a use at `now`, the same command stays silent until its cooldown has passed. */
  lemma CooldownBlocksReuse(cmds: map<string, Json>, name: string, content: string, author: Chatter, now: int,
                            b: Bucket, ms: seq<UrlMatch>,
                            content2: string, author2: Chatter, later: int, b2: Bucket, ms2: seq<UrlMatch>)
    requires CustomCommands.AllShaped(cmds) && name in cmds && UsableMatches(ms) && UsableMatches(ms2)
    requires Process(cmds, name, content, author, now, b, ms).used.Some?
    requires now <= later < now + Cooldown(cmds[name])
    ensures var cmds2 := cmds[name := Process(cmds, name, content, author, now, b, ms).used.value.1];
      CustomCommands.AllShaped(cmds2) &&
      Process(cmds2, name, content2, author2, later, b2, ms2) == Response(Cooling, None)
  {
  }

  /** The count a `{count}` message shows is the one stored with the use. */
  lemma CountShown(cmds: map<string, Json>, name: string, content: string, author: Chatter, now: int, b: Bucket)
    requires CustomCommands.AllShaped(cmds) && name in cmds && Message(cmds[name]) == "{count}"
    requires Process(cmds, name, content, author, now, b, []).result.Sent?
    ensures var r := Process(cmds, name, content, author, now, b, []);
      r.result.text == IntToString(UsageCount(r.used.value.1))
  {
    CountPlaceholder(content, author.name, UsageCount(cmds[name]) + 1);
  }

  /** A message whose first word is exactly a command's name runs a command, unless the feature is off. */
  lemma TypedNameResponds(c: Json, content: string, keyOrder: seq<string>, author: Chatter, now: int,
                          b: Bucket, ms: seq<UrlMatch>)
    requires CustomCommands.Shaped(c) && KeyOrder(CustomCommands.Commands(c), keyOrder) && UsableMatches(ms)
    requires !FeatureToggle.IsDisabled(c, CustomCommands.Feature)
    requires Words(content) != [] && Lower(Words(content)[0]) in CustomCommands.Commands(c)
    ensures Respond(c, content, keyOrder, author, now, b, ms).result != Ignored
    ensures Respond(c, content, keyOrder, author, now, b, ms).result != Crashed
  {
    NameAlwaysMatches(CustomCommands.Commands(c), keyOrder, Lower(Words(content)[0]));
  }
}
