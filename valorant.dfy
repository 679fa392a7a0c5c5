/**
 * The VALORANT cog: moderators link the channel to a Riot account (`!valorantset
 * region user`) or unlink it; `!record` sums the streamer's recent ranked games;
 * a routine announces each newly finished match once; `get_rank` turns the rank
 * service's text into a rank; `get_radiant_rr` reads the Radiant threshold off the
 * leaderboard; `get_ability` names an agent's ability from its key.
 * Every network answer is a parameter.
 */
module Valorant {
  import opened Wrappers
  import opened Text
  import opened Json
  import opened Seqs
  import opened Data

  /** The regions `!valorantset` accepts, compared in lower case. */
  const Regions: seq<string> := ["eu", "ap", "na", "kr", "latam", "br"]
  /** The longest account name `!valorantset` accepts. */
  const MaxUserLength: int := 25
  /** How long, in seconds, a game still counts for `!record`: twelve hours. */
  const TimeThreshold: int := 12 * 60 * 60

  // ---------------------------------------------------------------------------
  // The linked account
  // ---------------------------------------------------------------------------

  /** A channel record whose `valorant` entry, when present, is a dict with string account fields. */
  predicate Shaped(c: Json) {
    && c.Obj?
    && ("valorant" in c.fields ==>
          && c.fields["valorant"].Obj?
          && ("account_user" in c.fields["valorant"].fields ==> c.fields["valorant"].fields["account_user"].Str?)
          && ("account_region" in c.fields["valorant"].fields ==> c.fields["valorant"].fields["account_region"].Str?))
  }

  /** The `valorant` dict, or the empty one `!valorantset` creates when it is absent. */
  function Section(c: Json): map<string, Json>
    requires Shaped(c)
  {
    if "valorant" in c.fields then c.fields["valorant"].fields else map[]
  }

  /** The channel record with its `valorant` dict replaced. */
  function WithSection(c: Json, v: map<string, Json>): (r: Json)
    requires c.Obj?
    ensures r.Obj? && r.fields == c.fields["valorant" := Obj(v)]
  {
    SetField(c, "valorant", Obj(v))
  }

  datatype SetReply =
    | Silent                              // not a moderator or the broadcaster
    | Usage                               // no argument, or no space in it
    | BadRegion
    | BadUser                             // no '#' in the account name
    | TooLong
    | Linked(user: string, region: string)

  /** `!valorantset arg`: region before the first space, account after it. */
  function SetOutcome(isMod: bool, isBroadcaster: bool, arg: Option<string>): (r: SetReply)
    ensures r.Linked? ==>
      && arg == Some(r.region + " " + r.user)
      && ' ' !in r.region && Lower(r.region) in Regions
      && '#' in r.user && |r.user| <= MaxUserLength
  {
    if !isMod && !isBroadcaster then Silent
    else if arg.None? then Usage
    else
      var a := arg.value;
      var i := Find(a, ' ');
      if i == -1 then Usage
      else
        var region := a[..i];
        var user := a[i + 1..];
        assert a == region + " " + user;
        if Lower(region) !in Regions then BadRegion
        else if '#' !in user then BadUser
        else if |user| > MaxUserLength then TooLong
        else Linked(user, region)
  }

  /** Every valid region and account, typed as `region user`, is linked as typed. */
  lemma SetAccepts(isMod: bool, isBroadcaster: bool, region: string, user: string)
    requires isMod || isBroadcaster
    requires ' ' !in region && Lower(region) in Regions && '#' in user && |user| <= MaxUserLength
    ensures SetOutcome(isMod, isBroadcaster, Some(region + " " + user)) == Linked(user, region)
  {
    FindAfter(region, ' ', user);
    assert region + " " + user == region + [' '] + user;
    assert (region + " " + user)[..|region|] == region;
    assert (region + " " + user)[|region| + 1..] == user;
  }

  /** The record after a successful `!valorantset`: the two account fields set, the rest of the dict kept. */
  function LinkedRecord(c: Json, user: string, region: string): (r: Json)
    requires Shaped(c)
    ensures Shaped(r)
    ensures Section(r) == Section(c)["account_user" := Str(user)]["account_region" := Str(region)]
  {
    WithSection(c, Section(c)["account_user" := Str(user)]["account_region" := Str(region)])
  }

  /** `Valorant.valorantset`, on the store. */
  method ValorantSet(db: DocumentStore, channelId: string, isMod: bool, isBroadcaster: bool, arg: Option<string>)
    returns (reply: SetReply)
    requires db.Valid() && Shaped(Fetch(db.docs, channelId))
    modifies db
    ensures db.Valid()
    ensures reply == SetOutcome(isMod, isBroadcaster, arg)
    ensures reply.Linked? ==>
      && db.docs == old(db.docs)[channelId := LinkedRecord(old(Fetch(db.docs, channelId)), reply.user, reply.region)]
      && db.order == OrderAfterWrite(old(db.order), old(db.docs), channelId)
    ensures !reply.Linked? ==> db.docs == old(db.docs) && db.order == old(db.order)
  {
    if !isMod && !isBroadcaster {
      return Silent;
    }
    if arg.None? {
      return Usage;
    }
    var a := arg.value;
    var spaceIndex := Find(a, ' ');
    if spaceIndex == -1 {
      return Usage;
    }
    var region := a[..spaceIndex];
    var user := a[spaceIndex + 1..];
    if Lower(region) !in Regions {
      return BadRegion;
    }
    if '#' !in user {
      return BadUser;
    }
    if |user| > MaxUserLength {
      return TooLong;
    }
    var channelData := db.GetData(channelId);
    var v := Section(channelData);
    v := v["account_user" := Str(user)];
    v := v["account_region" := Str(region)];
    db.UpdateData(channelId, WithSection(channelData, v));
    reply := Linked(user, region);
  }

  /** `Valorant.valorantunset`, on the store: the whole `valorant` dict becomes `{}`. */
  method ValorantUnset(db: DocumentStore, channelId: string, isMod: bool, isBroadcaster: bool)
    requires db.Valid()
    modifies db
    ensures db.Valid()
    ensures (isMod || isBroadcaster) ==>
      && db.docs == old(db.docs)[channelId := WithSection(old(Fetch(db.docs, channelId)), map[])]
      && db.order == OrderAfterWrite(old(db.order), old(db.docs), channelId)
    ensures !(isMod || isBroadcaster) ==> db.docs == old(db.docs) && db.order == old(db.order)
  {
    if !isMod && !isBroadcaster {
      return;
    }
    var channelData := db.GetData(channelId);
    db.UpdateData(channelId, WithSection(channelData, map[]));
  }

  /** An account as the network calls address it. */
  datatype Account = Account(name: string, tag: string, region: string)

  /**
   * The account the record links, or None where the handlers give up: an empty
   * record, a missing key, or an account name that is not exactly two parts around '#'.
   */
  function AccountOf(c: Json): (r: Option<Account>)
    requires Shaped(c)
    ensures r.Some? ==> "valorant" in c.fields && "account_user" in Section(c) && "account_region" in Section(c)
    ensures r.Some? ==> Join([r.value.name, r.value.tag], "#") == Section(c)["account_user"].s
    ensures r.Some? ==> '#' !in r.value.name && '#' !in r.value.tag
  {
    if c.fields == map[] || "valorant" !in c.fields then None
    else
      var v := Section(c);
      if "account_user" !in v then None
      else
        var parts := SplitOn(v["account_user"].s, '#');
        if |parts| != 2 || "account_region" !in v then None
        else
          JoinSplitOn(v["account_user"].s, '#');
          assert parts == [parts[0], parts[1]];
          Some(Account(parts[0], parts[1], v["account_region"].s))
  }

  /** After linking, the account is read back exactly when the name holds a single '#'. */
  lemma LinkThenAccount(c: Json, name: string, tag: string, region: string)
    requires Shaped(c) && '#' !in name && '#' !in tag
    ensures AccountOf(LinkedRecord(c, name + "#" + tag, region)) == Some(Account(name, tag, region))
  {
    var user := name + "#" + tag;
    assert user == name + ['#'] + tag;
    SplitOnTwo(name, '#', tag);
    var r := LinkedRecord(c, user, region);
    assert "valorant" in r.fields;
  }

  /** A name with more than one '#' is stored, but no handler can use it. */
  lemma LinkedButUnusable(c: Json, user: string, region: string)
    requires Shaped(c) && Count(user, '#') > 1
    ensures AccountOf(LinkedRecord(c, user, region)).None?
  {
    SplitOnTwoPieces(user, '#');
  }

  /** After unlinking there is no account. */
  lemma UnsetForgets(c: Json)
    requires Shaped(c)
    ensures Shaped(WithSection(c, map[])) && AccountOf(WithSection(c, map[])).None?
  {
  }

  // ---------------------------------------------------------------------------
  // `!record`
  // ---------------------------------------------------------------------------

  /** One game of the account's ranked history: when it was played, and the RR it gained or lost. */
  datatype Game = Game(dateRaw: int, mmrChange: int)

  /** A game still counts when it was played at most twelve hours ago. */
  predicate Counted(g: Game, now: int) {
    now - g.dateRaw <= TimeThreshold
  }

  /** The counted games, in order. */
  function Recent(games: seq<Game>, now: int): (r: seq<Game>)
    ensures |r| <= |games|
    ensures Subsequence(r, games)
    decreases |games|
  {
    if games == [] then []
    else
      var init := Recent(games[..|games| - 1], now);
      if Counted(games[|games| - 1], now) then
        var r := init + [games[|games| - 1]];
        assert r[..|r| - 1] == init;
        r
      else init
  }

  /** The games that gained RR. */
  function Wins(gs: seq<Game>): nat
    decreases |gs|
  {
    if gs == [] then 0
    else Wins(gs[..|gs| - 1]) + (if gs[|gs| - 1].mmrChange >= 1 then 1 else 0)
  }

  /** The games that gained nothing. */
  function Losses(gs: seq<Game>): nat
    decreases |gs|
  {
    if gs == [] then 0
    else Losses(gs[..|gs| - 1]) + (if gs[|gs| - 1].mmrChange <= 0 then 1 else 0)
  }

  /** The net RR change. */
  function Total(gs: seq<Game>): int
    decreases |gs|
  {
    if gs == [] then 0 else Total(gs[..|gs| - 1]) + gs[|gs| - 1].mmrChange
  }

  /** `!record` says "down" exactly when the net change is not positive. */
  function Direction(difference: int): (t: string)
    ensures t == "down" <==> difference <= 0
    ensures t == "up" <==> difference > 0
  {
    if difference <= 0 then "down" else "up"
  }

  /** One more game of the history: the tallies grow by that game when it counts. */
  lemma RecentStep(games: seq<Game>, i: int, now: int)
    requires 0 <= i < |games|
    ensures var before := Recent(games[..i], now);
      var after := Recent(games[..i + 1], now);
      && (Counted(games[i], now) ==> after == before + [games[i]])
      && (!Counted(games[i], now) ==> after == before)
      && Wins(after) == Wins(before) + (if Counted(games[i], now) && games[i].mmrChange >= 1 then 1 else 0)
      && Losses(after) == Losses(before) + (if Counted(games[i], now) && games[i].mmrChange <= 0 then 1 else 0)
      && Total(after) == Total(before) + (if Counted(games[i], now) then games[i].mmrChange else 0)
  {
    assert games[..i + 1][..i] == games[..i];
    var before := Recent(games[..i], now);
    assert (before + [games[i]])[..|before|] == before;
  }

  /** The aggregation loop of `record`. */
  method Tally(games: seq<Game>, now: int) returns (win: nat, loss: nat, difference: int)
    ensures win == Wins(Recent(games, now)) && loss == Losses(Recent(games, now))
    ensures difference == Total(Recent(games, now))
  {
    win, loss, difference := 0, 0, 0;
    var i := 0;
    while i < |games|
      invariant 0 <= i <= |games|
      invariant win == Wins(Recent(games[..i], now)) && loss == Losses(Recent(games[..i], now))
      invariant difference == Total(Recent(games[..i], now))
    {
      var game := games[i];
      RecentStep(games, i, now);
      if now - game.dateRaw <= TimeThreshold {
        if game.mmrChange >= 1 {
          win := win + 1;
        } else if game.mmrChange <= 0 {
          loss := loss + 1;
        }
        difference := difference + game.mmrChange;
      }
      i := i + 1;
    }
    assert games[..|games|] == games;
  }

  /** Each counted game is exactly one win or one loss. */
  lemma {:induction false} WinsPlusLosses(gs: seq<Game>)
    ensures Wins(gs) + Losses(gs) == |gs|
    decreases |gs|
  {
    if gs != [] {
      WinsPlusLosses(gs[..|gs| - 1]);
    }
  }

  /** The counted games are exactly the games played within the threshold. */
  lemma {:induction false} RecentMembers(games: seq<Game>, now: int, g: Game)
    ensures g in Recent(games, now) <==> g in games && Counted(g, now)
    decreases |games|
  {
    if games != [] {
      var init := games[..|games| - 1];
      RecentMembers(init, now, g);
      assert games == init + [games[|games| - 1]];
    }
  }

  /** A positive net change needs at least one win. */
  lemma {:induction false} UpNeedsWin(gs: seq<Game>)
    ensures Total(gs) > 0 ==> Wins(gs) > 0
    decreases |gs|
  {
    if gs != [] {
      UpNeedsWin(gs[..|gs| - 1]);
    }
  }

  /** With only wins, the net change is at least the number of wins. */
  lemma {:induction false} OnlyWinsUp(gs: seq<Game>)
    requires Losses(gs) == 0
    ensures Total(gs) >= Wins(gs)
    decreases |gs|
  {
    if gs != [] {
      OnlyWinsUp(gs[..|gs| - 1]);
    }
  }

  datatype RecordReply =
    | NoReply                  // no usable linked account
    | HttpError(status: int)
    | Summary(name: string, direction: string, difference: int, wins: nat, losses: nat)

  /** `Valorant.record`: reads only; `status` and `games` are the history service's answer. */
  method Record(db: DocumentStore, channelId: string, status: int, games: seq<Game>, now: int)
    returns (reply: RecordReply)
    requires db.Valid() && Shaped(Fetch(db.docs, channelId))
    ensures AccountOf(Fetch(db.docs, channelId)).None? <==> reply == NoReply
    ensures AccountOf(Fetch(db.docs, channelId)).Some? && status != 200 ==> reply == HttpError(status)
    ensures reply.Summary? ==>
      && reply.name == AccountOf(Fetch(db.docs, channelId)).value.name
      && reply.wins == Wins(Recent(games, now)) && reply.losses == Losses(Recent(games, now))
      && reply.difference == Total(Recent(games, now)) && reply.direction == Direction(reply.difference)
    ensures AccountOf(Fetch(db.docs, channelId)).Some? && status == 200 ==> reply.Summary?
  {
    var channelData := db.GetData(channelId);
    var account := AccountOf(channelData);
    if account.None? {
      return NoReply;
    }
    if status != 200 {
      return HttpError(status);
    }
    var win, loss, difference := Tally(games, now);
    reply := Summary(account.value.name, Direction(difference), difference, win, loss);
  }

  // ---------------------------------------------------------------------------
  // Win/loss announcements
  // ---------------------------------------------------------------------------

  datatype Check =
    | Skipped           // not playing VALORANT, no usable account, an error from the service, or an old match
    | Crashed           // the history is empty: reading its first match raises
    | Announce(matchId: string)

  /** The remembered match id, `null` when none is stored. */
  function Remembered(c: Json): Json
    requires Shaped(c)
  {
    if "latest_match_id" in Section(c) then Section(c)["latest_match_id"] else Null
  }

  /** One live stream in `win_loss_notifications`; `matchIds` are the history's match ids, newest first. */
  function CheckOutcome(c: Json, gameName: string, status: int, matchIds: seq<string>): Check
    requires Shaped(c)
  {
    if gameName != "VALORANT" || AccountOf(c).None? || status != 200 then Skipped
    else if matchIds == [] then Crashed
    else if Str(matchIds[0]) == Remembered(c) then Skipped
    else Announce(matchIds[0])
  }

  /** The record after an announcement: the new match id remembered, before anything is sent. */
  function Remember(c: Json, matchId: string): (r: Json)
    requires Shaped(c)
    ensures Shaped(r) && Remembered(r) == Str(matchId)
  {
    WithSection(c, Section(c)["latest_match_id" := Str(matchId)])
  }

  /** The dedup part of `win_loss_notifications` for one stream, on the store. */
  method CheckStream(db: DocumentStore, channelId: string, gameName: string, status: int, matchIds: seq<string>)
    returns (result: Check)
    requires db.Valid() && Shaped(Fetch(db.docs, channelId))
    modifies db
    ensures db.Valid()
    ensures result == CheckOutcome(old(Fetch(db.docs, channelId)), gameName, status, matchIds)
    ensures result.Announce? ==>
      && db.docs == old(db.docs)[channelId := Remember(old(Fetch(db.docs, channelId)), result.matchId)]
      && db.order == OrderAfterWrite(old(db.order), old(db.docs), channelId)
    ensures !result.Announce? ==> db.docs == old(db.docs) && db.order == old(db.order)
  {
    if gameName != "VALORANT" {
      return Skipped;
    }
    var channelData := db.GetData(channelId);
    var account := AccountOf(channelData);
    if account.None? || status != 200 {
      return Skipped;
    }
    if matchIds == [] {
      return Crashed;
    }
    var latest := matchIds[0];
    var remembered := Remembered(channelData);
    if Str(latest) == remembered {
      return Skipped;
    }
    db.UpdateData(channelId, Remember(channelData, latest));
    result := Announce(latest);
  }

  /** Remembering a match keeps the linked account. */
  lemma RememberKeepsAccount(c: Json, matchId: string)
    requires Shaped(c)
    ensures AccountOf(Remember(c, matchId)) == AccountOf(c)
  {
    var r := Remember(c, matchId);
    if "valorant" in c.fields {
      assert Section(r) == Section(c)["latest_match_id" := Str(matchId)];
    }
    if AccountOf(c).None? && c.fields != map[] && "valorant" !in c.fields {
      assert "account_user" !in Section(r);
    }
  }

  /** A match is announced once: the next check with the same newest match skips it. */
  lemma NoDoubleAnnounce(c: Json, gameName: string, status: int, matchIds: seq<string>, later: seq<string>)
    requires Shaped(c)
    requires CheckOutcome(c, gameName, status, matchIds).Announce?
    requires later != [] && later[0] == matchIds[0]
    ensures CheckOutcome(Remember(c, matchIds[0]), gameName, status, later) == Skipped
  {
    RememberKeepsAccount(c, matchIds[0]);
  }

  /** An announcement is always of a match other than the remembered one. */
  lemma AnnouncesOnlyNew(c: Json, gameName: string, status: int, matchIds: seq<string>)
    requires Shaped(c)
    requires CheckOutcome(c, gameName, status, matchIds).Announce?
    ensures Remembered(c) != Str(CheckOutcome(c, gameName, status, matchIds).matchId)
    ensures gameName == "VALORANT" && status == 200 && AccountOf(c).Some?
  {
  }

  // ---------------------------------------------------------------------------
  // The Radiant threshold
  // ---------------------------------------------------------------------------

  /** One leaderboard row. */
  datatype Leader = Leader(leaderboardRank: int, rankedRating: int)

  /** The leaderboard place whose rating sets the Radiant threshold. */
  const RadiantPlace: int := 500
  /** The threshold never goes below this. */
  const RadiantFloor: int := 450

  /** The rating of the first row at place 500, None when there is none (`next` raises). */
  function Rating500(board: seq<Leader>): (r: Option<int>)
    ensures r.None? <==> forall i :: 0 <= i < |board| ==> board[i].leaderboardRank != RadiantPlace
    ensures r.Some? ==>
      exists i :: 0 <= i < |board| && board[i].leaderboardRank == RadiantPlace && board[i].rankedRating == r.value
        && forall j :: 0 <= j < i ==> board[j].leaderboardRank != RadiantPlace
    decreases |board|
  {
    if board == [] then None
    else if board[0].leaderboardRank == RadiantPlace then Some(board[0].rankedRating)
    else
      var r := Rating500(board[1..]);
      assert forall i :: 1 <= i < |board| ==> board[1..][i - 1] == board[i];
      if r.Some? then
        ghost var i :| 0 <= i < |board[1..]| && board[1..][i].leaderboardRank == RadiantPlace
          && board[1..][i].rankedRating == r.value
          && forall j :: 0 <= j < i ==> board[1..][j].leaderboardRank != RadiantPlace;
        assert board[i + 1] == board[1..][i];
        r
      else r
  }

  /** `get_radiant_rr`: the place-500 rating, but never below 450. */
  function RadiantRR(board: seq<Leader>): (r: Option<int>)
    ensures r.Some? <==> Rating500(board).Some?
    ensures r.Some? ==> r.value >= RadiantFloor && r.value >= Rating500(board).value
    ensures r.Some? ==> r.value == RadiantFloor || r.value == Rating500(board).value
  {
    var v := Rating500(board);
    if v.None? then None
    else if v.value >= RadiantFloor then Some(v.value)
    else Some(RadiantFloor)
  }

  datatype RadiantReply =
    | NoThreshold           // no record, or no region linked
    | ThresholdCrashed      // the leaderboard has no place 500
    | Threshold(rr: int)

  /** `Valorant.radiant`: the threshold of the linked region; `board` is that region's leaderboard. */
  function RadiantCommand(c: Json, board: seq<Leader>): (r: RadiantReply)
    requires Shaped(c)
    ensures r == NoThreshold <==> c.fields == map[] || "account_region" !in Section(c)
    ensures r.Threshold? ==> Some(r.rr) == RadiantRR(board) && r.rr >= RadiantFloor
    ensures r == ThresholdCrashed ==> forall i :: 0 <= i < |board| ==> board[i].leaderboardRank != RadiantPlace
  {
    if c.fields == map[] || "account_region" !in Section(c) then NoThreshold
    else
      var t := RadiantRR(board);
      if t.None? then ThresholdCrashed else Threshold(t.value)
  }

  // ---------------------------------------------------------------------------
  // `get_rank`
  // ---------------------------------------------------------------------------

  datatype Rank =
    | NoRank                                        // no usable linked account
    | RankError(status: int)
    | RankCrashed                                   // the text has too few words, or a number does not parse
    | Immortal(tier: int, rr: int, fromRadiant: int)
    | Radiant(rr: int)
    | Tiered(rank: string, tier: int, rr: int)

  /** `s[:-3]`: the string without its last three characters (empty when shorter). */
  function DropLast3(s: string): (r: string)
    ensures |s| >= 3 ==> r + s[|s| - 3..] == s
    ensures |s| < 3 ==> r == []
  {
    if |s| >= 3 then s[..|s| - 3] else []
  }

  /** The rank text split into words: the rank name, then tier and RR where the rank has them. */
  function ParseRank(text: string, radiant: Option<int>): (r: Rank)
    ensures r.Immortal? ==> radiant.Some? && r.fromRadiant == radiant.value - r.rr
    ensures r != NoRank && !r.RankError?
  {
    var words := Words(text);
    if words == [] then RankCrashed
    else if words[0] == "Immortal" then
      if |words| < 4 then RankCrashed
      else
        var tier := ParseInt(words[1]);
        var rr := ParseInt(DropLast3(words[3]));
        if tier.None? || rr.None? || radiant.None? then RankCrashed
        else Immortal(tier.value, rr.value, radiant.value - rr.value)
    else if words[0] == "Radiant" then
      if |words| < 3 then RankCrashed
      else
        var rr := ParseInt(DropLast3(words[2]));
        if rr.None? then RankCrashed else Radiant(rr.value)
    else
      if |words| < 4 then RankCrashed
      else
        var tier := ParseInt(words[1]);
        var rr := ParseInt(DropLast3(words[3]));
        if tier.None? || rr.None? then RankCrashed
        else Tiered(words[0], tier.value, rr.value)
  }

  /**
   * `get_rank` for a channel whose record is `c`; `status` and `text` are the rank
   * service's answer, `board` the leaderboard of the account's region, from which
   * `get_radiant_rr` takes the threshold.
   */
  function GetRank(c: Json, status: int, text: string, board: seq<Leader>): (r: Rank)
    requires Shaped(c)
    ensures r == NoRank <==> AccountOf(c).None?
    ensures AccountOf(c).Some? && status != 200 ==> r == RankError(status)
    ensures r.Immortal? ==> RadiantRR(board).Some? && r.fromRadiant == RadiantRR(board).value - r.rr
    ensures r.Immortal? ==> r.rr + r.fromRadiant >= RadiantFloor
  {
    if AccountOf(c).None? then NoRank
    else if status != 200 then RankError(status)
    else
      var threshold := RadiantRR(board);
      var p := ParseRank(text, threshold);
      p
  }

  /** The decimal text of a number holds no whitespace. */
  lemma NumberNoSpace(n: int)
    ensures NoSpace(IntToString(n)) && IntToString(n) != []
  {
    var s := IntToString(n);
    if n < 0 {
      forall k | 0 <= k < |s| ensures !IsSpace(s[k]) {
        if k > 0 {
          assert s[k] == s[1..][k - 1];
        }
      }
    }
  }

  /** A number followed by three more characters, as the rank text writes RR. */
  lemma RRToken(n: int, suffix: string)
    requires |suffix| == 3
    ensures ParseInt(DropLast3(IntToString(n) + suffix)) == Some(n)
  {
    var t := IntToString(n) + suffix;
    assert t[..|t| - 3] == IntToString(n);
    ParseIntToString(n);
  }

  /** A space-free token followed by three more space-free characters is itself space-free. */
  lemma TokenNoSpace(n: int, suffix: string)
    requires NoSpace(suffix)
    ensures NoSpace(IntToString(n) + suffix) && IntToString(n) + suffix != []
  {
    NumberNoSpace(n);
    var t := IntToString(n) + suffix;
    forall k | 0 <= k < |t| ensures !IsSpace(t[k]) {
      if k >= |IntToString(n)| {
        assert t[k] == suffix[k - |IntToString(n)|];
      }
    }
  }

  /** The four words of `rank tier - rr...`. */
  lemma FourWords(a: string, b: string, c: string, d: string)
    requires a != [] && b != [] && c != [] && d != []
    requires NoSpace(a) && NoSpace(b) && NoSpace(c) && NoSpace(d)
    ensures Words(a + " " + (b + " " + (c + " " + d))) == [a, b, c, d]
  {
    WordsCons(a, b + " " + (c + " " + d));
    WordsCons(b, c + " " + d);
    WordsCons(c, d);
    WordsOne(d);
  }

  /** The words of a rank text `rank tier - rrSSS`. */
  lemma RankWords(rank: string, tier: int, rr: int, suffix: string)
    requires rank != [] && NoSpace(rank) && |suffix| == 3 && NoSpace(suffix)
    ensures var w := Words(rank + " " + IntToString(tier) + " - " + IntToString(rr) + suffix);
      && |w| == 4 && w[0] == rank
      && ParseInt(w[1]) == Some(tier) && ParseInt(DropLast3(w[3])) == Some(rr)
  {
    var rrTok := IntToString(rr) + suffix;
    NumberNoSpace(tier);
    TokenNoSpace(rr, suffix);
    RankText(rank, IntToString(tier), IntToString(rr), suffix);
    FourWords(rank, IntToString(tier), "-", rrTok);
    ParseIntToString(tier);
    RRToken(rr, suffix);
  }

  /** The rank text regrouped as four words joined by single spaces. */
  lemma RankText(rank: string, tier: string, rr: string, suffix: string)
    ensures rank + " " + tier + " - " + rr + suffix == rank + " " + (tier + " " + ("-" + " " + (rr + suffix)))
  {
  }

  /** A tiered rank written as `rank tier - rrRR.` reads back as that rank, tier and RR. */
  lemma ParseTiered(rank: string, tier: int, rr: int, suffix: string)
    requires rank != [] && NoSpace(rank) && rank != "Immortal" && rank != "Radiant"
    requires |suffix| == 3 && NoSpace(suffix)
    ensures ParseRank(rank + " " + IntToString(tier) + " - " + IntToString(rr) + suffix, None) == Tiered(rank, tier, rr)
  {
    RankWords(rank, tier, rr, suffix);
  }

  /** "Immortal" is a single word. */
  lemma ImmortalWord()
    ensures "Immortal" != [] && NoSpace("Immortal")
  {
    assert forall k :: 0 <= k < |"Immortal"| ==> "Immortal"[k] in "Imortal";
  }

  /** An Immortal rank reads back with its distance to the Radiant threshold. */
  lemma ParseImmortal(tier: int, rr: int, suffix: string, threshold: int)
    requires |suffix| == 3 && NoSpace(suffix)
    ensures ParseRank("Immortal" + " " + IntToString(tier) + " - " + IntToString(rr) + suffix, Some(threshold))
      == Immortal(tier, rr, threshold - rr)
  {
    ImmortalWord();
    RankWords("Immortal", tier, rr, suffix);
  }

  /** "Radiant" and "-" are single words. */
  lemma RadiantWord()
    ensures "Radiant" != [] && NoSpace("Radiant") && "-" != [] && NoSpace("-")
  {
    assert forall k :: 0 <= k < |"Radiant"| ==> "Radiant"[k] in "Radint";
  }

  /** `Radiant - ` followed by any single word splits into exactly three words. */
  lemma RadiantSplit(tok: string)
    requires tok != [] && NoSpace(tok)
    ensures Words("Radiant" + " - " + tok) == ["Radiant", "-", tok]
  {
    RadiantWord();
    assert "Radiant" + " - " + tok == "Radiant" + " " + ("-" + " " + tok);
    WordsCons("Radiant", "-" + " " + tok);
    WordsCons("-", tok);
    WordsOne(tok);
  }

  /** `Radiant - rrRR.` splits into three words: the rank and the RR token that `[:-3]` turns back into the RR. */
  lemma RadiantWords(rr: int, suffix: string)
    requires |suffix| == 3 && NoSpace(suffix)
    ensures var w := Words("Radiant" + " - " + IntToString(rr) + suffix);
      && |w| == 3 && w[0] == "Radiant" && w[1] == "-" && ParseInt(DropLast3(w[2])) == Some(rr)
  {
    var rrTok := IntToString(rr) + suffix;
    TokenNoSpace(rr, suffix);
    RadiantSplit(rrTok);
    assert "Radiant" + " - " + IntToString(rr) + suffix == "Radiant" + " - " + rrTok;
    RRToken(rr, suffix);
  }

  /** A Radiant rank written as `Radiant - rrRR.` reads back as its RR, whatever the threshold. */
  lemma ParseRadiant(rr: int, suffix: string, radiant: Option<int>)
    requires |suffix| == 3 && NoSpace(suffix)
    ensures ParseRank("Radiant" + " - " + IntToString(rr) + suffix, radiant) == Radiant(rr)
  {
    RadiantWords(rr, suffix);
  }

  // ---------------------------------------------------------------------------
  // `get_ability`
  // ---------------------------------------------------------------------------

  const Ultimate: string := "Ultimate"
  const InvalidAbility: string := "Invalid keybind or agent"

  /** Each agent's abilities on the e, q and c keys, as the table spells them. */
  const Agents: map<string, map<string, string>> := map[
    "Brimstone" := map["e" := "Smoke", "q" := "Incendiary", "c" := "Stim Beacon"],
    "Gecko" := map["e" := "Dizzy", "q" := "Wingman", "c" := "Mosh Pit"],
    "Harbor" := map["e" := "High Tide", "q" := "Cove", "c" := "Cascade"],
    "Fade" := map["e" := "Haunt", "q" := "Seize", "c" := "Prowler"],
    "Neon" := map["e" := "High Gear", "q" := "Relay Bolt", "c" := "Fast Lane"],
    "Chamber" := map["e" := "Rendezvous", "q" := "Headhunter", "c" := "Trademark"],
    "KAY/O" := map["e" := "Zero/Point", "q" := "Flash/Drive", "c" := "Frag/Ment"],
    "Astra" := map["e" := "Nebula", "q" := "Nova Pulse", "c" := "Gravity Well"],
    "Yoru" := map["e" := "Gatecrash", "q" := "Blindside", "c" := "Fakeout"],
    "Skye" := map["e" := "Guiding Light", "q" := "Trailblazer", "c" := "Regrowth"],
    "Raze" := map["e" := "Paint Shells", "q" := "Blast Pack", "c" := "Boom Bot"],
    "Jett" := map["e" := "Tailwind", "q" := "Updraft", "c" := "Cloudburst"],
    "Omen" := map["e" := "Dark Cover", "q" := "Paranoia", "c" := "Shrouded Step"],
    "Breach" := map["e" := "Fault Line", "q" := "Flashpoint", "c" := "Aftershock"],
    "Killjoy" := map["e" := "Alarmbot", "q" := "Nanoswarm", "c" := "Nanoswarm"],
    "Reyna" := map["e" := "Dismiss", "q" := "Devour", "c" := "Leer"],
    "Cypher" := map["e" := "Spycam", "q" := "Cyber Cage", "c" := "Trapwire"],
    "Viper" := map["e" := "Toxic Screen", "q" := "Poison Cloud", "c" := "Snake Bite"],
    "Sova" := map["e" := "Recon Bolt", "q" := "Shock Bolt", "c" := "Owl Drone"],
    "Sage" := map["e" := "Healing Orb", "q" := "Slow Orb", "c" := "Barrier Orb"],
    "Phoenix" := map["e" := "Hot Hands", "q" := "Curveball", "c" := "Blaze"],
    "Iso" := map["e" := "Double Tap", "q" := "Undercut", "c" := "Contingency"]
  ]

  /** `get_ability(agent, keybind)` */
  function Ability(agent: string, keybind: string): string {
    if agent in Agents && keybind in Agents[agent] then Agents[agent][keybind]
    else if keybind == "x" then Ultimate
    else InvalidAbility
  }

  /** Every agent of the table has exactly the e, q and c keys. */
  lemma AgentKeys(agent: string)
    requires agent in Agents
    ensures Agents[agent].Keys == {"e", "q", "c"}
  {
  }

  /** No ability of the table is named like one of the fallback texts. */
  lemma AgentValues(agent: string, k: string)
    requires agent in Agents && k in Agents[agent]
    ensures Agents[agent][k] != Ultimate && Agents[agent][k] != InvalidAbility
  {
  }

  /** "Ultimate" comes back exactly for the x key, whatever the agent. */
  lemma UltimateIffX(agent: string, keybind: string)
    ensures Ability(agent, keybind) == Ultimate <==> keybind == "x"
  {
    if agent in Agents {
      AgentKeys(agent);
      if keybind in Agents[agent] {
        AgentValues(agent, keybind);
      }
    }
  }

  /** The error text comes back exactly for a key other than x that the agent's table lacks. */
  lemma InvalidIff(agent: string, keybind: string)
    ensures Ability(agent, keybind) == InvalidAbility <==>
      keybind != "x" && !(agent in Agents && keybind in {"e", "q", "c"})
  {
    if agent in Agents {
      AgentKeys(agent);
      if keybind in Agents[agent] {
        AgentValues(agent, keybind);
      }
    }
  }
}
