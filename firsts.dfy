/**
 * Firsts: the first viewer to chat in each new stream of a channel is credited
 * once. The channel record remembers, under `firsts`, the stream already credited
 * (`current_stream`) and who was first (`first_person`); each user record counts
 * the user's firsts for the channel under `streamer_<channel id>_firsts`.
 */
module Firsts {
  import opened Wrappers
  import opened Text
  import opened Json
  import opened Seqs
  import opened Data
  import opened FeatureToggle

  /** The author of a chat message: the Twitch id and the login name. */
  datatype Author = Author(id: string, name: string)

  /** `f"streamer_{channel_id}_firsts"`: the key of a user's count for the channel. */
  function FirstsKey(channelId: string): (k: string)
    ensures k != "firsts" && k != "disabled_features"
    ensures '.' !in channelId ==> '.' !in k
  {
    assert ("streamer_" + channelId + "_firsts")[0] == 's';
    "streamer_" + channelId + "_firsts"
  }

  // ---------------------------------------------------------------------------
  // Record shapes
  // ---------------------------------------------------------------------------

  /** A user record whose entry for the channel, when present, is a dict with an integer count. */
  predicate CountShaped(d: Json, k: string) {
    d.Obj? && (k in d.fields ==> d.fields[k].Obj? && ("firsts" in d.fields[k].fields ==> d.fields[k].fields["firsts"].Int?))
  }

  /** A channel record whose `firsts` entry, when present, is a dict. */
  predicate ChannelShaped(c: Json) {
    DisabledShaped(c) && ("firsts" in c.fields ==> c.fields["firsts"].Obj?)
  }

  predicate Shaped(docs: Docs, channelId: string) {
    (forall id :: id in docs ==> CountShaped(docs[id], FirstsKey(channelId)))
    && ChannelShaped(Fetch(docs, channelId))
  }

  /** `channel_data.setdefault("firsts", {})` */
  function FirstsEntry(c: Json): Json
    requires ChannelShaped(c)
  {
    DictOrEmpty(c, "firsts")
  }

  /** The stream already credited, or None. */
  function CreditedStream(c: Json): Json
    requires ChannelShaped(c)
  {
    GetOrNull(FirstsEntry(c), "current_stream")
  }

  /** `user_data.get(k, {})` */
  function CountEntry(u: Json, k: string): Json
    requires CountShaped(u, k)
  {
    DictOrEmpty(u, k)
  }

  /** `user_data.get(k, {}).get("firsts", 0)` */
  function CountOf(u: Json, k: string): int
    requires CountShaped(u, k)
  {
    var e := CountEntry(u, k);
    if "firsts" in e.fields then e.fields["firsts"].i else 0
  }

  // ---------------------------------------------------------------------------
  // One chat message
  // ---------------------------------------------------------------------------

  datatype Outcome = Outcome(docs: Docs, announced: Option<int>)

  /** The message is ignored: a command, a disabled feature, no author, a known bot, or an offline channel. */
  predicate Quiet(docs: Docs, content: string, channelId: string, author: Option<Author>, live: Option<string>, knownBots: set<string>)
    requires Shaped(docs, channelId)
  {
    StartsWith(content, "!") || IsDisabled(Fetch(docs, channelId), "firsts")
    || author.None? || author.value.name in knownBots || live.None?
  }

  /** The channel record once `live` is marked as credited to `name`. */
  function MarkFirst(c: Json, live: string, name: string): (r: Json)
    requires ChannelShaped(c)
    ensures ChannelShaped(r) && CreditedStream(r) == Str(live)
    ensures GetOrNull(FirstsEntry(r), "first_person") == Str(name)
    ensures forall f :: f != "firsts" ==> Field(r, f) == Field(c, f)
  {
    SetField(c, "firsts", SetField(SetField(FirstsEntry(c), "current_stream", Str(live)), "first_person", Str(name)))
  }

  /** The user record with its count raised by one. */
  function AddFirst(u: Json, k: string): (r: Json)
    requires CountShaped(u, k)
    ensures CountShaped(r, k) && CountOf(r, k) == CountOf(u, k) + 1
    ensures forall f :: f != k ==> Field(r, f) == Field(u, f)
    ensures forall g :: g != "firsts" ==> Field(CountEntry(r, k), g) == Field(CountEntry(u, k), g)
  {
    SetField(u, k, SetField(CountEntry(u, k), "firsts", Int(CountOf(u, k) + 1)))
  }

  /**
   * A message that gets past the gates: nothing when the live stream is already credited;
   * otherwise the channel records the stream and the author, then the author's count
   * (read from the marked store) rises by one and is announced.
   */
  function Credit(docs: Docs, channelId: string, live: string, author: Author): Outcome
    requires Shaped(docs, channelId)
  {
    var c := Fetch(docs, channelId);
    if CreditedStream(c) == Str(live) then Outcome(docs, None)
    else
      var k := FirstsKey(channelId);
      assert CountShaped(MarkFirst(c, live, author.name), k);
      var marked := docs[channelId := MarkFirst(c, live, author.name)];
      var u := Fetch(marked, author.id);
      Outcome(marked[author.id := AddFirst(u, k)], Some(CountOf(u, k) + 1))
  }

  /** The scan order after `Credit`: on a first, the channel's row is written, then the author's. */
  function CreditOrder(docs: Docs, order: seq<string>, channelId: string, live: string, author: Author): seq<string>
    requires Shaped(docs, channelId)
  {
    var c := Fetch(docs, channelId);
    if CreditedStream(c) == Str(live) then order
    else OrderAfterWrite(OrderAfterWrite(order, docs, channelId), docs[channelId := MarkFirst(c, live, author.name)], author.id)
  }

  /** The store and the announced count after one chat message. */
  function Step(docs: Docs, content: string, channelId: string, author: Option<Author>, live: Option<string>, knownBots: set<string>): Outcome
    requires Shaped(docs, channelId)
  {
    if Quiet(docs, content, channelId, author, live, knownBots) then Outcome(docs, None)
    else Credit(docs, channelId, live.value, author.value)
  }

  /** The scan order after one chat message. */
  function StepOrder(docs: Docs, order: seq<string>, content: string, channelId: string, author: Option<Author>, live: Option<string>, knownBots: set<string>): seq<string>
    requires Shaped(docs, channelId)
  {
    if Quiet(docs, content, channelId, author, live, knownBots) then order
    else CreditOrder(docs, order, channelId, live.value, author.value)
  }

  /**
   * Rows already stored keep their places; for a new channel and a new author the
   * channel's row joins the scan order before the author's.
   */
  lemma StepOrderRows(docs: Docs, order: seq<string>, content: string, channelId: string, author: Option<Author>, live: Option<string>, knownBots: set<string>)
    requires Shaped(docs, channelId) && !Quiet(docs, content, channelId, author, live, knownBots)
    ensures channelId in docs && author.value.id in docs ==> StepOrder(docs, order, content, channelId, author, live, knownBots) == order
    ensures channelId !in docs && author.value.id !in docs && author.value.id != channelId ==>
      StepOrder(docs, order, content, channelId, author, live, knownBots) == order + [channelId, author.value.id]
  {
    if channelId !in docs {
      assert Fetch(docs, channelId) == EmptyObj;
      assert CreditedStream(EmptyObj) == Null;
    }
  }

  /** The per-user part: read the author's record, add one first, write it back. */
  method CreditFirst(db: DocumentStore, k: string, userId: string) returns (userFirsts: int)
    requires db.Valid() && CountShaped(Fetch(db.docs, userId), k)
    modifies db
    ensures db.Valid() && db.order == OrderAfterWrite(old(db.order), old(db.docs), userId)
    ensures db.docs == old(db.docs)[userId := AddFirst(Fetch(old(db.docs), userId), k)]
    ensures userFirsts == CountOf(Fetch(old(db.docs), userId), k) + 1
  {
    var userData := db.GetData(userId);
    userFirsts := CountOf(userData, k) + 1;
    var counts := CountEntry(userData, k);
    counts := SetField(counts, "firsts", Int(userFirsts));
    userData := SetField(userData, k, counts);
    db.UpdateData(userId, userData);
  }

  /** `Credit` of a stream not yet credited, with the marked store named. */
  lemma CreditUnfold(docs: Docs, channelId: string, live: string, author: Author)
    requires Shaped(docs, channelId) && CreditedStream(Fetch(docs, channelId)) != Str(live)
    ensures var marked := docs[channelId := MarkFirst(Fetch(docs, channelId), live, author.name)];
      var u := Fetch(marked, author.id);
      Credit(docs, channelId, live, author) == Outcome(marked[author.id := AddFirst(u, FirstsKey(channelId))], Some(CountOf(u, FirstsKey(channelId)) + 1))
  {
  }

  /** The channel's part of a first: the live stream and the author recorded in `firsts`. */
  method MarkChannel(db: DocumentStore, channelId: string, channelData: Json, streamId: string, name: string)
    requires db.Valid() && Shaped(db.docs, channelId) && channelData == Fetch(db.docs, channelId)
    modifies db
    ensures db.Valid() && Shaped(db.docs, channelId)
    ensures db.order == OrderAfterWrite(old(db.order), old(db.docs), channelId)
    ensures db.docs == old(db.docs)[channelId := MarkFirst(channelData, streamId, name)]
  {
    var entry := FirstsEntry(channelData);
    entry := SetField(SetField(entry, "current_stream", Str(streamId)), "first_person", Str(name));
    var marked := SetField(channelData, "firsts", entry);
    assert marked == MarkFirst(channelData, streamId, name);
    assert CountShaped(marked, FirstsKey(channelId));
    db.UpdateData(channelId, marked);
  }

  /** A first in a stream not yet credited: the channel is marked, then the author's count rises by one. */
  method CreditStream(db: DocumentStore, channelId: string, channelData: Json, streamId: string, author: Author)
    returns (announced: Option<int>)
    requires db.Valid() && Shaped(db.docs, channelId) && channelData == Fetch(db.docs, channelId)
    requires CreditedStream(channelData) != Str(streamId)
    modifies db
    ensures db.Valid()
    ensures db.order == CreditOrder(old(db.docs), old(db.order), channelId, streamId, author)
    ensures Credit(old(db.docs), channelId, streamId, author) == Outcome(db.docs, announced)
  {
    MarkChannel(db, channelId, channelData, streamId, author.name);
    CreditUnfold(old(db.docs), channelId, streamId, author);
    var userFirsts := CreditFirst(db, FirstsKey(channelId), author.id);
    announced := Some(userFirsts);
  }

  /** `Firsts.event_message`, on the store. */
  method OnMessage(db: DocumentStore, content: string, channelId: string, author: Option<Author>, live: Option<string>, knownBots: set<string>)
    returns (announced: Option<int>)
    requires db.Valid() && Shaped(db.docs, channelId)
    modifies db
    ensures db.Valid()
    ensures db.order == StepOrder(old(db.docs), old(db.order), content, channelId, author, live, knownBots)
    ensures Step(old(db.docs), content, channelId, author, live, knownBots) == Outcome(db.docs, announced)
  {
    announced := None;
    var channelData := db.GetData(channelId);
    if StartsWith(content, "!") || IsDisabled(channelData, "firsts") || author.None? || author.value.name in knownBots || live.None? {
      return;
    }
    var entry := FirstsEntry(channelData);
    var currentStream := GetOrNull(entry, "current_stream");
    if currentStream == Str(live.value) {
      return;
    }
    announced := CreditStream(db, channelId, channelData, live.value, author.value);
  }

  // ---------------------------------------------------------------------------
  // Properties of one message
  // ---------------------------------------------------------------------------

  /** Commands, a disabled feature, no author, known bots and offline channels change nothing. */
  lemma QuietChangesNothing(docs: Docs, content: string, channelId: string, author: Option<Author>, live: Option<string>, knownBots: set<string>)
    requires Shaped(docs, channelId) && Quiet(docs, content, channelId, author, live, knownBots)
    ensures Step(docs, content, channelId, author, live, knownBots) == Outcome(docs, None)
  {
  }

  /**
   * A stream already credited changes nothing; otherwise the channel records the live
   * stream and the author as first, the author's count rises by one (from 0 when
   * absent), and the announcement carries the new count.
   */
  lemma FirstRule(docs: Docs, content: string, channelId: string, author: Option<Author>, live: Option<string>, knownBots: set<string>)
    requires Shaped(docs, channelId) && !Quiet(docs, content, channelId, author, live, knownBots)
    ensures CreditedStream(Fetch(docs, channelId)) == Str(live.value) ==>
      Step(docs, content, channelId, author, live, knownBots) == Outcome(docs, None)
    ensures CreditedStream(Fetch(docs, channelId)) != Str(live.value) ==>
      var r := Step(docs, content, channelId, author, live, knownBots);
      var k := FirstsKey(channelId);
      && Shaped(r.docs, channelId)
      && CreditedStream(Fetch(r.docs, channelId)) == Str(live.value)
      && GetOrNull(FirstsEntry(Fetch(r.docs, channelId)), "first_person") == Str(author.value.name)
      && CountOf(Fetch(r.docs, author.value.id), k) == CountOf(Fetch(docs, author.value.id), k) + 1
      && r.announced == Some(CountOf(Fetch(r.docs, author.value.id), k))
      && IsDisabled(Fetch(r.docs, channelId), "firsts") == IsDisabled(Fetch(docs, channelId), "firsts")
      && (forall id :: id in docs && id != channelId && id != author.value.id ==> id in r.docs && r.docs[id] == docs[id])
  {
    var c := Fetch(docs, channelId);
    assert Step(docs, content, channelId, author, live, knownBots) == Credit(docs, channelId, live.value, author.value);
    if CreditedStream(c) != Str(live.value) {
      var k := FirstsKey(channelId);
      var m := MarkFirst(c, live.value, author.value.name);
      var marked := docs[channelId := m];
      var uid := author.value.id;
      var u := Fetch(marked, uid);
      var r := marked[uid := AddFirst(u, k)];
      assert CountOf(Fetch(marked, uid), k) == CountOf(Fetch(docs, uid), k);
      if uid == channelId {
        assert Field(AddFirst(u, k), "firsts") == Field(m, "firsts");
        assert Field(AddFirst(u, k), "disabled_features") == Field(m, "disabled_features");
      }
      assert CreditedStream(Fetch(r, channelId)) == Str(live.value);
      assert Field(Fetch(r, channelId), "disabled_features") == Field(c, "disabled_features");
    }
  }

  /** Whoever writes next in the same stream is not credited: at most one first per stream. */
  lemma OneFirstPerStream(docs: Docs, content: string, channelId: string, author: Option<Author>, live: Option<string>, knownBots: set<string>,
                          content2: string, author2: Option<Author>)
    requires Shaped(docs, channelId) && !Quiet(docs, content, channelId, author, live, knownBots)
    ensures Shaped(Step(docs, content, channelId, author, live, knownBots).docs, channelId)
    ensures var d1 := Step(docs, content, channelId, author, live, knownBots).docs;
      Step(d1, content2, channelId, author2, live, knownBots) == Outcome(d1, None)
  {
    FirstRule(docs, content, channelId, author, live, knownBots);
  }

  // ---------------------------------------------------------------------------
  // The `!first` command
  // ---------------------------------------------------------------------------

  datatype FirstsReply =
    | NoReply
    | Basic(firstPerson: Json, firsts: int)   // the channel's first person and the caller's count
    | Leaderboard(board: seq<Entry>)

  /** `handle_basic_firsts`: the count defaults to 0 and the first person to "None". */
  function BasicFirsts(docs: Docs, channelId: string, userId: string): (r: FirstsReply)
    requires Shaped(docs, channelId)
    ensures r.Basic?
    ensures !(userId in docs && FirstsKey(channelId) in docs[userId].fields) ==> r.firsts == 0
    ensures !("firsts" in Fetch(docs, channelId).fields && "first_person" in Fetch(docs, channelId).fields["firsts"].fields) ==>
      r.firstPerson == Str("None")
  {
    var c := Fetch(docs, channelId);
    var u := Fetch(docs, userId);
    var k := FirstsKey(channelId);
    var firsts := if k in u.fields && "firsts" in u.fields[k].fields then u.fields[k].fields["firsts"].i else 0;
    var firstPerson := if "firsts" in c.fields && "first_person" in c.fields["firsts"].fields
                       then c.fields["firsts"].fields["first_person"] else Str("None");
    Basic(firstPerson, firsts)
  }

  /** Every shaped record can be walked along `[k, "firsts"]`, and the walk keeps exactly the records with a count. */
  lemma CountScan(d: Json, k: string)
    requires CountShaped(d, k)
    ensures Walkable(d, [k, "firsts"])
    ensures Included(d, [k, "firsts"]) <==> k in d.fields && "firsts" in d.fields[k].fields
    ensures Included(d, [k, "firsts"]) ==> Resolve(d, [k, "firsts"]) == Int(CountOf(d, k))
  {
    var keys := [k, "firsts"];
    assert keys[1..] == ["firsts"] && ["firsts"][1..] == [];
    if k in d.fields {
      var e := d.fields[k];
      assert Resolve(d, keys) == Resolve(e, ["firsts"]);
      if "firsts" in e.fields {
        assert Resolve(e, ["firsts"]) == Resolve(e.fields["firsts"], []);
      }
    }
  }

  /** The sorting scan is defined for the path `[k, "firsts"]`, which `streamer_<id>_firsts.firsts` splits into. */
  lemma CountScannable(docs: Docs, channelId: string)
    requires Shaped(docs, channelId) && '.' !in channelId
    ensures Segments(FirstsKey(channelId) + ".firsts") == [FirstsKey(channelId), "firsts"]
    ensures Scannable(docs, [FirstsKey(channelId), "firsts"])
    ensures IntLeaves(docs, [FirstsKey(channelId), "firsts"])
  {
    var k := FirstsKey(channelId);
    var keys := [k, "firsts"];
    assert k + ".firsts" == k + ['.'] + "firsts";
    SplitOnTwo(k, '.', "firsts");
    forall id | id in docs
      ensures Walkable(docs[id], keys) && (Resolve(docs[id], keys) == Null || Resolve(docs[id], keys).Int?)
    {
      CountScan(docs[id], k);
    }
  }

  /** The firsts leaderboard: counts highest first, ties in scan order. */
  function FirstsBoard(docs: Docs, order: seq<string>, channelId: string): seq<Entry>
    requires forall id :: id in order ==> id in docs
    requires Shaped(docs, channelId) && '.' !in channelId
  {
    CountScannable(docs, channelId);
    SortDesc(Entries(docs, order, [FirstsKey(channelId), "firsts"]))
  }

  /** `!first` and `!first top`. */
  method FirstsCommand(db: DocumentStore, channelId: string, userId: string, arg: Option<string>)
    returns (reply: FirstsReply)
    requires db.Valid() && '.' !in channelId && Shaped(db.docs, channelId)
    ensures IsDisabled(Fetch(db.docs, channelId), "firsts") ==> reply == NoReply
    ensures !IsDisabled(Fetch(db.docs, channelId), "firsts") && arg.None? ==>
      reply == BasicFirsts(db.docs, channelId, userId)
    ensures !IsDisabled(Fetch(db.docs, channelId), "firsts") && arg.Some? && DropInvisible(arg.value) == "top" ==>
      reply == Leaderboard(Take(FirstsBoard(db.docs, db.order, channelId), 10))
    ensures arg.Some? && DropInvisible(arg.value) != "top" ==> reply == NoReply
  {
    var channelData := db.GetData(channelId);
    if IsDisabled(channelData, "firsts") {
      return NoReply;
    }
    var k := FirstsKey(channelId);
    if arg.None? {
      var userData := db.GetData(userId);
      var firsts := 0;
      if k in userData.fields && "firsts" in userData.fields[k].fields {
        firsts := userData.fields[k].fields["firsts"].i;
      }
      var firstPerson := Str("None");
      if "firsts" in channelData.fields && "first_person" in channelData.fields["firsts"].fields {
        firstPerson := channelData.fields["firsts"].fields["first_person"];
      }
      return Basic(firstPerson, firsts);
    }
    if DropInvisible(arg.value) != "top" {
      return NoReply;
    }
    var keys := [k, "firsts"];
    CountScannable(db.docs, channelId);
    var sortedDocuments := db.GetSortedDocumentIds(k + ".firsts");
    ghost var sorted := FirstsBoard(db.docs, db.order, channelId);
    SortedEntriesFaithful(db.docs, db.order, keys);
    var board: seq<Entry> := [];
    var index := 0;
    while index < |sortedDocuments|
      invariant 0 <= index <= |sortedDocuments| && index <= 10
      invariant |sortedDocuments| == |sorted|
      invariant board == sorted[..index]
    {
      if index >= 10 {
        break;
      }
      var documentId := sortedDocuments[index];
      var document := db.GetData(documentId);
      assert FaithfulEntry(db.docs, keys, sorted[index]);
      CountScan(document, k);
      assert board + [Entry(documentId, document.fields[k].fields["firsts"].i)] == sorted[..index + 1];
      board := board + [Entry(documentId, document.fields[k].fields["firsts"].i)];
      index := index + 1;
    }
    reply := Leaderboard(board);
  }

  /** The leaderboard lists at most ten counts, in non-increasing order, each one the count of its user. */
  lemma FirstsBoardCorrect(docs: Docs, order: seq<string>, channelId: string)
    requires forall id :: id in order ==> id in docs
    requires Shaped(docs, channelId) && '.' !in channelId
    ensures |Take(FirstsBoard(docs, order, channelId), 10)| <= 10
    ensures SortedDesc(Take(FirstsBoard(docs, order, channelId), 10))
    ensures forall e :: e in FirstsBoard(docs, order, channelId) ==>
      e.id in docs && CountOf(docs[e.id], FirstsKey(channelId)) == e.value
  {
    var keys := [FirstsKey(channelId), "firsts"];
    var b := FirstsBoard(docs, order, channelId);
    CountScannable(docs, channelId);
    SortedEntriesFaithful(docs, order, keys);
    forall e | e in b ensures e.id in docs && CountOf(docs[e.id], FirstsKey(channelId)) == e.value {
      var i :| 0 <= i < |b| && b[i] == e;
      assert FaithfulEntry(docs, keys, b[i]);
      CountScan(docs[e.id], FirstsKey(channelId));
    }
  }
}
