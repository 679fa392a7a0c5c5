/**
 * Watch streaks: for every chat message in a live channel, the channel record
 * remembers the ids of the current and the previous stream, streaks that missed
 * both of them lapse, and the author's streak for the channel is credited at most
 * once per stream: extended when the author was there for the previous stream,
 * restarted at 1 otherwise, with an announcement at every multiple of 5.
 *
 * A user record holds, under `streamer-<channel id>`, the entry
 * `{latest_stream, watchstreak}`; the channel record holds, under `watchstreaks`,
 * the history `{current_stream, last_stream}`.
 */
module Watchstreak {
  import opened Wrappers
  import opened Text
  import opened Json
  import opened Seqs
  import opened Data
  import opened FeatureToggle

  /** `f"streamer-{channel_id}"`: the key of a user's entry for the channel. */
  function StreamerKey(channelId: string): (k: string)
    ensures k != "watchstreaks" && k != "disabled_features"
    ensures '.' !in channelId ==> '.' !in k
  {
    assert ("streamer-" + channelId)[0] == 's';
    "streamer-" + channelId
  }

  // ---------------------------------------------------------------------------
  // Record shapes
  // ---------------------------------------------------------------------------

  /** The entry `d[k]`, when present, is a dict, and a streak in it is an integer that comes with its stream. */
  predicate StreakShaped(d: Json, k: string) {
    d.Obj?
    && (k in d.fields ==>
          d.fields[k].Obj?
          && ("watchstreak" in d.fields[k].fields ==>
                d.fields[k].fields["watchstreak"].Int? && "latest_stream" in d.fields[k].fields))
  }

  /** The channel record's history, when present, is a dict. */
  predicate ChannelShaped(c: Json) {
    DisabledShaped(c) && ("watchstreaks" in c.fields ==> c.fields["watchstreaks"].Obj?)
  }

  /** The shapes the handler relies on for every record of the store. */
  predicate Shaped(docs: Docs, channelId: string) {
    (forall id :: id in docs ==> StreakShaped(docs[id], StreamerKey(channelId)))
    && ChannelShaped(Fetch(docs, channelId))
  }

  /** The record holds a streak for the channel. */
  predicate HasStreak(d: Json, k: string) {
    d.Obj? && k in d.fields && d.fields[k].Obj? && "watchstreak" in d.fields[k].fields
  }

  /** The stream the streak was last credited in. */
  function Latest(d: Json, k: string): Json
    requires StreakShaped(d, k) && HasStreak(d, k)
  {
    d.fields[k].fields["latest_stream"]
  }

  /** The streak for the channel, if there is one. */
  function StreakOf(d: Json, k: string): (r: Option<int>)
    requires StreakShaped(d, k)
    ensures r.Some? <==> HasStreak(d, k)
  {
    if HasStreak(d, k) then Some(d.fields[k].fields["watchstreak"].i) else None
  }

  // ---------------------------------------------------------------------------
  // The channel's stream history
  // ---------------------------------------------------------------------------

  /** `channel_data.setdefault("watchstreaks", {})` */
  function History(c: Json): Json
    requires ChannelShaped(c)
  {
    DictOrEmpty(c, "watchstreaks")
  }

  /** `current_stream`, or None. */
  function CurrentStream(c: Json): Json
    requires ChannelShaped(c)
  {
    GetOrNull(History(c), "current_stream")
  }

  /** `last_stream`, or None. */
  function LastStream(c: Json): Json
    requires ChannelShaped(c)
  {
    GetOrNull(History(c), "last_stream")
  }

  /** A new stream went live: the current stream becomes the last one and the live stream the current one. */
  function Advance(c: Json, live: string): (r: Json)
    requires ChannelShaped(c)
    ensures ChannelShaped(r)
    ensures CurrentStream(r) == Str(live) && LastStream(r) == CurrentStream(c)
    ensures forall f :: f != "watchstreaks" ==> Field(r, f) == Field(c, f)
  {
    SetField(c, "watchstreaks", SetField(SetField(History(c), "last_stream", CurrentStream(c)), "current_stream", Str(live)))
  }

  // ---------------------------------------------------------------------------
  // The sweep
  // ---------------------------------------------------------------------------

  /** A streak last credited in neither of the two remembered streams. */
  predicate Stale(d: Json, k: string, last: Json, cur: Json)
    requires StreakShaped(d, k)
  {
    HasStreak(d, k) && Latest(d, k) != last && Latest(d, k) != cur
  }

  /** `del document[k]["watchstreak"]` on a stale record; any other record is left alone. */
  function Lapse(d: Json, k: string, last: Json, cur: Json): (r: Json)
    requires StreakShaped(d, k)
    ensures StreakShaped(r, k)
  {
    if Stale(d, k, last, cur) then SetField(d, k, DelField(d.fields[k], "watchstreak")) else d
  }

  /** The sweep over the whole store. */
  function Sweep(docs: Docs, k: string, last: Json, cur: Json): (r: Docs)
    requires forall id :: id in docs ==> StreakShaped(docs[id], k)
    ensures r.Keys == docs.Keys
    ensures forall id :: id in r ==> StreakShaped(r[id], k)
  {
    map id | id in docs :: Lapse(docs[id], k, last, cur)
  }

  /** A lapse removes the streak of a stale record and nothing else. */
  lemma LapseRemovesOnlyStreak(d: Json, k: string, last: Json, cur: Json)
    requires StreakShaped(d, k)
    ensures forall f :: f != k ==> Field(Lapse(d, k, last, cur), f) == Field(d, f)
    ensures k in d.fields ==>
      k in Lapse(d, k, last, cur).fields
      && forall g :: g != "watchstreak" ==> Field(Lapse(d, k, last, cur).fields[k], g) == Field(d.fields[k], g)
    ensures HasStreak(Lapse(d, k, last, cur), k) <==> HasStreak(d, k) && !Stale(d, k, last, cur)
    ensures HasStreak(Lapse(d, k, last, cur), k) ==> Lapse(d, k, last, cur) == d
  {
  }

  /** After the sweep, every remaining streak was last credited in one of the two remembered streams. */
  lemma SweepLeavesFresh(docs: Docs, k: string, last: Json, cur: Json)
    requires forall id :: id in docs ==> StreakShaped(docs[id], k)
    ensures forall id :: id in Sweep(docs, k, last, cur) && HasStreak(Sweep(docs, k, last, cur)[id], k) ==>
      Latest(Sweep(docs, k, last, cur)[id], k) in {last, cur}
  {
    forall id | id in Sweep(docs, k, last, cur) && HasStreak(Sweep(docs, k, last, cur)[id], k)
      ensures Latest(Sweep(docs, k, last, cur)[id], k) in {last, cur}
    {
      LapseRemovesOnlyStreak(docs[id], k, last, cur);
    }
  }

  /** The sweep with only the records in `done` visited yet. */
  function SweepSome(docs: Docs, done: seq<string>, k: string, last: Json, cur: Json): Docs
    requires forall id :: id in docs ==> StreakShaped(docs[id], k)
  {
    map id | id in docs :: if id in done then Lapse(docs[id], k, last, cur) else docs[id]
  }

  /** The scan that feeds the sweep walks the path `[k, "watchstreak"]`. */
  lemma StreakPath(channelId: string)
    requires '.' !in channelId
    ensures Segments(StreamerKey(channelId) + ".watchstreak") == [StreamerKey(channelId), "watchstreak"]
  {
    var k := StreamerKey(channelId);
    assert k + ".watchstreak" == k + ['.'] + "watchstreak";
    SplitOnTwo(k, '.', "watchstreak");
  }

  /** Every shaped record can be walked along `[k, "watchstreak"]`, and the walk keeps exactly the records with a streak. */
  lemma StreakScan(d: Json, k: string)
    requires StreakShaped(d, k)
    ensures Walkable(d, [k, "watchstreak"])
    ensures Included(d, [k, "watchstreak"]) <==> HasStreak(d, k)
    ensures Included(d, [k, "watchstreak"]) ==> Resolve(d, [k, "watchstreak"]) == Int(StreakOf(d, k).value)
  {
    var keys := [k, "watchstreak"];
    assert keys[1..] == ["watchstreak"] && ["watchstreak"][1..] == [];
    if k in d.fields {
      var e := d.fields[k];
      assert Resolve(d, keys) == Resolve(e, ["watchstreak"]);
      if "watchstreak" in e.fields {
        assert Resolve(e, ["watchstreak"]) == Resolve(e.fields["watchstreak"], []);
      }
    }
  }

  /** Both scans over the store are defined for the path `[k, "watchstreak"]`. */
  lemma StreakScannable(docs: Docs, channelId: string)
    requires Shaped(docs, channelId)
    ensures Scannable(docs, [StreamerKey(channelId), "watchstreak"])
    ensures IntLeaves(docs, [StreamerKey(channelId), "watchstreak"])
  {
    var keys := [StreamerKey(channelId), "watchstreak"];
    forall id | id in docs
      ensures Walkable(docs[id], keys) && (Resolve(docs[id], keys) == Null || Resolve(docs[id], keys).Int?)
    {
      StreakScan(docs[id], StreamerKey(channelId));
    }
  }

  // ---------------------------------------------------------------------------
  // Crediting the author
  // ---------------------------------------------------------------------------

  datatype Credit = Credit(doc: Json, milestone: Option<int>)

  /** The entry is complete when it has both a stream and a streak. */
  predicate Complete(u: Json, k: string) {
    u.Obj? && k in u.fields && u.fields[k].Obj?
    && "latest_stream" in u.fields[k].fields && "watchstreak" in u.fields[k].fields
  }

  /** The author's record after the message, and the announced streak if any. */
  function CreditUser(u: Json, k: string, live: string, last: Json): (r: Credit)
    requires StreakShaped(u, k)
    ensures StreakShaped(r.doc, k) && HasStreak(r.doc, k) && Latest(r.doc, k) == Str(live)
    ensures forall f :: f != k ==> Field(r.doc, f) == Field(u, f)
  {
    if !Complete(u, k) then
      Credit(SetField(u, k, Obj(map["latest_stream" := Str(live), "watchstreak" := Int(1)])), None)
    else
      var e := u.fields[k];
      var latest := e.fields["latest_stream"];
      if latest == Str(live) then Credit(u, None)
      else
        var w := if latest == last then e.fields["watchstreak"].i + 1 else 1;
        Credit(SetField(u, k, SetField(SetField(e, "latest_stream", Str(live)), "watchstreak", Int(w))),
               if latest == last && w % 5 == 0 then Some(w) else None)
  }

  /**
   * The streak rule: an incomplete entry restarts at 1; a second message in the same
   * stream changes nothing; an unbroken chain adds 1; a broken one restarts at 1.
   */
  lemma CreditRule(u: Json, k: string, live: string, last: Json)
    requires StreakShaped(u, k)
    ensures !Complete(u, k) ==> StreakOf(CreditUser(u, k, live, last).doc, k) == Some(1)
    ensures Complete(u, k) && Latest(u, k) == Str(live) ==> CreditUser(u, k, live, last).doc == u
    ensures Complete(u, k) && Latest(u, k) != Str(live) && Latest(u, k) == last ==>
      StreakOf(CreditUser(u, k, live, last).doc, k) == Some(StreakOf(u, k).value + 1)
    ensures Complete(u, k) && Latest(u, k) != Str(live) && Latest(u, k) != last ==>
      StreakOf(CreditUser(u, k, live, last).doc, k) == Some(1)
  {
  }

  /** The announcement goes out exactly when the streak was extended to a multiple of 5, and names the new streak. */
  lemma MilestoneRule(u: Json, k: string, live: string, last: Json)
    requires StreakShaped(u, k)
    ensures CreditUser(u, k, live, last).milestone.Some? <==>
      Complete(u, k) && Latest(u, k) != Str(live) && Latest(u, k) == last
      && StreakOf(CreditUser(u, k, live, last).doc, k).value % 5 == 0
    ensures CreditUser(u, k, live, last).milestone.Some? ==>
      CreditUser(u, k, live, last).milestone == StreakOf(CreditUser(u, k, live, last).doc, k)
  {
  }

  /** A second credit for the same stream changes nothing and announces nothing. */
  lemma CreditOncePerStream(u: Json, k: string, live: string, last: Json)
    requires StreakShaped(u, k)
    ensures CreditUser(CreditUser(u, k, live, last).doc, k, live, last) == Credit(CreditUser(u, k, live, last).doc, None)
  {
    var d := CreditUser(u, k, live, last).doc;
    assert Complete(d, k);
  }

  // ---------------------------------------------------------------------------
  // One chat message
  // ---------------------------------------------------------------------------

  datatype Outcome = Outcome(docs: Docs, milestone: Option<int>)

  /** The message is ignored: a command, a disabled feature, no author, or an offline channel. */
  predicate Quiet(docs: Docs, content: string, channelId: string, author: Option<string>, live: Option<string>)
    requires Shaped(docs, channelId)
  {
    StartsWith(content, "!") || IsDisabled(Fetch(docs, channelId), "watchstreaks") || author.None? || live.None?
  }

  /** The live stream differs from the remembered current stream. */
  predicate Moved(docs: Docs, channelId: string, live: string)
    requires Shaped(docs, channelId)
  {
    CurrentStream(Fetch(docs, channelId)) != Str(live)
  }

  /** The previous stream once the history is up to date. */
  function LastAfter(docs: Docs, channelId: string, live: string): Json
    requires Shaped(docs, channelId)
  {
    var c := Fetch(docs, channelId);
    if Moved(docs, channelId, live) then CurrentStream(c) else LastStream(c)
  }

  /** The store after the history update and, on a new stream, the sweep. */
  function Swept(docs: Docs, channelId: string, live: string): (r: Docs)
    requires Shaped(docs, channelId)
    ensures forall id :: id in r ==> StreakShaped(r[id], StreamerKey(channelId))
  {
    var c := Fetch(docs, channelId);
    var k := StreamerKey(channelId);
    if Moved(docs, channelId, live) then
      assert StreakShaped(Advance(c, live), k);
      Sweep(docs[channelId := Advance(c, live)], k, CurrentStream(c), Str(live))
    else
      docs
  }

  /** The store and the announcement after one chat message. */
  function Step(docs: Docs, content: string, channelId: string, author: Option<string>, live: Option<string>): Outcome
    requires Shaped(docs, channelId)
  {
    if Quiet(docs, content, channelId, author, live) then Outcome(docs, None)
    else
      var swept := Swept(docs, channelId, live.value);
      var c := CreditUser(Fetch(swept, author.value), StreamerKey(channelId), live.value, LastAfter(docs, channelId, live.value));
      Outcome(swept[author.value := c.doc], c.milestone)
  }

  /** The scan order after one chat message: the channel's row is written on a new stream, then the author's row. */
  function StepOrder(docs: Docs, order: seq<string>, content: string, channelId: string, author: Option<string>, live: Option<string>): seq<string>
    requires Shaped(docs, channelId)
  {
    if Quiet(docs, content, channelId, author, live) then order
    else
      var o := if Moved(docs, channelId, live.value) then OrderAfterWrite(order, docs, channelId) else order;
      OrderAfterWrite(o, Swept(docs, channelId, live.value), author.value)
  }

  /**
   * Rows already stored keep their places; for a new channel and a new author the
   * channel's row joins the scan order before the author's.
   */
  lemma StepOrderRows(docs: Docs, order: seq<string>, content: string, channelId: string, author: Option<string>, live: Option<string>)
    requires Shaped(docs, channelId) && !Quiet(docs, content, channelId, author, live)
    ensures channelId in docs && author.value in docs ==> StepOrder(docs, order, content, channelId, author, live) == order
    ensures channelId !in docs && author.value !in docs && author.value != channelId ==>
      StepOrder(docs, order, content, channelId, author, live) == order + [channelId, author.value]
  {
    var swept := Swept(docs, channelId, live.value);
    if Moved(docs, channelId, live.value) {
      assert swept.Keys == docs.Keys + {channelId};
    } else {
      assert swept == docs;
    }
    if channelId !in docs {
      assert Fetch(docs, channelId) == EmptyObj;
      assert Moved(docs, channelId, live.value);
    }
  }

  /** Visiting one more record applies the lapse rule to it. */
  lemma SweepSomeStep(docs: Docs, done: seq<string>, id: string, k: string, last: Json, cur: Json)
    requires forall x :: x in docs ==> StreakShaped(docs[x], k)
    requires id in docs && id !in done
    ensures SweepSome(docs, done, k, last, cur)[id] == docs[id]
    ensures SweepSome(docs, done, k, last, cur)[id := Lapse(docs[id], k, last, cur)] == SweepSome(docs, done + [id], k, last, cur)
  {
  }

  /** Once every record with a streak has been visited, the partial sweep is the whole sweep. */
  lemma SweepSomeAll(docs: Docs, done: seq<string>, k: string, last: Json, cur: Json)
    requires forall x :: x in docs ==> StreakShaped(docs[x], k)
    requires forall x :: x in docs && HasStreak(docs[x], k) ==> x in done
    ensures SweepSome(docs, done, k, last, cur) == Sweep(docs, k, last, cur)
  {
  }

  /** The scanned ids are the records with a streak, each at most once. */
  lemma StreakIds(docs: Docs, order: seq<string>, channelId: string)
    requires '.' !in channelId
    requires forall x :: x in order <==> x in docs
    requires NoDuplicates(order)
    requires forall x :: x in docs ==> StreakShaped(docs[x], StreamerKey(channelId))
    ensures Scannable(docs, Segments(StreamerKey(channelId) + ".watchstreak"))
    ensures NoDuplicates(WithKey(docs, order, Segments(StreamerKey(channelId) + ".watchstreak")))
    ensures forall x :: x in WithKey(docs, order, Segments(StreamerKey(channelId) + ".watchstreak")) <==>
      x in docs && HasStreak(docs[x], StreamerKey(channelId))
  {
    var k := StreamerKey(channelId);
    var keys := [k, "watchstreak"];
    StreakPath(channelId);
    forall x | x in docs ensures Walkable(docs[x], keys) {
      StreakScan(docs[x], k);
    }
    WithKeyNoDuplicates(docs, order, keys);
    forall x ensures x in WithKey(docs, order, keys) <==> x in docs && HasStreak(docs[x], k) {
      WithKeyMembers(docs, order, keys, x);
      if x in docs {
        StreakScan(docs[x], k);
      }
    }
  }

  /** One visit of the sweep: delete the record's streak if it is stale. */
  method LapseRecord(db: DocumentStore, id: string, k: string, lastStream: Json, currentStream: Json)
    requires db.Valid() && id in db.docs && StreakShaped(db.docs[id], k)
    modifies db
    ensures db.Valid() && db.order == old(db.order)
    ensures db.docs == old(db.docs)[id := Lapse(old(db.docs)[id], k, lastStream, currentStream)]
  {
    var document := db.GetData(id);
    if Stale(document, k, lastStream, currentStream) {
      document := SetField(document, k, DelField(document.fields[k], "watchstreak"));
      db.UpdateData(id, document);
    } else {
      assert db.docs == db.docs[id := document];
    }
  }

  /** One turn of the sweep's loop: the store moves from one partial sweep to the next. */
  method SweepVisit(db: DocumentStore, ghost docs: Docs, ghost done: seq<string>, id: string, k: string, lastStream: Json, currentStream: Json)
    requires db.Valid() && forall x :: x in docs ==> StreakShaped(docs[x], k)
    requires id in docs && id !in done
    requires db.docs == SweepSome(docs, done, k, lastStream, currentStream)
    modifies db
    ensures db.Valid() && db.order == old(db.order)
    ensures db.docs == SweepSome(docs, done + [id], k, lastStream, currentStream)
  {
    SweepSomeStep(docs, done, id, k, lastStream, currentStream);
    LapseRecord(db, id, k, lastStream, currentStream);
  }

  /** The loop over the scanned ids that deletes each stale streak (the body of the sweep). */
  method SweepStreaks(db: DocumentStore, channelId: string, lastStream: Json, currentStream: Json)
    requires db.Valid() && '.' !in channelId
    requires forall id :: id in db.docs ==> StreakShaped(db.docs[id], StreamerKey(channelId))
    modifies db
    ensures db.Valid() && db.order == old(db.order)
    ensures db.docs == Sweep(old(db.docs), StreamerKey(channelId), lastStream, currentStream)
  {
    var k := StreamerKey(channelId);
    StreakIds(db.docs, db.order, channelId);
    var ids := db.GetDocumentsWithKey(k + ".watchstreak");
    SweepIds(db, ids, k, lastStream, currentStream);
  }

  /** Visits every id of `ids`, a duplicate-free list of exactly the records with a streak. */
  method SweepIds(db: DocumentStore, ids: seq<string>, k: string, lastStream: Json, currentStream: Json)
    requires db.Valid() && forall id :: id in db.docs ==> StreakShaped(db.docs[id], k)
    requires NoDuplicates(ids)
    requires forall x :: x in ids <==> x in db.docs && HasStreak(db.docs[x], k)
    modifies db
    ensures db.Valid() && db.order == old(db.order)
    ensures db.docs == Sweep(old(db.docs), k, lastStream, currentStream)
  {
    ghost var docs1 := db.docs;
    var i := 0;
    while i < |ids|
      invariant 0 <= i <= |ids|
      invariant db.Valid() && db.order == old(db.order)
      invariant db.docs == SweepSome(docs1, ids[..i], k, lastStream, currentStream)
    {
      var id := ids[i];
      assert ids[..i + 1] == ids[..i] + [id];
      assert id !in ids[..i];
      SweepVisit(db, docs1, ids[..i], id, k, lastStream, currentStream);
      i := i + 1;
    }
    assert ids[..|ids|] == ids;
    SweepSomeAll(docs1, ids, k, lastStream, currentStream);
  }

  /** The per-user part: read the author's record, apply the streak rule, write it back unless nothing changed. */
  method CreditAuthor(db: DocumentStore, k: string, userId: string, streamId: string, lastStream: Json)
    returns (milestone: Option<int>)
    requires db.Valid() && StreakShaped(Fetch(db.docs, userId), k)
    modifies db
    ensures db.Valid() && db.order == OrderAfterWrite(old(db.order), old(db.docs), userId)
    ensures db.docs == old(db.docs)[userId := CreditUser(Fetch(old(db.docs), userId), k, streamId, lastStream).doc]
    ensures milestone == CreditUser(Fetch(old(db.docs), userId), k, streamId, lastStream).milestone
  {
    milestone := None;
    var currentStream := Str(streamId);
    var userData := db.GetData(userId);
    if !Complete(userData, k) {
      userData := SetField(userData, k, Obj(map["latest_stream" := Str(streamId), "watchstreak" := Int(1)]));
      db.UpdateData(userId, userData);
      return;
    }
    var userLatestStream := userData.fields[k].fields["latest_stream"];
    var userWatchstreak := userData.fields[k].fields["watchstreak"].i;
    if userLatestStream == currentStream {
      assert db.docs == db.docs[userId := userData];
      return;
    }
    if userLatestStream != lastStream {
      userLatestStream := currentStream;
      userWatchstreak := 1;
    } else {
      userLatestStream := Str(streamId);
      userWatchstreak := userWatchstreak + 1;
      if userWatchstreak % 5 == 0 {
        milestone := Some(userWatchstreak);
      }
    }
    var entry := SetField(SetField(userData.fields[k], "latest_stream", userLatestStream), "watchstreak", Int(userWatchstreak));
    userData := SetField(userData, k, entry);
    db.UpdateData(userId, userData);
  }

  /** `Watchstreak.event_message`, on the store. */
  method OnMessage(db: DocumentStore, content: string, channelId: string, author: Option<string>, live: Option<string>)
    returns (milestone: Option<int>)
    requires db.Valid() && '.' !in channelId && Shaped(db.docs, channelId)
    modifies db
    ensures db.Valid()
    ensures db.docs == Step(old(db.docs), content, channelId, author, live).docs
    ensures milestone == Step(old(db.docs), content, channelId, author, live).milestone
    ensures db.order == StepOrder(old(db.docs), old(db.order), content, channelId, author, live)
  {
    milestone := None;
    if StartsWith(content, "!") {
      return;
    }
    var channelData := db.GetData(channelId);
    if IsDisabled(channelData, "watchstreaks") {
      return;
    }
    if author.None? {
      return;
    }
    var userId := author.value;
    if live.None? {
      return;
    }
    var streamId := live.value;
    var k := StreamerKey(channelId);

    var lastStream := UpdateHistory(db, channelId, channelData, streamId);
    milestone := CreditAuthor(db, k, userId, streamId, lastStream);
  }

  /** The history update of `event_message` and, on a new stream, the sweep; returns the previous stream. */
  method UpdateHistory(db: DocumentStore, channelId: string, channelData: Json, streamId: string)
    returns (lastStream: Json)
    requires db.Valid() && '.' !in channelId && Shaped(db.docs, channelId)
    requires channelData == Fetch(db.docs, channelId)
    modifies db
    ensures db.Valid()
    ensures db.order == if Moved(old(db.docs), channelId, streamId) then OrderAfterWrite(old(db.order), old(db.docs), channelId) else old(db.order)
    ensures db.docs == Swept(old(db.docs), channelId, streamId)
    ensures lastStream == LastAfter(old(db.docs), channelId, streamId)
  {
    ghost var docs0 := db.docs;
    var k := StreamerKey(channelId);
    var history := History(channelData);
    var currentStream := GetOrNull(history, "current_stream");
    lastStream := GetOrNull(history, "last_stream");
    if currentStream != Str(streamId) {
      lastStream := currentStream;
      currentStream := Str(streamId);
      history := SetField(SetField(history, "last_stream", lastStream), "current_stream", currentStream);
      var advanced := SetField(channelData, "watchstreaks", history);
      assert advanced == Advance(Fetch(docs0, channelId), streamId);
      assert StreakShaped(advanced, k);
      db.UpdateData(channelId, advanced);
      SweepStreaks(db, channelId, lastStream, currentStream);
    }
  }

  // ---------------------------------------------------------------------------
  // Properties of one message
  // ---------------------------------------------------------------------------

  /** Commands, a disabled feature, a missing author and an offline channel change nothing. */
  lemma QuietChangesNothing(docs: Docs, content: string, channelId: string, author: Option<string>, live: Option<string>)
    requires Shaped(docs, channelId)
    requires StartsWith(content, "!") || IsDisabled(Fetch(docs, channelId), "watchstreaks") || author.None? || live.None?
    ensures Step(docs, content, channelId, author, live) == Outcome(docs, None)
  {
  }

  /** On a new stream the history shifts by one; otherwise it stays as it was. */
  lemma HistoryRule(docs: Docs, channelId: string, live: string)
    requires Shaped(docs, channelId)
    ensures Moved(docs, channelId, live) ==>
      && CurrentStream(Fetch(Swept(docs, channelId, live), channelId)) == Str(live)
      && LastStream(Fetch(Swept(docs, channelId, live), channelId)) == CurrentStream(Fetch(docs, channelId))
    ensures !Moved(docs, channelId, live) ==> Swept(docs, channelId, live) == docs
  {
    if Moved(docs, channelId, live) {
      var c := Fetch(docs, channelId);
      var k := StreamerKey(channelId);
      var a := Advance(c, live);
      LapseRemovesOnlyStreak(a, k, CurrentStream(c), Str(live));
      assert Field(Lapse(a, k, CurrentStream(c), Str(live)), "watchstreaks") == Field(a, "watchstreaks");
    }
  }

  /**
   * The sweep runs only on a new stream, and then it applies the lapse rule to every
   * record other than the channel's own, which also gets its history advanced.
   */
  lemma SweepRule(docs: Docs, channelId: string, live: string, id: string)
    requires Shaped(docs, channelId) && id in docs && id != channelId
    ensures Moved(docs, channelId, live) ==>
      id in Swept(docs, channelId, live)
      && Swept(docs, channelId, live)[id]
         == Lapse(docs[id], StreamerKey(channelId), CurrentStream(Fetch(docs, channelId)), Str(live))
    ensures !Moved(docs, channelId, live) ==> Swept(docs, channelId, live)[id] == docs[id]
  {
  }

  /** Every streak is fresh: last credited in the channel's current or previous stream. */
  predicate Fresh(docs: Docs, channelId: string)
    requires Shaped(docs, channelId)
  {
    forall id :: id in docs && HasStreak(docs[id], StreamerKey(channelId)) ==>
      Latest(docs[id], StreamerKey(channelId)) in {CurrentStream(Fetch(docs, channelId)), LastStream(Fetch(docs, channelId))}
  }

  /** The author's credit keeps the channel record's history and feature list. */
  lemma CreditKeepsChannel(docs: Docs, channelId: string, uid: string, c: Credit)
    requires Shaped(docs, channelId)
    requires forall f :: f != StreamerKey(channelId) ==> Field(c.doc, f) == Field(Fetch(docs, uid), f)
    requires StreakShaped(c.doc, StreamerKey(channelId))
    ensures Shaped(docs[uid := c.doc], channelId)
    ensures CurrentStream(Fetch(docs[uid := c.doc], channelId)) == CurrentStream(Fetch(docs, channelId))
    ensures LastStream(Fetch(docs[uid := c.doc], channelId)) == LastStream(Fetch(docs, channelId))
    ensures IsDisabled(Fetch(docs[uid := c.doc], channelId), "watchstreaks") == IsDisabled(Fetch(docs, channelId), "watchstreaks")
  {
    if uid == channelId {
      assert Field(c.doc, "watchstreaks") == Field(Fetch(docs, uid), "watchstreaks");
      assert Field(c.doc, "disabled_features") == Field(Fetch(docs, uid), "disabled_features");
    }
  }

  /** The history update and sweep keep the record shapes and leave every streak fresh. */
  lemma SweptShapedFresh(docs: Docs, channelId: string, live: string)
    requires Shaped(docs, channelId)
    requires Moved(docs, channelId, live) || Fresh(docs, channelId)
    ensures Shaped(Swept(docs, channelId, live), channelId)
    ensures Fresh(Swept(docs, channelId, live), channelId)
    ensures CurrentStream(Fetch(Swept(docs, channelId, live), channelId)) == Str(live)
    ensures LastStream(Fetch(Swept(docs, channelId, live), channelId)) == LastAfter(docs, channelId, live)
    ensures IsDisabled(Fetch(Swept(docs, channelId, live), channelId), "watchstreaks") == IsDisabled(Fetch(docs, channelId), "watchstreaks")
  {
    var c := Fetch(docs, channelId);
    var k := StreamerKey(channelId);
    if Moved(docs, channelId, live) {
      var a := Advance(c, live);
      var d1 := docs[channelId := a];
      var s := Swept(docs, channelId, live);
      LapseRemovesOnlyStreak(a, k, CurrentStream(c), Str(live));
      assert Field(s[channelId], "watchstreaks") == Field(a, "watchstreaks");
      assert Field(s[channelId], "disabled_features") == Field(a, "disabled_features");
      assert CurrentStream(Fetch(s, channelId)) == Str(live);
      assert LastStream(Fetch(s, channelId)) == CurrentStream(c);
      SweepLeavesFresh(d1, k, CurrentStream(c), Str(live));
    }
  }

  /** Every message keeps the record shapes and the freshness of every streak. */
  lemma StepKeepsFresh(docs: Docs, content: string, channelId: string, author: Option<string>, live: Option<string>)
    requires Shaped(docs, channelId) && Fresh(docs, channelId)
    ensures Shaped(Step(docs, content, channelId, author, live).docs, channelId)
    ensures Fresh(Step(docs, content, channelId, author, live).docs, channelId)
  {
    if !Quiet(docs, content, channelId, author, live) {
      var k := StreamerKey(channelId);
      var s := Swept(docs, channelId, live.value);
      SweptShapedFresh(docs, channelId, live.value);
      var c := CreditUser(Fetch(s, author.value), k, live.value, LastAfter(docs, channelId, live.value));
      CreditKeepsChannel(s, channelId, author.value, c);
    }
  }

  /** A second identical message changes nothing and announces nothing: one credit per stream. */
  lemma StepOncePerStream(docs: Docs, content: string, channelId: string, author: Option<string>, live: Option<string>)
    requires Shaped(docs, channelId)
    requires !Quiet(docs, content, channelId, author, live)
    requires Moved(docs, channelId, live.value) || Fresh(docs, channelId)
    ensures Shaped(Step(docs, content, channelId, author, live).docs, channelId)
    ensures var d1 := Step(docs, content, channelId, author, live).docs;
      Step(d1, content, channelId, author, live) == Outcome(d1, None)
  {
    var k := StreamerKey(channelId);
    var s := Swept(docs, channelId, live.value);
    SweptShapedFresh(docs, channelId, live.value);
    var c := CreditUser(Fetch(s, author.value), k, live.value, LastAfter(docs, channelId, live.value));
    CreditKeepsChannel(s, channelId, author.value, c);
    var d1 := s[author.value := c.doc];
    assert !Moved(d1, channelId, live.value);
    assert Swept(d1, channelId, live.value) == d1;
    CreditOncePerStream(Fetch(s, author.value), k, live.value, LastAfter(docs, channelId, live.value));
    assert LastAfter(d1, channelId, live.value) == LastAfter(docs, channelId, live.value);
    assert Fetch(d1, author.value) == c.doc;
    assert d1[author.value := c.doc] == d1;
  }

  // ---------------------------------------------------------------------------
  // The `!watchstreak` command
  // ---------------------------------------------------------------------------

  datatype StreakReply =
    | NoReply
    | OwnStreak(streak: Option<int>)   // None is shown as "None"
    | Leaderboard(board: seq<Entry>)

  /** The streak leaderboard: the channel's streaks, highest first, ties in scan order. */
  function StreakBoard(docs: Docs, order: seq<string>, channelId: string): seq<Entry>
    requires forall id :: id in order ==> id in docs
    requires Shaped(docs, channelId)
  {
    var keys := [StreamerKey(channelId), "watchstreak"];
    StreakScannable(docs, channelId);
    SortDesc(Entries(docs, order, keys))
  }

  /** `!watchstreak` and `!watchstreak top`. */
  method WatchstreakCommand(db: DocumentStore, channelId: string, userId: string, arg: Option<string>)
    returns (reply: StreakReply)
    requires db.Valid() && '.' !in channelId && Shaped(db.docs, channelId)
    ensures IsDisabled(Fetch(db.docs, channelId), "watchstreaks") ==> reply == NoReply
    ensures !IsDisabled(Fetch(db.docs, channelId), "watchstreaks") && arg.None? ==>
      reply == OwnStreak(StreakOf(Fetch(db.docs, userId), StreamerKey(channelId)))
    ensures !IsDisabled(Fetch(db.docs, channelId), "watchstreaks") && arg.Some? && DropInvisible(arg.value) == "top" ==>
      reply == Leaderboard(Take(StreakBoard(db.docs, db.order, channelId), 10))
    ensures arg.Some? && DropInvisible(arg.value) != "top" ==> reply == NoReply
  {
    var channelData := db.GetData(channelId);
    if IsDisabled(channelData, "watchstreaks") {
      return NoReply;
    }
    var k := StreamerKey(channelId);
    if arg.None? {
      var userData := db.GetData(userId);
      if HasStreak(userData, k) {
        reply := OwnStreak(Some(userData.fields[k].fields["watchstreak"].i));
      } else {
        reply := OwnStreak(None);
      }
      return;
    }
    if DropInvisible(arg.value) != "top" {
      return NoReply;
    }
    var keys := [k, "watchstreak"];
    StreakPath(channelId);
    StreakScannable(db.docs, channelId);
    var sortedDocuments := db.GetSortedDocumentIds(k + ".watchstreak");
    ghost var sorted := StreakBoard(db.docs, db.order, channelId);
    SortedEntriesFaithful(db.docs, db.order, keys);
    var board: seq<Entry> := [];
    var index := 0;
    while index < |sortedDocuments|
      invariant 0 <= index <= |sortedDocuments| && index <= 10
      invariant |sortedDocuments| == |sorted|
      invariant board == sorted[..index]
    {
      if index >= 10 {
        break;
      }
      var documentId := sortedDocuments[index];
      var document := db.GetData(documentId);
      assert FaithfulEntry(db.docs, keys, sorted[index]);
      StreakScan(document, k);
      assert board + [Entry(documentId, document.fields[k].fields["watchstreak"].i)] == sorted[..index + 1];
      board := board + [Entry(documentId, document.fields[k].fields["watchstreak"].i)];
      index := index + 1;
    }
    reply := Leaderboard(board);
  }

  /** The leaderboard lists at most ten streaks, in non-increasing order, each one a streak of the channel. */
  lemma StreakBoardCorrect(docs: Docs, order: seq<string>, channelId: string)
    requires forall id :: id in order ==> id in docs
    requires Shaped(docs, channelId)
    ensures |Take(StreakBoard(docs, order, channelId), 10)| <= 10
    ensures SortedDesc(Take(StreakBoard(docs, order, channelId), 10))
    ensures forall e :: e in StreakBoard(docs, order, channelId) ==>
      e.id in docs && StreakOf(docs[e.id], StreamerKey(channelId)) == Some(e.value)
  {
    var keys := [StreamerKey(channelId), "watchstreak"];
    var b := StreakBoard(docs, order, channelId);
    StreakScannable(docs, channelId);
    SortedEntriesFaithful(docs, order, keys);
    forall e | e in b ensures e.id in docs && StreakOf(docs[e.id], StreamerKey(channelId)) == Some(e.value) {
      var i :| 0 <= i < |b| && b[i] == e;
      assert FaithfulEntry(docs, keys, b[i]);
      StreakScan(docs[e.id], StreamerKey(channelId));
    }
  }
}
