/**
 * The `!featuretoggle` command: a moderator or the broadcaster enables or
 * disables one of a fixed list of features for the channel, by removing it from
 * or appending it to the channel record's `disabled_features` list.
 * The other cogs consult the same list before they act.
 */
module FeatureToggle {
  import opened Wrappers
  import opened Text
  import opened Json
  import opened Seqs
  import opened Data

  /** The features that can be toggled. */
  const Features: seq<string> := [
    "watchstreaks", "firsts", "rank", "osu.map",
    "valorant.radiant", "valorant.record", "valorant.winlossnoti"
  ]

  /** A channel record whose `disabled_features`, when present, is a list. */
  predicate DisabledShaped(c: Json) {
    c.Obj? && ("disabled_features" in c.fields ==> c.fields["disabled_features"].Arr?)
  }

  /** `disabled_features`, or the empty list the command creates when it is absent. */
  function DisabledList(c: Json): (l: seq<Json>)
    requires DisabledShaped(c)
    ensures "disabled_features" in c.fields ==> Arr(l) == c.fields["disabled_features"]
    ensures "disabled_features" !in c.fields ==> l == []
  {
    if "disabled_features" in c.fields then c.fields["disabled_features"].items else []
  }

  /** The check every cog makes first; a record without the list disables nothing. */
  predicate IsDisabled(c: Json, feature: string)
    requires DisabledShaped(c)
  {
    Str(feature) in DisabledList(c)
  }

  datatype Reply =
    | Silent            // the caller is neither a moderator nor the broadcaster
    | Crashed           // no argument at all, or no second word: the handler raises
    | BadAction         // the first word is neither enable nor disable
    | BadFeature        // the second word is not a known feature
    | AlreadyEnabled(feature: string)
    | AlreadyDisabled(feature: string)
    | Enabled(feature: string)
    | Disabled(feature: string)

  /** The replies after which the channel record is written back. */
  predicate Writes(r: Reply) { r.Enabled? || r.Disabled? }

  /** The outcome of the command for a channel whose record is `c`. */
  function Decide(isMod: bool, isBroadcaster: bool, arg: Option<string>, c: Json): Reply
    requires DisabledShaped(c)
  {
    if !isMod && !isBroadcaster then Silent
    else if arg.None? then Crashed
    else
      var args := SplitOn(arg.value, ' ');
      var action := Lower(args[0]);
      if action != "enable" && action != "disable" then BadAction
      else if |args| < 2 then Crashed
      else
        var feature := Lower(args[1]);
        if feature !in Features then BadFeature
        else if action == "enable" then
          (if Str(feature) in DisabledList(c) then Enabled(feature) else AlreadyEnabled(feature))
        else
          (if Str(feature) in DisabledList(c) then AlreadyDisabled(feature) else Disabled(feature))
  }

  /** The channel record with its list replaced. */
  function WithDisabled(c: Json, l: seq<Json>): (r: Json)
    requires c.Obj?
    ensures DisabledShaped(r) && DisabledList(r) == l
    ensures forall k :: k != "disabled_features" ==> Field(r, k) == Field(c, k)
  {
    SetField(c, "disabled_features", Arr(l))
  }

  /** The list after the command: the feature removed on enable, appended on disable. */
  function NewList(c: Json, r: Reply): seq<Json>
    requires DisabledShaped(c)
  {
    match r
    case Enabled(f) => RemoveFirst(DisabledList(c), Str(f))
    case Disabled(f) => DisabledList(c) + [Str(f)]
    case _ => DisabledList(c)
  }

  /** The list holds only known feature names, each at most once. */
  predicate CleanList(l: seq<Json>) {
    NoDuplicates(l) && forall x :: x in l ==> x.Str? && x.s in Features
  }

  /** `!featuretoggle`, on the store. */
  method ToggleFeature(db: DocumentStore, channelId: string, isMod: bool, isBroadcaster: bool, arg: Option<string>)
    returns (reply: Reply)
    requires db.Valid() && DisabledShaped(Fetch(db.docs, channelId))
    modifies db
    ensures db.Valid()
    ensures reply == Decide(isMod, isBroadcaster, arg, old(Fetch(db.docs, channelId)))
    ensures Writes(reply) ==>
      && db.docs == old(db.docs)[channelId := WithDisabled(old(Fetch(db.docs, channelId)), NewList(old(Fetch(db.docs, channelId)), reply))]
      && db.order == OrderAfterWrite(old(db.order), old(db.docs), channelId)
    ensures !Writes(reply) ==> db.docs == old(db.docs) && db.order == old(db.order)
  {
    if !isMod && !isBroadcaster {
      return Silent;
    }
    if arg.None? {
      return Crashed;
    }
    var args := SplitOn(arg.value, ' ');
    var action := Lower(args[0]);
    if action != "enable" && action != "disable" {
      return BadAction;
    }
    if |args| < 2 {
      return Crashed;
    }
    var feature := Lower(args[1]);
    if feature !in Features {
      return BadFeature;
    }
    reply := ApplyToggle(db, channelId, action == "enable", feature);
  }

  /** The part of the command after validation: read the list, remove or append the feature, write back. */
  method ApplyToggle(db: DocumentStore, channelId: string, enable: bool, feature: string) returns (reply: Reply)
    requires db.Valid() && DisabledShaped(Fetch(db.docs, channelId))
    modifies db
    ensures db.Valid()
    ensures var listed := Str(feature) in DisabledList(old(Fetch(db.docs, channelId)));
      reply == if enable then (if listed then Enabled(feature) else AlreadyEnabled(feature))
               else (if listed then AlreadyDisabled(feature) else Disabled(feature))
    ensures Writes(reply) ==>
      && db.docs == old(db.docs)[channelId := WithDisabled(old(Fetch(db.docs, channelId)), NewList(old(Fetch(db.docs, channelId)), reply))]
      && db.order == OrderAfterWrite(old(db.order), old(db.docs), channelId)
    ensures !Writes(reply) ==> db.docs == old(db.docs) && db.order == old(db.order)
  {
    var channelData := db.GetData(channelId);
    var disabled := DisabledList(channelData);
    if enable {
      if Str(feature) !in disabled {
        return AlreadyEnabled(feature);
      }
      disabled := RemoveFirst(disabled, Str(feature));
      reply := Enabled(feature);
    } else {
      if Str(feature) in disabled {
        return AlreadyDisabled(feature);
      }
      disabled := disabled + [Str(feature)];
      reply := Disabled(feature);
    }
    channelData := WithDisabled(channelData, disabled);
    db.UpdateData(channelId, channelData);
  }

  /** Both actions keep the list duplicate-free and within the known features. */
  lemma ToggleKeepsClean(isMod: bool, isBroadcaster: bool, arg: Option<string>, c: Json)
    requires DisabledShaped(c) && CleanList(DisabledList(c))
    ensures CleanList(NewList(c, Decide(isMod, isBroadcaster, arg, c)))
  {
    var r := Decide(isMod, isBroadcaster, arg, c);
    var l := DisabledList(c);
    if r.Enabled? {
      RemoveFirstNoDuplicates(l, Str(r.feature));
      forall x | x in RemoveFirst(l, Str(r.feature)) ensures x in l {
        RemoveFirstMembers(l, Str(r.feature), x);
      }
    } else if r.Disabled? {
      AppendFresh(l, Str(r.feature));
    }
  }

  /** An enable is accepted exactly when the feature is listed, a disable exactly when it is not. */
  lemma AcceptedIffState(isMod: bool, isBroadcaster: bool, arg: Option<string>, c: Json)
    requires DisabledShaped(c)
    ensures Decide(isMod, isBroadcaster, arg, c).Enabled? ==> IsDisabled(c, Decide(isMod, isBroadcaster, arg, c).feature)
    ensures Decide(isMod, isBroadcaster, arg, c).AlreadyEnabled? ==> !IsDisabled(c, Decide(isMod, isBroadcaster, arg, c).feature)
    ensures Decide(isMod, isBroadcaster, arg, c).Disabled? ==> !IsDisabled(c, Decide(isMod, isBroadcaster, arg, c).feature)
    ensures Decide(isMod, isBroadcaster, arg, c).AlreadyDisabled? ==> IsDisabled(c, Decide(isMod, isBroadcaster, arg, c).feature)
    ensures (Writes(Decide(isMod, isBroadcaster, arg, c)) || Decide(isMod, isBroadcaster, arg, c).AlreadyEnabled?
             || Decide(isMod, isBroadcaster, arg, c).AlreadyDisabled?) ==> Decide(isMod, isBroadcaster, arg, c).feature in Features
    ensures !isMod && !isBroadcaster ==> Decide(isMod, isBroadcaster, arg, c) == Silent
  {
  }

  /** Lower-casing a string without upper-case letters changes nothing. */
  lemma LowerOfLower(s: string)
    requires forall k :: 0 <= k < |s| ==> !IsAsciiUpper(s[k])
    ensures Lower(s) == s
  {
  }

  /** The known features are written in lower case and hold no space. */
  lemma FeatureNames(f: string)
    requires f in Features
    ensures ' ' !in f && Lower(f) == f
  {
    assert forall k :: 0 <= k < |f| ==> !IsAsciiUpper(f[k]);
    LowerOfLower(f);
  }

  /** The words a caller types for an action on a feature. */
  lemma CommandWords(action: string, f: string)
    requires action == "enable" || action == "disable"
    requires f in Features
    ensures SplitOn(action + " " + f, ' ') == [action, f]
    ensures Lower(action) == action && Lower(f) == f
  {
    FeatureNames(f);
    LowerOfLower(action);
    SplitOnTwo(action, ' ', f);
  }

  /** What the command decides when a moderator types `action f` for a known feature `f`. */
  lemma DecideWords(isMod: bool, isBroadcaster: bool, action: string, f: string, c: Json)
    requires isMod || isBroadcaster
    requires action == "enable" || action == "disable"
    requires f in Features && DisabledShaped(c)
    ensures action == "enable" ==>
      Decide(isMod, isBroadcaster, Some(action + " " + f), c) == if IsDisabled(c, f) then Enabled(f) else AlreadyEnabled(f)
    ensures action == "disable" ==>
      Decide(isMod, isBroadcaster, Some(action + " " + f), c) == if IsDisabled(c, f) then AlreadyDisabled(f) else Disabled(f)
  {
    CommandWords(action, f);
  }

  /** `enable f` typed by a moderator for a disabled feature enables it. */
  lemma EnableTyped(isMod: bool, isBroadcaster: bool, f: string, c: Json)
    requires isMod || isBroadcaster
    requires f in Features && DisabledShaped(c) && IsDisabled(c, f)
    ensures Decide(isMod, isBroadcaster, Some("enable " + f), c) == Enabled(f)
  {
    assert "enable " + f == "enable" + " " + f;
    DecideWords(isMod, isBroadcaster, "enable", f, c);
  }

  /** `disable f` typed by a moderator for an enabled feature disables it. */
  lemma DisableTyped(isMod: bool, isBroadcaster: bool, f: string, c: Json)
    requires isMod || isBroadcaster
    requires f in Features && DisabledShaped(c) && !IsDisabled(c, f)
    ensures Decide(isMod, isBroadcaster, Some("disable " + f), c) == Disabled(f)
  {
    assert "disable " + f == "disable" + " " + f;
    DecideWords(isMod, isBroadcaster, "disable", f, c);
  }

  /** `disable f` followed by `enable f` restores the list exactly. */
  lemma DisableThenEnable(isMod: bool, isBroadcaster: bool, f: string, c: Json)
    requires isMod || isBroadcaster
    requires f in Features && DisabledShaped(c) && !IsDisabled(c, f)
    ensures Decide(isMod, isBroadcaster, Some("disable " + f), c) == Disabled(f)
    ensures var c1 := WithDisabled(c, NewList(c, Disabled(f)));
      && Decide(isMod, isBroadcaster, Some("enable " + f), c1) == Enabled(f)
      && NewList(c1, Enabled(f)) == DisabledList(c)
  {
    var c1 := WithDisabled(c, NewList(c, Disabled(f)));
    DisableTyped(isMod, isBroadcaster, f, c);
    assert IsDisabled(c1, f);
    EnableTyped(isMod, isBroadcaster, f, c1);
    RemoveAppended(DisabledList(c), Str(f));
  }

  /** The list once `f` is enabled no longer holds it, and holds one `f` fewer. */
  lemma EnabledList(f: string, c: Json)
    requires DisabledShaped(c) && IsDisabled(c, f) && NoDuplicates(DisabledList(c))
    ensures var c1 := WithDisabled(c, NewList(c, Enabled(f)));
      && !IsDisabled(c1, f)
      && multiset(DisabledList(c1)) + multiset{Str(f)} == multiset(DisabledList(c))
  {
    var l := DisabledList(c);
    RemoveFirstMembers(l, Str(f), Str(f));
    assert multiset(l)[Str(f)] >= 1;
  }

  /** `enable f` followed by `disable f` gives back the same features, with `f` moved to the end. */
  lemma EnableThenDisable(isMod: bool, isBroadcaster: bool, f: string, c: Json)
    requires isMod || isBroadcaster
    requires f in Features && DisabledShaped(c) && IsDisabled(c, f) && NoDuplicates(DisabledList(c))
    ensures Decide(isMod, isBroadcaster, Some("enable " + f), c) == Enabled(f)
    ensures var c1 := WithDisabled(c, NewList(c, Enabled(f)));
      && Decide(isMod, isBroadcaster, Some("disable " + f), c1) == Disabled(f)
      && NewList(c1, Disabled(f)) == RemoveFirst(DisabledList(c), Str(f)) + [Str(f)]
      && multiset(NewList(c1, Disabled(f))) == multiset(DisabledList(c))
  {
    var c1 := WithDisabled(c, NewList(c, Enabled(f)));
    EnableTyped(isMod, isBroadcaster, f, c);
    EnabledList(f, c);
    DisableTyped(isMod, isBroadcaster, f, c1);
    assert DisabledList(c1) == RemoveFirst(DisabledList(c), Str(f));
    assert NewList(c1, Disabled(f)) == DisabledList(c1) + [Str(f)];
  }
}
