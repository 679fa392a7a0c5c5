/**
 * The `!cmd` (`!command`) management command: moderators add, edit, remove and
 * list the channel's custom commands, held in the channel record's `commands`
 * dict from command name to a record of the command's message, usage count,
 * required user level, cooldown, last use and aliases.
 */
module CustomCommands {
  import opened Wrappers
  import opened Text
  import opened Json
  import opened Seqs
  import opened Data
  import FeatureToggle

  /** The user levels, lowest first; a command's level is an index into this list. */
  const UserLevels: seq<string> := ["Everyone", "Subscriber", "VIP", "Moderator", "Streamer"]

  /** The cooldown, in seconds, of a newly added command. */
  const DefaultCooldown: int := 5

  /** The name under which the channel's disabled list switches custom commands off. */
  const Feature: string := "customcommands"

  // ---------------------------------------------------------------------------
  // The stored shape
  // ---------------------------------------------------------------------------

  /** A command record with every field the command handlers read, each of its type. */
  predicate EntryShaped(e: Json) {
    && e.Obj?
    && "message" in e.fields && e.fields["message"].Str?
    && "usage_count" in e.fields && e.fields["usage_count"].Int?
    && "user_level" in e.fields && e.fields["user_level"].Str? && e.fields["user_level"].s in UserLevels
    && "cooldown" in e.fields && e.fields["cooldown"].Int?
    && "last_used" in e.fields && e.fields["last_used"].Int?
    && ("aliases" in e.fields ==> e.fields["aliases"].Arr?)
  }

  /** Every command of a `commands` dict is well shaped. */
  predicate AllShaped(cmds: map<string, Json>) {
    forall n :: n in cmds ==> EntryShaped(cmds[n])
  }

  /** A channel record whose `commands`, when present, is a dict of well-shaped commands. */
  predicate Shaped(c: Json) {
    && FeatureToggle.DisabledShaped(c)
    && ("commands" in c.fields ==> c.fields["commands"].Obj? && AllShaped(c.fields["commands"].fields))
  }

  /** `channel_data.get("commands", {})` */
  function Commands(c: Json): (cmds: map<string, Json>)
    requires Shaped(c)
    ensures AllShaped(cmds)
    ensures "commands" !in c.fields ==> cmds == map[]
  {
    if "commands" in c.fields then c.fields["commands"].fields else map[]
  }

  /** The channel record with its `commands` dict replaced. */
  function WithCommands(c: Json, cmds: map<string, Json>): (r: Json)
    requires Shaped(c) && AllShaped(cmds)
    ensures Shaped(r) && Commands(r) == cmds
    ensures forall k :: k != "commands" ==> Field(r, k) == Field(c, k)
  {
    SetField(c, "commands", Obj(cmds))
  }

  /** Writing back the dict a record already holds gives the same record. */
  lemma WithOwnCommands(c: Json)
    requires Shaped(c) && "commands" in c.fields
    ensures WithCommands(c, Commands(c)) == c
  {
    assert c.fields["commands"] == Obj(Commands(c));
    assert c.fields["commands" := Obj(Commands(c))] == c.fields;
  }

  /** The record `add` creates: level Everyone, the default cooldown, no aliases, never used. */
  function NewEntry(message: string, now: int): (e: Json)
    ensures EntryShaped(e)
    ensures e.fields["message"] == Str(message) && e.fields["usage_count"] == Int(0)
    ensures e.fields["user_level"] == Str(UserLevels[0]) && e.fields["cooldown"] == Int(DefaultCooldown)
    ensures e.fields["last_used"] == Int(now) && "aliases" in e.fields && e.fields["aliases"] == Arr([])
  {
    Obj(map[
      "message" := Str(message),
      "usage_count" := Int(0),
      "user_level" := Str(UserLevels[0]),
      "cooldown" := Int(DefaultCooldown),
      "last_used" := Int(now),
      "aliases" := Arr([])
    ])
  }

  // ---------------------------------------------------------------------------
  // Parsing a user level
  // ---------------------------------------------------------------------------

  /**
   * The user level as the edit handler checks it: the argument capitalised
   * (first letter upper case, the rest lower case) must be one of the levels.
   */
  function ParseLevelAsWritten(s: string): (r: Option<string>)
    ensures r.Some? ==> r.value in UserLevels && r.value == Capitalize(s)
    ensures r.None? <==> s == [] || Capitalize(s) !in UserLevels
  {
    if s == [] || Capitalize(s) !in UserLevels then None else Some(Capitalize(s))
  }

  /** No capitalised string is "VIP": its second letter is always lower case. */
  lemma CapitalizeNeverVip(s: string)
    ensures Capitalize(s) != "VIP"
  {
    if |s| == 3 {
      assert Capitalize(s)[1] == LowerChar(s[1]);
      assert IsAsciiUpper("VIP"[1]);
    }
  }

  /** As written, the VIP level can never be set, whatever the moderator types. */
  lemma AsWrittenNeverVip(s: string)
    ensures ParseLevelAsWritten(s) != Some("VIP")
  {
    CapitalizeNeverVip(s);
  }

  /** The intended parse: the level whose name matches the argument ignoring ASCII case. */
  function ParseLevel(s: string): (r: Option<string>)
    ensures r.Some? ==> r.value in UserLevels && Lower(r.value) == Lower(s)
    ensures r.None? ==> forall l :: l in UserLevels ==> Lower(l) != Lower(s)
  {
    LevelNames();
    var t := Lower(s);
    if t == "everyone" then Some("Everyone")
    else if t == "subscriber" then Some("Subscriber")
    else if t == "vip" then Some("VIP")
    else if t == "moderator" then Some("Moderator")
    else if t == "streamer" then Some("Streamer")
    else None
  }

  /** The lower-case forms of the five level names. */
  lemma LevelNames()
    ensures Lower("Everyone") == "everyone" && Lower("Subscriber") == "subscriber"
    ensures Lower("VIP") == "vip" && Lower("Moderator") == "moderator"
    ensures Lower("Streamer") == "streamer"
  {
  }

  /** Lower-casing after capitalising is just lower-casing. */
  lemma LowerCapitalize(s: string)
    ensures Lower(Capitalize(s)) == Lower(s)
  {
  }

  /** The intended parse accepts every level in any case, VIP included. */
  lemma ParseLevelAcceptsEveryLevel(l: string)
    requires l in UserLevels
    ensures ParseLevel(l) == Some(l) && ParseLevel(Lower(l)) == Some(l)
    ensures ParseLevel("vip") == Some("VIP")
  {
    LevelNames();
    assert Lower("vip") == "vip";
    FeatureToggle.LowerOfLower(Lower(l));
  }

  /** Wherever the code as written accepts a level, the intended parse picks the same one. */
  lemma ParseLevelExtendsAsWritten(s: string)
    requires ParseLevelAsWritten(s).Some?
    ensures ParseLevel(s) == ParseLevelAsWritten(s)
  {
    LevelNames();
    LowerCapitalize(s);
  }

  // ---------------------------------------------------------------------------
  // The decisions
  // ---------------------------------------------------------------------------

  datatype Reply =
    | Silent                          // not a moderator or the broadcaster, or the feature is disabled
    | Crashed                         // a `commands` dict or an `aliases` list it reads is absent: the handler raises
    | Usage                           // `!cmd` with no argument
    | BadCommand                      // the first word is not add, edit, remove or list
    | NoName                          // no command name given
    | NoMessage                       // `add` without a message
    | Exists(name: string)
    | Added(name: string)
    | Unknown(name: string)
    | Info(name: string)              // `edit name` alone shows the command
    | BadSub                          // unknown or missing edit sub-command
    | NoValue(name: string)           // an edit sub-command without its value
    | BadLevel
    | BadCooldown
    | Edited(name: string, field: string)
    | Removed(name: string)
    | NoCommands
    | Listed(names: set<string>)

  /** A reply, together with the `commands` dict written back with the record, if any. */
  datatype Outcome = Outcome(reply: Reply, write: Option<map<string, Json>>)

  /** `add name message` */
  function AddOutcome(allowed: bool, args: seq<string>, c: Json, now: int): Outcome
    requires Shaped(c)
  {
    if !allowed then Outcome(Silent, None)
    else if |args| < 2 || args[1] == "" then Outcome(NoName, None)
    else if |args| < 3 || args[2] == "" then Outcome(NoMessage, None)
    else
      var name := Lower(args[1]);
      var cmds := Commands(c);
      if name in cmds then Outcome(Exists(name), None)
      else Outcome(Added(name), Some(cmds[name := NewEntry(args[2], now)]))
  }

  /** `[alias.strip() for alias in s.split(',')]` */
  function AliasList(s: string): (r: seq<Json>)
    ensures |r| == |SplitOn(s, ',')|
    ensures forall i :: 0 <= i < |r| ==> r[i].Str?
  {
    var parts := SplitOn(s, ',');
    seq(|parts|, i requires 0 <= i < |parts| => Str(Strip(parts[i])))
  }

  /** The command record with one field replaced. */
  function EditEntry(cmds: map<string, Json>, name: string, field: string, v: Json): (r: map<string, Json>)
    requires name in cmds && cmds[name].Obj?
    ensures r.Keys == cmds.Keys
    ensures r[name].Obj? && r[name].fields == cmds[name].fields[field := v]
    ensures forall n :: n in cmds && n != name ==> r[n] == cmds[n]
  {
    cmds[name := SetField(cmds[name], field, v)]
  }

  /** The sub-command part of `edit` for an existing command `name`. */
  function SubOutcome(cmds: map<string, Json>, name: string, tokens: seq<string>): Outcome
    requires name in cmds && AllShaped(cmds)
  {
    if tokens == [] then Outcome(BadSub, None)
    else
      var sub := Lower(tokens[0]);
      if sub == "message" then
        if |tokens| < 2 then Outcome(NoValue(name), None)
        else Outcome(Edited(name, "message"), Some(EditEntry(cmds, name, "message", Str(Join(tokens[1..], " ")))))
      else if sub == "userlevel" then
        if |tokens| < 2 then Outcome(NoValue(name), None)
        else
          var level := ParseLevelAsWritten(tokens[1]);
          if level.None? then Outcome(BadLevel, None)
          else Outcome(Edited(name, "user_level"), Some(EditEntry(cmds, name, "user_level", Str(level.value))))
      else if sub == "cooldown" then
        if |tokens| < 2 then Outcome(NoValue(name), None)
        else if !IsDigits(tokens[1]) then Outcome(BadCooldown, None)
        else Outcome(Edited(name, "cooldown"), Some(EditEntry(cmds, name, "cooldown", Int(DigitsValue(tokens[1])))))
      else if sub == "aliases" then
        if |tokens| < 2 then
          if "aliases" in cmds[name].fields then Outcome(NoValue(name), None) else Outcome(Crashed, None)
        else Outcome(Edited(name, "aliases"), Some(EditEntry(cmds, name, "aliases", Arr(AliasList(tokens[1])))))
      else Outcome(BadSub, Some(cmds))
  }

  /** `edit name sub value...`; `tokens` is the shell-style split of the third part. */
  function EditOutcome(allowed: bool, args: seq<string>, c: Json, tokens: seq<string>): Outcome
    requires Shaped(c)
  {
    if !allowed then Outcome(Silent, None)
    else if |args| < 2 || args[1] == "" then Outcome(NoName, None)
    else if "commands" !in c.fields then Outcome(Crashed, None)
    else
      var name := Lower(args[1]);
      var cmds := Commands(c);
      if name !in cmds then Outcome(Unknown(name), None)
      else if |args| < 3 then
        if "aliases" in cmds[name].fields then Outcome(Info(name), None) else Outcome(Crashed, None)
      else SubOutcome(cmds, name, tokens)
  }

  /** `remove name` */
  function RemoveOutcome(allowed: bool, args: seq<string>, c: Json): Outcome
    requires Shaped(c)
  {
    if !allowed then Outcome(Silent, None)
    else if |args| < 2 || args[1] == "" then Outcome(NoName, None)
    else if "commands" !in c.fields then Outcome(Crashed, None)
    else
      var name := Lower(args[1]);
      var cmds := Commands(c);
      if name !in cmds then Outcome(Unknown(name), None)
      else Outcome(Removed(name), Some(cmds - {name}))
  }

  /** `list` */
  function ListOutcome(allowed: bool, c: Json): Outcome
    requires Shaped(c)
  {
    if !allowed then Outcome(Silent, None)
    else if Commands(c) == map[] then Outcome(NoCommands, None)
    else Outcome(Listed(Commands(c).Keys), None)
  }

  /** The words of the argument: invisible characters dropped, then split at the first two spaces. */
  function Args(arg: string): (args: seq<string>)
    ensures 1 <= |args| <= 3
  {
    SplitN(DropInvisible(arg), ' ', 2)
  }

  /** `!cmd arg` in a channel whose record is `c`. */
  function Dispatch(isMod: bool, isBroadcaster: bool, arg: Option<string>, c: Json, tokens: seq<string>, now: int): Outcome
    requires Shaped(c)
  {
    if FeatureToggle.IsDisabled(c, Feature) then Outcome(Silent, None)
    else if arg.None? then Outcome(Usage, None)
    else
      var args := Args(arg.value);
      var sub := Lower(args[0]);
      var allowed := isMod || isBroadcaster;
      if sub == "add" then AddOutcome(allowed, args, c, now)
      else if sub == "edit" then EditOutcome(allowed, args, c, tokens)
      else if sub == "remove" then RemoveOutcome(allowed, args, c)
      else if sub == "list" then ListOutcome(allowed, c)
      else Outcome(BadCommand, None)
  }

  /**
   * The table after an outcome: the channel record holds the written dict and the scan
   * order is that of a write, or nothing changed.
   */
  predicate Applied(before: Docs, after: Docs, orderBefore: seq<string>, orderAfter: seq<string>, channelId: string, o: Outcome)
  {
    && (o.write.Some? ==>
          && Shaped(Fetch(before, channelId)) && AllShaped(o.write.value)
          && after == before[channelId := WithCommands(Fetch(before, channelId), o.write.value)]
          && orderAfter == OrderAfterWrite(orderBefore, before, channelId))
    && (o.write.None? ==> after == before && orderAfter == orderBefore)
  }

  // ---------------------------------------------------------------------------
  // The handlers, on the store
  // ---------------------------------------------------------------------------

  /** Writes the channel record back with a new `commands` dict. */
  method WriteCommands(db: DocumentStore, channelId: string, channelData: Json, cmds: map<string, Json>)
    requires db.Valid() && channelData == Fetch(db.docs, channelId) && Shaped(channelData) && AllShaped(cmds)
    modifies db
    ensures db.Valid()
    ensures db.docs == old(db.docs)[channelId := WithCommands(channelData, cmds)]
    ensures db.order == OrderAfterWrite(old(db.order), old(db.docs), channelId)
  {
    db.UpdateData(channelId, WithCommands(channelData, cmds));
  }

  /** `CustomCommands.add_command` */
  method AddCommand(db: DocumentStore, allowed: bool, args: seq<string>, channelId: string, channelData: Json, now: int)
    returns (reply: Reply)
    requires db.Valid() && channelData == Fetch(db.docs, channelId) && Shaped(channelData)
    modifies db
    ensures db.Valid()
    ensures reply == AddOutcome(allowed, args, channelData, now).reply
    ensures Applied(old(db.docs), db.docs, old(db.order), db.order, channelId, AddOutcome(allowed, args, channelData, now))
  {
    if !allowed {
      return Silent;
    }
    var cmds := Commands(channelData);
    if |args| < 2 || args[1] == "" {
      return NoName;
    }
    if |args| < 3 || args[2] == "" {
      return NoMessage;
    }
    var name := Lower(args[1]);
    var message := args[2];
    if name in cmds {
      return Exists(name);
    }
    cmds := cmds[name := NewEntry(message, now)];
    WriteCommands(db, channelId, channelData, cmds);
    reply := Added(name);
  }

  /** `CustomCommands.edit_command`; `tokens` is `shlex.split` of the third part. */
  method EditCommand(db: DocumentStore, allowed: bool, args: seq<string>, channelId: string, channelData: Json,
                     tokens: seq<string>)
    returns (reply: Reply)
    requires db.Valid() && channelData == Fetch(db.docs, channelId) && Shaped(channelData)
    modifies db
    ensures db.Valid()
    ensures reply == EditOutcome(allowed, args, channelData, tokens).reply
    ensures Applied(old(db.docs), db.docs, old(db.order), db.order, channelId, EditOutcome(allowed, args, channelData, tokens))
  {
    if !allowed {
      return Silent;
    }
    if |args| < 2 || args[1] == "" {
      return NoName;
    }
    var name := Lower(args[1]);
    if "commands" !in channelData.fields {
      return Crashed;
    }
    var cmds := Commands(channelData);
    if name !in cmds {
      return Unknown(name);
    }
    if |args| < 3 {
      if "aliases" !in cmds[name].fields {
        return Crashed;
      }
      return Info(name);
    }
    reply := EditFields(db, channelId, channelData, cmds, name, tokens);
  }

  /** The sub-command part of `edit_command`, from the shell-style split onwards. */
  method EditFields(db: DocumentStore, channelId: string, channelData: Json, cmds: map<string, Json>, name: string,
                    tokens: seq<string>)
    returns (reply: Reply)
    requires db.Valid() && channelData == Fetch(db.docs, channelId) && Shaped(channelData)
    requires cmds == Commands(channelData) && name in cmds
    modifies db
    ensures db.Valid()
    ensures reply == SubOutcome(cmds, name, tokens).reply
    ensures Applied(old(db.docs), db.docs, old(db.order), db.order, channelId, SubOutcome(cmds, name, tokens))
  {
    SubKeepsShaped(cmds, name, tokens);
    var updated := cmds;
    if tokens == [] {
      return BadSub;
    }
    var sub := Lower(tokens[0]);
    if sub == "message" {
      if |tokens| < 2 {
        return NoValue(name);
      }
      updated := EditEntry(updated, name, "message", Str(Join(tokens[1..], " ")));
      reply := Edited(name, "message");
    } else if sub == "userlevel" {
      if |tokens| < 2 {
        return NoValue(name);
      }
      var level := ParseLevelAsWritten(tokens[1]);
      if level.None? {
        return BadLevel;
      }
      updated := EditEntry(updated, name, "user_level", Str(level.value));
      reply := Edited(name, "user_level");
    } else if sub == "cooldown" {
      if |tokens| < 2 {
        return NoValue(name);
      }
      if !IsDigits(tokens[1]) {
        return BadCooldown;
      }
      updated := EditEntry(updated, name, "cooldown", Int(DigitsValue(tokens[1])));
      reply := Edited(name, "cooldown");
    } else if sub == "aliases" {
      if |tokens| < 2 {
        if "aliases" !in cmds[name].fields {
          return Crashed;
        }
        return NoValue(name);
      }
      updated := EditEntry(updated, name, "aliases", Arr(AliasList(tokens[1])));
      reply := Edited(name, "aliases");
    } else {
      reply := BadSub;
    }
    WriteCommands(db, channelId, channelData, updated);
  }

  /** `CustomCommands.remove_command` */
  method RemoveCommand(db: DocumentStore, allowed: bool, args: seq<string>, channelId: string, channelData: Json)
    returns (reply: Reply)
    requires db.Valid() && channelData == Fetch(db.docs, channelId) && Shaped(channelData)
    modifies db
    ensures db.Valid()
    ensures reply == RemoveOutcome(allowed, args, channelData).reply
    ensures Applied(old(db.docs), db.docs, old(db.order), db.order, channelId, RemoveOutcome(allowed, args, channelData))
  {
    if !allowed {
      return Silent;
    }
    if |args| < 2 || args[1] == "" {
      return NoName;
    }
    var name := Lower(args[1]);
    if "commands" !in channelData.fields {
      return Crashed;
    }
    var cmds := Commands(channelData);
    if name !in cmds {
      return Unknown(name);
    }
    cmds := cmds - {name};
    WriteCommands(db, channelId, channelData, cmds);
    reply := Removed(name);
  }

  /** `CustomCommands.list_commands`: reads only. */
  method ListCommands(db: DocumentStore, allowed: bool, channelData: Json) returns (reply: Reply)
    requires Shaped(channelData)
    ensures reply == ListOutcome(allowed, channelData).reply
    ensures reply.Listed? ==> reply.names == Commands(channelData).Keys && reply.names != {}
  {
    if !allowed {
      return Silent;
    }
    var cmds := Commands(channelData);
    if cmds == map[] {
      return NoCommands;
    }
    reply := Listed(cmds.Keys);
  }

  /** `CustomCommands.command`: the `!cmd` entry point. */
  method CmdCommand(db: DocumentStore, channelId: string, isMod: bool, isBroadcaster: bool, arg: Option<string>,
                    tokens: seq<string>, now: int)
    returns (reply: Reply)
    requires db.Valid() && Shaped(Fetch(db.docs, channelId))
    modifies db
    ensures db.Valid()
    ensures reply == Dispatch(isMod, isBroadcaster, arg, old(Fetch(db.docs, channelId)), tokens, now).reply
    ensures Applied(old(db.docs), db.docs, old(db.order), db.order, channelId, Dispatch(isMod, isBroadcaster, arg, old(Fetch(db.docs, channelId)), tokens, now))
  {
    var channelData := db.GetData(channelId);
    if FeatureToggle.IsDisabled(channelData, Feature) {
      return Silent;
    }
    if arg.None? {
      return Usage;
    }
    var args := Args(arg.value);
    var sub := Lower(args[0]);
    var allowed := isMod || isBroadcaster;
    if sub == "add" {
      reply := AddCommand(db, allowed, args, channelId, channelData, now);
    } else if sub == "edit" {
      reply := EditCommand(db, allowed, args, channelId, channelData, tokens);
    } else if sub == "remove" {
      reply := RemoveCommand(db, allowed, args, channelId, channelData);
    } else if sub == "list" {
      reply := ListCommands(db, allowed, channelData);
    } else {
      reply := BadCommand;
    }
  }

  // ---------------------------------------------------------------------------
  // Properties
  // ---------------------------------------------------------------------------

  /** Every handler writes back only well-shaped commands, so a well-shaped record stays so. */
  lemma DispatchKeepsShaped(isMod: bool, isBroadcaster: bool, arg: Option<string>, c: Json, tokens: seq<string>, now: int)
    requires Shaped(c)
    ensures var o := Dispatch(isMod, isBroadcaster, arg, c, tokens, now);
      o.write.Some? ==> AllShaped(o.write.value)
  {
    if arg.Some? && !FeatureToggle.IsDisabled(c, Feature) {
      var args := Args(arg.value);
      if Lower(args[0]) == "edit" && (isMod || isBroadcaster) {
        if |args| >= 3 && args[1] != "" && "commands" in c.fields && Lower(args[1]) in Commands(c) {
          SubKeepsShaped(Commands(c), Lower(args[1]), tokens);
        }
      }
    }
  }

  /** An edit keeps the edited command well shaped. */
  lemma SubKeepsShaped(cmds: map<string, Json>, name: string, tokens: seq<string>)
    requires name in cmds && AllShaped(cmds)
    ensures var o := SubOutcome(cmds, name, tokens);
      o.write.Some? ==> AllShaped(o.write.value)
  {
    var o := SubOutcome(cmds, name, tokens);
    if o.write.Some? {
      var w := o.write.value;
      forall n | n in w ensures EntryShaped(w[n]) {
        if n != name {
          assert w[n] == cmds[n];
        }
      }
    }
  }

  /** Only a moderator or the broadcaster ever changes the commands. */
  lemma OnlyModeratorsWrite(isMod: bool, isBroadcaster: bool, arg: Option<string>, c: Json, tokens: seq<string>, now: int)
    requires Shaped(c)
    requires Dispatch(isMod, isBroadcaster, arg, c, tokens, now).write.Some?
    ensures isMod || isBroadcaster
    ensures !FeatureToggle.IsDisabled(c, Feature)
  {
  }

  /** `add` succeeds exactly for a new name, and creates it with the defaults; nothing else changes. */
  lemma AddRule(args: seq<string>, c: Json, now: int)
    requires Shaped(c) && |args| == 3 && args[1] != "" && args[2] != ""
    ensures var o := AddOutcome(true, args, c, now);
      && (o.reply == Added(Lower(args[1])) <==> Lower(args[1]) !in Commands(c))
      && (o.reply.Added? ==>
            && o.write.Some? && o.write.value.Keys == Commands(c).Keys + {Lower(args[1])}
            && o.write.value[o.reply.name] == NewEntry(args[2], now)
            && (forall n :: n in Commands(c) ==> o.write.value[n] == Commands(c)[n]))
      && (o.reply.Exists? ==> o.write.None?)
  {
  }

  /** Removing a command that was just added gives back the dict as it was. */
  lemma AddThenRemove(args: seq<string>, c: Json, now: int)
    requires Shaped(c)
    requires AddOutcome(true, args, c, now).reply.Added?
    ensures var c1 := WithCommands(c, AddOutcome(true, args, c, now).write.value);
      var o := RemoveOutcome(true, ["remove", args[1]], c1);
      o.reply == Removed(Lower(args[1])) && o.write == Some(Commands(c))
  {
    var name := Lower(args[1]);
    var cmds := Commands(c);
    assert cmds[name := NewEntry(args[2], now)] - {name} == cmds;
  }

  /** `remove` deletes exactly the named command. */
  lemma RemoveRule(args: seq<string>, c: Json)
    requires Shaped(c) && |args| >= 2 && args[1] != "" && "commands" in c.fields
    ensures var o := RemoveOutcome(true, args, c);
      && (o.reply.Removed? <==> Lower(args[1]) in Commands(c))
      && (o.reply.Removed? ==> o.write == Some(Commands(c) - {Lower(args[1])}))
      && (!o.reply.Removed? ==> o.write.None?)
  {
  }

  /** `edit` and `remove` on a record that never had commands crash instead of replying. */
  lemma EditRemoveNeedCommands(args: seq<string>, c: Json, tokens: seq<string>)
    requires Shaped(c) && "commands" !in c.fields && |args| >= 2 && args[1] != ""
    ensures EditOutcome(true, args, c, tokens).reply == Crashed
    ensures RemoveOutcome(true, args, c).reply == Crashed
    ensures AddOutcome(true, args, c, 0).reply != Crashed
  {
  }

  /** An accepted edit keeps the set of command names, and every other command, as they were. */
  lemma EditTouchesOne(args: seq<string>, c: Json, tokens: seq<string>)
    requires Shaped(c)
    requires EditOutcome(true, args, c, tokens).reply.Edited?
    ensures var o := EditOutcome(true, args, c, tokens);
      && o.write.Some? && o.write.value.Keys == Commands(c).Keys
      && (forall n :: n in Commands(c) && n != o.reply.name ==> o.write.value[n] == Commands(c)[n])
      && (forall k :: k in Commands(c)[o.reply.name].fields && k != o.reply.field ==>
            k in o.write.value[o.reply.name].fields && o.write.value[o.reply.name].fields[k] == Commands(c)[o.reply.name].fields[k])
  {
  }

  /** A cooldown edit is accepted exactly for a string of digits, and stores its value. */
  lemma CooldownRule(name: string, rest: string, c: Json, value: string)
    requires Shaped(c) && name != "" && Lower(name) in Commands(c) && "commands" in c.fields
    ensures var o := EditOutcome(true, ["edit", name, rest], c, ["cooldown", value]);
      && (o.reply == Edited(Lower(name), "cooldown") <==> IsDigits(value))
      && (!IsDigits(value) ==> o.reply == BadCooldown && o.write.None?)
      && (IsDigits(value) ==> o.write.value[Lower(name)].fields["cooldown"] == Int(DigitsValue(value)))
  {
    assert Lower("cooldown") == "cooldown";
  }

  /**
   * A user-level edit is accepted exactly when the capitalised argument is one of the
   * levels, and stores that capitalised form; so VIP is never stored.
   */
  lemma UserLevelRule(name: string, rest: string, c: Json, value: string)
    requires Shaped(c) && name != "" && Lower(name) in Commands(c) && "commands" in c.fields
    ensures var o := EditOutcome(true, ["edit", name, rest], c, ["userlevel", value]);
      && (o.reply.Edited? <==> value != [] && Capitalize(value) in UserLevels)
      && (!o.reply.Edited? ==> o.reply == BadLevel && o.write.None?)
      && (o.reply.Edited? ==>
            && o.write.value[Lower(name)].fields["user_level"] == Str(Capitalize(value))
            && o.write.value[Lower(name)].fields["user_level"] != Str("VIP"))
  {
    assert Lower("userlevel") == "userlevel";
    AsWrittenNeverVip(value);
  }

  /** `!cmd edit name userlevel vip` is refused as an invalid level and writes nothing. */
  lemma EditRefusesVip(name: string, rest: string, c: Json)
    requires Shaped(c) && name != "" && Lower(name) in Commands(c) && "commands" in c.fields
    ensures EditOutcome(true, ["edit", name, rest], c, ["userlevel", "vip"]) == Outcome(BadLevel, None)
    ensures EditOutcome(true, ["edit", name, rest], c, ["userlevel", "VIP"]) == Outcome(BadLevel, None)
  {
    UserLevelRule(name, rest, c, "vip");
    UserLevelRule(name, rest, c, "VIP");
    CapitalizeNeverVip("vip");
    CapitalizeNeverVip("VIP");
    assert "VIP" in UserLevels;
    var v := Capitalize("vip");
    assert v[0] == 'V' && v[1] == 'i';
    assert v != "Everyone" && v != "Subscriber" && v != "Moderator" && v != "Streamer" by {
      assert |v| == 3;
    }
    var w := Capitalize("VIP");
    assert w[0] == 'V' && w[1] == 'i';
    assert w != "Everyone" && w != "Subscriber" && w != "Moderator" && w != "Streamer" by {
      assert |w| == 3;
    }
  }

  /** Showing a command, or the aliases prompt, of a command with no `aliases` list raises. */
  lemma NoAliasesCrash(name: string, c: Json, tokens: seq<string>)
    requires Shaped(c) && name != "" && "commands" in c.fields
    requires Lower(name) in Commands(c) && "aliases" !in Commands(c)[Lower(name)].fields
    ensures EditOutcome(true, ["edit", name], c, tokens).reply == Crashed
    ensures EditOutcome(true, ["edit", name, "aliases"], c, ["aliases"]).reply == Crashed
  {
    assert Lower("aliases") == "aliases";
  }

  /** Every alias stored by an aliases edit is stripped and holds no comma. */
  lemma AliasesClean(s: string, i: int)
    requires 0 <= i < |AliasList(s)|
    ensures AliasList(s)[i].Str?
    ensures ',' !in AliasList(s)[i].s
    ensures var a := AliasList(s)[i].s; a != [] ==> !IsSpace(a[0]) && !IsSpace(a[|a| - 1])
  {
    var p := SplitOn(s, ',')[i];
    assert AliasList(s)[i] == Str(Strip(p));
    assert ',' !in p;
    assert forall k :: 0 <= k < |Strip(p)| ==> Strip(p)[k] in p by {
      StripWithin(p);
    }
  }

  /** The stripped string is a slice of the original. */
  lemma StripWithin(s: string)
    ensures forall k :: 0 <= k < |Strip(s)| ==> Strip(s)[k] in s
  {
    var a := StripStart(s);
    var b := StripEnd(a);
    assert Strip(s) == b;
    forall k | 0 <= k < |b| ensures b[k] in s {
      assert b[k] == a[k];
      assert a[k] == s[|s| - |a| + k];
    }
  }

  /** A list of features kept by the toggle command never switches custom commands off. */
  lemma ToggleNeverDisables(c: Json)
    requires FeatureToggle.DisabledShaped(c) && FeatureToggle.CleanList(FeatureToggle.DisabledList(c))
    ensures !FeatureToggle.IsDisabled(c, Feature)
  {
  }

  /** The invalid-sub-command branch writes the record back unchanged. */
  lemma BadSubWritesSame(args: seq<string>, c: Json, tokens: seq<string>)
    requires Shaped(c)
    requires EditOutcome(true, args, c, tokens).reply == BadSub && EditOutcome(true, args, c, tokens).write.Some?
    ensures WithCommands(c, EditOutcome(true, args, c, tokens).write.value) == c
  {
    WithOwnCommands(c);
  }
}
