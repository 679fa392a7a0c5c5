/**
 * `!register`: on a public deployment, a viewer typing the command in the bot's
 * own channel adds their account id to the `accounts` list of the
 * `linked_accounts` record, and the bot then joins the viewer's channel.
 */
module Register {
  import opened Wrappers
  import opened Text
  import opened Json
  import opened Seqs
  import opened Data

  /** The id of the record holding the registered accounts. */
  const LinkedAccounts: string := "linked_accounts"

  datatype Reply =
    | Silent              // not a public deployment, or not the bot's own channel
    | Crashed             // TWITCH_NICK is unset: the handler raises on `None.lower()`
    | OwnBot              // the bot's own account cannot register
    | AlreadyRegistered
    | Registered          // the id was appended and the bot joins the author's channel

  /** The `linked_accounts` record, whose `accounts`, when present, is a list. */
  predicate AccountsShaped(d: Json) {
    d.Obj? && ("accounts" in d.fields ==> d.fields["accounts"].Arr?)
  }

  /** `accounts`, or the empty list created when it is absent. */
  function Accounts(d: Json): seq<Json>
    requires AccountsShaped(d)
  {
    if "accounts" in d.fields then d.fields["accounts"].items else []
  }

  /**
   * The outcome for an author in a channel; `botPublic` and `twitchNick` are the
   * environment variables BOT_PUBLIC and TWITCH_NICK (None when unset).
   */
  function Decide(botPublic: Option<string>, twitchNick: Option<string>, channelName: string,
                  authorName: string, authorId: string, linked: Json): Reply
    requires AccountsShaped(linked)
  {
    if botPublic != Some("true") then Silent
    else if twitchNick.None? then Crashed
    else if Lower(channelName) != Lower(twitchNick.value) then Silent
    else if Lower(authorName) == Lower(twitchNick.value) then OwnBot
    else if Str(authorId) in Accounts(linked) then AlreadyRegistered
    else Registered
  }

  /** The record after a successful registration: the id appended, every other key as it was. */
  function WithAccount(linked: Json, authorId: string): (r: Json)
    requires AccountsShaped(linked)
    ensures AccountsShaped(r) && Accounts(r) == Accounts(linked) + [Str(authorId)]
    ensures forall k :: k != "accounts" ==> Field(r, k) == Field(linked, k)
  {
    SetField(linked, "accounts", Arr(Accounts(linked) + [Str(authorId)]))
  }

  /** `Register.register`, on the store. */
  method RegisterAccount(db: DocumentStore, botPublic: Option<string>, twitchNick: Option<string>,
                         channelName: string, authorName: string, authorId: string)
    returns (reply: Reply)
    requires db.Valid() && AccountsShaped(Fetch(db.docs, LinkedAccounts))
    modifies db
    ensures db.Valid()
    ensures reply == Decide(botPublic, twitchNick, channelName, authorName, authorId, old(Fetch(db.docs, LinkedAccounts)))
    ensures reply == Registered ==>
      && db.docs == old(db.docs)[LinkedAccounts := WithAccount(old(Fetch(db.docs, LinkedAccounts)), authorId)]
      && db.order == OrderAfterWrite(old(db.order), old(db.docs), LinkedAccounts)
    ensures reply != Registered ==> db.docs == old(db.docs) && db.order == old(db.order)
  {
    if botPublic != Some("true") {
      return Silent;
    }
    if twitchNick.None? {
      return Crashed;
    }
    var nick := twitchNick.value;
    if Lower(channelName) != Lower(nick) {
      return Silent;
    }
    if Lower(authorName) == Lower(nick) {
      return OwnBot;
    }
    var linkedChannels := db.GetData(LinkedAccounts);
    var accounts := Accounts(linkedChannels);
    if Str(authorId) in accounts {
      return AlreadyRegistered;
    }
    accounts := accounts + [Str(authorId)];
    linkedChannels := SetField(linkedChannels, "accounts", Arr(accounts));
    db.UpdateData(LinkedAccounts, linkedChannels);
    reply := Registered;
  }

  /** Registration keeps the list duplicate-free and adds exactly the author's id. */
  lemma RegisterKeepsUnique(botPublic: Option<string>, twitchNick: Option<string>, channelName: string,
                            authorName: string, authorId: string, linked: Json)
    requires AccountsShaped(linked) && NoDuplicates(Accounts(linked))
    requires Decide(botPublic, twitchNick, channelName, authorName, authorId, linked) == Registered
    ensures NoDuplicates(Accounts(WithAccount(linked, authorId)))
    ensures forall x :: x in Accounts(WithAccount(linked, authorId)) <==> x in Accounts(linked) || x == Str(authorId)
  {
    AppendFresh(Accounts(linked), Str(authorId));
  }

  /** A second registration of the same account is refused. */
  lemma RegisterOnce(botPublic: Option<string>, twitchNick: Option<string>, channelName: string,
                     authorName: string, authorId: string, linked: Json)
    requires AccountsShaped(linked)
    requires Decide(botPublic, twitchNick, channelName, authorName, authorId, linked) == Registered
    ensures Decide(botPublic, twitchNick, channelName, authorName, authorId, WithAccount(linked, authorId)) == AlreadyRegistered
  {
    assert Str(authorId) in Accounts(WithAccount(linked, authorId));
  }

  /** Only the deployment flag "true", the bot's own channel and another account get as far as the list. */
  lemma RegisterGate(botPublic: Option<string>, twitchNick: Option<string>, channelName: string,
                     authorName: string, authorId: string, linked: Json)
    requires AccountsShaped(linked)
    ensures Decide(botPublic, twitchNick, channelName, authorName, authorId, linked) in {Registered, AlreadyRegistered} <==>
      botPublic == Some("true") && twitchNick.Some?
      && Lower(channelName) == Lower(twitchNick.value) && Lower(authorName) != Lower(twitchNick.value)
  {
  }
}
