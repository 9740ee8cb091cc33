/**
 * The `POST /report/submit` handler of the server: resolve the Roblox identity (best effort),
 * derive the ticket channel's name, reject a second ticket in the same category, create the
 * private channel with its permission overwrites, publish the report message and answer.
 *
 * The Discord guild is the class `Guild`, whose channel list is the state the handler reads
 * (duplicate check) and appends to (channel creation). The Roblox lookup and every Discord call
 * are replaced by their outcomes, given as inputs.
 */
module TicketRoute {
  import opened Wrappers
  import opened TicketNaming

  const DefaultCategoryId := "1279024933560782919"
  const DefaultStaffRoleId := "1248325686662402108"
  const UnknownRobloxId := "Unknown"
  const SearchLinkPrefix := "https://www.roblox.com/search/users?keyword="
  const EmbedColor := "#c41e3a"
  const CloseButtonId := "close_ticket"
  const CloseButtonLabel := "Chiudi Ticket"
  const NoGuildError := "Bot not in any guild"
  /** What V8 says when `discordUsername` is missing and `.split` is called on `undefined`. */
  const SplitOfUndefined := "Cannot read properties of undefined (reading 'split')"

  /** The text fields of the multipart body; `None` for a field the request did not carry. */
  datatype ReportForm = ReportForm(
    discordId: Option<string>,
    discordUsername: Option<string>,
    robloxUsername: Option<string>,
    title: Option<string>,
    description: Option<string>)

  /** An uploaded evidence file as stored on disk. */
  datatype Upload = Upload(originalName: string, path: string)

  /** `CATEGORY_ID` and `STAFF_ROLE_ID` as found in the environment. */
  datatype Env = Env(categoryId: Option<string>, staffRoleId: Option<string>)

  datatype RobloxUser = RobloxUser(id: string, name: string)

  /** The Roblox username lookup: a transport error, or the response's `data.data` (maybe absent). */
  datatype RobloxLookup = LookupFailed(message: string) | LookupReturned(data: Option<seq<RobloxUser>>)

  datatype CreateResult = Created(channelId: string) | CreateFailed(message: string)

  /** The outcomes of the Discord calls the handler makes, in order. */
  datatype DiscordOutcomes = DiscordOutcomes(
    fetchError: Option<string>,           // guild.channels.fetch()
    create: CreateResult,                 // guild.channels.create(...)
    userOverwriteError: Option<string>,   // channel.permissionOverwrites.create(discordId, ...)
    sendError: Option<string>)            // channel.send(...)

  datatype Perm = ViewChannel | SendMessages
  datatype Overwrite = Overwrite(id: string, allow: set<Perm>, deny: set<Perm>)
  datatype EmbedField = EmbedField(name: string, value: string, inline: bool)
  /** The report embed; its timestamp is not modelled. */
  datatype Embed = Embed(title: string, color: string, fields: seq<EmbedField>)
  datatype ButtonStyle = Danger
  datatype Button = Button(customId: string, caption: string, style: ButtonStyle)
  datatype ActionRow = ActionRow(buttons: seq<Button>)
  datatype Message = Message(content: string, embeds: seq<Embed>, components: seq<ActionRow>, files: seq<string>)
  datatype Channel = Channel(id: string, parentId: Option<string>, name: string,
                             overwrites: seq<Overwrite>, messages: seq<Message>)

  datatype Body = Submitted(channelId: string) | Failed(error: string)
  datatype Response = Response(status: int, body: Body)

  /** A request value inside a template string: the text, or `undefined`. */
  function Text(field: Option<string>): string {
    if field.Some? then field.value else "undefined"
  }

  /** `process.env.X || fallback`: a missing or empty variable falls back to the literal. */
  function Configured(envValue: Option<string>, fallback: string): (id: string)
    requires fallback != ""
    ensures id != ""
    ensures envValue.Some? && envValue.value != "" ==> id == envValue.value
    ensures envValue.None? || envValue.value == "" ==> id == fallback
  {
    if envValue.Some? && envValue.value != "" then envValue.value else fallback
  }

  function CategoryId(env: Env): string {
    Configured(env.categoryId, DefaultCategoryId)
  }

  function StaffRoleId(env: Env): string {
    Configured(env.staffRoleId, DefaultStaffRoleId)
  }

  function ServerError(message: string): Response {
    Response(500, Failed("Server Error: " + message))
  }

  function DuplicateError(name: string): string {
    "Hai già un ticket aperto: " + name + ". Chiudilo prima di aprirne un altro."
  }

  // ---------------------------------------------------------------- Roblox identity

  function SearchLink(username: string): string {
    SearchLinkPrefix + username
  }

  function ProfileLink(id: string): string {
    "https://www.roblox.com/users/" + id + "/profile"
  }

  /** The lookup found the user: the response carries a non-empty `data.data`. */
  predicate LookupFound(lookup: RobloxLookup) {
    lookup.LookupReturned? && lookup.data.Some? && |lookup.data.value| > 0
  }

  /** Start from the placeholder id and a search link; a found user replaces both. */
  method ResolveRoblox(username: string, lookup: RobloxLookup) returns (robloxId: string, profileLink: string)
    ensures (robloxId, profileLink) == ResolvedRoblox(username, lookup)
  {
    robloxId := UnknownRobloxId;
    profileLink := SearchLink(username);
    match lookup {
      case LookupFailed(_) =>
      case LookupReturned(data) =>
        if data.Some? && |data.value| > 0 {
          robloxId := data.value[0].id;
          profileLink := ProfileLink(robloxId);
        }
    }
  }

  /**
   * The Roblox id and profile link: the first entry of a non-empty lookup result, otherwise
   * the placeholder id and a search link (a failed lookup is swallowed).
   */
  function ResolvedRoblox(username: string, lookup: RobloxLookup): (string, string) {
    if LookupFound(lookup) then (lookup.data.value[0].id, ProfileLink(lookup.data.value[0].id))
    else (UnknownRobloxId, SearchLink(username))
  }

  // ---------------------------------------------------------------- duplicate guard

  predicate IsTicket(c: Channel, categoryId: string, name: string) {
    c.parentId == Some(categoryId) && c.name == name
  }

  /** `guild.channels.cache.find(...)`: the first channel of that name in that category. */
  function FindExisting(channels: seq<Channel>, categoryId: string, name: string): (r: Option<nat>)
    ensures r.Some? ==> r.value < |channels| && IsTicket(channels[r.value], categoryId, name)
    ensures r.Some? ==> forall j :: 0 <= j < r.value ==> !IsTicket(channels[j], categoryId, name)
    ensures r.None? ==> forall j :: 0 <= j < |channels| ==> !IsTicket(channels[j], categoryId, name)
  {
    if channels == [] then None
    else if IsTicket(channels[0], categoryId, name) then Some(0)
    else match FindExisting(channels[1..], categoryId, name)
      case None => None
      case Some(k) => Some(k + 1)
  }

  // ---------------------------------------------------------------- channel and message

  /** The overwrites the channel is created with: hidden from everyone, open to staff. */
  function InitialOverwrites(guildId: string, staffRoleId: string): seq<Overwrite> {
    [Overwrite(guildId, {}, {ViewChannel}),
     Overwrite(staffRoleId, {ViewChannel, SendMessages}, {})]
  }

  function UserOverwrite(discordId: string): Overwrite {
    Overwrite(discordId, {ViewChannel, SendMessages}, {})
  }

  /** `discordId && discordId.length > 15`: only a plausible snowflake gets its own overwrite. */
  predicate UserOverwriteAttempted(discordId: Option<string>) {
    discordId.Some? && |discordId.value| > 15
  }

  /** `req.files.map(file => file.path)`. */
  function AttachmentPaths(uploads: seq<Upload>): (paths: seq<string>)
    ensures |paths| == |uploads|
    ensures forall i :: 0 <= i < |uploads| ==> paths[i] == uploads[i].path
  {
    if uploads == [] then [] else [uploads[0].path] + AttachmentPaths(uploads[1..])
  }

  function RobloxFieldValue(robloxUsername: string, profileLink: string, robloxId: string): string {
    "[" + robloxUsername + "](" + profileLink + ") (ID: " + robloxId + ")"
  }

  function ReportEmbed(form: ReportForm, robloxId: string, profileLink: string): Embed {
    Embed("Nuova Segnalazione: " + Text(form.title), EmbedColor,
          [EmbedField("Utente Discord", "<@" + Text(form.discordId) + ">", true),
           EmbedField("Utente Roblox", RobloxFieldValue(Text(form.robloxUsername), profileLink, robloxId), true),
           EmbedField("Descrizione", Text(form.description), false)])
  }

  function CloseRow(): ActionRow {
    ActionRow([Button(CloseButtonId, CloseButtonLabel, Danger)])
  }

  /** The message posted into the new channel. */
  function ReportMessage(form: ReportForm, robloxId: string, profileLink: string, staffRoleId: string,
                         uploads: seq<Upload>): Message {
    Message("<@" + Text(form.discordId) + "> <@&" + staffRoleId + ">",
            [ReportEmbed(form, robloxId, profileLink)],
            [CloseRow()],
            AttachmentPaths(uploads))
  }

  /** The channel as it stands once the handler is done with it. */
  function NewTicket(channelId: string, guildId: string, form: ReportForm, uploads: seq<Upload>,
                     env: Env, lookup: RobloxLookup, outcomes: DiscordOutcomes): Channel
    requires form.discordUsername.Some?
  {
    var (robloxId, profileLink) := ResolvedRoblox(Text(form.robloxUsername), lookup);
    var userOverwrites :=
      if UserOverwriteAttempted(form.discordId) && outcomes.userOverwriteError.None?
      then [UserOverwrite(form.discordId.value)] else [];
    var messages :=
      if outcomes.sendError.None?
      then [ReportMessage(form, robloxId, profileLink, StaffRoleId(env), uploads)] else [];
    Channel(channelId, Some(CategoryId(env)), ChannelName(form.discordUsername.value),
            InitialOverwrites(guildId, StaffRoleId(env)) + userOverwrites, messages)
  }

  /**
   * The handler's response and the guild's channel list afterwards, inside the `try`: a missing
   * username, a failed refresh, a failed creation or a failed send answer 500; a duplicate answers
   * 400; otherwise the channel is appended and the answer is 200 with its id.
   */
  function Workflow(channels: seq<Channel>, guildId: string, form: ReportForm, uploads: seq<Upload>,
                    env: Env, lookup: RobloxLookup, outcomes: DiscordOutcomes): (Response, seq<Channel>)
  {
    if form.discordUsername.None? then (ServerError(SplitOfUndefined), channels)
    else if outcomes.fetchError.Some? then (ServerError(outcomes.fetchError.value), channels)
    else
      var name := ChannelName(form.discordUsername.value);
      match FindExisting(channels, CategoryId(env), name)
      case Some(k) => (Response(400, Failed(DuplicateError(channels[k].name))), channels)
      case None =>
        match outcomes.create
        case CreateFailed(m) => (ServerError(m), channels)
        case Created(id) =>
          var ticket := NewTicket(id, guildId, form, uploads, env, lookup, outcomes);
          var response := if outcomes.sendError.None? then Response(200, Submitted(id))
                          else ServerError(outcomes.sendError.value);
          (response, channels + [ticket])
  }

  // ---------------------------------------------------------------- properties of the workflow

  /** Once the username is known and the refresh worked, the answer is 400 exactly when a same-named ticket sits in the category. */
  lemma DuplicateGuard(channels: seq<Channel>, guildId: string, form: ReportForm, uploads: seq<Upload>,
                       env: Env, lookup: RobloxLookup, outcomes: DiscordOutcomes)
    requires form.discordUsername.Some? && outcomes.fetchError.None?
    ensures var name := ChannelName(form.discordUsername.value);
      var (response, after) := Workflow(channels, guildId, form, uploads, env, lookup, outcomes);
      && (response.status == 400 <==>
            exists j :: 0 <= j < |channels| && IsTicket(channels[j], CategoryId(env), name))
      && (response.status == 400 ==>
            response.body == Failed(DuplicateError(name)) && after == channels)
  {
    var name := ChannelName(form.discordUsername.value);
    var found := FindExisting(channels, CategoryId(env), name);
    if found.Some? {
      assert IsTicket(channels[found.value], CategoryId(env), name);
    }
  }

  /** A channel of the same name under another parent (or none) never blocks a ticket. */
  lemma OtherCategoryDoesNotBlock(channels: seq<Channel>, guildId: string, form: ReportForm, uploads: seq<Upload>,
                                  env: Env, lookup: RobloxLookup, outcomes: DiscordOutcomes)
    requires form.discordUsername.Some? && outcomes.fetchError.None?
    requires outcomes.create.Created? && outcomes.sendError.None?
    requires forall j :: 0 <= j < |channels| && channels[j].name == ChannelName(form.discordUsername.value) ==>
               channels[j].parentId != Some(CategoryId(env))
    ensures Workflow(channels, guildId, form, uploads, env, lookup, outcomes).0
              == Response(200, Submitted(outcomes.create.channelId))
  {
    DuplicateGuard(channels, guildId, form, uploads, env, lookup, outcomes);
  }

  /**
   * The handler either leaves the channel list alone or appends exactly one channel: the ticket,
   * named after the user, in the configured category, whose first two overwrites hide it from
   * everyone and open it to staff, with a third one for the user exactly when that was attempted
   * and worked.
   */
  lemma AtMostOneTicketAdded(channels: seq<Channel>, guildId: string, form: ReportForm, uploads: seq<Upload>,
                             env: Env, lookup: RobloxLookup, outcomes: DiscordOutcomes)
    ensures var (response, after) := Workflow(channels, guildId, form, uploads, env, lookup, outcomes);
      || after == channels
      || (&& form.discordUsername.Some?
          && |after| == |channels| + 1 && after[..|channels|] == channels
          && var t := after[|channels|];
          && t.id == outcomes.create.channelId
          && IsTicket(t, CategoryId(env), ChannelName(form.discordUsername.value))
          && |t.overwrites| >= 2
          && t.overwrites[..2] == InitialOverwrites(guildId, StaffRoleId(env))
          && (|t.overwrites| == 3 <==> UserOverwriteAttempted(form.discordId) && outcomes.userOverwriteError.None?)
          && (|t.overwrites| == 3 ==> t.overwrites[2] == UserOverwrite(form.discordId.value))
          && |t.overwrites| <= 3)
  {
    var (response, after) := Workflow(channels, guildId, form, uploads, env, lookup, outcomes);
    if after != channels {
      var t := after[|channels|];
      assert (channels + [t])[..|channels|] == channels;
    }
  }

  /** The request succeeds exactly when a ticket was created and its report message posted. */
  lemma SuccessMeansPublished(channels: seq<Channel>, guildId: string, form: ReportForm, uploads: seq<Upload>,
                              env: Env, lookup: RobloxLookup, outcomes: DiscordOutcomes)
    ensures var (response, after) := Workflow(channels, guildId, form, uploads, env, lookup, outcomes);
      && (response.status == 200 || response.status == 400 || response.status == 500)
      && (response.status == 200 <==> |after| == |channels| + 1 && |after[|channels|].messages| == 1)
      && (response.status == 200 ==>
            response.body == Submitted(after[|channels|].id)
            && after[|channels|].messages[0].files == AttachmentPaths(uploads))
  {
  }

  /** A created ticket whose message failed to post stays behind although the client is told 500. */
  lemma FailedSendLeavesTicket(channels: seq<Channel>, guildId: string, form: ReportForm, uploads: seq<Upload>,
                               env: Env, lookup: RobloxLookup, outcomes: DiscordOutcomes)
    requires form.discordUsername.Some? && outcomes.fetchError.None?
    requires FindExisting(channels, CategoryId(env), ChannelName(form.discordUsername.value)).None?
    requires outcomes.create.Created? && outcomes.sendError.Some?
    ensures var (response, after) := Workflow(channels, guildId, form, uploads, env, lookup, outcomes);
      && response == ServerError(outcomes.sendError.value)
      && |after| == |channels| + 1 && after[|channels|].messages == []
  {
  }

  /** After a successful submission, any later one that names the same ticket is turned away. */
  lemma SecondSubmissionRejected(channels: seq<Channel>, guildId: string, form: ReportForm, uploads: seq<Upload>,
                                 env: Env, lookup: RobloxLookup, outcomes: DiscordOutcomes,
                                 form2: ReportForm, uploads2: seq<Upload>, lookup2: RobloxLookup,
                                 outcomes2: DiscordOutcomes)
    requires Workflow(channels, guildId, form, uploads, env, lookup, outcomes).0.status == 200
    requires form.discordUsername.Some? && form2.discordUsername.Some?
    requires ChannelName(form2.discordUsername.value) == ChannelName(form.discordUsername.value)
    requires outcomes2.fetchError.None?
    ensures var after := Workflow(channels, guildId, form, uploads, env, lookup, outcomes).1;
      Workflow(after, guildId, form2, uploads2, env, lookup2, outcomes2)
        == (Response(400, Failed(DuplicateError(ChannelName(form.discordUsername.value)))), after)
  {
    var after := Workflow(channels, guildId, form, uploads, env, lookup, outcomes).1;
    AtMostOneTicketAdded(channels, guildId, form, uploads, env, lookup, outcomes);
    assert IsTicket(after[|channels|], CategoryId(env), ChannelName(form2.discordUsername.value));
    DuplicateGuard(after, guildId, form2, uploads2, env, lookup2, outcomes2);
  }

  /** The posted message: both mentions, the titled embed with its three fields, the close button and the files in upload order. */
  lemma PublishedMessage(channels: seq<Channel>, guildId: string, form: ReportForm, uploads: seq<Upload>,
                         env: Env, lookup: RobloxLookup, outcomes: DiscordOutcomes)
    requires Workflow(channels, guildId, form, uploads, env, lookup, outcomes).0.status == 200
    ensures var after := Workflow(channels, guildId, form, uploads, env, lookup, outcomes).1;
      |after| == |channels| + 1 && |after[|channels|].messages| == 1 &&
      var m := after[|channels|].messages[0];
      var (robloxId, link) := ResolvedRoblox(Text(form.robloxUsername), lookup);
      && m.content == "<@" + Text(form.discordId) + "> <@&" + StaffRoleId(env) + ">"
      && |m.embeds| == 1 && m.embeds[0].title == "Nuova Segnalazione: " + Text(form.title)
      && m.embeds[0].fields[1].value == "[" + Text(form.robloxUsername) + "](" + link + ") (ID: " + robloxId + ")"
      && m.embeds[0].fields[2].value == Text(form.description)
      && m.components == [ActionRow([Button(CloseButtonId, CloseButtonLabel, Danger)])]
      && |m.files| == |uploads| && (forall i :: 0 <= i < |uploads| ==> m.files[i] == uploads[i].path)
  {
    SuccessMeansPublished(channels, guildId, form, uploads, env, lookup, outcomes);
  }

  /** A failed or empty lookup never aborts: the ticket links the keyword search and shows id `Unknown`. */
  /** The Roblox field of the embed: a profile link and the id when the lookup found the user,
    * otherwise a search for the typed name and `Unknown`. */
  lemma RobloxField(username: string, lookup: RobloxLookup)
    ensures var (id, link) := ResolvedRoblox(username, lookup);
      var field := RobloxFieldValue(username, link, id);
      && (LookupFound(lookup) ==>
            var found := lookup.data.value[0].id;
            field == "[" + username + "](" + ProfileLink(found) + ") (ID: " + found + ")")
      && (!LookupFound(lookup) ==>
            field == "[" + username + "](" + SearchLinkPrefix + username + ") (ID: Unknown)")
  {
    if !LookupFound(lookup) {
      assert ") (ID: " + UnknownRobloxId + ")" == ") (ID: Unknown)";
      assert RobloxFieldValue(username, SearchLink(username), UnknownRobloxId)
          == "[" + username + "](" + SearchLinkPrefix + username + (") (ID: " + UnknownRobloxId + ")");
    }
  }

  class Guild {
    const id: string
    /** The guild's channel cache, refreshed from Discord before the duplicate check. */
    var channels: seq<Channel>

    constructor (id: string, channels: seq<Channel>)
      ensures this.id == id && this.channels == channels
    {
      this.id := id;
      this.channels := channels;
    }

    /** The body of the `try` block, step by step. */
    method CreateTicket(form: ReportForm, uploads: seq<Upload>, env: Env, lookup: RobloxLookup,
                        outcomes: DiscordOutcomes) returns (response: Response)
      modifies this
      ensures (response, channels) == Workflow(old(channels), id, form, uploads, env, lookup, outcomes)
    {
      var robloxId, profileLink := ResolveRoblox(Text(form.robloxUsername), lookup);
      var categoryId := Configured(env.categoryId, DefaultCategoryId);
      var staffRoleId := Configured(env.staffRoleId, DefaultStaffRoleId);
      // `if (!categoryId || !staffRoleId)` cannot be taken: both fall back to non-empty literals.

      if form.discordUsername.None? {
        return ServerError(SplitOfUndefined);
      }
      var channelName := ChannelName(form.discordUsername.value);

      if outcomes.fetchError.Some? {
        return ServerError(outcomes.fetchError.value);
      }
      var existing := FindExisting(channels, categoryId, channelName);
      if existing.Some? {
        return Response(400, Failed(DuplicateError(channels[existing.value].name)));
      }

      if outcomes.create.CreateFailed? {
        return ServerError(outcomes.create.message);
      }
      var channel := Channel(outcomes.create.channelId, Some(categoryId), channelName,
                             InitialOverwrites(id, staffRoleId), []);
      channels := channels + [channel];
      var k := |channels| - 1;

      if form.discordId.Some? && |form.discordId.value| > 15 {
        if outcomes.userOverwriteError.None? {
          channel := channel.(overwrites := channel.overwrites + [UserOverwrite(form.discordId.value)]);
          channels := channels[k := channel];
        }
      }

      var message := Message("<@" + Text(form.discordId) + "> <@&" + staffRoleId + ">",
                             [ReportEmbed(form, robloxId, profileLink)],
                             [CloseRow()],
                             AttachmentPaths(uploads));
      ghost var expected := NewTicket(outcomes.create.channelId, id, form, uploads, env, lookup, outcomes);
      assert (robloxId, profileLink) == ResolvedRoblox(Text(form.robloxUsername), lookup);
      assert channel.overwrites == expected.overwrites;
      assert channels == old(channels) + [channel];
      if outcomes.sendError.Some? {
        assert channel == expected;
        return ServerError(outcomes.sendError.value);
      }
      assert message == ReportMessage(form, robloxId, profileLink, staffRoleId, uploads);
      channel := channel.(messages := channel.messages + [message]);
      assert channel == expected;
      channels := channels[k := channel];
      assert channels == old(channels) + [expected];
      response := Response(200, Submitted(channel.id));
    }
  }

  /** The whole route: with no guild it answers 500 before anything else happens. */
  method SubmitReport(guild: Guild?, form: ReportForm, uploads: seq<Upload>, env: Env, lookup: RobloxLookup,
                      outcomes: DiscordOutcomes) returns (response: Response)
    modifies guild
    ensures guild == null ==> response == Response(500, Failed(NoGuildError))
    ensures guild != null ==>
      (response, guild.channels) == Workflow(old(guild.channels), guild.id, form, uploads, env, lookup, outcomes)
  {
    if guild == null {
      return Response(500, Failed(NoGuildError));
    }
    response := guild.CreateTicket(form, uploads, env, lookup, outcomes);
  }
}
