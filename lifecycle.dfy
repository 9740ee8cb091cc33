/**
 * How the three parts fit together: the wizard's request is what the ticket route reads, a
 * user who went through the OAuth redirect reaches the submit step with both claims, and the
 * button the route publishes is the one the close handler acts on.
 */
module TicketLifecycle {
  import opened Wrappers
  import opened Json
  import opened ReportWizard
  import opened Uri
  import opened TicketNaming
  import TicketRoute
  import CloseTicket

  /** The text fields the route reads from the multipart body. */
  function ReceivedForm(parts: seq<Part>): TicketRoute.ReportForm {
    TicketRoute.ReportForm(FieldValue(parts, "discordId"), FieldValue(parts, "discordUsername"),
                           FieldValue(parts, "robloxUsername"), FieldValue(parts, "title"),
                           FieldValue(parts, "description"))
  }

  /**
   * The OAuth callback sends the username as `name#discriminator`; the route then names the
   * ticket after `name` alone, and gets every other field the wizard collected.
   */
  lemma SubmittedTicketName(user: DiscordUser, claim: RobloxClaim, title: string, description: string,
                            files: seq<EvidenceFile>, name: string, discriminator: string)
    requires user.username == Str(name + "#" + discriminator) && '#' !in name
    ensures var form := ReceivedForm(SubmissionParts(user, claim, title, description, files));
      && form == TicketRoute.ReportForm(Some(ToText(user.id)), Some(name + "#" + discriminator),
                                        Some(ToText(claim.username)), Some(title), Some(description))
      && ChannelName(form.discordUsername.value) == ChannelName(name)
  {
    SubmissionRoundTrip(user, claim, title, description, files);
    DiscriminatorIgnored(name, discriminator);
  }

  /** Pressing the button the route publishes is a close request for the bot. */
  lemma PublishedButtonCloses(b: TicketRoute.Button, roles: set<string>, tag: string, channelId: string,
                              channelName: string)
    requires b in TicketRoute.CloseRow().buttons
    ensures CloseTicket.IsCloseRequest(CloseTicket.Interaction(true, b.customId, roles, tag, channelId, channelName))
  {
  }

  /**
   * A whole visit: type a username, confirm, leave for Discord, come back through the redirect
   * with the profile, fill in the details, choose files and submit. When the profile's JSON has
   * no `%`, the request carries both claims, the details and the files, and a successful
   * submission clears the saved claim. When the page's second decode of the parameter throws,
   * the visit ends on step 1 with nothing sent.
   */
  method ReportJourney(session: map<string, string>, username: string, user: DiscordUser, title: string,
                       description: string, files: seq<EvidenceFile>, outcome: SubmitOutcome)
    returns (request: Option<seq<Part>>, sessionAfter: map<string, string>, screen: Screen)
    requires username != "" && title != "" && description != "" && |files| > 0
    ensures var text := Stringify(DiscordJson(user));
      '%' !in text ==>
        && request == Some(SubmissionParts(user, RobloxClaim(Str(username)), title, description, files))
        && (outcome.Accepted? ==> RobloxAuthKey !in sessionAfter && screen == SuccessScreen)
        && (outcome.Rejected? ==>
              RobloxAuthKey in sessionAfter && screen == ErrorModal(RejectionMessage(outcome.serverError)))
    ensures DecodeComponent(Stringify(DiscordJson(user))).None? ==>
      && request == None && screen == StepScreen(1)
      && sessionAfter == session[RobloxAuthKey := Stringify(RobloxJson(RobloxClaim(Str(username))))]
  {
    var claim := RobloxClaim(Str(username));
    var before := new Wizard(session);
    before.EditRobloxUsername(username);
    var alert := before.ConfirmRobloxUsername();

    // The redirect: a new page over the same session storage, with the profile in the query string.
    var text := Stringify(DiscordJson(user));
    var page := new Wizard(before.storage);
    SavedClaimIsRestored(session, claim);
    DiscordParamIsRestored(user);
    page.RestoreOnMount(Some(text));
    if page.step != 3 {
      request, sessionAfter, screen := None, page.storage, page.CurrentScreen();
      return;
    }
    assert '%' !in text ==> page.roblox == Some(claim) && page.discord == Some(user);

    page.EditTitle(title);
    page.EditDescription(description);
    alert := page.AdvanceFromDetails();
    page.ChooseFiles(Some(files));
    alert := page.AdvanceFromEvidence();
    request := page.Submit(outcome);
    sessionAfter := page.storage;
    screen := page.CurrentScreen();
  }
}
