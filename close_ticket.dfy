/**
 * The bot's `interactionCreate` handler for the "Chiudi Ticket" button: only staff may close a
 * ticket; closing acknowledges privately, fetches the channel's last 100 messages, posts their
 * transcript to the log channel when that channel resolves, and schedules the channel's deletion.
 *
 * The handler's calls into Discord are recorded, in order, as a sequence of effects; what each
 * call returns (or whether it rejects) is an input.
 */
module CloseTicket {
  import opened Wrappers

  const CloseButtonId := "close_ticket"
  const DeniedText := "Non hai il permesso di chiudere questo ticket."
  const ClosingText := "Chiusura ticket in corso..."
  const HistoryLimit := 100
  const DeleteDelayMs := 5000

  datatype Interaction = Interaction(
    isButton: bool,
    customId: string,
    memberRoles: set<string>,   // interaction.member.roles.cache
    userTag: string,            // interaction.user.tag
    channelId: string,
    channelName: string)

  /** A fetched message, as the transcript renders it. */
  datatype ChatMessage = ChatMessage(authorTag: string, content: string)

  /** `client.channels.fetch(LOG_CHANNEL_ID)`: resolves to a channel or to nothing, or rejects. */
  datatype LogLookup = LogResolved(found: bool) | LogRejected

  /** What Discord answers to the handler's calls. */
  datatype Platform = Platform(
    logLookup: LogLookup,
    history: Option<seq<ChatMessage>>,   // channel.messages.fetch({limit: 100}), newest first; None: rejected
    logSendOk: bool)                      // logChannel.send(...)

  datatype Effect =
    | Reply(content: string, ephemeral: bool)
    | FetchLogChannel(logChannelId: Option<string>)
    | FetchHistory(channelId: string, limit: nat)
    | PostLog(content: string, fileName: string, transcript: string)
    | ScheduleDelete(channelId: string, delayMs: nat)

  /** Only buttons whose custom id is `close_ticket` are handled. */
  predicate IsCloseRequest(i: Interaction) {
    i.isButton && i.customId == CloseButtonId
  }

  /** `roles.cache.has(process.env.STAFF_ROLE_ID)`; with the variable unset nobody has the role. */
  predicate IsStaff(roles: set<string>, staffRoleId: Option<string>) {
    staffRoleId.Some? && staffRoleId.value in roles
  }

  // ---------------------------------------------------------------- transcript

  function Line(m: ChatMessage): string {
    m.authorTag + ": " + m.content
  }

  function Reverse<T>(s: seq<T>): (r: seq<T>)
    ensures |r| == |s|
    ensures forall i :: 0 <= i < |s| ==> r[i] == s[|s| - 1 - i]
  {
    if s == [] then [] else Reverse(s[1..]) + [s[0]]
  }

  function Lines(ms: seq<ChatMessage>): (ls: seq<string>)
    ensures |ls| == |ms|
    ensures forall i :: 0 <= i < |ms| ==> ls[i] == Line(ms[i])
  {
    if ms == [] then [] else [Line(ms[0])] + Lines(ms[1..])
  }

  /** `ls.join('\n')`. */
  function Join(ls: seq<string>): string {
    if ls == [] then ""
    else if |ls| == 1 then ls[0]
    else ls[0] + "\n" + Join(ls[1..])
  }

  /** `messages.reverse().map(m => `${m.author.tag}: ${m.content}`).join('\n')`. */
  function Transcript(history: seq<ChatMessage>): string {
    Join(Lines(Reverse(history)))
  }

  /** Splitting a text at every line feed. */
  function SplitLines(s: string): (ls: seq<string>)
    ensures |ls| >= 1
  {
    if s == [] then [""]
    else if s[0] == '\n' then [""] + SplitLines(s[1..])
    else var rest := SplitLines(s[1..]); [[s[0]] + rest[0]] + rest[1..]
  }

  lemma {:induction false} SplitPlain(a: string, rest: string)
    requires '\n' !in a
    ensures SplitLines(a + rest) == [a + SplitLines(rest)[0]] + SplitLines(rest)[1..]
  {
    if a != [] {
      assert (a + rest)[1..] == a[1..] + rest;
      SplitPlain(a[1..], rest);
      assert [a[0]] + (a[1..] + SplitLines(rest)[0]) == a + SplitLines(rest)[0];
    } else {
      var r := SplitLines(rest);
      assert a + rest == rest;
      assert a + r[0] == r[0];
      assert [r[0]] + r[1..] == r;
    }
  }

  /** Joining lines free of line feeds and splitting again gives the lines back. */
  lemma {:induction false} SplitJoin(ls: seq<string>)
    requires |ls| >= 1
    requires forall i :: 0 <= i < |ls| ==> '\n' !in ls[i]
    ensures SplitLines(Join(ls)) == ls
  {
    if |ls| == 1 {
      SplitPlain(ls[0], "");
      assert ls[0] + "" == ls[0];
    } else {
      var tail := "\n" + Join(ls[1..]);
      assert Join(ls) == ls[0] + tail;
      SplitPlain(ls[0], tail);
      SplitJoin(ls[1..]);
      assert tail[1..] == Join(ls[1..]);
      assert SplitLines(tail) == [""] + ls[1..];
      assert ls[0] + "" == ls[0];
      assert [ls[0]] + ls[1..] == ls;
    }
  }

  /** With no messages the transcript is empty; otherwise the oldest message opens it. */
  lemma TranscriptOldestFirst(newer: seq<ChatMessage>, oldest: ChatMessage)
    ensures Transcript([]) == ""
    ensures Transcript(newer + [oldest]) ==
      if newer == [] then Line(oldest) else Line(oldest) + "\n" + Transcript(newer)
  {
    var all := newer + [oldest];
    var lines := Lines(Reverse(all));
    assert lines == [Line(oldest)] + Lines(Reverse(newer));
  }

  /**
   * When no author tag or content holds a line feed, the transcript has one line per fetched
   * message, in chronological order (the reverse of the newest-first fetch), as `tag: content`.
   */
  lemma TranscriptLines(history: seq<ChatMessage>)
    requires |history| >= 1
    requires forall i :: 0 <= i < |history| ==> '\n' !in Line(history[i])
    ensures |SplitLines(Transcript(history))| == |history|
    ensures forall k :: 0 <= k < |history| ==>
      SplitLines(Transcript(history))[k] == history[|history| - 1 - k].authorTag + ": " + history[|history| - 1 - k].content
  {
    var ls := Lines(Reverse(history));
    assert forall k :: 0 <= k < |ls| ==> ls[k] == Line(history[|history| - 1 - k]);
    SplitJoin(ls);
  }

  // ---------------------------------------------------------------- the handler

  function LogNote(userTag: string): string {
    "Ticket chiuso da " + userTag
  }

  function TranscriptFileName(channelName: string): string {
    "transcript-" + channelName + ".txt"
  }

  /**
   * The calls the handler makes, in order. Anything but the close button: none. A non-staff
   * actor: only the private denial. Staff: the private acknowledgement, the log-channel lookup,
   * the history fetch, the log post if the log channel resolved, then the scheduled deletion —
   * each step only once the previous one did not reject.
   */
  method HandleInteraction(i: Interaction, staffRoleId: Option<string>, logChannelId: Option<string>,
                           platform: Platform) returns (effects: seq<Effect>)
    ensures !IsCloseRequest(i) ==> effects == []
    ensures IsCloseRequest(i) && !IsStaff(i.memberRoles, staffRoleId) ==> effects == [Reply(DeniedText, true)]
    ensures IsCloseRequest(i) && IsStaff(i.memberRoles, staffRoleId) ==>
      && |effects| >= 2
      && effects[..2] == [Reply(ClosingText, true), FetchLogChannel(logChannelId)]
      && (platform.logLookup.LogRejected? ==> |effects| == 2)
      && (platform.logLookup.LogResolved? ==>
            && |effects| >= 3 && effects[2] == FetchHistory(i.channelId, HistoryLimit)
            && (platform.history.None? ==> |effects| == 3)
            && (platform.history.Some? ==>
                  var post := PostLog(LogNote(i.userTag), TranscriptFileName(i.channelName),
                                      Transcript(platform.history.value));
                  var delete := ScheduleDelete(i.channelId, DeleteDelayMs);
                  && (platform.logLookup.found && platform.logSendOk ==> effects[3..] == [post, delete])
                  && (platform.logLookup.found && !platform.logSendOk ==> effects[3..] == [post])
                  && (!platform.logLookup.found ==> effects[3..] == [delete])))
  {
    effects := [];
    if !i.isButton {
      return;
    }
    if i.customId == CloseButtonId {
      if !(staffRoleId.Some? && staffRoleId.value in i.memberRoles) {
        effects := effects + [Reply(DeniedText, true)];
        return;
      }
      effects := effects + [Reply(ClosingText, true)];

      effects := effects + [FetchLogChannel(logChannelId)];
      if platform.logLookup.LogRejected? {
        return;
      }
      var logChannelFound := platform.logLookup.found;

      effects := effects + [FetchHistory(i.channelId, HistoryLimit)];
      if platform.history.None? {
        return;
      }
      var transcript := Transcript(platform.history.value);

      if logChannelFound {
        effects := effects + [PostLog(LogNote(i.userTag), TranscriptFileName(i.channelName), transcript)];
        if !platform.logSendOk {
          return;
        }
      }

      effects := effects + [ScheduleDelete(i.channelId, DeleteDelayMs)];
    }
  }
}
