/**
 * The five-step report wizard of the client's report page: a Roblox username claim (step 1),
 * a Discord OAuth login that leaves the page and comes back through a redirect (step 2),
 * title and description (step 3), evidence files (step 4) and the review-and-submit step (5).
 *
 * The component's `useState` hooks are the fields of the class `Wizard`; `sessionStorage` is
 * the map `storage`, and it is the only field that survives the OAuth redirect (a new `Wizard`
 * is constructed over the same storage). Each handler of the page is one method.
 */
module ReportWizard {
  import opened Wrappers
  import opened Json
  import opened Uri

  const RobloxAuthKey := "roblox_auth"
  const RobloxMissingAlert := "Inserisci il tuo nome utente Roblox"
  const DetailsMissingAlert := "Compila tutti i campi"
  const EvidenceMissingAlert := "Allega almeno una prova"
  const AuthMissingError := "Autenticazione mancante. Per favore ricarica la pagina e riprova."
  const GenericSubmitError := "Si è verificato un errore durante l'invio della segnalazione. Riprova."

  /** `auth.roblox`: the object `{ username }` typed in at step 1 or restored from storage. */
  datatype RobloxClaim = RobloxClaim(username: Prop)

  /** `auth.discord`: the profile object delivered by the OAuth redirect. */
  datatype DiscordUser = DiscordUser(id: Prop, username: Prop, avatar: Prop)

  /** A file chosen in the evidence picker; the page only shows its name. */
  datatype EvidenceFile = EvidenceFile(name: string)

  /** One part of the multipart request body, in the order it is appended. */
  datatype Part = TextPart(name: string, value: string) | FilePart(name: string, file: EvidenceFile)

  /** How the POST to `/report/submit` ended: accepted, or rejected with `err.response?.data?.error`. */
  datatype SubmitOutcome = Accepted | Rejected(serverError: Prop)

  /** What the page renders. */
  datatype Screen = SuccessScreen | ErrorModal(message: string) | StepScreen(step: int)

  /** All of the component's state at one moment. */
  datatype State = State(
    step: int,
    roblox: Option<RobloxClaim>,
    discord: Option<DiscordUser>,
    title: string,
    description: string,
    files: seq<EvidenceFile>,
    isSubmitting: bool,
    isSuccess: bool,
    error: Option<string>,
    storage: map<string, string>)

  // ---------------------------------------------------------------- JSON views of the claims

  function RobloxJson(c: RobloxClaim): Value {
    Object(Entry("username", c.username))
  }

  /** The claim an object parsed from storage stands for; `null` is no claim. */
  function RobloxFromJson(v: Value): Option<RobloxClaim> {
    match v
    case NullValue => None
    case Object(ms) => Some(RobloxClaim(Get(ms, "username")))
  }

  /** The object the OAuth callback serialises into the `discord_auth` parameter. */
  function DiscordJson(u: DiscordUser): Value {
    Object(Entry("id", u.id) + Entry("username", u.username) + Entry("avatar", u.avatar))
  }

  function DiscordFromJson(v: Value): Option<DiscordUser> {
    match v
    case NullValue => None
    case Object(ms) => Some(DiscordUser(Get(ms, "id"), Get(ms, "username"), Get(ms, "avatar")))
  }

  lemma RobloxJsonRoundTrip(c: RobloxClaim)
    ensures RobloxFromJson(RobloxJson(c)) == Some(c)
  {
  }

  lemma DiscordJsonRoundTrip(u: DiscordUser)
    ensures DiscordFromJson(DiscordJson(u)) == Some(u)
  {
    var a: seq<Member>, b: seq<Member>, c: seq<Member> := Entry("id", u.id), Entry("username", u.username), Entry("avatar", u.avatar);
    var ms := a + b + c;
    assert DiscordJson(u) == Object(ms);
    GetEntry("id", u.id, "username");
    GetEntry("id", u.id, "avatar");
    GetEntry("username", u.username, "id");
    GetEntry("username", u.username, "avatar");
    GetEntry("avatar", u.avatar, "id");
    GetEntry("avatar", u.avatar, "username");
    GetAppend(a, b, "id");
    GetAppend(a, b, "avatar");
    GetAppend(a + b, c, "id");
    GetAppend(a + b, c, "username");
    assert Get(ms, "id") == u.id;
    assert Get(ms, "username") == u.username;
    assert Get(ms, "avatar") == u.avatar;
  }

  // ---------------------------------------------------------------- what the mount effect reads

  /** `if (savedRoblox)`: storage holds a non-empty text under the key. */
  predicate SavedPresent(storage: map<string, string>) {
    RobloxAuthKey in storage && storage[RobloxAuthKey] != ""
  }

  /** The saved text, parsed; `None` when absent or when `JSON.parse` would throw. */
  function SavedJson(storage: map<string, string>): Option<Value> {
    if SavedPresent(storage) then Parse(storage[RobloxAuthKey]) else None
  }

  /** The local `robloxUser` after the restore: a claim only if one parsed and was not `null`. */
  function SavedRoblox(storage: map<string, string>): Option<RobloxClaim> {
    match SavedJson(storage)
    case Some(v) => RobloxFromJson(v)
    case None => None
  }

  /** `if (discordData)`: the query string carries a non-empty `discord_auth` value. */
  predicate DiscordParamPresent(param: Option<string>) {
    param.Some? && param.value != ""
  }

  /** `JSON.parse(decodeURIComponent(discordData))`: `None` where either call throws. */
  function DiscordParamJson(param: Option<string>): Option<Value> {
    if DiscordParamPresent(param) then
      match DecodeComponent(param.value)
      case None => None
      case Some(text) => Parse(text)
    else None
  }

  /** Whatever step 1 saves, the mount effect after the redirect restores unchanged. */
  lemma SavedClaimIsRestored(storage: map<string, string>, c: RobloxClaim)
    ensures SavedRoblox(storage[RobloxAuthKey := Stringify(RobloxJson(c))]) == Some(c)
  {
    RoundTrip(RobloxJson(c));
    RobloxJsonRoundTrip(c);
  }

  /** A profile serialised by the OAuth callback is what the mount effect puts in
    * `auth.discord`, provided its JSON has no `%`, which the page's second decode would
    * interpret. */
  lemma DiscordParamIsRestored(u: DiscordUser)
    ensures var text := Stringify(DiscordJson(u));
      '%' !in text ==>
        && DiscordParamJson(Some(text)).Some?
        && DiscordFromJson(DiscordParamJson(Some(text)).value) == Some(u)
  {
    RoundTrip(DiscordJson(u));
    DiscordJsonRoundTrip(u);
  }

  // ---------------------------------------------------------------- guards

  /** Step 1 "Conferma": `auth.roblox?.username` is truthy. */
  predicate CanConfirmRoblox(roblox: Option<RobloxClaim>) {
    roblox.Some? && Truthy(roblox.value.username)
  }

  /** Step 3 "Avanti": both title and description are non-empty. */
  predicate CanLeaveDetails(title: string, description: string) {
    title != "" && description != ""
  }

  /** Step 4 "Avanti": at least one file is chosen. */
  predicate CanLeaveEvidence(files: seq<EvidenceFile>) {
    |files| > 0
  }

  /** The message the error modal shows for a rejected submission. */
  function RejectionMessage(serverError: Prop): (m: string)
    ensures m != ""
    ensures Truthy(serverError) ==> m == serverError.s
    ensures !Truthy(serverError) ==> m == GenericSubmitError
  {
    if Truthy(serverError) then serverError.s else GenericSubmitError
  }

  // ---------------------------------------------------------------- the request

  /** `files.forEach(file => data.append('evidence', file))`. */
  function EvidenceParts(files: seq<EvidenceFile>): (parts: seq<Part>)
    ensures |parts| == |files|
    ensures forall i :: 0 <= i < |files| ==> parts[i] == FilePart("evidence", files[i])
  {
    if files == [] then [] else [FilePart("evidence", files[0])] + EvidenceParts(files[1..])
  }

  /** The multipart body `handleSubmit` builds. */
  function SubmissionParts(discord: DiscordUser, roblox: RobloxClaim, title: string, description: string,
                           files: seq<EvidenceFile>): (parts: seq<Part>)
    ensures |parts| == 5 + |files|
    ensures forall i :: 0 <= i < |files| ==> parts[5 + i] == FilePart("evidence", files[i])
  {
    [TextPart("discordId", ToText(discord.id)),
     TextPart("discordUsername", ToText(discord.username)),
     TextPart("robloxUsername", ToText(roblox.username)),
     TextPart("title", title),
     TextPart("description", description)]
    + EvidenceParts(files)
  }

  /** What the server reads as the text field `name`: the first part so named. */
  function FieldValue(parts: seq<Part>, name: string): Option<string> {
    if parts == [] then None
    else if parts[0].TextPart? && parts[0].name == name then Some(parts[0].value)
    else FieldValue(parts[1..], name)
  }

  /** What the server receives as the `evidence` files, in order. */
  function EvidenceOf(parts: seq<Part>): seq<EvidenceFile> {
    if parts == [] then []
    else if parts[0].FilePart? && parts[0].name == "evidence" then [parts[0].file] + EvidenceOf(parts[1..])
    else EvidenceOf(parts[1..])
  }

  /** The field read by name is the first text part with that name. */
  lemma {:induction false} FirstField(parts: seq<Part>, k: nat, name: string)
    requires k < |parts| && parts[k].TextPart? && parts[k].name == name
    requires forall j :: 0 <= j < k ==> !(parts[j].TextPart? && parts[j].name == name)
    ensures FieldValue(parts, name) == Some(parts[k].value)
  {
    if k > 0 {
      FirstField(parts[1..], k - 1, name);
    }
  }

  lemma {:induction false} EvidencePartsRoundTrip(files: seq<EvidenceFile>)
    ensures EvidenceOf(EvidenceParts(files)) == files
    ensures forall name :: FieldValue(EvidenceParts(files), name) == None
  {
    if files != [] {
      EvidencePartsRoundTrip(files[1..]);
      assert EvidenceParts(files)[1..] == EvidenceParts(files[1..]);
      assert [files[0]] + files[1..] == files;
    }
  }

  /** Reading the request back by field name gives every value `handleSubmit` put in, and the files in order. */
  lemma SubmissionRoundTrip(discord: DiscordUser, roblox: RobloxClaim, title: string, description: string,
                            files: seq<EvidenceFile>)
    ensures var parts := SubmissionParts(discord, roblox, title, description, files);
      && FieldValue(parts, "discordId") == Some(ToText(discord.id))
      && FieldValue(parts, "discordUsername") == Some(ToText(discord.username))
      && FieldValue(parts, "robloxUsername") == Some(ToText(roblox.username))
      && FieldValue(parts, "title") == Some(title)
      && FieldValue(parts, "description") == Some(description)
      && EvidenceOf(parts) == files
  {
    var parts := SubmissionParts(discord, roblox, title, description, files);
    FirstField(parts, 0, "discordId");
    FirstField(parts, 1, "discordUsername");
    FirstField(parts, 2, "robloxUsername");
    FirstField(parts, 3, "title");
    FirstField(parts, 4, "description");
    EvidencePartsRoundTrip(files);
    assert parts[5..] == EvidenceParts(files);
    assert parts[1..][1..] == parts[2..];
    assert parts[2..][1..] == parts[3..];
    assert parts[3..][1..] == parts[4..];
    assert parts[4..][1..] == parts[5..];
    assert EvidenceOf(parts) == EvidenceOf(parts[1..]) == EvidenceOf(parts[2..]) == EvidenceOf(parts[3..])
        == EvidenceOf(parts[4..]) == EvidenceOf(parts[5..]);
  }

  // ---------------------------------------------------------------- the component

  class Wizard {
    var step: int
    var roblox: Option<RobloxClaim>
    var discord: Option<DiscordUser>
    var title: string
    var description: string
    var files: seq<EvidenceFile>
    var isSubmitting: bool
    var isSuccess: bool
    var error: Option<string>
    /** `sessionStorage`, shared by the page before and after the OAuth redirect. */
    var storage: map<string, string>

    ghost function Snapshot(): State
      reads this
    {
      State(step, roblox, discord, title, description, files, isSubmitting, isSuccess, error, storage)
    }

    /** The wizard is on one of its five steps, and a shown error is never the empty (falsy) string. */
    ghost predicate Valid()
      reads this
    {
      1 <= step <= 5 && (error.Some? ==> error.value != "")
    }

    /** The page's initial state (lines 8-20), with the browser's session storage. */
    constructor (storage: map<string, string>)
      ensures Valid()
      ensures Snapshot() == State(1, None, None, "", "", [], false, false, None, storage)
    {
      step := 1;
      roblox, discord := None, None;
      title, description := "", "";
      files := [];
      isSubmitting, isSuccess := false, false;
      error := None;
      this.storage := storage;
    }

    /** The screen rendered from the state: success first, then the error modal, then the step. */
    function CurrentScreen(): Screen
      reads this
    {
      if isSuccess then SuccessScreen
      else if error.Some? && error.value != "" then ErrorModal(error.value)
      else StepScreen(step)
    }

    /** Typing in the step-1 input replaces `auth.roblox` with `{ username: value }`. */
    method EditRobloxUsername(value: string)
      requires Valid() && step == 1
      modifies this
      ensures Valid()
      ensures Snapshot() == old(Snapshot()).(roblox := Some(RobloxClaim(Str(value))))
    {
      roblox := Some(RobloxClaim(Str(value)));
    }

    /** `handleRobloxAuth`: save the claim and go to step 2, or alert and change nothing. */
    method ConfirmRobloxUsername() returns (alert: Option<string>)
      requires Valid() && step == 1
      modifies this
      ensures Valid()
      ensures CanConfirmRoblox(old(roblox)) ==>
        && alert == None
        && Snapshot() == old(Snapshot()).(step := 2,
             storage := old(storage)[RobloxAuthKey := Stringify(RobloxJson(old(roblox).value))])
      ensures !CanConfirmRoblox(old(roblox)) ==>
        alert == Some(RobloxMissingAlert) && Snapshot() == old(Snapshot())
    {
      if roblox.Some? && Truthy(roblox.value.username) {
        storage := storage[RobloxAuthKey := Stringify(RobloxJson(roblox.value))];
        step := 2;
        alert := None;
      } else {
        alert := Some(RobloxMissingAlert);
      }
    }

    /**
     * The mount effect, run when the page loads again after the OAuth redirect: restore the saved
     * Roblox claim, take the Discord profile from the `discord_auth` parameter, and pick the step.
     */
    method RestoreOnMount(discordParam: Option<string>)
      requires Valid()
      modifies this
      ensures Valid()
      // a saved claim that parses replaces auth.roblox (a saved `null` clears it); otherwise it is kept
      ensures roblox == (if SavedJson(old(storage)).Some? then RobloxFromJson(SavedJson(old(storage)).value)
                         else old(roblox))
      // a parsed profile is taken, and the step is 3 iff a claim was restored, else 1
      ensures DiscordParamJson(discordParam).Some? ==>
        && discord == DiscordFromJson(DiscordParamJson(discordParam).value)
        && step == (if SavedRoblox(old(storage)).Some? then 3 else 1)
      // a parameter that is present but fails to decode or parse changes neither the profile nor the step
      ensures DiscordParamJson(discordParam).None? ==> discord == old(discord)
      ensures DiscordParamPresent(discordParam) && DiscordParamJson(discordParam).None? ==> step == old(step)
      // no parameter: step 2 when something was saved, otherwise the step stays
      ensures !DiscordParamPresent(discordParam) ==>
        step == (if SavedPresent(old(storage)) then 2 else old(step))
      ensures Snapshot() == old(Snapshot()).(step := step, roblox := roblox, discord := discord)
    {
      var savedPresent := RobloxAuthKey in storage && storage[RobloxAuthKey] != "";
      var robloxUser: Option<RobloxClaim> := None;
      if savedPresent {
        var parsed := Parse(storage[RobloxAuthKey]);
        if parsed.Some? {
          robloxUser := RobloxFromJson(parsed.value);
          roblox := robloxUser;
        }
      }
      if discordParam.Some? && discordParam.value != "" {
        var decoded := DecodeComponent(discordParam.value);
        var parsed := if decoded.Some? then Parse(decoded.value) else None;
        if parsed.Some? {
          discord := DiscordFromJson(parsed.value);
          roblox := if robloxUser.Some? then robloxUser else roblox;
          if robloxUser.Some? {
            step := 3;
          } else {
            step := 1;
          }
        }
      } else if savedPresent {
        step := 2;
      }
    }

    /** Step 2 "Avanti": shown only once the Discord profile is there; it moves to step 3. */
    method AdvanceFromDiscord() returns (offered: bool)
      requires Valid() && step == 2
      modifies this
      ensures Valid()
      ensures offered == old(discord).Some?
      ensures Snapshot() == old(Snapshot()).(step := if offered then 3 else 2)
    {
      offered := discord.Some?;
      if offered {
        step := 3;
      }
    }

    /** Typing in the step-3 title field. */
    method EditTitle(value: string)
      requires Valid() && step == 3
      modifies this
      ensures Valid()
      ensures Snapshot() == old(Snapshot()).(title := value)
    {
      title := value;
    }

    /** Typing in the step-3 description field. */
    method EditDescription(value: string)
      requires Valid() && step == 3
      modifies this
      ensures Valid()
      ensures Snapshot() == old(Snapshot()).(description := value)
    {
      description := value;
    }

    /** Step 3 "Avanti": step 4 when title and description are filled; else an alert and no change. */
    method AdvanceFromDetails() returns (alert: Option<string>)
      requires Valid() && step == 3
      modifies this
      ensures Valid()
      ensures CanLeaveDetails(old(title), old(description)) ==>
        alert == None && Snapshot() == old(Snapshot()).(step := 4)
      ensures !CanLeaveDetails(old(title), old(description)) ==>
        alert == Some(DetailsMissingAlert) && Snapshot() == old(Snapshot())
    {
      if title != "" && description != "" {
        step := 4;
        alert := None;
      } else {
        alert := Some(DetailsMissingAlert);
      }
    }

    /** `handleFileChange`: a new selection replaces the list wholesale, in the order picked. */
    method ChooseFiles(selection: Option<seq<EvidenceFile>>)
      requires Valid() && step == 4
      modifies this
      ensures Valid()
      ensures Snapshot() == old(Snapshot()).(files := if selection.Some? then selection.value else old(files))
    {
      if selection.Some? {
        files := selection.value;
      }
    }

    /** Step 4 "Avanti": step 5 when at least one file is chosen; else an alert and no change. */
    method AdvanceFromEvidence() returns (alert: Option<string>)
      requires Valid() && step == 4
      modifies this
      ensures Valid()
      ensures CanLeaveEvidence(old(files)) ==> alert == None && Snapshot() == old(Snapshot()).(step := 5)
      ensures !CanLeaveEvidence(old(files)) ==>
        alert == Some(EvidenceMissingAlert) && Snapshot() == old(Snapshot())
    {
      if |files| > 0 {
        step := 5;
        alert := None;
      } else {
        alert := Some(EvidenceMissingAlert);
      }
    }

    /**
     * `handleSubmit`. Without both claims no request is sent and the "authentication missing"
     * error is shown. Otherwise `request` is the body posted and `outcome` is how the POST ended:
     * success clears the saved claim and shows the success screen, failure shows the server's
     * message or the generic one. Either way the button is enabled again afterwards.
     */
    method Submit(outcome: SubmitOutcome) returns (request: Option<seq<Part>>)
      requires Valid() && step == 5 && !isSubmitting
      modifies this
      ensures Valid()
      ensures old(discord).None? || old(roblox).None? ==>
        && request == None
        && Snapshot() == old(Snapshot()).(error := Some(AuthMissingError))
      ensures old(discord).Some? && old(roblox).Some? ==>
        && request == Some(SubmissionParts(old(discord).value, old(roblox).value, old(title),
                                           old(description), old(files)))
        && (outcome.Accepted? ==>
              Snapshot() == old(Snapshot()).(isSuccess := true, storage := old(storage) - {RobloxAuthKey}))
        && (outcome.Rejected? ==>
              Snapshot() == old(Snapshot()).(error := Some(RejectionMessage(outcome.serverError))))
    {
      isSubmitting := true;
      if discord.None? || roblox.None? {
        error := Some(AuthMissingError);
        isSubmitting := false;
        request := None;
        return;
      }
      request := Some(SubmissionParts(discord.value, roblox.value, title, description, files));
      match outcome {
        case Accepted =>
          storage := storage - {RobloxAuthKey};
          isSuccess := true;
        case Rejected(serverError) =>
          error := Some(RejectionMessage(serverError));
      }
      isSubmitting := false;
    }

    /** "Chiudi" on the error modal: only the error goes away. */
    method DismissError()
      requires Valid() && error.Some? && !isSuccess
      modifies this
      ensures Valid()
      ensures Snapshot() == old(Snapshot()).(error := None)
      ensures CurrentScreen() == StepScreen(old(step))
    {
      error := None;
    }
  }
}
