/** Typed tool arguments and the command frozen for a human decision (app/tools/models.py). */
module Commands {
  import opened Values
  import opened Profiles
  import opened FieldValues

  datatype Args =
    | FindCustomerArgs(email: Option<string>, externalId: Option<string>)
    | CreateCaseArgs(customerId: Option<Id>)
    | UpdateCaseArgs(caseId: Id)
    | ReplyDraftArgs(draftCaseId: Option<Id>)
    | ReviewArgs(note: Option<string>)

  function ArgsAction(a: Args): Action {
    match a
    case FindCustomerArgs(_, _) => FindCustomer
    case CreateCaseArgs(_) => CreateCase
    case UpdateCaseArgs(_) => UpdateCaseFields
    case ReplyDraftArgs(_) => CreateReplyDraft
    case ReviewArgs(_) => FlagForReview
  }

  datatype Command = Command(version: nat, args: Args, knownFields: map<string, Value>)

  function CommandAction(c: Command): Action { ArgsAction(c.args) }

  predicate ValidArgs(a: Args) {
    match a
    case FindCustomerArgs(email, externalId) => OrEmpty(email) != "" || OrEmpty(externalId) != ""
    case ReviewArgs(note) => |OrEmpty(note)| <= 500
    case _ => true
  }

  /** A validation error is refused politely; a value of the wrong type escapes as an exception. */
  datatype Parse<+T> = Parsed(result: T) | Malformed | Escaped

  function OptionalText(arguments: map<string, Value>, key: string): Parse<Option<string>> {
    if key !in arguments || arguments[key] == One(Null) then Parsed(None)
    else if arguments[key].One? && arguments[key].scalar.Str? then Parsed(Some(arguments[key].scalar.s))
    else Malformed
  }

  function OptionalId(rules: Rules, arguments: map<string, Value>, key: string): Parse<Option<Id>> {
    if key !in arguments || arguments[key] == One(Null) then Parsed(None)
    else if arguments[key].One? && arguments[key].scalar.Str? then
      var id := rules.uuid(arguments[key].scalar.s);
      if id.Some? then Parsed(id) else Malformed
    else Escaped
  }

  function Checked(a: Args, keys: set<string>, arguments: map<string, Value>): Parse<Args> {
    if arguments.Keys <= keys && ValidArgs(a) then Parsed(a) else Malformed
  }

  /** `arguments_model.model_validate` for each registered action. */
  function ParseArgs(rules: Rules, action: Action, arguments: map<string, Value>): (r: Parse<Args>)
    ensures r.Parsed? ==> ArgsAction(r.result) == action && ValidArgs(r.result)
  {
    match action
    case FindCustomer =>
      var email, externalId := OptionalText(arguments, "email"), OptionalText(arguments, "external_id");
      if email.Parsed? && externalId.Parsed? then
        Checked(FindCustomerArgs(email.result, externalId.result), {"email", "external_id"}, arguments)
      else Malformed
    case CreateCase =>
      var id := OptionalId(rules, arguments, "customer_id");
      if id.Parsed? then Checked(CreateCaseArgs(id.result), {"customer_id"}, arguments)
      else if id.Escaped? then Escaped else Malformed
    case UpdateCaseFields =>
      if "case_id" !in arguments then Malformed
      else
        var id := OptionalId(rules, arguments, "case_id");
        if id.Parsed? && id.result.Some? then Checked(UpdateCaseArgs(id.result.value), {"case_id"}, arguments)
        else if id.Escaped? || id.Parsed? then Escaped else Malformed
    case CreateReplyDraft =>
      var id := OptionalId(rules, arguments, "case_id");
      if id.Parsed? then Checked(ReplyDraftArgs(id.result), {"case_id"}, arguments)
      else if id.Escaped? then Escaped else Malformed
    case FlagForReview =>
      var note := OptionalText(arguments, "note");
      if note.Parsed? then Checked(ReviewArgs(note.result), {"note"}, arguments) else Malformed
  }

  /** A command the decision service accepts under this profile. */
  predicate Authorized(rules: Rules, profile: Profile, c: Command) {
    && c.version == PENDING_ACTION_VERSION
    && ValidArgs(c.args)
    && ActionKey(CommandAction(c)) in AvailableActions(profile)
    && FrozenResult(rules, profile.fields, c.knownFields).invalid == {}
    && FrozenResult(rules, profile.fields, c.knownFields).values.Keys == c.knownFields.Keys
  }

  /** The argument is there and is not what its UUID validator takes; null is fine for an optional one. */
  predicate WrongTyped(arguments: map<string, Value>, key: string, optional: bool) {
    && key in arguments
    && !(arguments[key].One? && arguments[key].scalar.Str?)
    && !(optional && arguments[key] == One(Null))
  }

  /** The arguments whose validation raises a TypeError instead of a validation error. */
  predicate Escapes(action: Action, arguments: map<string, Value>) {
    match action
    case CreateCase => WrongTyped(arguments, "customer_id", true)
    case CreateReplyDraft => WrongTyped(arguments, "case_id", true)
    case UpdateCaseFields => WrongTyped(arguments, "case_id", false)
    case _ => false
  }

  /** Arguments are accepted or politely refused exactly when no identifier argument has the wrong type. */
  lemma EscapesExactly(rules: Rules, action: Action, arguments: map<string, Value>)
    ensures ParseArgs(rules, action, arguments).Escaped? <==> Escapes(action, arguments)
  {
  }

  // ---------------------------------------------------------------- what a call says

  predicate SaysText(arguments: map<string, Value>, key: string, text: Option<string>) {
    if text.Some? then key in arguments && arguments[key] == One(Str(text.value))
    else key in arguments ==> arguments[key] == One(Null)
  }

  predicate SaysId(rules: Rules, arguments: map<string, Value>, key: string, id: Option<Id>) {
    if id.Some? then
      key in arguments && arguments[key].One? && arguments[key].scalar.Str? && rules.uuid(arguments[key].scalar.s) == id
    else key in arguments ==> arguments[key] == One(Null)
  }

  /** The call of that name says exactly these typed arguments and nothing else: a lookup by at least one non-empty
      text, an update of a given case, a note of at most 500 characters. */
  predicate Says(rules: Rules, name: string, arguments: map<string, Value>, a: Args) {
    match a
    case FindCustomerArgs(email, externalId) =>
      && name == "find_customer" && arguments.Keys <= {"email", "external_id"}
      && SaysText(arguments, "email", email) && SaysText(arguments, "external_id", externalId)
      && ((email.Some? && email.value != "") || (externalId.Some? && externalId.value != ""))
    case CreateCaseArgs(customer) =>
      name == "create_case" && arguments.Keys <= {"customer_id"} && SaysId(rules, arguments, "customer_id", customer)
    case UpdateCaseArgs(id) =>
      name == "update_case_fields" && arguments.Keys == {"case_id"} && SaysId(rules, arguments, "case_id", Some(id))
    case ReplyDraftArgs(id) =>
      name == "create_reply_draft" && arguments.Keys <= {"case_id"} && SaysId(rules, arguments, "case_id", id)
    case ReviewArgs(note) =>
      && name == "flag_for_review" && arguments.Keys <= {"note"} && SaysText(arguments, "note", note)
      && (note.Some? ==> |note.value| <= 500)
  }

  lemma TextsParse(arguments: map<string, Value>, key: string)
    ensures var r := OptionalText(arguments, key);
      && !r.Escaped?
      && (forall text :: SaysText(arguments, key, text) <==> r == Parsed(text))
  {
  }

  lemma IdsParse(rules: Rules, arguments: map<string, Value>, key: string)
    ensures var r := OptionalId(rules, arguments, key);
      forall id :: SaysId(rules, arguments, key, id) <==> r == Parsed(id)
  {
  }

  /** A call parses to typed arguments exactly when it says them; so what is executed, or frozen for a human, is the
      call's own identifier or text, and a call that says no valid arguments is refused or raises. */
  lemma ParsesExactly(rules: Rules, action: Action, arguments: map<string, Value>, a: Args)
    ensures ParseArgs(rules, action, arguments) == Parsed(a) <==> Says(rules, ActionKey(action), arguments, a)
  {
    match action
    case FindCustomer =>
      TextsParse(arguments, "email");
      TextsParse(arguments, "external_id");
    case CreateCase => IdsParse(rules, arguments, "customer_id");
    case UpdateCaseFields => IdsParse(rules, arguments, "case_id");
    case CreateReplyDraft => IdsParse(rules, arguments, "case_id");
    case FlagForReview => TextsParse(arguments, "note");
  }

  /** What the decision service accepts: version 1 of an action the profile still allows and executes, with valid
      arguments, and only known fields that hold values of their types. */
  lemma AuthorizedExactly(rules: Rules, profile: Profile, c: Command)
    ensures Authorized(rules, profile, c)
       <==> && c.version == 1
            && (c.args.FindCustomerArgs? ==>
                  (c.args.email.Some? && c.args.email.value != "")
                  || (c.args.externalId.Some? && c.args.externalId.value != ""))
            && (c.args.ReviewArgs? && c.args.note.Some? ==> |c.args.note.value| <= 500)
            && ActionKey(CommandAction(c)) in profile.actionPolicy
            && profile.actionPolicy[ActionKey(CommandAction(c))].executable
            && profile.actionPolicy[ActionKey(CommandAction(c))].allowed
            && (forall name <- c.knownFields ::
                  && name != "" && name in profile.fields
                  && !Blank(rules, c.knownFields[name]) && Admits(rules, profile.fields[name], c.knownFields[name]))
  {
    FrozenExactly(rules, profile.fields, c.knownFields);
  }
}
