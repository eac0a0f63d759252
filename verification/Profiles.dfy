/** Tenant profiles, the built-in action registry and the deployment's text rules. */
module Profiles {
  import opened Values

  datatype Action = FindCustomer | CreateCase | UpdateCaseFields | CreateReplyDraft | FlagForReview

  function ActionKey(a: Action): string {
    match a
    case FindCustomer => "find_customer"
    case CreateCase => "create_case"
    case UpdateCaseFields => "update_case_fields"
    case CreateReplyDraft => "create_reply_draft"
    case FlagForReview => "flag_for_review"
  }

  function ActionNamed(key: string): (r: Option<Action>)
    ensures r.Some? ==> ActionKey(r.value) == key
    ensures r.None? ==> forall a :: ActionKey(a) != key
  {
    if key == "find_customer" then Some(FindCustomer)
    else if key == "create_case" then Some(CreateCase)
    else if key == "update_case_fields" then Some(UpdateCaseFields)
    else if key == "create_reply_draft" then Some(CreateReplyDraft)
    else if key == "flag_for_review" then Some(FlagForReview)
    else None
  }

  predicate RequiresCompleteFields(a: Action) { a == CreateCase || a == UpdateCaseFields }

  predicate CommitsSideEffect(a: Action) { a != FindCustomer }

  const PENDING_ACTION_VERSION: nat := 1

  datatype FieldType =
    | ShortText | LongText | Email | Phone | Address | DateTime
    | Number | Boolean | SingleSelect | MultiSelect

  datatype FieldDefinition = FieldDefinition(kind: FieldType, options: Option<seq<string>>)

  datatype IntakeType = IntakeType(name: string, required: seq<string>)

  datatype ActionRule = ActionRule(allowed: bool, requiresApproval: bool, executable: bool)

  datatype Profile = Profile(
    intakeTypes: seq<IntakeType>,
    fields: map<string, FieldDefinition>,
    actionPolicy: map<string, ActionRule>,
    alwaysApproval: set<string>)

  /** The first intake type of that name, as the source's generator expression finds it. */
  function IntakeNamed(types: seq<IntakeType>, name: string): (r: Option<IntakeType>)
    ensures r.Some? ==> r.value in types && r.value.name == name
    ensures r.None? ==> forall t <- types :: t.name != name
  {
    if types == [] then None
    else if types[0].name == name then Some(types[0])
    else IntakeNamed(types[1..], name)
  }

  /** Actions the profile marks executable and the registry knows. */
  function RegisteredActions(p: Profile): set<string> {
    set k | k in p.actionPolicy && p.actionPolicy[k].executable && ActionNamed(k).Some?
  }

  /** Actions the profile additionally allows; compilation refuses unknown executable ones. */
  function AvailableActions(p: Profile): set<string> {
    set k | k in p.actionPolicy && p.actionPolicy[k].executable && p.actionPolicy[k].allowed
  }

  /** What the proofs need of a profile: clauses of the profile contract and of its compilation. */
  predicate ValidProfile(p: Profile) {
    && (forall k <- p.actionPolicy :: p.actionPolicy[k].executable ==> ActionNamed(k).Some?)
    && (forall t <- p.intakeTypes :: forall f <- t.required :: f in p.fields)
    && "" !in p.fields
  }

  /** The whole profile contract: at least one intake type, field and action, unique names, options exactly on
      select fields, `send_reply` always for a human, and no reference to anything undeclared. */
  predicate ContractProfile(p: Profile) {
    && ValidProfile(p)
    && p.intakeTypes != [] && p.fields.Keys != {} && p.actionPolicy.Keys != {}
    && (forall i, j :: 0 <= i < j < |p.intakeTypes| ==> p.intakeTypes[i].name != p.intakeTypes[j].name)
    && (forall t <- p.intakeTypes :: NoDuplicates(t.required))
    && (forall f <- p.fields :: OptionsFit(p.fields[f]))
    && "send_reply" in p.alwaysApproval
    && p.alwaysApproval <= p.actionPolicy.Keys
  }

  predicate OptionsFit(d: FieldDefinition) {
    if d.kind == SingleSelect || d.kind == MultiSelect then
      d.options.Some? && d.options.value != [] && NoDuplicates(d.options.value)
    else d.options.None?
  }

  /** Library-defined checks the model leaves uninterpreted. */
  datatype Rules = Rules(
    blank: string -> bool,
    email: string -> bool,
    phone: string -> bool,
    dateTime: string -> bool,
    uuid: string -> Option<Id>,
    safeIdentifier: string -> bool)
}
